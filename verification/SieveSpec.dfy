/** SIEVE on values: the entries from newest to oldest, each with its visited
    bit, and where the hand points. */
module SieveSpec {
  import opened Basics

  datatype Entry<K, V> = Entry(key: K, value: V, visited: bool)

  datatype Sieve<K, V> = Sieve(capacity: nat, entries: seq<Entry<K, V>>, hand: Option<nat>)

  ghost predicate KeysDiffer<K, V>(es: seq<Entry<K, V>>, i: nat, j: nat)
    requires i < j < |es|
  {
    es[i].key != es[j].key
  }

  /** No key occurs twice. */
  ghost predicate Keyed<K, V>(es: seq<Entry<K, V>>) {
    forall i, j :: 0 <= i < j < |es| ==> KeysDiffer(es, i, j)
  }

  lemma KeyedAt<K, V>(es: seq<Entry<K, V>>, i: nat)
    requires Keyed(es) && i < |es|
    ensures forall j :: 0 <= j < |es| && es[j].key == es[i].key ==> j == i
  {
    forall j | 0 <= j < |es| && es[j].key == es[i].key ensures j == i {
      assert if j < i then KeysDiffer(es, j, i) else i < j ==> KeysDiffer(es, i, j);
    }
  }

  /** Entries with the keys of other entries, in order, are as distinct as those. */
  lemma KeyedLike<K, V>(es: seq<Entry<K, V>>, rest: seq<Entry<K, V>>, place: seq<nat>)
    requires Keyed(es) && |place| == |rest|
    requires forall i :: 0 <= i < |rest| ==> place[i] < |es| && rest[i].key == es[place[i]].key
    requires forall i, j :: 0 <= i < j < |rest| ==> place[i] < place[j]
    ensures Keyed(rest)
  {
    forall i, j | 0 <= i < j < |rest| ensures KeysDiffer(rest, i, j) {
      assert KeysDiffer(es, place[i], place[j]);
    }
  }

  ghost predicate Valid<K(!new), V(!new)>(s: Sieve<K, V>) {
    && 1 <= s.capacity && |s.entries| <= s.capacity
    && Keyed(s.entries)
    && (s.hand.Some? ==> s.hand.value < |s.entries|)
  }

  function Empty<K, V>(capacity: nat): Sieve<K, V> {
    Sieve(capacity, [], None)
  }

  /** Position of a key, or the number of entries if it is absent. */
  function Find<K(==), V>(es: seq<Entry<K, V>>, key: K): (i: nat)
    ensures i <= |es|
    ensures i < |es| ==> es[i].key == key
    ensures forall j :: 0 <= j < i ==> es[j].key != key
  {
    if es == [] || es[0].key == key then 0 else 1 + Find(es[1..], key)
  }

  predicate Has<K(==), V>(s: Sieve<K, V>, key: K) {
    Find(s.entries, key) < |s.entries|
  }

  function Get<K(==), V>(s: Sieve<K, V>, key: K): (Sieve<K, V>, Option<V>) {
    var i := Find(s.entries, key);
    if i == |s.entries| then (s, None)
    else (s.(entries := s.entries[i := s.entries[i].(visited := true)]), Some(s.entries[i].value))
  }

  function PushHead<K, V>(s: Sieve<K, V>, key: K, value: V): Sieve<K, V> {
    s.(entries := [Entry(key, value, false)] + s.entries, hand := if s.hand.Some? then Some(s.hand.value + 1) else None)
  }

  function Put<K(==), V>(s: Sieve<K, V>, key: K, value: V): (Sieve<K, V>, Option<(K, V)>) {
    var i := Find(s.entries, key);
    if i < |s.entries| then
      (s.(entries := s.entries[i := Entry(key, value, true)]), None)
    else if |s.entries| >= s.capacity then
      var (room, evicted) := Evict(s);
      (PushHead(room, key, value), evicted)
    else (PushHead(s, key, value), None)
  }

  /** A hand on the unlinked entry moves to the next newer one. */
  function HandAfter(hand: Option<nat>, i: nat): Option<nat> {
    match hand
    case None => None
    case Some(h) => if h > i || (h == i && i > 0) then Some(h - 1) else if h == i then None else Some(h)
  }

  function Unlink<K, V>(s: Sieve<K, V>, i: nat): Sieve<K, V>
    requires i < |s.entries|
  {
    s.(entries := DropAt(s.entries, i), hand := HandAfter(s.hand, i))
  }

  function Remove<K(==), V>(s: Sieve<K, V>, key: K): (Sieve<K, V>, Option<V>) {
    var i := Find(s.entries, key);
    if i == |s.entries| then (s, None) else (Unlink(s, i), Some(s.entries[i].value))
  }

  // ----- eviction -----

  /** The first unvisited entry from `i` towards the head, or -1. */
  function ScanDown<K, V>(es: seq<Entry<K, V>>, i: int): (v: int)
    requires -1 <= i < |es|
    ensures -1 <= v <= i
    ensures 0 <= v ==> !es[v].visited
    ensures forall j :: v < j <= i ==> es[j].visited
    decreases i + 1
  {
    if i < 0 then -1 else if !es[i].visited then i else ScanDown(es, i - 1)
  }

  function Start<K, V>(s: Sieve<K, V>): (i: nat)
    requires s.entries != []
    ensures i < |s.entries|
  {
    if s.hand.Some? && s.hand.value < |s.entries| then s.hand.value else |s.entries| - 1
  }

  function Victim<K, V>(es: seq<Entry<K, V>>, start: nat): (v: nat)
    requires start < |es|
    ensures v < |es|
  {
    var near := ScanDown(es, start);
    if near >= 0 then near
    else
      var far := ScanDown(es, |es| - 1);
      if far >= 0 then far else start
  }

  /** Steps from `start` to `i` when walking towards the head and wrapping to the tail. */
  function Distance(n: nat, start: nat, i: nat): nat
    requires start < n && i < n
  {
    if i <= start then start - i else start + n - i
  }

  predicate AllVisited<K, V>(es: seq<Entry<K, V>>) {
    forall i :: 0 <= i < |es| ==> es[i].visited
  }

  /** Whether the walk to victim `v` passed over entry `i`. */
  predicate PassedOver<K, V>(es: seq<Entry<K, V>>, start: nat, v: nat, i: nat)
    requires start < |es| && v < |es| && i < |es|
  {
    es[v].visited || Distance(|es|, start, i) < Distance(|es|, start, v)
  }

  function Swept<K, V>(es: seq<Entry<K, V>>, start: nat, v: nat): (r: seq<Entry<K, V>>)
    requires start < |es| && v < |es|
    ensures |r| == |es|
  {
    seq(|es|, i requires 0 <= i < |es| =>
      es[i].(visited := es[i].visited && !PassedOver(es, start, v, i)))
  }

  function Evict<K, V>(s: Sieve<K, V>): (Sieve<K, V>, Option<(K, V)>) {
    if s.entries == [] then (s, None)
    else
      var start := Start(s);
      var v := Victim(s.entries, start);
      var swept := Swept(s.entries, start, v);
      (s.(entries := DropAt(swept, v), hand := if v == 0 then None else Some(v - 1)),
       Some((s.entries[v].key, s.entries[v].value)))
  }

  /** The first unvisited entry in circular order from where the walk starts, or the
      starting entry if every entry is visited. */
  lemma VictimFrom<K, V>(es: seq<Entry<K, V>>, start: nat, v: nat)
    requires start < |es|
    ensures v == Victim(es, start) <==>
      && v < |es|
      && if AllVisited(es) then v == start
         else
           && !es[v].visited
           && forall j :: 0 <= j < |es| && Distance(|es|, start, j) < Distance(|es|, start, v) ==> es[j].visited
  {
    var near, far := ScanDown(es, start), ScanDown(es, |es| - 1);
    var w := Victim(es, start);
    if near >= 0 {
      assert !es[near].visited;
    } else if far >= 0 {
      assert !es[far].visited;
    }
    if v < |es| && v != w && !AllVisited(es) && !es[v].visited {
      assert !es[w].visited;
      assert Distance(|es|, start, v) < Distance(|es|, start, w) || Distance(|es|, start, w) < Distance(|es|, start, v);
    }
  }

  lemma EvictDoes<K, V>(s: Sieve<K, V>)
    requires s.entries != []
    ensures
      var start := Start(s);
      var v := Victim(s.entries, start);
      var t := Evict(s).0;
      && |t.entries| == |s.entries| - 1 && t.capacity == s.capacity
      && (s.entries[v].visited ==> AllVisited(s.entries))
      && Evict(s).1 == Some((s.entries[v].key, s.entries[v].value))
      && (forall i :: 0 <= i < |t.entries| ==>
            var e, was := t.entries[i], s.entries[Origin(v, i)];
            e.key == was.key && e.value == was.value
            && (e.visited <==>
                  (was.visited && !AllVisited(s.entries)
                   && Distance(|s.entries|, start, v) < Distance(|s.entries|, start, Origin(v, i)))))
      && (if v == 0 then t.hand == None else t.hand == Some(v - 1) && t.entries[v - 1].key == s.entries[v - 1].key)
  {
    var start := Start(s);
    var v := Victim(s.entries, start);
    var t := Evict(s).0;
    VictimFrom(s.entries, start, v);
    assert t.entries == DropAt(Swept(s.entries, start, v), v);
  }

  /** The victim in closed form: the walk starts where the hand is, or at the tail when it
      is nowhere, goes towards the head and then on from the tail, and ends at the first
      unvisited entry it meets, or where it started if every entry is visited. */
  lemma VictimExactly<K(!new), V(!new)>(s: Sieve<K, V>, v: nat)
    requires Valid(s) && v < |s.entries|
    ensures var es := s.entries;
      var start := if s.hand.Some? then s.hand.value else |es| - 1;
      Evict(s).1 == Some((es[v].key, es[v].value)) <==>
        if forall j :: 0 <= j < |es| ==> es[j].visited then v == start
        else
          && !es[v].visited
          && forall j :: 0 <= j < |es| && (if v <= start then v < j <= start else j <= start || v < j) ==> es[j].visited
  {
    var es := s.entries;
    var start := if s.hand.Some? then s.hand.value else |es| - 1;
    VictimFrom(es, start, v);
    KeyedAt(es, v);
    assert Evict(s).1 == Some((es[Victim(es, start)].key, es[Victim(es, start)].value));
    assert AllVisited(es) <==> forall j :: 0 <= j < |es| ==> es[j].visited;
  }

  /** In particular the entry under the hand goes if it is unvisited: a later eviction
      goes on where the one before it stopped. */
  lemma HandDecides<K(!new), V(!new)>(s: Sieve<K, V>)
    requires Valid(s) && s.entries != []
    ensures var start := if s.hand.Some? then s.hand.value else |s.entries| - 1;
      !s.entries[start].visited ==> Evict(s).1 == Some((s.entries[start].key, s.entries[start].value))
  {
    VictimExactly(s, if s.hand.Some? then s.hand.value else |s.entries| - 1);
  }

  /** Second chances: a visited entry is evicted only if all are visited; the
      entries that survive keep key, value and order; a survivor keeps its bit
      exactly if the walk did not pass over it; the hand is left on the victim's
      newer neighbour. */
  lemma EvictEffect<K(!new), V(!new)>(s: Sieve<K, V>) returns (v: nat)
    requires Valid(s) && s.entries != []
    ensures v < |s.entries| && Evict(s).1 == Some((s.entries[v].key, s.entries[v].value))
    ensures s.entries[v].visited ==> forall j :: 0 <= j < |s.entries| ==> s.entries[j].visited
    ensures
      var start := if s.hand.Some? then s.hand.value else |s.entries| - 1;
      var t := Evict(s).0;
      && |t.entries| == |s.entries| - 1 && t.capacity == s.capacity
      && (forall i :: 0 <= i < |t.entries| ==>
            var j := if i < v then i else i + 1;
            var e, was := t.entries[i], s.entries[j];
            e.key == was.key && e.value == was.value
            && (e.visited <==>
                  (was.visited && !s.entries[v].visited
                   && !(if v <= start then v < j <= start else j <= start || v < j))))
      && HandKey(t) == if v == 0 then None else Some(s.entries[v - 1].key)
  {
    v := Victim(s.entries, Start(s));
    EvictDoes(s);
    if AllVisited(s.entries) {
      assert s.entries[v].visited;
    }
  }

  // ----- what the other operations do to order, bits and hand -----

  /** The key under the hand. */
  function HandKey<K, V>(s: Sieve<K, V>): Option<K> {
    if s.hand.Some? && s.hand.value < |s.entries| then Some(s.entries[s.hand.value].key) else None
  }

  /** Only the entry at `i` is different. */
  ghost predicate OnlyEntry<K, V>(s: Sieve<K, V>, t: Sieve<K, V>, i: nat, e: Entry<K, V>) {
    && |t.entries| == |s.entries| && i < |s.entries| && t.entries[i] == e
    && (forall j :: 0 <= j < |s.entries| && j != i ==> t.entries[j] == s.entries[j])
    && t.hand == s.hand && t.capacity == s.capacity
  }

  /** The entry is new at the head; the others and the hand stay as they were. */
  ghost predicate Pushed<K, V>(s: Sieve<K, V>, t: Sieve<K, V>, e: Entry<K, V>) {
    && |t.entries| == |s.entries| + 1 && t.entries[0] == e
    && (forall j :: 0 <= j < |s.entries| ==> t.entries[j + 1] == s.entries[j])
    && HandKey(t) == HandKey(s) && t.capacity == s.capacity
  }

  /** A hit and an update mark their entry, and that is all they do besides setting the
      value: nothing moves. */
  lemma HitEffect<K(!new), V(!new)>(s: Sieve<K, V>, i: nat, value: V)
    requires Valid(s) && i < |s.entries|
    ensures var e := s.entries[i];
      && OnlyEntry(s, Get(s, e.key).0, i, Entry(e.key, e.value, true)) && Get(s, e.key).1 == Some(e.value)
      && OnlyEntry(s, Put(s, e.key, value).0, i, Entry(e.key, value, true)) && Put(s, e.key, value).1 == None
  {
    KeyedAt(s.entries, i);
  }

  /** A key that is not there: a lookup does nothing, and an insertion puts an unmarked
      entry at the head, after an eviction if the cache is full. */
  lemma MissEffect<K(!new), V(!new)>(s: Sieve<K, V>, key: K, value: V)
    requires Valid(s) && forall i :: 0 <= i < |s.entries| ==> s.entries[i].key != key
    ensures Get(s, key) == (s, None) && Remove(s, key) == (s, None)
    ensures var (t, out) := Put(s, key, value);
      if |s.entries| < s.capacity then out == None && Pushed(s, t, Entry(key, value, false))
      else out == Evict(s).1 && Pushed(Evict(s).0, t, Entry(key, value, false))
  {
    EvictKeepsValid(s);
  }

  /** A removal takes out its entry; the hand stays on its key, or moves to the newer
      neighbour when it was on the entry, or nowhere when there is none. */
  lemma RemoveEffect<K(!new), V(!new)>(s: Sieve<K, V>, i: nat)
    requires Valid(s) && i < |s.entries|
    ensures var (t, out) := Remove(s, s.entries[i].key);
      && out == Some(s.entries[i].value) && |t.entries| == |s.entries| - 1 && t.capacity == s.capacity
      && (forall j :: 0 <= j < |t.entries| ==> t.entries[j] == s.entries[if j < i then j else j + 1])
      && HandKey(t) ==
        if HandKey(s) != Some(s.entries[i].key) then HandKey(s)
        else if i > 0 then Some(s.entries[i - 1].key) else None
  {
    KeyedAt(s.entries, i);
    if s.hand.Some? {
      KeyedAt(s.entries, s.hand.value);
    }
  }

  lemma EvictKeepsValid<K(!new), V(!new)>(s: Sieve<K, V>)
    requires Valid(s)
    ensures Valid(Evict(s).0)
    ensures s.entries != [] ==> |Evict(s).0.entries| == |s.entries| - 1
  {
    if s.entries != [] {
      EvictDoes(s);
      var v := Victim(s.entries, Start(s));
      KeyedLike(s.entries, Evict(s).0.entries, seq(|s.entries| - 1, i requires 0 <= i => Origin(v, i)));
    }
  }

  /** Every operation keeps keys distinct, the size within capacity and the hand inside. */
  lemma OperationsKeepValid<K(!new), V(!new)>(s: Sieve<K, V>, key: K, value: V)
    requires Valid(s)
    ensures Valid(Get(s, key).0) && Valid(Put(s, key, value).0) && Valid(Remove(s, key).0) && Valid(Evict(s).0)
  {
    EvictKeepsValid(s);
    GetKeepsValid(s, key);
    PutKeepsValid(s, key, value);
    RemoveKeepsValid(s, key);
  }

  lemma GetKeepsValid<K(!new), V(!new)>(s: Sieve<K, V>, key: K)
    requires Valid(s)
    ensures Valid(Get(s, key).0)
  {
    KeyedLike(s.entries, Get(s, key).0.entries, seq(|s.entries|, i => i));
  }

  lemma PutKeepsValid<K(!new), V(!new)>(s: Sieve<K, V>, key: K, value: V)
    requires Valid(s)
    ensures Valid(Put(s, key, value).0)
  {
    var i := Find(s.entries, key);
    if i < |s.entries| {
      KeyedLike(s.entries, Put(s, key, value).0.entries, seq(|s.entries|, i => i));
    } else if |s.entries| >= s.capacity {
      EvictKeepsValid(s);
      EvictDoes(s);
      PushHeadKeepsValid(Evict(s).0, key, value);
    } else {
      PushHeadKeepsValid(s, key, value);
    }
  }

  lemma PushHeadKeepsValid<K(!new), V(!new)>(s: Sieve<K, V>, key: K, value: V)
    requires Valid(s) && |s.entries| < s.capacity && forall i :: 0 <= i < |s.entries| ==> s.entries[i].key != key
    ensures Valid(PushHead(s, key, value))
  {
    var more := PushHead(s, key, value).entries;
    forall i, j | 0 <= i < j < |more| ensures KeysDiffer(more, i, j) {
      assert i > 0 ==> KeysDiffer(s.entries, i - 1, j - 1);
    }
  }

  lemma RemoveKeepsValid<K(!new), V(!new)>(s: Sieve<K, V>, key: K)
    requires Valid(s)
    ensures Valid(Remove(s, key).0)
  {
    var v := Find(s.entries, key);
    if v < |s.entries| {
      KeyedLike(s.entries, DropAt(s.entries, v), seq(|s.entries| - 1, i requires 0 <= i => Origin(v, i)));
    }
  }
}
