/** Without hits SIEVE is a first-in-first-out queue. */
module SieveFifo {
  import opened Basics
  import opened SieveSpec

  datatype Op<K, V> = PutOp(key: K, value: V) | GetOp(key: K) | RemoveOp(key: K) | EvictOp

  datatype Output<K, V> = Evicted(pair: Option<(K, V)>) | Found(value: Option<V>)

  function Step<K(==), V>(s: Sieve<K, V>, op: Op<K, V>): (Sieve<K, V>, Output<K, V>) {
    match op
    case PutOp(key, value) => var (t, e) := Put(s, key, value); (t, Evicted(e))
    case GetOp(key) => var (t, v) := Get(s, key); (t, Found(v))
    case RemoveOp(key) => var (t, v) := Remove(s, key); (t, Found(v))
    case EvictOp => var (t, e) := Evict(s); (t, Evicted(e))
  }

  function Outputs<K(==), V>(s: Sieve<K, V>, ops: seq<Op<K, V>>): seq<Output<K, V>>
    decreases |ops|
  {
    if ops == [] then []
    else
      var (t, out) := Step(s, ops[0]);
      [out] + Outputs(t, ops[1..])
  }

  /** No operation of the run looks up or updates a key that is present. */
  predicate NoHits<K(==), V>(s: Sieve<K, V>, ops: seq<Op<K, V>>)
    decreases |ops|
  {
    ops != [] ==>
      && (ops[0].PutOp? || ops[0].GetOp? ==> !Has(s, ops[0].key))
      && NoHits(Step(s, ops[0]).0, ops[1..])
  }

  /** The reference: a bounded queue of pairs, newest first. */
  datatype Fifo<K, V> = Fifo(capacity: nat, items: seq<(K, V)>)

  function Position<K(==), V>(items: seq<(K, V)>, key: K): (i: nat)
    ensures i <= |items|
  {
    if items == [] || items[0].0 == key then 0 else 1 + Position(items[1..], key)
  }

  function Oldest<K, V>(items: seq<(K, V)>): Option<(K, V)> {
    if items == [] then None else Some(items[|items| - 1])
  }

  function DropOldest<K, V>(items: seq<(K, V)>): seq<(K, V)> {
    if items == [] then [] else items[..|items| - 1]
  }

  function FifoStep<K(==), V>(q: Fifo<K, V>, op: Op<K, V>): (Fifo<K, V>, Output<K, V>) {
    match op
    case PutOp(key, value) =>
      if |q.items| >= q.capacity then (q.(items := [(key, value)] + DropOldest(q.items)), Evicted(Oldest(q.items)))
      else (q.(items := [(key, value)] + q.items), Evicted(None))
    case GetOp(_) => (q, Found(None))
    case RemoveOp(key) =>
      var i := Position(q.items, key);
      if i == |q.items| then (q, Found(None)) else (q.(items := DropAt(q.items, i)), Found(Some(q.items[i].1)))
    case EvictOp => (q.(items := DropOldest(q.items)), Evicted(Oldest(q.items)))
  }

  function FifoOutputs<K(==), V>(q: Fifo<K, V>, ops: seq<Op<K, V>>): seq<Output<K, V>>
    decreases |ops|
  {
    if ops == [] then []
    else
      var (t, out) := FifoStep(q, ops[0]);
      [out] + FifoOutputs(t, ops[1..])
  }

  /** Nothing is visited and the hand is absent or on the oldest entry. */
  predicate Plain<K, V>(s: Sieve<K, V>) {
    && (forall i :: 0 <= i < |s.entries| ==> !s.entries[i].visited)
    && (s.hand.Some? ==> s.hand.value == |s.entries| - 1)
  }

  function Pairs<K, V>(es: seq<Entry<K, V>>): (r: seq<(K, V)>)
    ensures |r| == |es|
  {
    seq(|es|, i requires 0 <= i < |es| => (es[i].key, es[i].value))
  }

  lemma {:induction false} SamePosition<K, V>(es: seq<Entry<K, V>>, key: K)
    ensures Position(Pairs(es), key) == Find(es, key)
  {
    if es != [] && es[0].key != key {
      assert Pairs(es)[1..] == Pairs(es[1..]);
      SamePosition(es[1..], key);
    }
  }

  lemma PlainEvict<K, V>(s: Sieve<K, V>)
    requires Plain(s)
    ensures Plain(Evict(s).0) && Evict(s).0.capacity == s.capacity
    ensures Pairs(Evict(s).0.entries) == DropOldest(Pairs(s.entries))
    ensures Evict(s).1 == Oldest(Pairs(s.entries))
  {
    if s.entries != [] {
      EvictDoes(s);
      assert Victim(s.entries, Start(s)) == |s.entries| - 1;
    }
  }

  lemma PlainPush<K, V>(s: Sieve<K, V>, key: K, value: V)
    requires Plain(s)
    ensures Plain(PushHead(s, key, value)) && PushHead(s, key, value).capacity == s.capacity
    ensures Pairs(PushHead(s, key, value).entries) == [(key, value)] + Pairs(s.entries)
  {
  }

  lemma PlainUnlink<K, V>(s: Sieve<K, V>, i: nat)
    requires Plain(s) && i < |s.entries|
    ensures Plain(Unlink(s, i)) && Unlink(s, i).capacity == s.capacity
    ensures Pairs(Unlink(s, i).entries) == DropAt(Pairs(s.entries), i)
  {
  }

  lemma StepAgrees<K, V>(s: Sieve<K, V>, op: Op<K, V>)
    requires Plain(s) && (op.PutOp? || op.GetOp? ==> !Has(s, op.key))
    ensures
      var t := Step(s, op).0;
      Plain(t) && FifoStep(Fifo(s.capacity, Pairs(s.entries)), op)
        == (Fifo(t.capacity, Pairs(t.entries)), Step(s, op).1)
  {
    match op
    case PutOp(key, value) =>
      if |s.entries| >= s.capacity {
        PlainEvict(s);
        PlainPush(Evict(s).0, key, value);
      } else {
        PlainPush(s, key, value);
      }
    case GetOp(_) =>
    case RemoveOp(key) =>
      SamePosition(s.entries, key);
      if Has(s, key) {
        PlainUnlink(s, Find(s.entries, key));
      }
    case EvictOp => PlainEvict(s);
  }

  /** In every run without hits, also with removals and manual evictions, SIEVE
      answers exactly like the queue: it evicts in insertion order. */
  lemma {:induction false} SieveIsFifo<K, V>(s: Sieve<K, V>, ops: seq<Op<K, V>>)
    requires Plain(s) && NoHits(s, ops)
    ensures Outputs(s, ops) == FifoOutputs(Fifo(s.capacity, Pairs(s.entries)), ops)
    decreases |ops|
  {
    if ops != [] {
      StepAgrees(s, ops[0]);
      SieveIsFifo(Step(s, ops[0]).0, ops[1..]);
    }
  }

  /** A single hit is enough to break the order. */
  lemma HitBreaksFifo()
    ensures
      var s := Step(Step(Empty<int, int>(2), PutOp(1, 1)).0, PutOp(2, 2)).0;
      && Step(s, EvictOp).1 == Evicted(Some((1, 1)))
      && Step(Step(s, GetOp(1)).0, EvictOp).1 == Evicted(Some((2, 2)))
  {
    var s1 := Step(Empty<int, int>(2), PutOp(1, 1)).0;
    assert s1 == Sieve(2, [Entry(1, 1, false)], None);
    var s2 := Step(s1, PutOp(2, 2)).0;
    assert s2 == Sieve(2, [Entry(2, 2, false), Entry(1, 1, false)], None);
    var s3 := Step(s2, GetOp(1)).0;
    assert s3 == Sieve(2, [Entry(2, 2, false), Entry(1, 1, true)], None);
    assert Victim(s3.entries, 1) == 0;
  }
}
