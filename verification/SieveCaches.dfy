/** The cache as it is built: a doubly linked list from the newest node to the
    oldest, a map from keys to nodes, and a hand that survives evictions. Every
    operation refines its counterpart on values in module SieveSpec. */
module SieveCaches {
  import opened Basics
  import S = SieveSpec

  class Node<K, V> {
    const key: K
    var value: V
    var visited: bool
    var prev: Node?<K, V>
    var next: Node?<K, V>

    constructor (key: K, value: V)
      ensures this.key == key && this.value == value && !visited && prev == null && next == null
    {
      this.key, this.value, visited, prev, next := key, value, false, null, null;
    }
  }

  /** The nodes hold these entries. */
  ghost predicate Shows<K, V>(ns: seq<Node<K, V>>, es: seq<S.Entry<K, V>>)
    reads ns`value, ns`visited
  {
    && |es| == |ns|
    && forall i :: 0 <= i < |ns| ==> es[i] == S.Entry(ns[i].key, ns[i].value, ns[i].visited)
  }

  lemma ShowsRest<K, V>(ns: seq<Node<K, V>>, es: seq<S.Entry<K, V>>, i: nat)
    requires Shows(ns, es) && i < |ns|
    ensures Shows(DropAt(ns, i), DropAt(es, i))
  {
  }

  lemma ShowsMore<K, V>(node: Node<K, V>, ns: seq<Node<K, V>>, es: seq<S.Entry<K, V>>)
    requires Shows(ns, es)
    ensures Shows([node] + ns, [S.Entry(node.key, node.value, node.visited)] + es)
  {
  }

  ghost predicate Differ<T>(s: seq<T>, i: nat, j: nat)
    requires i < j < |s|
  {
    s[i] != s[j]
  }

  ghost predicate NoNodeTwice<T>(s: seq<T>) {
    forall i, j :: 0 <= i < j < |s| ==> Differ(s, i, j)
  }

  lemma Apart<T>(s: seq<T>, i: nat)
    requires NoNodeTwice(s) && i < |s|
    ensures forall j :: 0 <= j < |s| && j != i ==> s[j] != s[i]
  {
    forall j | 0 <= j < |s| && j != i ensures s[j] != s[i] {
      assert if j < i then Differ(s, j, i) else Differ(s, i, j);
    }
  }

  lemma RestDiffers<T>(s: seq<T>, i: nat)
    requires NoNodeTwice(s) && i < |s|
    ensures NoNodeTwice(DropAt(s, i))
  {
    var r := DropAt(s, i);
    forall j, k | 0 <= j < k < |r| ensures Differ(r, j, k) {
      assert Differ(s, Origin(i, j), Origin(i, k));
    }
  }

  lemma RestIn<T>(s: seq<T>, i: nat)
    requires i < |s|
    ensures forall x :: x in DropAt(s, i) ==> x in s
  {
    forall x | x in DropAt(s, i) ensures x in s {
      var j :| 0 <= j < |s| - 1 && DropAt(s, i)[j] == x;
      assert s[Origin(i, j)] == x;
    }
  }

  lemma MoreDiffers<T>(x: T, s: seq<T>)
    requires NoNodeTwice(s) && x !in s
    ensures NoNodeTwice([x] + s)
  {
    forall j: nat, k: nat | j < k < |s| + 1 ensures Differ([x] + s, j, k) {
      assert j > 0 ==> Differ(s, j - 1, k - 1);
    }
  }

  /** Two neighbours of the list point at each other. */
  ghost predicate Joined<K, V>(ns: seq<Node<K, V>>, i: nat)
    requires i < |ns| - 1
    reads ns`prev, ns`next
  {
    ns[i].next == ns[i + 1] && ns[i + 1].prev == ns[i]
  }

  ghost predicate IndexedBy<K, V>(nodes: seq<Node<K, V>>, index: map<K, Node<K, V>>) {
    && (forall i :: 0 <= i < |nodes| ==> nodes[i].key in index && index[nodes[i].key] == nodes[i])
    && (forall k :: k in index ==> index[k] in nodes && index[k].key == k)
  }

  lemma UnindexOne<K, V>(nodes: seq<Node<K, V>>, index: map<K, Node<K, V>>, i: nat)
    requires IndexedBy(nodes, index) && i < |nodes| && NoNodeTwice(nodes)
    ensures IndexedBy(DropAt(nodes, i), index - {nodes[i].key})
  {
    var rest := DropAt(nodes, i);
    Apart(nodes, i);
    forall j | 0 <= j < |rest|
      ensures rest[j].key in index && rest[j].key != nodes[i].key && index[rest[j].key] == rest[j]
    {
      assert rest[j] == nodes[Origin(i, j)];
    }
    forall k | k in index && k != nodes[i].key ensures index[k] in rest {
      var j :| 0 <= j < |nodes| && nodes[j] == index[k];
      assert rest[if j < i then j else j - 1] == nodes[j];
    }
  }

  class SieveCache<K(==, !new), V(!new)> {
    const maxSize: nat
    var index: map<K, Node<K, V>>
    var head: Node?<K, V>
    var tail: Node?<K, V>
    var hand: Node?<K, V>
    ghost var nodes: seq<Node<K, V>>         // the list, from head to tail
    ghost var entries: seq<S.Entry<K, V>>    // what its nodes hold
    ghost var handAt: Option<nat>            // where the hand is in it

    /** The list is acyclic, `prev` and `next` are inverse, and head and tail are
        its ends. */
    ghost predicate Chained()
      reads `nodes, `head, `tail, nodes`prev, nodes`next
    {
      && NoNodeTwice(nodes)
      && head == (if nodes == [] then null else nodes[0])
      && tail == (if nodes == [] then null else nodes[|nodes| - 1])
      && (nodes != [] ==> nodes[0].prev == null && nodes[|nodes| - 1].next == null)
      && forall i :: 0 <= i < |nodes| - 1 ==> Joined(nodes, i)
    }

    /** The hand is nowhere or on the list. */
    ghost predicate HandOk()
      reads `nodes, `hand, `handAt
    {
      && (handAt.Some? ==> handAt.value < |nodes|)
      && hand == (if handAt.Some? then nodes[handAt.value] else null)
    }

    ghost predicate Faithful()
      reads `nodes, `entries, nodes`value, nodes`visited
    {
      Shows(nodes, entries)
    }

    /** The map holds exactly the nodes of the list, each under its own key. */
    ghost predicate Indexed()
      reads `nodes, `index
    {
      IndexedBy(nodes, index)
    }

    ghost predicate Linked()
      reads `nodes, `entries, `head, `tail, `hand, `handAt, nodes
    {
      Chained() && HandOk() && Faithful()
    }

    ghost predicate Valid()
      reads this, nodes
    {
      1 <= maxSize && |nodes| <= maxSize && Linked() && Indexed()
    }

    ghost function View(): S.Sieve<K, V>
      reads `entries, `handAt
    {
      S.Sieve(maxSize, entries, handAt)
    }

    constructor (maxSize: nat)
      requires maxSize >= 1
      ensures Valid() && this.maxSize == maxSize && nodes == [] && View() == S.Empty(maxSize)
    {
      this.maxSize := maxSize;
      index, head, tail, hand, nodes, entries, handAt := map[], null, null, null, [], [], None;
    }

    /** The number of map entries is the number of list nodes. */
    lemma SizeIsLength()
      requires Linked() && Indexed()
      ensures |index| == |nodes|
    {
      var keys := KeyList();
      forall i, j | 0 <= i < j < |keys| ensures keys[i] != keys[j] {
        assert Differ(nodes, i, j);
        assert index[nodes[i].key] == nodes[i] && index[nodes[j].key] == nodes[j];
      }
      DistinctCount(keys);
      forall k | k in index ensures k in keys {
        var i :| 0 <= i < |nodes| && nodes[i] == index[k];
        assert keys[i] == k;
      }
      assert index.Keys == Elements(keys);
    }

    ghost function KeyList(): (keys: seq<K>)
      reads `nodes
      ensures |keys| == |nodes| && forall i :: 0 <= i < |nodes| ==> keys[i] == nodes[i].key
    {
      var ns := nodes;
      seq(|ns|, i requires 0 <= i < |ns| => ns[i].key)
    }

    lemma FindNode(key: K)
      requires Faithful() && Indexed()
      ensures key in index ==> S.Find(entries, key) < |nodes| && nodes[S.Find(entries, key)] == index[key]
      ensures key !in index ==> S.Find(entries, key) == |nodes|
    {
      var i := S.Find(entries, key);
      if key in index {
        var j :| 0 <= j < |nodes| && nodes[j] == index[key];
        assert entries[j].key == key;
      }
      if i < |nodes| {
        assert entries[i].key == nodes[i].key;
      }
    }

    /** The abstract state of a valid cache is valid. */
    lemma ViewValid()
      requires Valid()
      ensures S.Valid(View())
    {
      forall i, j | 0 <= i < j < |nodes| ensures S.KeysDiffer(entries, i, j) {
        assert Differ(nodes, i, j);
        assert index[nodes[i].key] == nodes[i] && index[nodes[j].key] == nodes[j];
      }
    }

    method Len() returns (n: nat)
      requires Valid()
      ensures n == |View().entries|
    {
      SizeIsLength();
      n := |index|;
    }

    method Contains(key: K) returns (b: bool)
      requires Valid()
      ensures b == S.Has(View(), key) == (key in index)
    {
      FindNode(key);
      b := key in index;
    }

    method Get(key: K) returns (value: Option<V>)
      requires Valid()
      modifies `entries, nodes`value, nodes`visited
      ensures Valid() && nodes == old(nodes) && index == old(index)
      ensures (View(), value) == S.Get(old(View()), key)
    {
      FindNode(key);
      if key !in index {
        return None;
      }
      var node := index[key];
      SetNode(node, node.value, true, S.Find(entries, key));
      return Some(node.value);
    }

    /** Overwrites what the `i`-th node holds. */
    method SetNode(node: Node<K, V>, value: V, visited: bool, ghost i: nat)
      requires Chained() && Faithful() && i < |nodes| && nodes[i] == node
      modifies `entries, node`value, node`visited
      ensures Chained() && Faithful()
      ensures entries == old(entries)[i := S.Entry(node.key, value, visited)]
      ensures node.value == value
    {
      Apart(nodes, i);
      node.value := value;
      node.visited := visited;
      entries := entries[i := S.Entry(node.key, value, visited)];
    }

    method PushHead(node: Node<K, V>)
      requires Linked() && node !in nodes && !node.visited
      modifies `head, `tail, `nodes, `entries, `handAt, node`prev, node`next, nodes`prev
      ensures Linked() && nodes == [node] + old(nodes)
      ensures entries == [S.Entry(node.key, node.value, false)] + old(entries)
      ensures handAt == if old(handAt).Some? then Some(old(handAt).value + 1) else None
    {
      ShowsMore(node, nodes, entries);
      LinkHead(node);
      handAt := if handAt.Some? then Some(handAt.value + 1) else None;
      entries := [S.Entry(node.key, node.value, false)] + entries;
    }

    method LinkHead(node: Node<K, V>)
      requires Chained() && node !in nodes
      modifies `head, `tail, `nodes, node`prev, node`next, nodes`prev
      ensures Chained() && nodes == [node] + old(nodes)
    {
      ghost var ns := nodes;
      if ns != [] {
        Apart(ns, 0);
      }
      node.prev := null;
      node.next := head;
      if head != null {
        head.prev := node;
      }
      head := node;
      if tail == null {
        tail := node;
      }
      nodes := [node] + nodes;
      MoreDiffers(node, ns);
      forall i | 0 <= i < |nodes| - 1 ensures Joined(nodes, i) {
        assert i > 0 ==> old(Joined(nodes, i - 1));
      }
    }

    /** Unlinks the `i`-th node; a hand on it moves to its newer neighbour. */
    method Unlink(node: Node<K, V>, ghost i: nat)
      requires Linked() && i < |nodes| && nodes[i] == node
      modifies `head, `tail, `hand, `nodes, `entries, `handAt, nodes`prev, nodes`next
      ensures Linked() && nodes == DropAt(old(nodes), i)
      ensures entries == DropAt(old(entries), i) && handAt == S.HandAfter(old(handAt), i)
    {
      ShowsRest(nodes, entries, i);
      MoveHandOff(node, i);
      Splice(node, i);
      entries := DropAt(entries, i);
    }

    method MoveHandOff(node: Node<K, V>, ghost i: nat)
      requires Chained() && HandOk() && i < |nodes| && nodes[i] == node
      modifies `hand, `handAt
      ensures handAt == S.HandAfter(old(handAt), i)
      ensures handAt.Some? ==> handAt.value < |nodes| - 1
      ensures hand == if handAt.Some? then DropAt(nodes, i)[handAt.value] else null
    {
      assert i > 0 ==> Joined(nodes, i - 1);
      if handAt.Some? {
        Apart(nodes, handAt.value);
      }
      if hand == node {
        hand := node.prev;
      }
      handAt := S.HandAfter(handAt, i);
    }

    /** The pointer surgery. */
    method Splice(node: Node<K, V>, ghost i: nat)
      requires Chained() && i < |nodes| && nodes[i] == node
      modifies `head, `tail, `nodes, nodes`prev, nodes`next
      ensures Chained() && nodes == DropAt(old(nodes), i)
    {
      Bridge(node, i);
      RestDiffers(nodes, i);
      nodes := DropAt(nodes, i);
      forall j | 0 <= j < |nodes| - 1 ensures Joined(nodes, j) {
        if j != i - 1 {
          assert old(Joined(nodes, Origin(i, j)));
        }
      }
    }

    method Bridge(node: Node<K, V>, ghost i: nat)
      requires Chained() && i < |nodes| && nodes[i] == node
      modifies `head, `tail, nodes`prev, nodes`next
      ensures head == if i > 0 then old(head) else if |nodes| == 1 then null else nodes[1]
      ensures tail == if i < |nodes| - 1 then old(tail) else if |nodes| == 1 then null else nodes[i - 1]
      ensures forall j {:trigger nodes[j].prev} :: 0 <= j < |nodes| && j != i ==>
        nodes[j].prev == if j != i + 1 then old(nodes[j].prev) else if i == 0 then null else nodes[i - 1]
      ensures forall j {:trigger nodes[j].next} :: 0 <= j < |nodes| && j != i ==>
        nodes[j].next == if j != i - 1 then old(nodes[j].next) else if i == |nodes| - 1 then null else nodes[i + 1]
    {
      Apart(nodes, i);
      if i > 0 {
        assert Joined(nodes, i - 1);
        Apart(nodes, i - 1);
      }
      if i < |nodes| - 1 {
        assert Joined(nodes, i);
        Apart(nodes, i + 1);
      }
      if node.prev != null {
        node.prev.next := node.next;
      } else {
        head := node.next;
      }
      if node.next != null {
        node.next.prev := node.prev;
      } else {
        tail := node.prev;
      }
      node.prev := null;
      node.next := null;
    }

    /** Deletes the map entry of the `i`-th of the nodes it knows. */
    method DropKey(key: K, ghost ns: seq<Node<K, V>>, ghost i: nat)
      requires IndexedBy(ns, index) && NoNodeTwice(ns) && i < |ns| && ns[i].key == key
      modifies `index
      ensures IndexedBy(DropAt(ns, i), index)
    {
      UnindexOne(ns, index, i);
      index := index - {key};
    }

    method Remove(key: K) returns (value: Option<V>)
      requires Valid()
      modifies this, nodes
      ensures Valid() && forall n :: n in nodes ==> n in old(nodes)
      ensures (View(), value) == S.Remove(old(View()), key)
    {
      FindNode(key);
      if key !in index {
        return None;
      }
      var node := index[key];
      ghost var i := S.Find(entries, key);
      RestIn(nodes, i);
      DropKey(key, nodes, i);
      Unlink(node, i);
      return Some(node.value);
    }

    /** Takes the victim out and leaves the hand on its newer neighbour. */
    method Expel(victim: Node<K, V>, ghost at: nat) returns (pair: (K, V))
      requires Linked() && Indexed() && at < |nodes| && nodes[at] == victim
      modifies `head, `tail, `hand, `index, `nodes, `entries, `handAt, nodes`prev, nodes`next
      ensures Linked() && Indexed() && nodes == DropAt(old(nodes), at)
      ensures pair == (old(entries)[at].key, old(entries)[at].value)
      ensures entries == DropAt(old(entries), at) && handAt == if at == 0 then None else Some(at - 1)
    {
      ghost var ns := nodes;
      TakeOut(victim, at);
      DropKey(victim.key, ns, at);
      return (victim.key, victim.value);
    }

    method TakeOut(victim: Node<K, V>, ghost at: nat)
      requires Linked() && at < |nodes| && nodes[at] == victim
      modifies `head, `tail, `hand, `nodes, `entries, `handAt, nodes`prev, nodes`next
      ensures Linked() && nodes == DropAt(old(nodes), at)
      ensures entries == DropAt(old(entries), at) && handAt == if at == 0 then None else Some(at - 1)
    {
      LeaveHandBefore(victim, at);
      Unlink(victim, at);
    }

    method LeaveHandBefore(node: Node<K, V>, ghost i: nat)
      requires Linked() && i < |nodes| && nodes[i] == node
      modifies `hand, `handAt
      ensures Linked() && handAt == S.HandAfter(handAt, i) == if i == 0 then None else Some(i - 1)
    {
      assert i > 0 ==> Joined(nodes, i - 1);
      hand, handAt := node.prev, if i == 0 then None else Some(i - 1);
    }

    /** One pass of the hand towards the head: takes the bit of every visited node
        on the way and stops at the first node that has none. */
    method Pass(ghost es: seq<S.Entry<K, V>>, ghost start: nat, ghost wrapped: bool)
      returns (victim: Node?<K, V>, ghost at: int)
      requires Linked() && start < |es| == |nodes| && OnPass(es, start, wrapped)
      modifies `entries, nodes
      ensures Linked() && -1 <= at < |es|
      ensures victim == if at < 0 then null else nodes[at]
      ensures entries == Cleared(es, start, wrapped, at)
      ensures Walked(es, start, wrapped, at) && (at >= 0 ==> !entries[at].visited)
    {
      victim, at := hand, First(es, start, wrapped);
      while victim != null && victim.visited
        invariant Chained() && Faithful()
        invariant -1 <= at < |es| && victim == if at < 0 then null else nodes[at]
        invariant entries == Cleared(es, start, wrapped, at)
        invariant Walked(es, start, wrapped, at)
        decreases at + 1
      {
        victim := Spare(victim, es, start, wrapped, at);
        at := at - 1;
      }
    }

    /** A second chance: the bit goes, and the hand looks at the next newer node. */
    method Spare(node: Node<K, V>, ghost es: seq<S.Entry<K, V>>, ghost start: nat, ghost wrapped: bool, ghost at: nat)
      returns (newer: Node?<K, V>)
      requires Chained() && Faithful() && start < |es| && at < |es| == |nodes| && node == nodes[at] && node.visited
      requires entries == Cleared(es, start, wrapped, at) && Walked(es, start, wrapped, at)
      modifies `entries, nodes
      ensures Chained() && Faithful()
      ensures newer == if at == 0 then null else nodes[at - 1]
      ensures entries == Cleared(es, start, wrapped, at - 1) && Walked(es, start, wrapped, at - 1)
    {
      StepsOver(es, start, wrapped, at);
      assert at > 0 ==> Joined(nodes, at - 1);
      SetNode(node, node.value, false, at);
      newer := node.prev;
    }

    /** Where the walk stands when a pass begins. */
    ghost predicate OnPass(es: seq<S.Entry<K, V>>, start: nat, wrapped: bool)
      requires start < |es|
      reads `handAt, `entries
    {
      && handAt == Some(First(es, start, wrapped))
      && entries == Cleared(es, start, wrapped, First(es, start, wrapped))
      && Walked(es, start, wrapped, First(es, start, wrapped))
    }

    method HandToTail()
      requires Linked() && nodes != []
      modifies `hand, `handAt
      ensures Linked() && handAt == Some(|nodes| - 1)
    {
      hand, handAt := tail, Some(|nodes| - 1);
    }

    method WrapHand(ghost es: seq<S.Entry<K, V>>, ghost start: nat, ghost wrapped: bool)
      requires Linked() && start < |es| == |nodes|
      requires entries == Cleared(es, start, wrapped, -1) && Walked(es, start, wrapped, -1)
      modifies `hand, `handAt
      ensures !wrapped && Linked() && OnPass(es, start, true)
    {
      WrapsAround(es, start, wrapped, entries);
      HandToTail();
    }

    /** The walk of the hand, wrapping from the head to the tail when a pass finds
        no victim; the second pass always finds one. */
    method Sweep() returns (victim: Node<K, V>, ghost at: nat, ghost inspected: nat)
      requires Linked() && nodes != []
      modifies `hand, `handAt, `entries, nodes
      ensures Linked() && at < |nodes| && nodes[at] == victim
      ensures at == S.Victim(old(entries), S.Start(old(View())))
      ensures entries == S.Swept(old(entries), S.Start(old(View())), at)
      ensures inspected <= |nodes| + 1
    {
      inspected := 0;
      ghost var es, start, wrapped := entries, S.Start(View()), false;
      if hand == null {
        HandToTail();
      }
      StartsAt(es, start);
      while true
        invariant Linked() && |es| == |nodes| && OnPass(es, start, wrapped)
        invariant inspected == if wrapped then start + 1 else 0
        decreases !wrapped
      {
        var found;
        ghost var k;
        found, k := Pass(es, start, wrapped);
        inspected := inspected + First(es, start, wrapped) - k + (if k < 0 then 0 else 1);
        if found != null {
          ClosesIn(es, start, wrapped, k);
          return found, k, inspected;
        }
        assert k == -1;
        WrapHand(es, start, wrapped);
        wrapped := true;
      }
    }

    /** Evicts the victim of the sweep, after at most one node more than there are. */
    method EvictOne() returns (evicted: Option<(K, V)>, ghost inspected: nat)
      requires Valid()
      modifies this, nodes
      ensures Valid() && forall n :: n in nodes ==> n in old(nodes)
      ensures (View(), evicted) == S.Evict(old(View()))
      ensures inspected <= |old(nodes)| + 1
    {
      SizeIsLength();
      if |index| == 0 {
        return None, 0;
      }
      ghost var s := View();
      var victim;
      ghost var at;
      victim, at, inspected := Sweep();
      EvictIs(s, entries, at);
      RestIn(nodes, at);
      var pair := Expel(victim, at);
      return Some(pair), inspected;
    }

    /** Manual eviction. */
    method Evict() returns (evicted: Option<(K, V)>)
      requires Valid()
      modifies this, nodes
      ensures Valid() && forall n :: n in nodes ==> n in old(nodes)
      ensures (View(), evicted) == S.Evict(old(View()))
    {
      SizeIsLength();
      if |index| == 0 {
        return None;
      }
      ghost var inspected;
      evicted, inspected := EvictOne();
    }

    /** Insert or update; a full cache first evicts one entry. */
    method Put(key: K, value: V) returns (evicted: Option<(K, V)>)
      requires Valid()
      modifies this, nodes
      ensures Valid() && forall n :: n in nodes ==> n in old(nodes) || fresh(n)
      ensures (View(), evicted) == S.Put(old(View()), key, value)
    {
      FindNode(key);
      if key in index {
        var node := index[key];
        SetNode(node, value, true, S.Find(entries, key));
        return None;
      }
      evicted := MakeRoom(key);
      AddNew(key, value);
    }

    method MakeRoom(ghost key: K) returns (evicted: Option<(K, V)>)
      requires Valid() && key !in index
      modifies this, nodes
      ensures Valid() && key !in index && |nodes| < maxSize && forall n :: n in nodes ==> n in old(nodes)
      ensures (View(), evicted) == if |old(entries)| >= maxSize then S.Evict(old(View())) else (old(View()), None)
    {
      evicted := None;
      SizeIsLength();
      if |index| >= maxSize {
        FindNode(key);
        EvictLacks(View(), key);
        ghost var inspected;
        evicted, inspected := EvictOne();
        FindNode(key);
      }
    }

    method AddNew(key: K, value: V)
      requires Valid() && key !in index && |nodes| < maxSize
      modifies this, nodes
      ensures Valid() && forall n :: n in nodes ==> n in old(nodes) || fresh(n)
      ensures View() == S.PushHead(old(View()), key, value)
    {
      var node := new Node(key, value);
      Insert(node);
    }

    method Insert(node: Node<K, V>)
      requires Valid() && node.key !in index && |nodes| < maxSize && !node.visited
      modifies this, nodes, node`prev, node`next
      ensures Valid() && nodes == [node] + old(nodes)
      ensures View() == S.PushHead(old(View()), node.key, node.value)
    {
      IndexOne(nodes, index, node);
      PushHead(node);
      index := index[node.key := node];
    }

    /** The keys from newest to oldest, by walking the list. */
    method Keys() returns (keys: seq<K>)
      requires Valid()
      ensures |keys| == |View().entries| && forall i :: 0 <= i < |keys| ==> keys[i] == View().entries[i].key
    {
      keys := [];
      var node := head;
      while node != null
        invariant |keys| <= |nodes| && node == if |keys| == |nodes| then null else nodes[|keys|]
        invariant forall i :: 0 <= i < |keys| ==> keys[i] == entries[i].key
        decreases |nodes| - |keys|
      {
        assert |keys| < |nodes| - 1 ==> Joined(nodes, |keys|);
        keys := keys + [node.key];
        node := node.next;
      }
    }

    /** The pairs from newest to oldest, by walking the list. */
    method Items() returns (items: seq<(K, V)>)
      requires Valid()
      ensures |items| == |View().entries|
      ensures forall i :: 0 <= i < |items| ==> items[i] == (View().entries[i].key, View().entries[i].value)
    {
      items := [];
      var node := head;
      while node != null
        invariant |items| <= |nodes| && node == if |items| == |nodes| then null else nodes[|items|]
        invariant forall i :: 0 <= i < |items| ==> items[i] == (entries[i].key, entries[i].value)
        decreases |nodes| - |items|
      {
        assert |items| < |nodes| - 1 ==> Joined(nodes, |items|);
        items := items + [(node.key, node.value)];
        node := node.next;
      }
    }
  }

  /** Construction refuses a capacity below one. */
  method NewCache<K(==, !new), V(!new)>(maxSize: int) returns (cache: Option<SieveCache<K, V>>)
    ensures cache.Some? <==> maxSize >= 1
    ensures cache.Some? ==> fresh(cache.value) && cache.value.Valid() && cache.value.View() == S.Empty(maxSize)
  {
    if maxSize < 1 {
      return None;
    }
    var c := new SieveCache(maxSize);
    return Some(c);
  }

  lemma IndexOne<K, V>(nodes: seq<Node<K, V>>, index: map<K, Node<K, V>>, node: Node<K, V>)
    requires IndexedBy(nodes, index) && node.key !in index
    ensures IndexedBy([node] + nodes, index[node.key := node]) && node !in nodes
  {
    var more, bigger := [node] + nodes, index[node.key := node];
    forall k | k in bigger ensures bigger[k] in more && bigger[k].key == k {
      if k == node.key {
        assert more[0] == bigger[k];
      } else {
        var i :| 0 <= i < |nodes| && nodes[i] == index[k];
        assert more[i + 1] == bigger[k];
      }
    }
  }

  lemma EvictLacks<K, V>(s: S.Sieve<K, V>, key: K)
    requires S.Find(s.entries, key) == |s.entries|
    ensures var t := S.Evict(s).0; S.Find(t.entries, key) == |t.entries|
    ensures s.entries != [] ==> |S.Evict(s).0.entries| == |s.entries| - 1
  {
    if s.entries != [] {
      S.EvictDoes(s);
    }
  }

  // ----- the walk, on values -----

  /** Where a pass begins. */
  ghost function First<K, V>(es: seq<S.Entry<K, V>>, start: nat, wrapped: bool): nat
    requires start < |es|
  {
    if wrapped then |es| - 1 else start
  }

  /** The walk has gone past entry `i` when it stands at `at`. */
  ghost predicate Passed(start: nat, wrapped: bool, at: int, i: nat) {
    if wrapped then i <= start || at < i else at < i <= start
  }

  /** Everything passed was visited. */
  ghost predicate Walked<K, V>(es: seq<S.Entry<K, V>>, start: nat, wrapped: bool, at: int) {
    && (if wrapped then start <= at else at <= start)
    && forall i :: 0 <= i < |es| && Passed(start, wrapped, at, i) ==> es[i].visited
  }

  ghost function Cleared<K, V>(es: seq<S.Entry<K, V>>, start: nat, wrapped: bool, at: int): (r: seq<S.Entry<K, V>>)
    ensures |r| == |es|
  {
    seq(|es|, i requires 0 <= i < |es| => es[i].(visited := es[i].visited && !Passed(start, wrapped, at, i)))
  }

  lemma EvictIs<K, V>(s: S.Sieve<K, V>, swept: seq<S.Entry<K, V>>, at: nat)
    requires s.entries != [] && at == S.Victim(s.entries, S.Start(s)) && swept == S.Swept(s.entries, S.Start(s), at)
    ensures S.Evict(s) == (S.Sieve(s.capacity, DropAt(swept, at), if at == 0 then None else Some(at - 1)),
                           Some((swept[at].key, swept[at].value)))
  {
  }

  lemma StartsAt<K, V>(es: seq<S.Entry<K, V>>, start: nat)
    requires start < |es|
    ensures Cleared(es, start, false, start) == es && Walked(es, start, false, start)
  {
  }

  lemma StepsOver<K, V>(es: seq<S.Entry<K, V>>, start: nat, wrapped: bool, at: nat)
    requires start < |es| && at < |es| && Walked(es, start, wrapped, at) && Cleared(es, start, wrapped, at)[at].visited
    ensures var e := Cleared(es, start, wrapped, at)[at];
      Cleared(es, start, wrapped, at)[at := S.Entry(e.key, e.value, false)] == Cleared(es, start, wrapped, at - 1)
    ensures Walked(es, start, wrapped, at - 1)
  {
  }

  lemma WrapsAround<K, V>(es: seq<S.Entry<K, V>>, start: nat, wrapped: bool, now: seq<S.Entry<K, V>>)
    requires start < |es| && now == Cleared(es, start, wrapped, -1) && Walked(es, start, wrapped, -1)
    ensures !wrapped
    ensures now == Cleared(es, start, true, First(es, start, true)) && Walked(es, start, true, First(es, start, true))
  {
  }

  /** An unvisited node found by the walk is the victim of the value model. */
  lemma ClosesIn<K, V>(es: seq<S.Entry<K, V>>, start: nat, wrapped: bool, at: nat)
    requires start < |es| && at < |es| && Walked(es, start, wrapped, at)
    requires !Cleared(es, start, wrapped, at)[at].visited
    ensures at == S.Victim(es, start)
    ensures S.Swept(es, start, at) == Cleared(es, start, wrapped, at)
  {
    S.VictimFrom(es, start, at);
  }
}
