/** One batch of a multi-model worker, on values: items are grouped by model
    name, each group runs once, results go back to the items' positions. */
module MultiModelBatches {
  import opened Basics
  import S = SieveSpec
  import opened SieveMaps
  import opened MultiModelSpec

  // ----- grouping -----

  /** The items among the first `k` that name this model, with their positions. */
  function Group<Item, Name(==), Model, Res>(h: Hooks<Item, Name, Model, Res>, items: seq<Item>, k: nat,
      name: Name): (g: seq<(nat, Item)>)
    requires k <= |items|
    ensures |g| <= k
  {
    if k == 0 then []
    else
      var g := Group(h, items, k - 1, name);
      if h.name(items[k - 1]) == Some(name) then g + [(k - 1, items[k - 1])] else g
  }

  function Sub<Item>(g: seq<(nat, Item)>): (items: seq<Item>)
    ensures |items| == |g|
  {
    seq(|g|, j requires 0 <= j < |g| => g[j].1)
  }

  ghost predicate AllNamed<Item, Name, Model, Res>(h: Hooks<Item, Name, Model, Res>, items: seq<Item>) {
    forall i :: 0 <= i < |items| ==> h.name(items[i]).Some?
  }

  /** The names of the first `k` items, each at its first appearance. */
  function Names<Item, Name(==), Model, Res>(h: Hooks<Item, Name, Model, Res>, items: seq<Item>, k: nat): seq<Name>
    requires k <= |items|
  {
    if k == 0 then []
    else
      var order := Names(h, items, k - 1);
      var name := h.name(items[k - 1]);
      if name.Some? && name.value !in order then order + [name.value] else order
  }

  lemma {:induction false} NamesAre<Item, Name, Model, Res>(h: Hooks<Item, Name, Model, Res>, items: seq<Item>, k: nat)
    requires k <= |items|
    ensures Distinct(Names(h, items, k))
    ensures forall i :: 0 <= i < k && h.name(items[i]).Some? ==> h.name(items[i]).value in Names(h, items, k)
    ensures forall n :: n in Names(h, items, k) ==> Group(h, items, k, n) != []
  {
    if k > 0 {
      NamesAre(h, items, k - 1);
    }
  }

  /** The `i`-th item is the first of its name. */
  ghost predicate NamesFirst<Item, Name, Model, Res>(h: Hooks<Item, Name, Model, Res>, items: seq<Item>, i: nat)
    requires i < |items|
  {
    h.name(items[i]).Some? && forall j :: 0 <= j < i ==> h.name(items[j]) != h.name(items[i])
  }

  /** The names are in order of first appearance: they are those of the items that are
      the first of their name, in the order of these. */
  lemma {:induction false} NamesInOrder<Item, Name, Model, Res>(h: Hooks<Item, Name, Model, Res>, items: seq<Item>,
      k: nat) returns (place: seq<nat>)
    requires k <= |items|
    ensures |place| == |Names(h, items, k)|
    ensures forall i :: 0 <= i < |place| ==>
      place[i] < k && h.name(items[place[i]]) == Some(Names(h, items, k)[i])
    ensures forall i, j :: 0 <= i < j < |place| ==> place[i] < place[j]
    ensures forall i: nat :: i in place <==> i < k && NamesFirst(h, items, i)
  {
    if k == 0 {
      place := [];
    } else {
      place := NamesInOrder(h, items, k - 1);
      NamesAre(h, items, k - 1);
      var first := h.name(items[k - 1]).Some? && h.name(items[k - 1]).value !in Names(h, items, k - 1);
      assert first <==> NamesFirst(h, items, k - 1) by {
        NamesOccur(h, items, k - 1);
      }
      place := place + if first then [k - 1] else [];
    }
  }

  lemma {:induction false} NamesOccur<Item, Name, Model, Res>(h: Hooks<Item, Name, Model, Res>, items: seq<Item>,
      k: nat)
    requires k <= |items|
    ensures forall n :: n in Names(h, items, k) ==> exists j :: 0 <= j < k && h.name(items[j]) == Some(n)
  {
    if k > 0 {
      NamesOccur(h, items, k - 1);
    }
  }

  /** Every item sits in the group of its name, after the earlier items of that name. */
  lemma {:induction false} GroupIndex<Item, Name, Model, Res>(h: Hooks<Item, Name, Model, Res>, items: seq<Item>,
      k: nat, name: Name, i: nat)
    requires i < k <= |items| && h.name(items[i]) == Some(name)
    ensures |Group(h, items, i, name)| < |Group(h, items, k, name)|
    ensures Group(h, items, k, name)[|Group(h, items, i, name)|] == (i, items[i])
  {
    if i < k - 1 {
      GroupIndex(h, items, k - 1, name, i);
    }
  }

  /** ... and nothing else sits there. */
  lemma {:induction false} GroupMember<Item, Name, Model, Res>(h: Hooks<Item, Name, Model, Res>, items: seq<Item>,
      k: nat, name: Name, j: nat)
    requires k <= |items| && j < |Group(h, items, k, name)|
    ensures var p := Group(h, items, k, name)[j];
      p.0 < k && p.1 == items[p.0] && h.name(items[p.0]) == Some(name) && |Group(h, items, p.0, name)| == j
  {
    if j < |Group(h, items, k - 1, name)| {
      GroupMember(h, items, k - 1, name, j);
    }
  }

  // ----- running the groups in some order -----

  function RunOne<Item, Name(==), Model, Res>(h: Hooks<Item, Name, Model, Res>, s: S.Sieve<Name, Model>,
      items: seq<Item>, name: Name)
    : Step<Name, Model, seq<Res>>
  {
    var e := Ensure(h, s, name);
    match e.result
    case Err(f) => Step(e.cache, e.calls, Err(f))
    case Ok(m) =>
      var g := Group(h, items, |items|, name);
      match h.run(name, m, Sub(g))
      case None => Step(e.cache, e.calls, Err(RunFailed))
      case Some(rs) => Step(e.cache, e.calls, if |rs| == |g| then Ok(rs) else Err(WrongLength))
  }

  function RunAll<Item, Name(==), Model, Res>(h: Hooks<Item, Name, Model, Res>, s: S.Sieve<Name, Model>,
      items: seq<Item>, order: seq<Name>)
    : Step<Name, Model, ()>
  {
    if order == [] then Step(s, [], Ok(()))
    else
      var p := RunAll(h, s, items, order[..|order| - 1]);
      if p.result.Err? then p
      else
        var one := RunOne(h, p.cache, items, order[|order| - 1]);
        Step(one.cache, p.calls + one.calls, Done(one.result))
  }

  function Done<T>(r: Result<T, Failure>): Result<(), Failure> {
    match r
    case Ok(_) => Ok(())
    case Err(f) => Err(f)
  }

  /** The last group of a run, seen from the cache. */
  lemma RunLast<Item, Name(!new), Model(!new), Res>(
      h: Hooks<Item, Name, Model, Res>, s: S.Sieve<Name, Model>, items: seq<Item>, order: seq<Name>)
    requires order != []
    ensures var r, p := RunAll(h, s, items, order), RunAll(h, s, items, order[..|order| - 1]);
      if p.result.Err? then r == p
      else
        var e := Ensure(h, p.cache, order[|order| - 1]);
        r.cache == e.cache && r.calls == p.calls + e.calls && (r.result.Ok? ==> e.result.Ok?)
  {
  }

  lemma BalancesOneMore<Item, Name(!new), Model(!new), Res>(
      h: Hooks<Item, Name, Model, Res>, calls: seq<Call<Name, Model>>, s: S.Sieve<Name, Model>,
      more: seq<Call<Name, Model>>, name: Name)
    requires Balanced(calls + more, s)
    ensures var e := Ensure(h, s, name);
      Balanced(calls + (more + e.calls), e.cache) && e.cache.capacity == s.capacity
  {
    EnsureBalances(h, s, name, calls + more);
    assert calls + (more + Ensure(h, s, name).calls) == calls + more + Ensure(h, s, name).calls;
  }

  /** The ledger stays balanced through every batch, whatever goes wrong in it. */
  lemma {:induction false} RunBalances<Item, Name(!new), Model(!new), Res>(
      h: Hooks<Item, Name, Model, Res>, s: S.Sieve<Name, Model>, items: seq<Item>, order: seq<Name>,
      calls: seq<Call<Name, Model>>)
    requires Balanced(calls, s)
    ensures var r := RunAll(h, s, items, order);
      Balanced(calls + r.calls, r.cache) && r.cache.capacity == s.capacity
  {
    if order == [] {
      assert calls + [] == calls;
    } else {
      RunLast(h, s, items, order);
      RunBalances(h, s, items, order[..|order| - 1], calls);
      var p := RunAll(h, s, items, order[..|order| - 1]);
      if p.result.Ok? {
        BalancesOneMore(h, calls, p.cache, p.calls, order[|order| - 1]);
      }
    }
  }

  /** Every name of the order that was not held has been loaded, and what is held
      was held before or has been loaded. */
  ghost predicate LoadsFit<Name(!new), Model(!new)>(held: map<Name, Model>, order: seq<Name>, now: map<Name, Model>,
      loads: seq<Name>)
  {
    && (forall n :: n in order && n !in held ==> n in loads)
    && (forall n :: n in now ==> n in held || n in loads)
  }

  lemma LoadsFitOneMore<Item, Name(!new), Model(!new), Res>(
      h: Hooks<Item, Name, Model, Res>, held: map<Name, Model>, order: seq<Name>, s: S.Sieve<Name, Model>,
      calls: seq<Call<Name, Model>>)
    requires order != [] && S.Valid(s) && LoadsFit(held, order[..|order| - 1], Held(s.entries), Loads(calls))
    ensures var e := Ensure(h, s, order[|order| - 1]);
      S.Valid(e.cache) && (e.result.Ok? ==> LoadsFit(held, order, Held(e.cache.entries), Loads(calls + e.calls)))
  {
    var name := order[|order| - 1];
    assert forall n :: n in order ==> n in order[..|order| - 1] || n == name;
    var e := Ensure(h, s, name);
    LoadsJoin(calls, e.calls);
    EnsureHeld(h, s, name);
    if name !in Held(s.entries) {
      EnsureMissing(h, s, name);
    }
  }

  /** Whatever the order, a success has loaded every name that was not held. */
  lemma {:induction false} RunLoads<Item, Name(!new), Model(!new), Res>(
      h: Hooks<Item, Name, Model, Res>, s: S.Sieve<Name, Model>, items: seq<Item>, order: seq<Name>)
    requires S.Valid(s)
    ensures var r := RunAll(h, s, items, order);
      S.Valid(r.cache) && (r.result.Ok? ==> LoadsFit(Held(s.entries), order, Held(r.cache.entries), Loads(r.calls)))
  {
    if order != [] {
      var p := RunAll(h, s, items, order[..|order| - 1]);
      RunLast(h, s, items, order);
      RunLoads(h, s, items, order[..|order| - 1]);
      if p.result.Ok? {
        LoadsFitOneMore(h, Held(s.entries), order, p.cache, p.calls);
      }
    }
  }

  // ----- held names first -----

  function Hits<Name(==, !new), Model>(s: S.Sieve<Name, Model>, order: seq<Name>): (r: seq<Name>)
    ensures forall n :: n in r <==> n in order && S.Has(s, n)
  {
    if order == [] then []
    else Hits(s, order[..|order| - 1]) + if S.Has(s, order[|order| - 1]) then [order[|order| - 1]] else []
  }

  function Misses<Name(==, !new), Model>(s: S.Sieve<Name, Model>, order: seq<Name>): (r: seq<Name>)
    ensures forall n :: n in r <==> n in order && !S.Has(s, n)
  {
    if order == [] then []
    else Misses(s, order[..|order| - 1]) + if S.Has(s, order[|order| - 1]) then [] else [order[|order| - 1]]
  }

  lemma {:induction false} SplitDistinct<Name(!new), Model>(s: S.Sieve<Name, Model>, order: seq<Name>)
    requires Distinct(order)
    ensures Distinct(Hits(s, order)) && Distinct(Misses(s, order))
  {
    if order != [] {
      SplitDistinct(s, order[..|order| - 1]);
      assert order[|order| - 1] !in order[..|order| - 1];
    }
  }

  /** The held names and the missing names are the names, each in the order they stand there. */
  lemma {:induction false} SplitInOrder<Name(!new), Model>(s: S.Sieve<Name, Model>, order: seq<Name>)
    returns (hits: seq<nat>, misses: seq<nat>)
    ensures Picks(Hits(s, order), order, hits) && Picks(Misses(s, order), order, misses)
    ensures forall n :: n in Hits(s, order) <==> n in order && S.Has(s, n)
    ensures forall n :: n in Misses(s, order) <==> n in order && !S.Has(s, n)
    ensures |hits| + |misses| == |order|
    decreases |order|
  {
    hits, misses := [], [];
    if order != [] {
      var n := |order| - 1;
      hits, misses := SplitInOrder(s, order[..n]);
      hits := PicksMore(Hits(s, order[..n]), order, hits, S.Has(s, order[n]));
      misses := PicksMore(Misses(s, order[..n]), order, misses, !S.Has(s, order[n]));
    }
  }

  /** Exactly the missing names have been loaded, once each and in order; nothing
      else is new, and while there are none everything is as it was. */
  ghost predicate OnlyMisses<Name(!new), Model(!new)>(held: map<Name, Model>, misses: seq<Name>, now: map<Name, Model>,
      loads: seq<Name>)
  {
    && loads == misses
    && (misses == [] ==> now == held)
    && (forall n :: n in now ==> n in misses || (n in held && now[n] == held[n]))
  }

  lemma OneMoreHit<Item, Name(!new), Model(!new), Res>(
      h: Hooks<Item, Name, Model, Res>, held: map<Name, Model>, s: S.Sieve<Name, Model>, calls: seq<Call<Name, Model>>,
      name: Name)
    requires S.Valid(s) && OnlyMisses(held, [], Held(s.entries), Loads(calls)) && name in held
    ensures var e := Ensure(h, s, name);
      S.Valid(e.cache) && OnlyMisses(held, [], Held(e.cache.entries), Loads(calls + e.calls))
        && e.result == Ok(held[name])
  {
    LoadsJoin(calls, Ensure(h, s, name).calls);
    EnsureHeld(h, s, name);
  }

  lemma OneMoreMiss<Item, Name(!new), Model(!new), Res>(
      h: Hooks<Item, Name, Model, Res>, held: map<Name, Model>, misses: seq<Name>, s: S.Sieve<Name, Model>,
      calls: seq<Call<Name, Model>>, name: Name)
    requires S.Valid(s) && OnlyMisses(held, misses, Held(s.entries), Loads(calls)) && name !in held && name !in misses
    ensures var e := Ensure(h, s, name);
      && S.Valid(e.cache)
      && (e.result.Ok? ==>
            OnlyMisses(held, misses + [name], Held(e.cache.entries), Loads(calls + e.calls))
              && h.load(name) == Some(e.result.value))
  {
    LoadsJoin(calls, Ensure(h, s, name).calls);
    EnsureMissing(h, s, name);
  }

  /** While held names come first nothing is loaded; then each missing name is
      loaded once, in order. */
  lemma {:induction false} HitsThenMisses<Item, Name(!new), Model(!new), Res>(
      h: Hooks<Item, Name, Model, Res>, s: S.Sieve<Name, Model>, items: seq<Item>, hits: seq<Name>, misses: seq<Name>)
    requires S.Valid(s) && Distinct(misses)
    requires forall n :: n in hits ==> n in Held(s.entries)
    requires forall n :: n in misses ==> n !in Held(s.entries)
    ensures var r := RunAll(h, s, items, hits + misses);
      S.Valid(r.cache) && (r.result.Ok? ==> OnlyMisses(Held(s.entries), misses, Held(r.cache.entries), Loads(r.calls)))
    decreases |hits| + |misses|
  {
    var order := hits + misses;
    if misses != [] {
      var rest, name := misses[..|misses| - 1], misses[|misses| - 1];
      assert order[..|order| - 1] == hits + rest && misses == rest + [name] && name !in rest;
      RunLast(h, s, items, order);
      HitsThenMisses(h, s, items, hits, rest);
      var p := RunAll(h, s, items, hits + rest);
      if p.result.Ok? {
        OneMoreMiss(h, Held(s.entries), rest, p.cache, p.calls, name);
      }
    } else if hits != [] {
      var rest, name := hits[..|hits| - 1], hits[|hits| - 1];
      assert order[..|order| - 1] == rest + misses;
      RunLast(h, s, items, order);
      HitsThenMisses(h, s, items, rest, []);
      var p := RunAll(h, s, items, rest + []);
      if p.result.Ok? {
        OneMoreHit(h, Held(s.entries), p.cache, p.calls, name);
      }
    }
  }

  // ----- what a batch does -----

  /** The order in which a worker runs its groups. */
  function Schedule<Item, Name(==, !new), Model, Res>(h: Hooks<Item, Name, Model, Res>, s: S.Sieve<Name, Model>,
      items: seq<Item>): seq<Name>
  {
    var order := Names(h, items, |items|);
    Hits(s, order) + Misses(s, order)
  }

  /** Minimal loading: a successful batch loads each distinct name that was not
      held exactly once and no other, and no order of running the same groups
      that succeeds loads fewer. */
  lemma MinimalLoading<Item, Name(!new), Model(!new), Res>(
      h: Hooks<Item, Name, Model, Res>, s: S.Sieve<Name, Model>, items: seq<Item>, other: seq<Name>)
    requires S.Valid(s) && AllNamed(h, items)
    requires forall n :: n in Names(h, items, |items|) ==> n in other
    ensures var names := Names(h, items, |items|);
      var loads := Loads(RunAll(h, s, items, Schedule(h, s, items)).calls);
      RunAll(h, s, items, Schedule(h, s, items)).result.Ok? ==>
        && Distinct(loads)
        && (forall n :: n in loads <==> n in names && n !in Held(s.entries))
        && (RunAll(h, s, items, other).result.Ok? ==> |loads| <= |Loads(RunAll(h, s, items, other).calls)|)
  {
    var names := Names(h, items, |items|);
    NamesAre(h, items, |items|);
    SplitDistinct(s, names);
    forall n ensures S.Has(s, n) <==> n in Held(s.entries) {
      HeldIs(s, n);
    }
    HitsThenMisses(h, s, items, Hits(s, names), Misses(s, names));
    RunLoads(h, s, items, other);
    if RunAll(h, s, items, other).result.Ok? {
      FitsInside(Misses(s, names), Loads(RunAll(h, s, items, other).calls));
    }
  }

  lemma FitsInside<T>(a: seq<T>, b: seq<T>)
    requires Distinct(a) && forall x :: x in a ==> x in b
    ensures |a| <= |b|
  {
    DistinctCount(a);
    ElementsAtMost(b);
    SubsetSize(Elements(a), Elements(b));
  }

  lemma {:induction false} ElementsAtMost<T>(s: seq<T>)
    ensures |Elements(s)| <= |s|
  {
    if s != [] {
      ElementsAtMost(s[1..]);
      assert Elements(s) == {s[0]} + Elements(s[1..]);
    }
  }

  lemma {:induction false} SubsetSize<T>(a: set<T>, b: set<T>)
    requires a <= b
    ensures |a| <= |b|
    decreases a
  {
    if a != {} {
      var x :| x in a;
      SubsetSize(a - {x}, b - {x});
    }
  }

  /** The model a name is served with: the one that was held, or a fresh load. */
  function ModelFor<Item, Name(==), Model, Res>(h: Hooks<Item, Name, Model, Res>, held: map<Name, Model>,
      name: Name): Option<Model>
  {
    if name in held then Some(held[name]) else h.load(name)
  }

  /** In schedule order every group is served with that model. */
  lemma ServedWith<Item, Name(!new), Model(!new), Res>(
      h: Hooks<Item, Name, Model, Res>, s: S.Sieve<Name, Model>, items: seq<Item>, hits: seq<Name>, misses: seq<Name>,
      k: nat)
    requires S.Valid(s) && Distinct(misses) && k < |hits| + |misses|
    requires forall n :: n in hits ==> n in Held(s.entries)
    requires forall n :: n in misses ==> n !in Held(s.entries)
    ensures var order := hits + misses;
      var p := RunAll(h, s, items, order[..k]);
      p.result.Ok? ==>
        var e := Ensure(h, p.cache, order[k]);
        e.result.Ok? ==> ModelFor(h, Held(s.entries), order[k]) == Some(e.result.value)
  {
    var order := hits + misses;
    var some, more := if k < |hits| then hits[..k] else hits, if k < |hits| then [] else misses[..k - |hits|];
    assert order[..k] == some + more;
    assert k >= |hits| ==> order[k] == misses[k - |hits|];
    HitsThenMisses(h, s, items, some, more);
    var p := RunAll(h, s, items, order[..k]);
    if p.result.Ok? {
      ServedNow(h, Held(s.entries), more, p.cache, p.calls, order[k]);
    }
  }

  lemma ServedNow<Item, Name(!new), Model(!new), Res>(
      h: Hooks<Item, Name, Model, Res>, held: map<Name, Model>, misses: seq<Name>, s: S.Sieve<Name, Model>,
      calls: seq<Call<Name, Model>>, name: Name)
    requires S.Valid(s) && OnlyMisses(held, misses, Held(s.entries), Loads(calls))
    requires if name in held then misses == [] else name !in misses
    ensures var e := Ensure(h, s, name); e.result.Ok? ==> ModelFor(h, held, name) == Some(e.result.value)
  {
    if name in held {
      OneMoreHit(h, held, s, calls, name);
    } else {
      OneMoreMiss(h, held, misses, s, calls, name);
    }
  }

  lemma RunNext<Item, Name(!new), Model(!new), Res>(
      h: Hooks<Item, Name, Model, Res>, s: S.Sieve<Name, Model>, items: seq<Item>, order: seq<Name>, k: nat)
    requires k < |order| && RunAll(h, s, items, order[..k]).result.Ok?
    ensures var p := RunAll(h, s, items, order[..k]);
      var one := RunOne(h, p.cache, items, order[k]);
      RunAll(h, s, items, order[..k + 1]) == Step(one.cache, p.calls + one.calls, Done(one.result))
  {
    assert order[..k + 1][..k] == order[..k];
  }

  /** What a group that ran was given: its model, and as many results as items. */
  lemma RanWith<Item, Name(!new), Model(!new), Res>(h: Hooks<Item, Name, Model, Res>, s: S.Sieve<Name, Model>,
      items: seq<Item>, name: Name)
    ensures var e, one := Ensure(h, s, name), RunOne(h, s, items, name);
      one.result.Ok? ==>
        e.result.Ok? && h.run(name, e.result.value, Sub(Group(h, items, |items|, name))) == Some(one.result.value)
        && |one.result.value| == |Group(h, items, |items|, name)|
  {
  }

  /** One more group of a schedule: what the run becomes, and what it gives. */
  lemma Turn<Item, Name(!new), Model(!new), Res>(
      h: Hooks<Item, Name, Model, Res>, s: S.Sieve<Name, Model>, items: seq<Item>, hits: seq<Name>, misses: seq<Name>,
      k: nat,
      now: S.Sieve<Name, Model>, calls: seq<Call<Name, Model>>)
    requires S.Valid(s) && Distinct(misses) && k < |hits| + |misses|
    requires forall n :: n in hits ==> n in Held(s.entries)
    requires forall n :: n in misses ==> n !in Held(s.entries)
    requires RunAll(h, s, items, (hits + misses)[..k]) == Step(now, calls, Ok(()))
    ensures var order := hits + misses;
      var one := RunOne(h, now, items, order[k]);
      && RunAll(h, s, items, order[..k + 1]) == Step(one.cache, calls + one.calls, Done(one.result))
      && (one.result.Ok? ==>
            && ModelFor(h, Held(s.entries), order[k]).Some?
            && h.run(order[k], ModelFor(h, Held(s.entries), order[k]).value, Sub(Group(h, items, |items|, order[k])))
              == Some(one.result.value)
            && |one.result.value| == |Group(h, items, |items|, order[k])|)
  {
    RunNext(h, s, items, hits + misses, k);
    ServedWith(h, s, items, hits, misses, k);
    RanWith(h, now, items, (hits + misses)[k]);
  }

  /** A run stops at its first failure. */
  lemma {:induction false} RunStops<Item, Name(!new), Model(!new), Res>(
      h: Hooks<Item, Name, Model, Res>, s: S.Sieve<Name, Model>, items: seq<Item>, order: seq<Name>, k: nat)
    requires k <= |order| && RunAll(h, s, items, order[..k]).result.Err?
    ensures RunAll(h, s, items, order) == RunAll(h, s, items, order[..k])
  {
    if k < |order| {
      assert order[..|order| - 1][..k] == order[..k];
      RunStops(h, s, items, order[..|order| - 1], k);
      RunLast(h, s, items, order);
    } else {
      assert order[..k] == order;
    }
  }

  /** A batch stops at the first group that fails, with its failure: the one that making
      its model available ended in, or a failing run, or a wrong number of results. */
  lemma FirstFailure<Item, Name(!new), Model(!new), Res>(
      h: Hooks<Item, Name, Model, Res>, s: S.Sieve<Name, Model>, items: seq<Item>, order: seq<Name>, k: nat)
    requires k < |order| && RunAll(h, s, items, order[..k]).result.Ok?
    ensures var p, r := RunAll(h, s, items, order[..k]), RunAll(h, s, items, order);
      var e, g := Ensure(h, p.cache, order[k]), Group(h, items, |items|, order[k]);
      && (e.result.Err? ==> r == Step(e.cache, p.calls + e.calls, Err(e.result.error)))
      && (e.result.Ok? ==>
            var ran := h.run(order[k], e.result.value, Sub(g));
            && (ran.None? ==> r == Step(e.cache, p.calls + e.calls, Err(RunFailed)))
            && (ran.Some? && |ran.value| != |g| ==> r == Step(e.cache, p.calls + e.calls, Err(WrongLength)))
            && (ran.Some? && |ran.value| == |g| ==>
                  RunAll(h, s, items, order[..k + 1]) == Step(e.cache, p.calls + e.calls, Ok(()))))
  {
    RunNext(h, s, items, order, k);
    if RunAll(h, s, items, order[..k + 1]).result.Err? {
      RunStops(h, s, items, order, k + 1);
    }
  }

  /** `r` is what running the group of item `i` gives at the item's own place in it. */
  ghost predicate ResultOf<Item, Name, Model, Res>(
      h: Hooks<Item, Name, Model, Res>, held: map<Name, Model>, items: seq<Item>, i: nat, r: Res)
    requires i < |items|
  {
    h.name(items[i]).Some? &&
    var name := h.name(items[i]).value;
    var g := Group(h, items, |items|, name);
    ModelFor(h, held, name).Some? &&
    var out := h.run(name, ModelFor(h, held, name).value, Sub(g));
    out.Some? && |out.value| == |g| && |Group(h, items, i, name)| < |g| && r == out.value[|Group(h, items, i, name)|]
  }

  /** Group and scatter is a per-item map: if running a group treats its items one
      by one, every item gets the result of its own input under its own model. */
  lemma GroupAndScatter<Item(!new), Name(!new), Model(!new), Res>(
      h: Hooks<Item, Name, Model, Res>, held: map<Name, Model>, items: seq<Item>, i: nat, r: Res,
      f: (Name, Model, Item) -> Res)
    requires i < |items| && ResultOf(h, held, items, i, r)
    requires forall n, m, xs :: h.run(n, m, xs).Some? && |h.run(n, m, xs).value| == |xs| ==>
      forall j :: 0 <= j < |xs| ==> h.run(n, m, xs).value[j] == f(n, m, xs[j])
    ensures r == f(h.name(items[i]).value, ModelFor(h, held, h.name(items[i]).value).value, items[i])
  {
    var name := h.name(items[i]).value;
    GroupIndex(h, items, |items|, name, i);
  }
}
