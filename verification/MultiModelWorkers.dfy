/** The multi-model worker as it is built: a cache on the heap, loops that fill
    groups and results, and a ledger of every load and unload it ever did. */
module MultiModelWorkers {
  import opened Basics
  import S = SieveSpec
  import C = SieveCaches
  import opened SieveMaps
  import opened MultiModelSpec
  import opened MultiModelBatches

  class MultiModelWorker<Item, Name(==, !new), Model(!new), Res> {
    const hooks: Hooks<Item, Name, Model, Res>
    const maxBatchSize: nat
    const cache: C.SieveCache<Name, Model>
    ghost var ledger: seq<Call<Name, Model>>

    ghost predicate Valid()
      reads this, cache, cache.nodes
    {
      cache.Valid() && Balanced(ledger, cache.View())
    }

    constructor (hooks: Hooks<Item, Name, Model, Res>, maxBatchSize: nat, cacheSize: nat)
      requires cacheSize >= 1
      ensures Valid() && fresh(cache) && fresh(cache.nodes) && this.hooks == hooks && this.maxBatchSize == maxBatchSize
      ensures cache.View() == S.Empty(cacheSize) && ledger == []
    {
      this.hooks, this.maxBatchSize := hooks, maxBatchSize;
      var c := new C.SieveCache(cacheSize);
      cache := c;
      ledger := [];
    }

    /** The model of this name, loading it on a miss and unloading what has to go. */
    method EnsureModel(name: Name) returns (r: Result<Model, Failure>, ghost calls: seq<Call<Name, Model>>)
      requires cache.Valid()
      modifies cache, cache.nodes
      ensures cache.Valid() && forall n :: n in cache.nodes ==> n in old(cache.nodes) || fresh(n)
      ensures var e := Ensure(hooks, old(cache.View()), name);
        cache.View() == e.cache && calls == e.calls && r == e.result
    {
      var hit := cache.Contains(name);
      if hit {
        var m := cache.Get(name);
        return Ok(m.value), [];
      }
      if !hooks.has(name) {
        return Err(Unavailable), [];
      }
      r, calls := LoadModel(name);
    }

    /** The miss path of an available name. */
    method LoadModel(name: Name) returns (r: Result<Model, Failure>, ghost calls: seq<Call<Name, Model>>)
      requires cache.Valid() && !S.Has(cache.View(), name) && hooks.has(name)
      modifies cache, cache.nodes
      ensures cache.Valid() && forall n :: n in cache.nodes ==> n in old(cache.nodes) || fresh(n)
      ensures var e := Ensure(hooks, old(cache.View()), name);
        cache.View() == e.cache && calls == e.calls && r == e.result
    {
      ghost var s := cache.View();
      cache.ViewValid();
      var unloaded;
      unloaded, calls := MakeRoom();
      if !unloaded {
        return Err(UnloadFailed), calls;
      }
      var m := hooks.load(name);
      if m.None? {
        return Err(LoadFailed), calls;
      }
      PutAfterRoom(s, name, m.value);
      var second := cache.Put(name, m.value);
      assert second == None;
      return Ok(m.value), calls + [Load(name, m.value)];
    }

    /** Evicts from a full cache and unloads what was evicted. */
    method MakeRoom() returns (unloaded: bool, ghost calls: seq<Call<Name, Model>>)
      requires cache.Valid()
      modifies cache, cache.nodes
      ensures cache.Valid() && forall n :: n in cache.nodes ==> n in old(cache.nodes)
      ensures var (room, out) := Room(old(cache.View()));
        && cache.View() == room && calls == Gone(out)
        && unloaded == (out.Some? ==> hooks.unload(out.value.0, out.value.1))
    {
      var n := cache.Len();
      if n < cache.maxSize {
        return true, [];
      }
      var out := cache.Evict();
      if out.None? {
        return true, [];
      }
      unloaded, calls := hooks.unload(out.value.0, out.value.1), [Unload(out.value.0, out.value.1)];
    }

    /** Fills one list of positions and items per name, names in order of appearance. */
    method GroupItems(items: seq<Item>) returns (named: bool, order: seq<Name>, groups: map<Name, seq<(nat, Item)>>)
      ensures named <==> AllNamed(hooks, items)
      ensures named ==> order == Names(hooks, items, |items|) && Grouped(items, |items|, order, groups)
    {
      order, groups := [], map[];
      for i := 0 to |items|
        invariant forall j :: 0 <= j < i ==> hooks.name(items[j]).Some?
        invariant order == Names(hooks, items, i) && Grouped(items, i, order, groups)
      {
        var name := hooks.name(items[i]);
        if name.None? {
          return false, order, groups;
        }
        GroupedNext(items, i, order, groups, name.value);
        if name.value !in groups {
          order := order + [name.value];
          groups := groups[name.value := []];
        }
        groups := groups[name.value := groups[name.value] + [(i, items[i])]];
      }
      return true, order, groups;
    }

    lemma GroupedNext(items: seq<Item>, i: nat, order: seq<Name>, groups: map<Name, seq<(nat, Item)>>, name: Name)
      requires i < |items| && hooks.name(items[i]) == Some(name)
      requires order == Names(hooks, items, i) && Grouped(items, i, order, groups)
      ensures var order' := if name in groups then order else order + [name];
        var own := if name in groups then groups[name] else [];
        order' == Names(hooks, items, i + 1) && Grouped(items, i + 1, order', groups[name := own + [(i, items[i])]])
    {
      if name !in groups {
        EmptyGroup(items, i, name);
      }
    }

    ghost predicate Grouped(items: seq<Item>, k: nat, order: seq<Name>, groups: map<Name, seq<(nat, Item)>>)
      requires k <= |items|
    {
      && (forall n :: n in groups <==> n in order)
      && (forall n :: n in groups ==> groups[n] == Group(hooks, items, k, n))
    }

    lemma {:induction false} EmptyGroup(items: seq<Item>, k: nat, name: Name)
      requires k <= |items| && name !in Names(hooks, items, k)
      ensures Group(hooks, items, k, name) == []
    {
      if k > 0 {
        EmptyGroup(items, k - 1, name);
      }
    }

    /** Held names before missing ones, so that no eviction takes a model that the
        batch still needs. */
    method SplitGroups(order: seq<Name>) returns (hits: seq<Name>, misses: seq<Name>)
      requires cache.Valid()
      ensures hits == Hits(cache.View(), order) && misses == Misses(cache.View(), order)
    {
      hits, misses := [], [];
      for k := 0 to |order|
        invariant hits == Hits(cache.View(), order[..k]) && misses == Misses(cache.View(), order[..k])
      {
        assert order[..k + 1][..k] == order[..k];
        var hit := cache.Contains(order[k]);
        if hit {
          hits := hits + [order[k]];
        } else {
          misses := misses + [order[k]];
        }
      }
      assert order[..|order|] == order;
    }

    /** Runs one group under its own model. */
    method RunGroup(name: Name, g: seq<(nat, Item)>, ghost items: seq<Item>)
      returns (r: Result<seq<Res>, Failure>, ghost calls: seq<Call<Name, Model>>)
      requires cache.Valid() && g == Group(hooks, items, |items|, name)
      modifies cache, cache.nodes
      ensures cache.Valid() && forall n :: n in cache.nodes ==> n in old(cache.nodes) || fresh(n)
      ensures RunOne(hooks, old(cache.View()), items, name) == Step(cache.View(), calls, r)
    {
      var model;
      model, calls := EnsureModel(name);
      if model.Err? {
        return Err(model.error), calls;
      }
      var out := hooks.run(name, model.value, Sub(g));
      if out.None? {
        return Err(RunFailed), calls;
      }
      if |out.value| != |g| {
        return Err(WrongLength), calls;
      }
      return Ok(out.value), calls;
    }

    /** Puts the results of a group at the positions of its items, each of which is
        still empty. */
    static method Scatter(g: seq<(nat, Item)>, rs: seq<Res>, results: seq<Option<Res>>) returns (out: seq<Option<Res>>)
      requires |g| == |rs|
      requires forall j, k :: 0 <= j < k < |g| ==> g[j].0 != g[k].0
      requires forall j :: 0 <= j < |g| ==> g[j].0 < |results| && results[g[j].0] == None
      ensures |out| == |results|
      ensures forall j :: 0 <= j < |g| ==> out[g[j].0] == Some(rs[j])
      ensures forall i :: 0 <= i < |results| && (forall j :: 0 <= j < |g| ==> g[j].0 != i) ==> out[i] == results[i]
    {
      out := results;
      for k := 0 to |g|
        invariant |out| == |results|
        invariant forall j :: 0 <= j < k ==> out[g[j].0] == Some(rs[j])
        invariant forall j :: k <= j < |g| ==> out[g[j].0] == None
        invariant forall i :: 0 <= i < |results| && (forall j :: 0 <= j < |g| ==> g[j].0 != i) ==> out[i] == results[i]
      {
        out := out[g[k].0 := Some(rs[k])];
      }
    }

    /** The results written so far: those of the names in `done`, and no others. */
    ghost predicate Written(held: map<Name, Model>, items: seq<Item>, done: set<Name>, results: seq<Option<Res>>) {
      && |results| == |items| && AllNamed(hooks, items)
      && forall i :: 0 <= i < |items| ==> WrittenAt(held, items, done, results[i], i)
    }

    ghost predicate WrittenAt(held: map<Name, Model>, items: seq<Item>, done: set<Name>, result: Option<Res>, i: nat)
      requires i < |items| && hooks.name(items[i]).Some?
    {
      if hooks.name(items[i]).value in done then result.Some? && ResultOf(hooks, held, items, i, result.value)
      else result == None
    }

    /** `rs` is what running this group under its own model gives. */
    ghost predicate Ran(held: map<Name, Model>, items: seq<Item>, name: Name, rs: seq<Res>) {
      var g := Group(hooks, items, |items|, name);
      && ModelFor(hooks, held, name).Some? && |rs| == |g|
      && hooks.run(name, ModelFor(hooks, held, name).value, Sub(g)) == Some(rs)
    }

    /** Writes the results of the `k`-th group. */
    method WriteTurn(order: seq<Name>, k: nat, g: seq<(nat, Item)>, rs: seq<Res>, results: seq<Option<Res>>,
                     ghost held: map<Name, Model>, ghost items: seq<Item>)
      returns (out: seq<Option<Res>>)
      requires Distinct(order) && k < |order| && Written(held, items, Elements(order[..k]), results)
      requires g == Group(hooks, items, |items|, order[k]) && Ran(held, items, order[k], rs)
      ensures Written(held, items, Elements(order[..k + 1]), out)
    {
      GroupPlaces(items, order[k]);
      assert order[k] !in order[..k];
      out := Scatter(g, rs, results);
      WrittenNext(Elements(order[..k]), order[k], g, rs, results, out, held, items);
      assert Elements(order[..k + 1]) == Elements(order[..k]) + {order[k]};
    }

    /** The members of a group sit at different positions and have its name. */
    lemma GroupPlaces(items: seq<Item>, name: Name)
      ensures var g := Group(hooks, items, |items|, name);
        && (forall j :: 0 <= j < |g| ==> g[j].0 < |items| && hooks.name(items[g[j].0]) == Some(name))
        && (forall j, k :: 0 <= j < k < |g| ==> g[j].0 != g[k].0)
    {
      var g := Group(hooks, items, |items|, name);
      forall j | 0 <= j < |g|
        ensures g[j].0 < |items| && hooks.name(items[g[j].0]) == Some(name) && |Group(hooks, items, g[j].0, name)| == j
      {
        GroupMember(hooks, items, |items|, name, j);
      }
    }

    lemma WrittenNext(done: set<Name>, name: Name, g: seq<(nat, Item)>, rs: seq<Res>, results: seq<Option<Res>>,
        out: seq<Option<Res>>,
                      held: map<Name, Model>, items: seq<Item>)
      requires Written(held, items, done, results)
      requires g == Group(hooks, items, |items|, name) && Ran(held, items, name, rs)
      requires |out| == |results| && forall j :: 0 <= j < |g| ==> g[j].0 < |out| && out[g[j].0] == Some(rs[j])
      requires forall i :: 0 <= i < |results| && (forall j :: 0 <= j < |g| ==> g[j].0 != i) ==> out[i] == results[i]
      ensures Written(held, items, done + {name}, out)
    {
      forall i | 0 <= i < |items| ensures WrittenAt(held, items, done + {name}, out[i], i) {
        if hooks.name(items[i]).value == name {
          OwnResult(held, items, name, rs, i);
        } else {
          OtherResult(items, name, results, out, i);
          assert WrittenAt(held, items, done, results[i], i);
        }
      }
    }

    lemma OtherResult(items: seq<Item>, name: Name, results: seq<Option<Res>>, out: seq<Option<Res>>, i: nat)
      requires i < |items| == |results| == |out| && hooks.name(items[i]) != Some(name)
      requires var g := Group(hooks, items, |items|, name);
        forall i :: 0 <= i < |results| && (forall j :: 0 <= j < |g| ==> g[j].0 != i) ==> out[i] == results[i]
      ensures out[i] == results[i]
    {
      GroupPlaces(items, name);
    }

    lemma OwnResult(held: map<Name, Model>, items: seq<Item>, name: Name, rs: seq<Res>, i: nat)
      requires i < |items| && hooks.name(items[i]) == Some(name) && Ran(held, items, name, rs)
      ensures var j, g := |Group(hooks, items, i, name)|, Group(hooks, items, |items|, name);
        j < |rs| == |g| && g[j].0 == i && ResultOf(hooks, held, items, i, rs[j])
    {
      GroupIndex(hooks, items, |items|, name, i);
    }

    /** What a schedule promises about its two halves. */
    ghost predicate Scheduled(s: S.Sieve<Name, Model>, items: seq<Item>, order: seq<Name>, hits: seq<Name>,
        misses: seq<Name>)
    {
      && S.Valid(s) && AllNamed(hooks, items)
      && order == hits + misses && Distinct(order) && Distinct(misses)
      && (forall n :: n in hits ==> n in Held(s.entries))
      && (forall n :: n in misses ==> n !in Held(s.entries))
    }

    /** The `k`-th group of a schedule. */
    method TakeTurn(ghost s: S.Sieve<Name, Model>, ghost items: seq<Item>, order: seq<Name>, ghost hits: seq<Name>,
        ghost misses: seq<Name>,
                    k: nat, g: seq<(nat, Item)>, ghost calls: seq<Call<Name, Model>>)
      returns (r: Result<seq<Res>, Failure>, ghost more: seq<Call<Name, Model>>)
      requires cache.Valid() && Scheduled(s, items, order, hits, misses) && k < |order|
      requires g == Group(hooks, items, |items|, order[k])
      requires RunAll(hooks, s, items, order[..k]) == Step(cache.View(), calls, Ok(()))
      modifies cache, cache.nodes
      ensures cache.Valid() && forall n :: n in cache.nodes ==> n in old(cache.nodes) || fresh(n)
      ensures RunAll(hooks, s, items, order[..k + 1]) == Step(cache.View(), more, Done(r))
      ensures if r.Ok? then Ran(Held(s.entries), items, order[k], r.value)
        else RunAll(hooks, s, items, order) == Step(cache.View(), more, Err(r.error))
    {
      Turn(hooks, s, items, hits, misses, k, cache.View(), calls);
      r, more := RunGroup(order[k], g, items);
      more := calls + more;
      if r.Err? {
        RunStops(hooks, s, items, order, k + 1);
      }
    }

    /** Runs the `k`-th group and writes its results. */
    method NextGroup(ghost s: S.Sieve<Name, Model>, items: seq<Item>, order: seq<Name>, ghost hits: seq<Name>,
        ghost misses: seq<Name>,
                     k: nat, g: seq<(nat, Item)>, results: seq<Option<Res>>, ghost calls: seq<Call<Name, Model>>)
      returns (r: Result<seq<Option<Res>>, Failure>, ghost more: seq<Call<Name, Model>>)
      requires cache.Valid() && Scheduled(s, items, order, hits, misses) && k < |order|
      requires g == Group(hooks, items, |items|, order[k])
      requires RunAll(hooks, s, items, order[..k]) == Step(cache.View(), calls, Ok(()))
      requires Written(Held(s.entries), items, Elements(order[..k]), results)
      modifies cache, cache.nodes
      ensures cache.Valid() && forall n :: n in cache.nodes ==> n in old(cache.nodes) || fresh(n)
      ensures r.Ok? ==>
        && RunAll(hooks, s, items, order[..k + 1]) == Step(cache.View(), more, Ok(()))
        && Written(Held(s.entries), items, Elements(order[..k + 1]), r.value)
      ensures r.Err? ==> RunAll(hooks, s, items, order) == Step(cache.View(), more, Err(r.error))
    {
      var rs;
      rs, more := TakeTurn(s, items, order, hits, misses, k, g, calls);
      if rs.Err? {
        return Err(rs.error), more;
      }
      var out := WriteTurn(order, k, g, rs.value, results, Held(s.entries), items);
      return Ok(out), more;
    }

    /** Runs the groups one after the other, until one fails. */
    method RunGroups(order: seq<Name>, groups: map<Name, seq<(nat, Item)>>, items: seq<Item>, ghost hits: seq<Name>,
        ghost misses: seq<Name>)
      returns (r: Result<seq<Option<Res>>, Failure>, ghost calls: seq<Call<Name, Model>>)
      requires cache.Valid() && Scheduled(cache.View(), items, order, hits, misses)
      requires forall n :: n in order ==> n in groups && groups[n] == Group(hooks, items, |items|, n)
      modifies cache, cache.nodes
      ensures cache.Valid() && forall n :: n in cache.nodes ==> n in old(cache.nodes) || fresh(n)
      ensures RunAll(hooks, old(cache.View()), items, order) == Step(cache.View(), calls, Done(r))
      ensures r.Ok? ==> Written(Held(old(cache.View()).entries), items, Elements(order), r.value)
    {
      ghost var s := cache.View();
      r, calls := Ok(seq(|items|, _ => None)), [];
      var k := 0;
      assert order[..0] == [] && Written(Held(s.entries), items, {}, r.value);
      while k < |order|
        invariant k <= |order| && r.Ok?
        invariant cache.Valid() && forall n :: n in cache.nodes ==> n in old(cache.nodes) || fresh(n)
        invariant RunAll(hooks, s, items, order[..k]) == Step(cache.View(), calls, Ok(()))
        invariant Written(Held(s.entries), items, Elements(order[..k]), r.value)
      {
        r, calls := NextGroup(s, items, order, hits, misses, k, groups[order[k]], r.value, calls);
        if r.Err? {
          return;
        }
        k := k + 1;
      }
      assert order[..k] == order;
    }

    /** Groups the items and puts the groups in order. */
    method Plan(items: seq<Item>)
      returns (named: bool, order: seq<Name>, groups: map<Name, seq<(nat, Item)>>, ghost hits: seq<Name>,
        ghost misses: seq<Name>)
      requires cache.Valid() && S.Valid(cache.View())
      ensures named <==> AllNamed(hooks, items)
      ensures named ==>
        && Scheduled(cache.View(), items, order, hits, misses) && order == Schedule(hooks, cache.View(), items)
        && (forall n :: n in Names(hooks, items, |items|) ==> n in order)
        && forall n :: n in order ==> n in groups && groups[n] == Group(hooks, items, |items|, n)
    {
      named, order, groups := GroupItems(items);
      hits, misses := [], [];
      if named {
        var held, missing := SplitGroups(order);
        ScheduleFits(cache.View(), items);
        hits, misses := held, missing;
        order := held + missing;
      }
    }

    /** The batch without its ledger. */
    method Dispatch(items: seq<Item>) returns (r: Result<seq<Res>, Failure>, ghost calls: seq<Call<Name, Model>>)
      requires cache.Valid() && S.Valid(cache.View())
      modifies cache, cache.nodes
      ensures cache.Valid() && forall n :: n in cache.nodes ==> n in old(cache.nodes) || fresh(n)
      ensures Dispatched(old(cache.View()), items, cache.View(), calls, r)
    {
      var named, order, groups;
      ghost var hits, misses;
      named, order, groups, hits, misses := Plan(items);
      if !named {
        return Err(MissingName), [];
      }
      r, calls := RunPlan(order, groups, items, hits, misses);
    }

    method RunPlan(order: seq<Name>, groups: map<Name, seq<(nat, Item)>>, items: seq<Item>, ghost hits: seq<Name>,
        ghost misses: seq<Name>)
      returns (r: Result<seq<Res>, Failure>, ghost calls: seq<Call<Name, Model>>)
      requires cache.Valid() && Scheduled(cache.View(), items, order, hits, misses)
      requires forall n :: n in Names(hooks, items, |items|) ==> n in order
      requires forall n :: n in order ==> n in groups && groups[n] == Group(hooks, items, |items|, n)
      modifies cache, cache.nodes
      ensures cache.Valid() && forall n :: n in cache.nodes ==> n in old(cache.nodes) || fresh(n)
      ensures RunAll(hooks, old(cache.View()), items, order) == Step(cache.View(), calls, Done(r))
      ensures r.Ok? ==>
        && |r.value| == |items|
        && forall i :: 0 <= i < |items| ==> ResultOf(hooks, Held(old(cache.View()).entries), items, i, r.value[i])
    {
      ghost var held := Held(cache.View().entries);
      var written;
      written, calls := RunGroups(order, groups, items, hits, misses);
      if written.Err? {
        return Err(written.error), calls;
      }
      var values := Complete(held, items, written.value, Elements(order));
      return Ok(values), calls;
    }

    /** Once every group has been written there is no hole left. */
    method Complete(ghost held: map<Name, Model>, ghost items: seq<Item>, results: seq<Option<Res>>,
        ghost done: set<Name>) returns (values: seq<Res>)
      requires Written(held, items, done, results) && forall n :: n in Names(hooks, items, |items|) ==> n in done
      ensures |values| == |items| && forall i :: 0 <= i < |items| ==> ResultOf(hooks, held, items, i, values[i])
    {
      NamesAre(hooks, items, |items|);
      assert |results| == |items| && forall i ::
        0 <= i < |items| ==> results[i].Some? && ResultOf(hooks, held, items, i, results[i].value);
      values := seq(|results|, i requires 0 <= i < |results| => results[i].value);
    }

    /** A batch fails on an unnamed item before it touches anything; otherwise its
        groups run in schedule order and every item gets its own result. */
    ghost predicate Dispatched(s: S.Sieve<Name, Model>, items: seq<Item>, t: S.Sieve<Name, Model>,
                               calls: seq<Call<Name, Model>>, r: Result<seq<Res>, Failure>)
    {
      if !AllNamed(hooks, items) then t == s && calls == [] && r == Err(MissingName)
      else
        && RunAll(hooks, s, items, Schedule(hooks, s, items)) == Step(t, calls, Done(r))
        && (r.Ok? ==>
              && |r.value| == |items|
              && (forall i ::
                0 <= i < |items| ==> S.Valid(s) && ResultOf(hooks, Held(s.entries), items, i, r.value[i])))
    }

    lemma ScheduleFits(s: S.Sieve<Name, Model>, items: seq<Item>)
      requires S.Valid(s) && AllNamed(hooks, items)
      ensures var names := Names(hooks, items, |items|);
        Scheduled(s, items, Schedule(hooks, s, items), Hits(s, names), Misses(s, names))
    {
      var names := Names(hooks, items, |items|);
      NamesAre(hooks, items, |items|);
      SplitDistinct(s, names);
      forall n ensures S.Has(s, n) <==> n in Held(s.entries) {
        HeldIs(s, n);
      }
      var hits, misses := Hits(s, names), Misses(s, names);
      forall i, j | 0 <= i < |hits| <= j < |hits| + |misses| ensures (hits + misses)[i] != (hits + misses)[j] {
        assert hits[i] in hits && misses[j - |hits|] in misses;
      }
    }

    /** One batch, with its ledger. */
    method ForwardItems(items: seq<Item>) returns (r: Result<seq<Res>, Failure>)
      requires Valid()
      modifies `ledger, cache, cache.nodes
      ensures Valid() && forall n :: n in cache.nodes ==> n in old(cache.nodes) || fresh(n)
      ensures old(ledger) <= ledger
      ensures Dispatched(old(cache.View()), items, cache.View(), ledger[|old(ledger)|..], r)
    {
      ghost var after;
      r, after := DispatchOn(items, ledger);
      ledger := after;
    }

    /** The batch with the ledger it starts from and the one it ends with. */
    method DispatchOn(items: seq<Item>, ghost before: seq<Call<Name, Model>>)
      returns (r: Result<seq<Res>, Failure>, ghost after: seq<Call<Name, Model>>)
      requires cache.Valid() && Balanced(before, cache.View())
      modifies cache, cache.nodes
      ensures cache.Valid() && forall n :: n in cache.nodes ==> n in old(cache.nodes) || fresh(n)
      ensures Balanced(after, cache.View()) && before <= after
      ensures Dispatched(old(cache.View()), items, cache.View(), after[|before|..], r)
    {
      ghost var s := cache.View();
      ghost var calls;
      r, calls := Dispatch(items);
      DispatchBalances(s, items, cache.View(), calls, r, before);
      after := before + calls;
    }

    lemma DispatchBalances(s: S.Sieve<Name, Model>, items: seq<Item>, t: S.Sieve<Name, Model>,
        calls: seq<Call<Name, Model>>, r: Result<seq<Res>, Failure>, before: seq<Call<Name, Model>>)
      requires Balanced(before, s) && Dispatched(s, items, t, calls, r)
      ensures Balanced(before + calls, t) && before <= before + calls && (before + calls)[|before|..] == calls
    {
      if AllNamed(hooks, items) {
        RunBalances(hooks, s, items, Schedule(hooks, s, items), before);
      } else {
        assert before + calls == before;
      }
    }

    /** One call of the worker: with batching the data is the items and the answer
        is their results; without, the data is one item and the answer its result. */
    method Forward(data: Payload<Item>) returns (r: Result<Payload<Res>, Failure>)
      requires Valid() && (data.Many? <==> maxBatchSize > 1)
      modifies `ledger, cache, cache.nodes
      ensures Valid() && forall n :: n in cache.nodes ==> n in old(cache.nodes) || fresh(n)
      ensures old(ledger) <= ledger
      ensures r.Ok? ==> (r.value.Many? <==> data.Many?)
      ensures Dispatched(old(cache.View()), ItemsOf(data), cache.View(), ledger[|old(ledger)|..],
                         if r.Ok? then Ok(ItemsOf(r.value)) else Err(r.error))
    {
      var isBatched := maxBatchSize > 1;
      var items := if isBatched then data.items else [data.item];
      var results := ForwardItems(items);
      if results.Err? {
        return Err(results.error);
      }
      if isBatched {
        return Ok(Many(results.value));
      }
      assert results.value == [results.value[0]];
      return Ok(One(results.value[0]));
    }
  }

  /** What a worker is called with and what it returns. */
  datatype Payload<+T> = Many(items: seq<T>) | One(item: T)

  function ItemsOf<T>(data: Payload<T>): seq<T> {
    match data
    case Many(items) => items
    case One(item) => [item]
  }
}
