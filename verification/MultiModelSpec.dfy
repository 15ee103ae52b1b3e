/** Serving many models from one worker, on values: which calls to load and
    unload a batch causes, and which result each of its items gets. */
module MultiModelSpec {
  import opened Basics
  import S = SieveSpec
  import opened SieveMaps

  /** What the user of the worker supplies. A hook that raises yields `None` or `false`. */
  datatype Hooks<!Item, !Name, !Model, !Res> = Hooks(
    name: Item -> Option<Name>,
    has: Name -> bool,
    load: Name -> Option<Model>,
    unload: (Name, Model) -> bool,
    run: (Name, Model, seq<Item>) -> Option<seq<Res>>)

  datatype Failure = MissingName | Unavailable | UnloadFailed | LoadFailed | RunFailed | WrongLength

  /** A load that succeeded, or a call to unload. */
  datatype Call<Name, Model> = Load(name: Name, model: Model) | Unload(name: Name, model: Model)

  // ----- the ledger of loads and unloads -----

  /** What is loaded and not yet unloaded. */
  function Loaded<Name(==), Model>(calls: seq<Call<Name, Model>>): map<Name, Model> {
    if calls == [] then map[]
    else
      var before := Loaded(calls[..|calls| - 1]);
      match calls[|calls| - 1]
      case Load(n, m) => before[n := m]
      case Unload(n, _) => before - {n}
  }

  /** Only what is not loaded is loaded, and only what is loaded is unloaded,
      with the model that was loaded. */
  ghost predicate Alternates<Name, Model>(calls: seq<Call<Name, Model>>) {
    calls == [] ||
    var before := calls[..|calls| - 1];
    Alternates(before) &&
    match calls[|calls| - 1]
    case Load(n, _) => n !in Loaded(before)
    case Unload(n, m) => n in Loaded(before) && Loaded(before)[n] == m
  }

  function CallsOf<Name(==), Model>(calls: seq<Call<Name, Model>>, name: Name): seq<Call<Name, Model>> {
    if calls == [] then []
    else
      var rest := CallsOf(calls[..|calls| - 1], name);
      if calls[|calls| - 1].name == name then rest + [calls[|calls| - 1]] else rest
  }

  /** For each name the calls are load, unload, load, unload, ..., each unload is
      given the model of the load before it, and the name is loaded exactly when
      its last call is a load. */
  lemma {:induction false} AlternatesPerName<Name, Model>(calls: seq<Call<Name, Model>>, name: Name)
    requires Alternates(calls)
    ensures var own := CallsOf(calls, name);
      && (forall k :: 0 <= k < |own| ==> (own[k].Load? <==> k % 2 == 0))
      && (forall k :: 0 < k < |own| && k % 2 == 1 ==> own[k].model == own[k - 1].model)
      && (name in Loaded(calls) <==> |own| % 2 == 1)
      && (name in Loaded(calls) ==> own[|own| - 1].model == Loaded(calls)[name])
  {
    if calls != [] {
      AlternatesPerName(calls[..|calls| - 1], name);
    }
  }

  lemma AlternatesOneMore<Name, Model>(calls: seq<Call<Name, Model>>, call: Call<Name, Model>)
    requires Alternates(calls)
    requires if call.Load? then call.name !in Loaded(calls)
      else call.name in Loaded(calls) && Loaded(calls)[call.name] == call.model
    ensures Alternates(calls + [call])
    ensures Loaded(calls + [call]) ==
      if call.Load? then Loaded(calls)[call.name := call.model] else Loaded(calls) - {call.name}
  {
    assert (calls + [call])[..|calls|] == calls;
  }

  // ----- making a model available -----

  datatype Step<Name, Model, +T> = Step(cache: S.Sieve<Name, Model>, calls: seq<Call<Name, Model>>,
    result: Result<T, Failure>)

  function Room<Name, Model>(s: S.Sieve<Name, Model>): (S.Sieve<Name, Model>, Option<(Name, Model)>) {
    if |s.entries| >= s.capacity then S.Evict(s) else (s, None)
  }

  function Gone<Name, Model>(out: Option<(Name, Model)>): seq<Call<Name, Model>> {
    if out.Some? then [Unload(out.value.0, out.value.1)] else []
  }

  function Ensure<Item, Name(==), Model, Res>(h: Hooks<Item, Name, Model, Res>, s: S.Sieve<Name, Model>,
      name: Name): Step<Name, Model, Model>
  {
    if S.Has(s, name) then Step(S.Get(s, name).0, [], Ok(s.entries[S.Find(s.entries, name)].value))
    else if !h.has(name) then Step(s, [], Err(Unavailable))
    else
      var (room, out) := Room(s);
      var gone := Gone(out);
      if out.Some? && !h.unload(out.value.0, out.value.1) then Step(room, gone, Err(UnloadFailed))
      else match h.load(name)
        case None => Step(room, gone, Err(LoadFailed))
        case Some(m) => Step(S.PushHead(room, name, m), gone + [Load(name, m)], Ok(m))
  }

  /** The names loaded by some calls, in order. */
  function Loads<Name, Model>(calls: seq<Call<Name, Model>>): seq<Name> {
    if calls == [] then []
    else
      var before := Loads(calls[..|calls| - 1]);
      if calls[|calls| - 1].Load? then before + [calls[|calls| - 1].name] else before
  }

  lemma {:induction false} LoadsJoin<Name, Model>(a: seq<Call<Name, Model>>, b: seq<Call<Name, Model>>)
    ensures Loads(a + b) == Loads(a) + Loads(b)
    decreases |b|
  {
    if b == [] {
      assert a + b == a;
    } else {
      LoadsJoin(a, b[..|b| - 1]);
      assert (a + b)[..|a + b| - 1] == a + b[..|b| - 1];
    }
  }

  /** The insertion after the eviction never has to evict again: it is a plain
      push, so no model leaves the cache without being handed to unload. */
  lemma RoomForOne<Name(!new), Model(!new)>(s: S.Sieve<Name, Model>, name: Name, model: Model)
    requires S.Valid(s) && name !in Held(s.entries)
    ensures var (room, out) := Room(s);
      && S.Valid(room) && |room.entries| < room.capacity == s.capacity && name !in Held(room.entries)
      && S.Put(room, name, model) == (S.PushHead(room, name, model), None)
      && (if out.Some?
          then out.value.0 in Held(s.entries) && Held(s.entries)[out.value.0] == out.value.1
            && Held(room.entries) == Held(s.entries) - {out.value.0}
          else room == s)
  {
    if |s.entries| >= s.capacity {
      EvictHolds(s);
    }
    PutHolds(Room(s).0, name, model);
  }

  /** What the ledger and the cache agree on. */
  ghost predicate Balanced<Name(!new), Model(!new)>(calls: seq<Call<Name, Model>>, s: S.Sieve<Name, Model>) {
    S.Valid(s) && Alternates(calls) && Loaded(calls) == Held(s.entries)
  }

  lemma RoomBalances<Name(!new), Model(!new)>(s: S.Sieve<Name, Model>, name: Name, calls: seq<Call<Name, Model>>)
    requires Balanced(calls, s) && name !in Held(s.entries)
    ensures Balanced(calls + Gone(Room(s).1), Room(s).0) && name !in Held(Room(s).0.entries)
    ensures |Room(s).0.entries| < Room(s).0.capacity == s.capacity
  {
    var (room, out) := Room(s);
    if |s.entries| >= s.capacity {
      EvictHolds(s);
      AlternatesOneMore(calls, Unload(out.value.0, out.value.1));
    } else {
      assert calls + Gone(out) == calls;
    }
  }

  lemma LoadBalances<Name(!new), Model(!new)>(s: S.Sieve<Name, Model>, name: Name, model: Model,
      calls: seq<Call<Name, Model>>)
    requires Balanced(calls, s) && name !in Held(s.entries) && |s.entries| < s.capacity
    ensures Balanced(calls + [Load(name, model)], S.PushHead(s, name, model))
    ensures S.PushHead(s, name, model).capacity == s.capacity
  {
    PutHolds(s, name, model);
    AlternatesOneMore(calls, Load(name, model));
  }

  lemma EnsureBalances<Item, Name(!new), Model(!new), Res>(
      h: Hooks<Item, Name, Model, Res>, s: S.Sieve<Name, Model>, name: Name, calls: seq<Call<Name, Model>>)
    requires Balanced(calls, s)
    ensures Balanced(calls + Ensure(h, s, name).calls, Ensure(h, s, name).cache)
    ensures Ensure(h, s, name).cache.capacity == s.capacity
  {
    HeldIs(s, name);
    if S.Has(s, name) || !h.has(name) {
      GetHolds(s, name);
      assert calls + [] == calls;
    } else {
      MissBalances(h, s, name, calls);
    }
  }

  lemma MissBalances<Item, Name(!new), Model(!new), Res>(
      h: Hooks<Item, Name, Model, Res>, s: S.Sieve<Name, Model>, name: Name, calls: seq<Call<Name, Model>>)
    requires Balanced(calls, s) && name !in Held(s.entries) && !S.Has(s, name) && h.has(name)
    ensures Balanced(calls + Ensure(h, s, name).calls, Ensure(h, s, name).cache)
    ensures Ensure(h, s, name).cache.capacity == s.capacity
  {
    var e := Ensure(h, s, name);
    RoomBalances(s, name, calls);
    var room, gone := Room(s).0, Gone(Room(s).1);
    if e.result.Ok? {
      LoadBalances(room, name, e.result.value, calls + gone);
      assert calls + e.calls == calls + gone + [Load(name, e.result.value)];
    }
  }

  lemma PutAfterRoom<Name(!new), Model(!new)>(s: S.Sieve<Name, Model>, name: Name, model: Model)
    requires S.Valid(s) && !S.Has(s, name)
    ensures S.Put(Room(s).0, name, model) == (S.PushHead(Room(s).0, name, model), None)
  {
    HeldIs(s, name);
    RoomForOne(s, name, model);
  }

  lemma LoadsGone<Name, Model>(out: Option<(Name, Model)>)
    ensures Loads(Gone(out)) == []
  {
  }

  /** Making a model available when it is held, or when its name is bad. */
  lemma EnsureHeld<Item, Name(!new), Model(!new), Res>(h: Hooks<Item, Name, Model, Res>, s: S.Sieve<Name, Model>,
      name: Name)
    requires S.Valid(s)
    ensures var e := Ensure(h, s, name);
      && (name in Held(s.entries) ==>
            S.Valid(e.cache) && Held(e.cache.entries) == Held(s.entries) && e.calls == []
              && e.result == Ok(Held(s.entries)[name]))
      && (name !in Held(s.entries) && !h.has(name) ==> e == Step(s, [], Err(Unavailable)))
  {
    HeldIs(s, name);
    GetHolds(s, name);
  }

  /** Making a model available when it is not held: one load, and what was held
      stays as it was or goes. */
  lemma EnsureMissing<Item, Name(!new), Model(!new), Res>(h: Hooks<Item, Name, Model, Res>, s: S.Sieve<Name, Model>,
      name: Name)
    requires S.Valid(s) && name !in Held(s.entries)
    ensures var e := Ensure(h, s, name);
      && S.Valid(e.cache)
      && Loads(e.calls) == (if e.result.Ok? then [name] else [])
      && (e.result.Ok? ==> h.load(name) == Some(e.result.value) && name in Held(e.cache.entries))
      && (forall n ::
        n in Held(e.cache.entries) && n != name ==>
          n in Held(s.entries) && Held(e.cache.entries)[n] == Held(s.entries)[n])
  {
    HeldIs(s, name);
    if h.has(name) {
      var (room, out) := Room(s);
      MissIs(h, s, name);
      LoadsGone(out);
      RoomHolds(s, name);
      var e := Ensure(h, s, name);
      if e.result.Ok? {
        PutHolds(room, name, e.result.value);
        LoadsJoin(Gone(out), [Load(name, e.result.value)]);
      }
    }
  }

  /** The end of a miss once there is room: a load that fails leaves the room and says so,
      and one that succeeds puts its model into the cache. */
  ghost predicate LoadEnds<Item, Name(!new), Model(!new), Res>(
      h: Hooks<Item, Name, Model, Res>, room: S.Sieve<Name, Model>, before: seq<Call<Name, Model>>, name: Name,
      e: Step<Name, Model, Model>)
  {
    match h.load(name)
    case None => e == Step(room, before, Err(LoadFailed))
    case Some(m) => e == Step(S.Put(room, name, m).0, before + [Load(name, m)], Ok(m))
  }

  /** Making a model available, hook by hook: a held one is looked up; a name that is not
      available is refused before anything happens; a full cache evicts one entry and
      has it unloaded, and if that fails nothing is loaded; then comes the load. */
  lemma EnsureOutcomes<Item, Name(!new), Model(!new), Res>(h: Hooks<Item, Name, Model, Res>, s: S.Sieve<Name, Model>,
      name: Name)
    requires S.Valid(s)
    ensures var e, held := Ensure(h, s, name), Held(s.entries);
      && (name in held ==> e == Step(S.Get(s, name).0, [], Ok(held[name])))
      && (name !in held && !h.has(name) ==> e == Step(s, [], Err(Unavailable)))
      && (name !in held && h.has(name) && |s.entries| < s.capacity ==> LoadEnds(h, s, [], name, e))
      && (name !in held && h.has(name) && |s.entries| == s.capacity ==>
            var (room, out) := S.Evict(s);
            && out.Some?
            && var (key, model) := out.value;
            if h.unload(key, model) then LoadEnds(h, room, [Unload(key, model)], name, e)
            else e == Step(room, [Unload(key, model)], Err(UnloadFailed)))
  {
    HeldIs(s, name);
    if name !in Held(s.entries) && h.has(name) {
      if |s.entries| == s.capacity {
        EvictHolds(s);
      }
      MissEnds(h, s, name);
    }
  }

  lemma MissEnds<Item, Name(!new), Model(!new), Res>(h: Hooks<Item, Name, Model, Res>, s: S.Sieve<Name, Model>,
      name: Name)
    requires S.Valid(s) && !S.Has(s, name) && h.has(name)
    ensures var (room, out) := Room(s);
      out.None? || h.unload(out.value.0, out.value.1) ==> LoadEnds(h, room, Gone(out), name, Ensure(h, s, name))
  {
    if h.load(name).Some? {
      PutAfterRoom(s, name, h.load(name).value);
    }
  }

  /** The two ways a miss on an available name can end. */
  lemma MissIs<Item, Name(!new), Model(!new), Res>(h: Hooks<Item, Name, Model, Res>, s: S.Sieve<Name, Model>,
      name: Name)
    requires !S.Has(s, name) && h.has(name)
    ensures var (room, out) := Room(s);
      var e := Ensure(h, s, name);
      if e.result.Ok?
      then h.load(name) == Some(e.result.value) && e.cache == S.PushHead(room, name, e.result.value)
        && e.calls == Gone(out) + [Load(name, e.result.value)]
      else e.cache == room && e.calls == Gone(out)
  {
  }

  lemma RoomHolds<Name(!new), Model(!new)>(s: S.Sieve<Name, Model>, name: Name)
    requires S.Valid(s) && name !in Held(s.entries)
    ensures var room := Room(s).0;
      && S.Valid(room) && |room.entries| < room.capacity && name !in Held(room.entries)
      && forall n :: n in Held(room.entries) ==> n in Held(s.entries) && Held(room.entries)[n] == Held(s.entries)[n]
  {
    if |s.entries| >= s.capacity {
      EvictHolds(s);
    }
  }
}
