/** The parts put together: a batch that crosses the wire to a worker process and
    back is a reply of the step system, and so a request that succeeds gets the
    composition of its route's workers applied to its own input. */
module Serving {
  import opened Basics
  import F = Frames
  import T = Tasks
  import R = RustWire
  import P = PythonWire
  import K = PythonSocket
  import opened Wire
  import opened Coordinators
  import L = CoordinatorLoops
  import Pipeline
  import I = PipelineInvariant
  import Theorems = PipelineTheorems

  /** Worker number `n` of the pipeline is this worker, computing `f` on each item. */
  ghost predicate Serves<Data(!new)>(cfg: Pipeline.Config, n: nat, w: Worker<Data>, f: Data -> Data) {
    Honest(w) && Pointwise(w, f) && forall state: nat, payload: Bytes ::
      cfg.work(n, state, payload) == Work(w, f, state, payload)
  }

  /** What a worker process replies to a batch is one of the answers the step
      system allows. */
  lemma ReplyIsAnswer<Data(!new)>(cfg: Pipeline.Config, n: nat, w: Worker<Data>, f: Data -> Data, ids: seq<Id>,
      data: seq<Bytes>, states: seq<nat>)
    requires Serves(cfg, n, w, f) && |ids| == |data| == |states|
    ensures var (status, out) := Respond(w, data, states);
      Pipeline.Answers(cfg, n, Pipeline.Sent(ids, data, states), CodeFor(status), out)
  {
    OneReplyForEach(w, data, states);
    var (status, out) := Respond(w, data, states);
    if status == Status.Okay {
      forall i | 0 <= i < |ids| ensures cfg.work(n, states[i], data[i]) == Some(out[i]) {
        EachItsOwn(w, f, data, states, i);
      }
    }
  }

  function Jobs(ids: seq<Id>, data: seq<Bytes>, states: seq<F.U16>): (jobs: seq<P.Job>)
    requires R.Parallel(ids, data, states)
    ensures L.IdsIn(jobs) == IdBytes(ids) && L.PayloadsIn(jobs) == data && L.StatesIn(jobs) == states
  {
    var jobs := seq(|ids|, i requires 0 <= i < |ids| => P.Job(F.PutU32(ids[i]), states[i], data[i]));
    assert L.IdsIn(jobs) == IdBytes(ids) && L.PayloadsIn(jobs) == data && L.StatesIn(jobs) == states;
    jobs
  }

  /** A batch goes out and comes back: the worker process gets exactly the batch if and
      only if calls stall only before its first byte and then no fixed-size field is cut
      and nothing stalls, and the server reads its reply as the same ids with a code
      and payloads that the step system allows. */
  lemma BatchThereAndBack<Data(!new)>(
      cfg: Pipeline.Config, n: nat, w: Worker<Data>, f: Data -> Data,
      ids: seq<Id>, data: seq<Bytes>, states: seq<F.U16>, cuts: seq<P.Cut>, before: Bytes, after: Bytes)
    requires Serves(cfg, n, w, f) && R.Parallel(ids, data, states) && R.Bounded(ids, data)
    ensures var (batch, d) := P.ReceiveBatch(P.Arriving(R.Sent(ids, data, states) + before, cuts));
      batch == P.Got(([0, 0], Jobs(ids, data, states))) && d.bytes == before
      <==> P.MessageWhole(P.SkipStalls(cuts), R.MessageOf(0, ids, data, states))
    ensures var (status, out) := Respond(w, data, states);
      K.Sendable(FlagOf(status), IdBytes(ids), states, out) ==>
        var r := F.Decode(K.Packed(FlagOf(status), IdBytes(ids), states, out) + after);
        && r.Some? && r.value.1 == after
        && R.IdsOf(r.value.0.items) == ids && R.DataOf(r.value.0.items) == out
        && Pipeline.Answers(cfg, n, Pipeline.Sent(ids, data, states), R.CodeOf(r.value.0.flag),
          R.DataOf(r.value.0.items))
  {
    ServerToWorker(ids, data, states, before, cuts);
    ReplyIsAnswer(cfg, n, w, f, ids, data, states);
    var (status, out) := Respond(w, data, states);
    if K.Sendable(FlagOf(status), IdBytes(ids), states, out) {
      WorkerToServer(FlagOf(status), ids, states, out, after);
      FlagsAgree(status, status);
    }
  }

  // ----- the composition of a route -----

  /** The workers of a pipeline with what they compute. */
  datatype Site<!Data> = Site(worker: Worker<Data>, f: Data -> Data)

  ghost predicate Staffed<Data(!new)>(cfg: Pipeline.Config, sites: seq<Site<Data>>) {
    |sites| == |cfg.batchSize| && forall n :: 0 <= n < |sites| ==> Serves(cfg, n, sites[n].worker, sites[n].f)
  }

  /** Between consecutive stages of the route, decoding undoes encoding. */
  ghost predicate Linked<Data(!new)>(sites: seq<Site<Data>>, route: seq<nat>)
    requires forall k :: 0 <= k < |route| ==> route[k] < |sites|
  {
    forall k :: 0 <= k < |route| - 1 ==> Undoes(sites[route[k + 1]].worker, sites[route[k]].worker)
  }

  ghost predicate Undoes<Data(!new)>(next: Worker<Data>, previous: Worker<Data>) {
    forall d :: previous.serializeIpc(d).Ok? ==> next.deserializeIpc(previous.serializeIpc(d).value) == Ok(d)
  }

  /** The input decoded at the first stage, then the workers' functions in order. */
  function Composed<Data>(sites: seq<Site<Data>>, route: seq<nat>, k: nat, input: Bytes): Option<Data>
    requires route != [] && k <= |route| && forall j :: 0 <= j < |route| ==> route[j] < |sites|
  {
    if k == 0 then
      match sites[route[0]].worker.deserialize(input)
      case Ok(d) => Some(d)
      case Err(_) => None
    else
      match Composed(sites, route, k - 1, input)
      case Some(d) => Some(sites[route[k - 1]].f(d))
      case None => None
  }

  /** `data` encodes the composition of the first `k` stages on `input`: for the
      client after the last stage, for the next worker before it. */
  ghost predicate Carries<Data(!new)>(sites: seq<Site<Data>>, route: seq<nat>, k: nat, input: Bytes, data: Bytes)
    requires 0 < k <= |route| && forall j :: 0 <= j < |route| ==> route[j] < |sites|
  {
    var value, last := Composed(sites, route, k, input), sites[route[k - 1]].worker;
    value.Some? && (if k == |route| then last.serialize(value.value) else last.serializeIpc(value.value)) == Ok(data)
  }

  predicate OnSites<Data>(sites: seq<Site<Data>>, route: seq<nat>) {
    route != [] && forall j :: 0 <= j < |route| ==> route[j] < |sites|
  }

  /** What the workers make of an input, one stage after the other. */
  function Made<Data>(sites: seq<Site<Data>>, route: seq<nat>, k: nat, input: Bytes): Option<Bytes>
    requires OnSites(sites, route) && k <= |route|
  {
    if k == 0 then Some(input)
    else
      match Made(sites, route, k - 1, input)
      case None => None
      case Some(given) => Work(sites[route[k - 1]].worker, sites[route[k - 1]].f, T.StateBits(k - 1, |route|), given)
  }

  lemma {:induction false} JourneyIsMade<Data(!new)>(cfg: Pipeline.Config, sites: seq<Site<Data>>, route: string,
      k: nat, input: Bytes)
    requires cfg.Valid() && route in cfg.routes && Staffed(cfg, sites) && k <= |cfg.routes[route]|
    ensures OnSites(sites, cfg.routes[route])
      && I.Journey(cfg, route, k, input) == Made(sites, cfg.routes[route], k, input)
  {
    if k > 0 {
      JourneyIsMade(cfg, sites, route, k - 1, input);
      var n := cfg.routes[route][k - 1];
      assert Serves(cfg, n, sites[n].worker, sites[n].f);
    }
  }

  /** The client codec is used at the two ends of the route and the internal one
      between stages, so the payload after `k` stages encodes the composition. */
  lemma {:induction false} MadeIsComposition<Data(!new)>(sites: seq<Site<Data>>, route: seq<nat>, k: nat, input: Bytes)
    requires OnSites(sites, route) && Linked(sites, route) && 0 < k <= |route| && Made(sites, route, k, input).Some?
    ensures Carries(sites, route, k, input, Made(sites, route, k, input).value)
  {
    var given, made := Made(sites, route, k - 1, input).value, Made(sites, route, k, input).value;
    if k == 1 {
      CarriesFirst(sites, route, given, made);
    } else {
      MadeIsComposition(sites, route, k - 1, input);
      CarriesNext(sites, route, k, input, given, made);
    }
  }

  lemma CarriesFirst<Data(!new)>(sites: seq<Site<Data>>, route: seq<nat>, input: Bytes, made: Bytes)
    requires route != [] && forall j :: 0 <= j < |route| ==> route[j] < |sites|
    requires Work(sites[route[0]].worker, sites[route[0]].f, T.StateBits(0, |route|), input) == Some(made)
    ensures Carries(sites, route, 1, input, made)
  {
    Bits(1, |route|);
    assert Composed(sites, route, 0, input).Some?;
  }

  lemma CarriesNext<Data(!new)>(sites: seq<Site<Data>>, route: seq<nat>, k: nat, input: Bytes, given: Bytes,
      made: Bytes)
    requires 1 < k <= |route| && (forall j :: 0 <= j < |route| ==> route[j] < |sites|) && Linked(sites, route)
    requires Work(sites[route[k - 1]].worker, sites[route[k - 1]].f, T.StateBits(k - 1, |route|), given) == Some(made)
    requires Carries(sites, route, k - 1, input, given)
    ensures Carries(sites, route, k, input, made)
  {
    Bits(k, |route|);
    var before, site, j := sites[route[k - 2]].worker, sites[route[k - 1]], k - 2;
    assert Undoes(sites[route[j + 1]].worker, sites[route[j]].worker);
    LaterStage(before, site.worker, site.f, T.StateBits(k - 1, |route|), Composed(sites, route, k - 1, input).value,
      given, made);
  }

  lemma LaterStage<Data(!new)>(before: Worker<Data>, w: Worker<Data>, f: Data -> Data, state: nat, d: Data,
      given: Bytes, made: Bytes)
    requires Work(w, f, state, given) == Some(made) && !Ingress(state)
    requires Undoes(w, before) && before.serializeIpc(d) == Ok(given)
    ensures Encode(w, f(d), state) == Ok(made)
  {
  }

  lemma Bits(k: nat, n: nat)
    requires 0 < k <= n
    ensures Ingress(T.StateBits(k - 1, n)) <==> k == 1
    ensures Egress(T.StateBits(k - 1, n)) <==> k == n
  {
  }

  /** `data` is the encoded composition of the whole route on `input`. */
  ghost predicate IsComposition<Data(!new)>(cfg: Pipeline.Config, sites: seq<Site<Data>>, route: string, input: Bytes,
      data: Bytes)
  {
    cfg.Valid() && Staffed(cfg, sites) && route in cfg.routes
      && Carries(sites, cfg.routes[route], |cfg.routes[route]|, input, data)
  }

  lemma WholeJourney<Data(!new)>(cfg: Pipeline.Config, sites: seq<Site<Data>>, route: string, input: Bytes, data: Bytes)
    requires cfg.Valid() && Staffed(cfg, sites) && route in cfg.routes && Linked(sites, cfg.routes[route])
    requires I.Journey(cfg, route, |cfg.routes[route]|, input) == Some(data)
    ensures IsComposition(cfg, sites, route, input, data)
  {
    JourneyIsMade(cfg, sites, route, |cfg.routes[route]|, input);
    MadeIsComposition(sites, cfg.routes[route], |cfg.routes[route]|, input);
  }

  /** End to end: in every reachable state, a request whose handler is about to
      return a normal answer carries the serialized composition of the workers of
      its own route applied to its own deserialized input. */
  lemma EndToEnd<Data(!new)>(cfg: Pipeline.Config, sites: seq<Site<Data>>, s: Pipeline.Pipe, id: Id)
    requires cfg.Valid() && Staffed(cfg, sites) && forall r :: r in cfg.routes ==> Linked(sites, cfg.routes[r])
    requires Theorems.Reachable(cfg, s) && Pipeline.Enabled(cfg, s, Pipeline.Collect(id))
    ensures Pipeline.Collected(s, id).Task?
    ensures Pipeline.Collected(s, id).task.code == T.Normal ==>
      IsComposition(cfg, sites, s.clients[id].route, s.clients[id].input, Pipeline.Collected(s, id).task.data)
  {
    Theorems.CollectGetsOwnAnswer(cfg, s, id);
    var client, task := s.clients[id], Pipeline.Collected(s, id).task;
    if task.code == T.Normal {
      WholeJourney(cfg, sites, client.route, client.input, task.data);
    }
  }
}
