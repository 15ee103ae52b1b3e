/** What the pipeline promises its clients, for every run. */
module PipelineTheorems {
  import opened Basics
  import opened Tasks
  import opened Pipeline
  import opened PipelineInvariant
  import opened PipelineSteps

  /** Connections other than `c` are left alone and clients change at most their phase. */
  ghost predicate LocalTo(s: Pipe, t: Pipe, c: nat) {
    && |t.conns| == |s.conns| && (forall d :: 0 <= d < |s.conns| && d != c ==> t.conns[d] == s.conns[d])
    && t.clients.Keys == s.clients.Keys
    && forall x :: x in s.clients ==> t.clients[x].(phase := s.clients[x].phase) == s.clients[x]
  }

  lemma HeadIsLocal(cfg: Config, s: Pipe, c: nat, todo: Todo, rest: seq<Todo>, alive: bool)
    requires c < |s.conns| && HeadEnabled(cfg, s, todo)
    ensures LocalTo(s, DoHead(cfg, s, c, todo, rest, alive), c)
  {
  }

  /** Steps of connections, as against steps of clients. */
  ghost predicate OfConn(e: Event) {
    e.Accept? || e.Receive? || e.CloseBatch? || e.Filter? || e.SendOk? || e.SendFail? || e.ReadFail? || e.Reply?
      || e.Work?
  }

  /** Only replies and the work after them reach the tables. */
  lemma ConnStepTables(cfg: Config, s: Pipe, e: Event)
    requires Enabled(cfg, s, e) && OfConn(e) && !e.Work?
    ensures
      var t := Apply(cfg, s, e);
      t.clients == s.clients && (!e.Reply? ==> t.table == s.table)
  {
    match e
    case Accept(_) =>
    case Receive(_) =>
    case CloseBatch(_) =>
    case Filter(_) =>
    case SendOk(_) =>
    case SendFail(_) =>
    case ReadFail(_) =>
    case Reply(_, _, _) =>
  }

  lemma ClientStepConns(cfg: Config, s: Pipe, e: Event)
    requires Enabled(cfg, s, e) && !OfConn(e)
    ensures Apply(cfg, s, e).conns == s.conns
    ensures !e.TryEnqueue? ==> Apply(cfg, s, e).queues == s.queues
  {
  }

  lemma WorkIsLocal(cfg: Config, s: Pipe, c: nat)
    requires Enabled(cfg, s, Work(c))
    ensures LocalTo(s, DoWork(cfg, s, c), c)
  {
    var p := s.conns[c].phase;
    if p.todo != [] {
      HeadIsLocal(cfg, s, c, p.todo[0], p.todo[1..], p.alive);
    }
  }

  /** A run of the server from its start to `s`. */
  ghost predicate Reachable(cfg: Config, s: Pipe) {
    exists events :: Reaches(cfg, Init(cfg), events, s)
  }

  lemma ReachableInv(cfg: Config, s: Pipe)
    requires cfg.Valid() && Reachable(cfg, s)
    ensures Inv(cfg, s)
  {
    var events :| Reaches(cfg, Init(cfg), events, s);
    InitInv(cfg);
    RunKeeps(cfg, Init(cfg), events, s);
  }

  // ----- what a client gets -----

  /** A woken handler always finds its task, and the task is finished: either
      its own input has gone through every worker of its route in order, or
      some worker refused it. */
  lemma CollectGetsOwnAnswer(cfg: Config, s: Pipe, id: Id)
    requires cfg.Valid() && Reachable(cfg, s) && Enabled(cfg, s, Collect(id))
    ensures
      var client := s.clients[id];
      && client.route in cfg.routes
      && Collected(s, id).Task?
      && var t := Collected(s, id).task;
         var n := |cfg.routes[client.route]|;
         t.route == client.route && t.Final(n)
         && (t.code == Normal ==> t.stage == n && Journey(cfg, client.route, n, client.input) == Some(t.data))
  {
    ReachableInv(cfg, s);
    ClientFacts(cfg, s, id);
  }

  /** While a handler is served, only its own steps and the wake-up touch its
      record, so the input it gets an answer for is the one it submitted. */
  lemma ClientKeepsInput(cfg: Config, s: Pipe, e: Event, id: Id)
    requires cfg.Valid() && Reachable(cfg, s) && Enabled(cfg, s, e)
    requires id in s.clients && s.clients[id].phase != Cancelled && id in Apply(cfg, s, e).clients
    ensures
      var now := Apply(cfg, s, e).clients[id];
      now.input == s.clients[id].input && now.route == s.clients[id].route && now.stream == s.clients[id].stream
  {
    if e.Issue? {
      ReachableInv(cfg, s);
      FreshId(s);
    }
    SameClient(cfg, s, e, id);
  }

  lemma SameClient(cfg: Config, s: Pipe, e: Event, id: Id)
    requires Enabled(cfg, s, e) && id in s.clients && id in Apply(cfg, s, e).clients && !(e.Issue? && s.nextId == id)
    ensures
      var now := Apply(cfg, s, e).clients[id];
      now.input == s.clients[id].input && now.route == s.clients[id].route && now.stream == s.clients[id].stream
  {
    if e.Work? {
      WorkIsLocal(cfg, s, e.c);
    } else if OfConn(e) {
      ConnStepTables(cfg, s, e);
    }
  }

  /** Number of times the receiver of `id` is notified along a run. */
  ghost function Wakes(cfg: Config, s: Pipe, events: seq<Event>, id: Id): nat
    decreases |events|
  {
    if events == [] || !Enabled(cfg, s, events[0]) then 0
    else
      var t := Apply(cfg, s, events[0]);
      (if !ClientAt(s, id, Woken) && ClientAt(t, id, Woken) then 1 else 0) + Wakes(cfg, t, events[1..], id)
  }

  /** `id` is not handed out again along a run. */
  ghost predicate NotReissued(cfg: Config, s: Pipe, events: seq<Event>, id: Id)
    decreases |events|
  {
    events != [] && Enabled(cfg, s, events[0]) ==>
      !(events[0].Issue? && s.nextId == id) && NotReissued(cfg, Apply(cfg, s, events[0]), events[1..], id)
  }

  ghost predicate MayWake(s: Pipe, id: Id) {
    id in s.clients &&
    (s.clients[id].phase.Issued? || s.clients[id].phase.Listed? || s.clients[id].phase.Stored?
      || s.clients[id].phase.Waiting?)
  }

  /** A submission is woken at most once, and not after it timed out or went away. */
  lemma {:induction false} WokenAtMostOnce(cfg: Config, s: Pipe, events: seq<Event>, t: Pipe, id: Id)
    requires Reaches(cfg, s, events, t) && NotReissued(cfg, s, events, id)
    ensures Wakes(cfg, s, events, id) <= if MayWake(s, id) then 1 else 0
    decreases |events|
  {
    if events != [] {
      var m := Apply(cfg, s, events[0]);
      WokenAtMostOnce(cfg, m, events[1..], t, id);
      WakeStep(cfg, s, events[0], id);
    }
  }

  lemma WakeStep(cfg: Config, s: Pipe, e: Event, id: Id)
    requires Enabled(cfg, s, e) && !(e.Issue? && s.nextId == id)
    ensures
      var m := Apply(cfg, s, e);
      && (MayWake(m, id) ==> MayWake(s, id))
      && (!ClientAt(s, id, Woken) && ClientAt(m, id, Woken) ==> MayWake(s, id) && !MayWake(m, id))
  {
    if e.Work? {
      var p := s.conns[e.c].phase;
      if p.todo != [] {
        WakeHead(cfg, s, e.c, p.todo[0], p.todo[1..], p.alive, id);
      }
    } else if OfConn(e) {
      ConnStepTables(cfg, s, e);
    }
  }

  lemma WakeHead(cfg: Config, s: Pipe, c: nat, todo: Todo, rest: seq<Todo>, alive: bool, id: Id)
    requires c < |s.conns| && HeadEnabled(cfg, s, todo)
    ensures
      var m := DoHead(cfg, s, c, todo, rest, alive);
      && (MayWake(m, id) ==> MayWake(s, id))
      && (!ClientAt(s, id, Woken) && ClientAt(m, id, Woken) ==> MayWake(s, id) && !MayWake(m, id))
  {
  }

  // ----- where ids are -----

  datatype Spot = InQueue(w: nat, i: nat) | InHand(c: nat, i: nat)

  ghost predicate SpotOf(s: Pipe, p: Spot, id: Id) {
    match p
    case InQueue(w, i) => w < |s.queues| && i < |s.queues[w]| && s.queues[w][i] == id
    case InHand(c, i) => c < |s.conns| && i < |Held(s.conns[c].phase)| && Held(s.conns[c].phase)[i] == id
  }

  /** An id circulates in one place at most: one position of one queue or one
      position of one connection's batch. */
  lemma OnePlace(cfg: Config, s: Pipe, p: Spot, q: Spot, id: Id)
    requires cfg.Valid() && Reachable(cfg, s)
    requires SpotOf(s, p, id) && SpotOf(s, q, id)
    ensures p == q
  {
    ReachableInv(cfg, s);
    SpotPlace(s, p, id);
    SpotPlace(s, q, id);
    match p
    case InQueue(w, i) => assert AllAt(s.place, s.queues[w], Queue(w));
    case InHand(c, i) => assert AllAt(s.place, Held(s.conns[c].phase), Hand(c));
  }

  lemma SpotPlace(s: Pipe, p: Spot, id: Id)
    requires PlacesOk(s) && SpotOf(s, p, id)
    ensures id in s.place && s.place[id] == if p.InQueue? then Queue(p.w) else Hand(p.c)
  {
    match p
    case InQueue(w, i) => QueuedHere(s, w);
    case InHand(c, i) => HeldHere(s, c);
  }

  /** A live id in a queue is waiting there for exactly the next worker of its
      route, also when routes share workers at different positions; nothing that
      failed is ever in a queue. */
  lemma QueuedWhereDue(cfg: Config, s: Pipe, w: nat, i: nat)
    requires cfg.Valid() && Reachable(cfg, s)
    requires w < |s.queues| && i < |s.queues[w]| && s.queues[w][i] in s.table
    ensures
      var t := s.table[s.queues[w][i]];
      t.route in cfg.routes && t.stage < |cfg.routes[t.route]| && cfg.routes[t.route][t.stage] == w
      && (t.stage == 0 || t.code == Normal)
  {
    ReachableInv(cfg, s);
    assert QueueTasksOk(cfg, s.table, s.queues[w], w);
  }

  /** What a connection has sent is what its tasks hold, with the state bits of
      their stage, and its batch never exceeds the limit of the worker. */
  lemma SentFaithfully(cfg: Config, s: Pipe, c: nat, i: nat)
    requires cfg.Valid() && Reachable(cfg, s)
    requires c < |s.conns| && s.conns[c].phase.Sent? && i < |s.conns[c].phase.ids|
    ensures
      var conn := s.conns[c];
      && conn.worker < |cfg.batchSize| && 1 <= |conn.phase.ids| <= Max(1, cfg.batchSize[conn.worker])
      && |conn.phase.data| == |conn.phase.states| == |conn.phase.ids|
      && (conn.phase.ids[i] in s.table ==>
            var t := s.table[conn.phase.ids[i]];
            && t.route in cfg.routes && t.stage < |cfg.routes[t.route]| && cfg.routes[t.route][t.stage] == conn.worker
            && conn.phase.data[i] == t.data
            && conn.phase.states[i] == StateBits(t.stage, |cfg.routes[t.route]|))
  {
    ReachableInv(cfg, s);
    ConnFacts(cfg, s, c);
    assert Held(s.conns[c].phase)[i] == s.conns[c].phase.ids[i];
    assert s.conns[c].phase.ids[i] in s.table ==> ItemOk(cfg, s.table[s.conns[c].phase.ids[i]], s.conns[c], i);
  }

  // ----- finality and deletion -----

  /** Once a task has its answer, no step changes the entry any more. */
  lemma FinalStays(cfg: Config, s: Pipe, e: Event, id: Id)
    requires cfg.Valid() && Reachable(cfg, s) && Enabled(cfg, s, e)
    requires id in s.table && s.table[id].route in cfg.routes && s.table[id].Final(|cfg.routes[s.table[id].route]|)
    requires id in Apply(cfg, s, e).table
    ensures Apply(cfg, s, e).table[id] == s.table[id]
  {
    if e.Reply? {
      FinalKeptByReply(cfg, s, e.c, e.code, e.payloads, id);
    } else if e.StoreTask? {
      ReachableInv(cfg, s);
      ClientFacts(cfg, s, e.id);
    } else {
      SameEntry(cfg, s, e, id);
    }
  }

  lemma FinalKeptByReply(cfg: Config, s: Pipe, c: nat, code: TaskCode, payloads: seq<Bytes>, id: Id)
    requires cfg.Valid() && Reachable(cfg, s) && Enabled(cfg, s, Reply(c, code, payloads))
    requires id in s.table && s.table[id].route in cfg.routes && s.table[id].Final(|cfg.routes[s.table[id].route]|)
    ensures id in DoReply(s, c, code, payloads).table && DoReply(s, c, code, payloads).table[id] == s.table[id]
  {
    ReachableInv(cfg, s);
    ConnFacts(cfg, s, c);
    FinalNotInBatch(cfg, s.table, s.conns[c], id);
    UpdateAllFrame(s.table, code, s.conns[c].phase.ids, payloads);
  }

  lemma FinalNotInBatch(cfg: Config, table: Table, conn: Conn, id: Id)
    requires conn.phase.Sent? && ConnTasksOk(cfg, table, conn)
    requires id in table && table[id].route in cfg.routes && table[id].Final(|cfg.routes[table[id].route]|)
    ensures id !in conn.phase.ids
  {
    forall i | 0 <= i < |conn.phase.ids| ensures conn.phase.ids[i] != id {
      assert Held(conn.phase)[i] == conn.phase.ids[i];
      assert conn.phase.ids[i] in table ==> ItemOk(cfg, table[conn.phase.ids[i]], conn, i);
    }
  }

  lemma SameEntry(cfg: Config, s: Pipe, e: Event, id: Id)
    requires Enabled(cfg, s, e) && !e.Reply? && !e.StoreTask?
    requires id in s.table && id in Apply(cfg, s, e).table
    ensures Apply(cfg, s, e).table[id] == s.table[id]
  {
    if OfConn(e) && !e.Work? {
      ConnStepTables(cfg, s, e);
    }
  }

  /** A failed task is in no queue and in no batch: all that can still happen to
      it is that its client is told. */
  lemma FailedOnlyNotified(cfg: Config, s: Pipe, p: Spot, id: Id)
    requires cfg.Valid() && Reachable(cfg, s) && SpotOf(s, p, id)
    requires id in s.table && s.table[id].code != Normal && s.table[id].stage > 0
    ensures p.InHand? && s.conns[p.c].phase.Working?
    ensures s.conns[p.c].phase.todo[p.i] in {NotifyDone(id), Wake(id), CleanUp(id)}
  {
    ReachableInv(cfg, s);
    match p
    case InQueue(w, i) => assert false;
    case InHand(c, i) =>
      ConnFacts(cfg, s, c);
      assert ItemOk(cfg, s.table[id], s.conns[c], i);
  }

  /** When a deletion is over, the id is in neither map, whatever raced with it,
      and a connection that took the notifier meanwhile finds no listener. */
  lemma DeletionComplete(cfg: Config, s: Pipe, id: Id)
    requires cfg.Valid() && Reachable(cfg, s) && Enabled(cfg, s, DropTask(id))
    ensures
      var t := Apply(cfg, s, DropTask(id));
      id !in t.table && id !in t.notifiers && !ClientAt(t, id, Waiting) && OnlyAt(s, t, id)
  {
    ReachableInv(cfg, s);
    ClientFacts(cfg, s, id);
  }

  /** ... and it stays out of both maps until it is issued again. */
  lemma GoneStaysGone(cfg: Config, s: Pipe, events: seq<Event>, t: Pipe, id: Id)
    requires cfg.Valid() && Reachable(cfg, s) && Reaches(cfg, s, events, t)
    requires NotReissued(cfg, s, events, id) && id !in s.clients
    ensures id !in t.table && id !in t.notifiers
  {
    ReachableInv(cfg, s);
    RunKeeps(cfg, s, events, t);
    NoNewClient(cfg, s, events, t, id);
    assert id in t.table ==> TaskOk(cfg, t.table[id], t.clients, id);
  }

  lemma {:induction false} NoNewClient(cfg: Config, s: Pipe, events: seq<Event>, t: Pipe, id: Id)
    requires Reaches(cfg, s, events, t) && NotReissued(cfg, s, events, id) && id !in s.clients
    ensures id !in t.clients
    decreases |events|
  {
    if events != [] {
      NoNewClientStep(cfg, s, events[0], id);
      NoNewClient(cfg, Apply(cfg, s, events[0]), events[1..], t, id);
    }
  }

  lemma NoNewClientStep(cfg: Config, s: Pipe, e: Event, id: Id)
    requires Enabled(cfg, s, e) && !(e.Issue? && s.nextId == id) && id !in s.clients
    ensures id !in Apply(cfg, s, e).clients
  {
    if e.Work? {
      WorkIsLocal(cfg, s, e.c);
    } else if OfConn(e) {
      ConnStepTables(cfg, s, e);
    }
  }

  /** The two halves of a removal concern the entries of one id only. */
  lemma RemovalIsLocal(cfg: Config, s: Pipe, id: Id)
    requires id in s.clients && s.clients[id].phase.Deleting?
    ensures var t := Apply(cfg, s, DropNotifier(id));
      OnlyAt(s, t, id) && Enabled(cfg, t, DropTask(id)) && OnlyAt(s, Apply(cfg, t, DropTask(id)), id)
  {
  }

  /** Nothing is recorded about the id any more. */
  ghost predicate Erased(t: Pipe, id: Id) {
    id !in t.table && id !in t.notifiers && id !in t.clients
  }

  /** However a handler ends, what it has left to do removes its id from everywhere: a
      client that times out and a stream that is over go through both halves of a
      removal, and collecting takes the last entry. */
  lemma EveryExitCleans(cfg: Config, s: Pipe, id: Id, e: Event)
    requires Enabled(cfg, s, e) && (e == TimeOut(id) || e == Finish(id))
    ensures var t := Apply(cfg, s, e);
      && Enabled(cfg, t, DropNotifier(id)) && Enabled(cfg, Apply(cfg, t, DropNotifier(id)), DropTask(id))
      && Erased(Apply(cfg, Apply(cfg, t, DropNotifier(id)), DropTask(id)), id)
  {
    var t := Apply(cfg, s, e);
    assert t.clients[id].phase.Deleting?;
    RemovalIsLocal(cfg, t, id);
  }

  lemma CollectCleans(cfg: Config, s: Pipe, id: Id)
    requires cfg.Valid() && Reachable(cfg, s) && Enabled(cfg, s, Collect(id))
    ensures Erased(Apply(cfg, s, Collect(id)), id) && OnlyAt(s, Apply(cfg, s, Collect(id)), id)
  {
    ReachableInv(cfg, s);
    ClientFacts(cfg, s, id);
  }

  /** A submission refused because the queue is full was never put anywhere, and
      its removal concerns its own entries only. */
  lemma RejectionIsLocal(cfg: Config, s: Pipe, id: Id)
    requires cfg.Valid() && Reachable(cfg, s) && ClientAt(s, id, Deleting(Rejected))
    ensures id !in s.place
    ensures forall p :: !SpotOf(s, p, id)
    ensures var t := Apply(cfg, s, DropNotifier(id));
      OnlyAt(s, t, id) && Enabled(cfg, t, DropTask(id)) && OnlyAt(s, Apply(cfg, t, DropTask(id)), id)
  {
    ReachableInv(cfg, s);
    ClientFacts(cfg, s, id);
    RemovalIsLocal(cfg, s, id);
    forall p ensures !SpotOf(s, p, id) {
      if SpotOf(s, p, id) {
        SpotPlace(s, p, id);
        assert false;
      }
    }
  }

  // ----- identifiers -----

  /** Issued a positive multiple of 2^32 submissions ago. */
  ghost predicate CameRound(s: Pipe, id: Id) {
    id in s.born && s.born[id] < s.issued && (s.issued - s.born[id]) % ID_SPACE == 0
  }

  /** The next id is still mentioned somewhere exactly when a mentioned id was
      issued a positive multiple of 2^32 submissions ago. */
  lemma ReuseExactly(cfg: Config, s: Pipe)
    requires cfg.Valid() && Reachable(cfg, s)
    ensures s.nextId in Mentioned(s) <==> exists id :: id in Mentioned(s) && CameRound(s, id)
  {
    ReachableInv(cfg, s);
    RoundIsNext(s);
    assert s.nextId in Mentioned(s) ==> CameRound(s, s.nextId);
  }

  lemma RoundIsNext(s: Pipe)
    requires IdsOk(s)
    ensures forall id :: id in Mentioned(s) ==> (CameRound(s, id) <==> id == s.nextId)
  {
    forall id | id in Mentioned(s) ensures CameRound(s, id) <==> id == s.nextId {
      SameResidue(s.born[id], s.issued, id, s.nextId);
    }
  }

  lemma SameResidue(a: nat, b: nat, x: nat, y: nat)
    requires a < b && a % ID_SPACE == x && b % ID_SPACE == y
    ensures x == y <==> (b - a) % ID_SPACE == 0
  {
    var q := b / ID_SPACE - a / ID_SPACE;
    assert b - a == q * ID_SPACE + (y - x);
  }

  /** A new submission never gets an id that anything still mentions, so its
      entries overwrite nobody's. */
  lemma NewIdUnused(cfg: Config, s: Pipe, route: string, input: Bytes, stream: bool)
    requires cfg.Valid() && Reachable(cfg, s) && Enabled(cfg, s, Issue(route, input, stream))
    ensures s.nextId !in s.table && s.nextId !in s.notifiers && forall p :: !SpotOf(s, p, s.nextId)
    ensures s.nextId in s.clients ==> s.clients[s.nextId].phase == Cancelled
  {
    ReachableInv(cfg, s);
    FreshId(s);
    forall p ensures !SpotOf(s, p, s.nextId) {
      if SpotOf(s, p, s.nextId) {
        SpotPlace(s, p, s.nextId);
        assert false;
      }
    }
  }

  // ----- queues and batches -----

  /** What one step puts into queue `w`. */
  ghost function EnqueuedBy(cfg: Config, s: Pipe, e: Event, w: nat): seq<Id>
    requires Enabled(cfg, s, e)
  {
    match e
    case TryEnqueue(id) =>
      if w == cfg.routes[s.clients[id].route][0] && |s.queues[w]| < cfg.capacity then [id] else []
    case Work(c) =>
      var todo := s.conns[c].phase.todo;
      if todo != [] && todo[0].Push? && todo[0].worker == w then [todo[0].id] else []
    case _ => []
  }

  ghost function TakenBy(s: Pipe, e: Event, w: nat): seq<Id> {
    if e.Receive? && e.c < |s.conns| && s.conns[e.c].worker == w && w < |s.queues| && s.queues[w] != []
    then [s.queues[w][0]] else []
  }

  /** All ids put into queue `w` along a run, and all ids taken from it. */
  ghost function Enqueued(cfg: Config, s: Pipe, events: seq<Event>, w: nat): seq<Id>
    decreases |events|
  {
    if events == [] || !Enabled(cfg, s, events[0]) then []
    else EnqueuedBy(cfg, s, events[0], w) + Enqueued(cfg, Apply(cfg, s, events[0]), events[1..], w)
  }

  ghost function Taken(cfg: Config, s: Pipe, events: seq<Event>, w: nat): seq<Id>
    decreases |events|
  {
    if events == [] || !Enabled(cfg, s, events[0]) then []
    else TakenBy(s, events[0], w) + Taken(cfg, Apply(cfg, s, events[0]), events[1..], w)
  }

  /** However many connections share a worker queue, what they take together is
      what was put in, in that order, each element once. */
  lemma {:induction false} QueueConserved(cfg: Config, s: Pipe, events: seq<Event>, t: Pipe, w: nat)
    requires Reaches(cfg, s, events, t) && w < |s.queues|
    ensures |t.queues| == |s.queues|
    ensures s.queues[w] + Enqueued(cfg, s, events, w) == Taken(cfg, s, events, w) + t.queues[w]
    decreases |events|
  {
    if events != [] {
      var m := Apply(cfg, s, events[0]);
      QueueStep(cfg, s, events[0], w);
      QueueConserved(cfg, m, events[1..], t, w);
      Splice(s.queues[w], EnqueuedBy(cfg, s, events[0], w), Enqueued(cfg, m, events[1..], w),
        TakenBy(s, events[0], w), m.queues[w], Taken(cfg, m, events[1..], w), t.queues[w]);
    }
  }

  lemma Splice(q: seq<Id>, put: seq<Id>, puts: seq<Id>, got: seq<Id>, mid: seq<Id>, gots: seq<Id>, end: seq<Id>)
    requires q + put == got + mid && mid + puts == gots + end
    ensures q + (put + puts) == (got + gots) + end
  {
    assert q + (put + puts) == (q + put) + puts == got + (mid + puts);
    assert got + (gots + end) == (got + gots) + end;
  }

  lemma QueueStep(cfg: Config, s: Pipe, e: Event, w: nat)
    requires Enabled(cfg, s, e) && w < |s.queues|
    ensures |Apply(cfg, s, e).queues| == |s.queues|
    ensures s.queues[w] + EnqueuedBy(cfg, s, e, w) == TakenBy(s, e, w) + Apply(cfg, s, e).queues[w]
  {
    if e.Work? {
      var p := s.conns[e.c].phase;
      if p.todo != [] {
        HeadQueues(cfg, s, e.c, p.todo[0], p.todo[1..], p.alive, w);
      }
    } else if OfConn(e) {
      ConnQueues(cfg, s, e, w);
    } else if !e.TryEnqueue? {
      ClientStepConns(cfg, s, e);
    }
  }

  lemma HeadQueues(cfg: Config, s: Pipe, c: nat, todo: Todo, rest: seq<Todo>, alive: bool, w: nat)
    requires c < |s.conns| && HeadEnabled(cfg, s, todo) && w < |s.queues|
    ensures
      var t := DoHead(cfg, s, c, todo, rest, alive);
      |t.queues| == |s.queues| && t.queues[w] == s.queues[w] + if todo.Push? && todo.worker == w then [todo.id] else []
  {
  }

  lemma ConnQueues(cfg: Config, s: Pipe, e: Event, w: nat)
    requires Enabled(cfg, s, e) && OfConn(e) && !e.Work? && w < |s.queues|
    ensures |Apply(cfg, s, e).queues| == |s.queues|
    ensures s.queues[w] == TakenBy(s, e, w) + Apply(cfg, s, e).queues[w]
  {
  }

  /** The ids connection `c` takes along a run. */
  ghost function TakenAt(cfg: Config, s: Pipe, events: seq<Event>, c: nat): seq<Id>
    decreases |events|
  {
    if events == [] || !Enabled(cfg, s, events[0]) then []
    else
      (if events[0] == Receive(c) then [s.queues[s.conns[c].worker][0]] else [])
      + TakenAt(cfg, Apply(cfg, s, events[0]), events[1..], c)
  }

  /** Until it closes, a batch is what it was plus what its connection took, in
      order: nothing gathered before the timer fires is lost. */
  lemma {:induction false} BatchInOrder(cfg: Config, s: Pipe, events: seq<Event>, t: Pipe, c: nat)
    requires Reaches(cfg, s, events, t) && CloseBatch(c) !in events
    requires c < |s.conns| && s.conns[c].phase.Gathering?
    ensures c < |t.conns| && t.conns[c].phase == Gathering(s.conns[c].phase.ids + TakenAt(cfg, s, events, c))
    decreases |events|
  {
    var ids := s.conns[c].phase.ids;
    if events == [] {
      assert ids + [] == ids;
    } else {
      var m := Apply(cfg, s, events[0]);
      BatchStep(cfg, s, events[0], c);
      var now := if events[0] == Receive(c) then [s.queues[s.conns[c].worker][0]] else [];
      BatchInOrder(cfg, m, events[1..], t, c);
      Regroup(ids, now, TakenAt(cfg, m, events[1..], c));
    }
  }

  /** How a batch ends: after a failed send and after a normal reply its ids are sent on,
      all of them and in the order of the batch; after any other reply its live ones
      are notified, in that order. What is first on the list is done first. */
  lemma BatchEndsInOrder(cfg: Config, s: Pipe, e: Event, c: nat) returns (place: seq<nat>)
    requires Enabled(cfg, s, e) && c < |s.conns| && (e == SendFail(c) || (e.Reply? && e.c == c))
    ensures
      var ids, p := s.conns[c].phase.ids, Apply(cfg, s, e).conns[c].phase;
      && p.Working? && p.alive == e.Reply?
      && (e == SendFail(c) || e.code == Normal ==>
            |p.todo| == |ids| && forall i :: 0 <= i < |ids| ==> p.todo[i] == SendTask(ids[i]))
      && (e != SendFail(c) && e.code != Normal ==>
            && |p.todo| == |place|
            && (forall i: nat :: i in place <==> i < |ids| && ids[i] in s.table)
            && (forall j :: 0 <= j < |place| ==> place[j] < |ids| && p.todo[j] == NotifyDone(ids[place[j]]))
            && forall j, k :: 0 <= j < k < |place| ==> place[j] < place[k])
  {
    place := PresentInOrder(s.table, s.conns[c].phase.ids);
  }

  lemma Regroup(a: seq<Id>, b: seq<Id>, c: seq<Id>)
    ensures (a + b) + c == a + (b + c)
  {
  }

  lemma BatchStep(cfg: Config, s: Pipe, e: Event, c: nat)
    requires Enabled(cfg, s, e) && e != CloseBatch(c)
    requires c < |s.conns| && s.conns[c].phase.Gathering?
    ensures
      var m := Apply(cfg, s, e);
      c < |m.conns| && m.conns[c].phase ==
        Gathering(s.conns[c].phase.ids + if e == Receive(c) then [s.queues[s.conns[c].worker][0]] else [])
  {
    var ids := s.conns[c].phase.ids;
    assert ids + [] == ids;
    if e != Receive(c) {
      SameConn(cfg, s, e, c);
    }
  }

  lemma SameConn(cfg: Config, s: Pipe, e: Event, c: nat)
    requires Enabled(cfg, s, e) && e != CloseBatch(c) && e != Receive(c)
    requires c < |s.conns| && s.conns[c].phase.Gathering?
    ensures c < |Apply(cfg, s, e).conns| && Apply(cfg, s, e).conns[c] == s.conns[c]
  {
    if e.Work? {
      WorkIsLocal(cfg, s, e.c);
    } else if OfConn(e) {
      MoveIsLocal(cfg, s, e, c);
    } else {
      ClientStepConns(cfg, s, e);
    }
  }

  lemma MoveIsLocal(cfg: Config, s: Pipe, e: Event, c: nat)
    requires Enabled(cfg, s, e) && OfConn(e) && !e.Work? && (!e.Accept? ==> e.c != c) && c < |s.conns|
    ensures c < |Apply(cfg, s, e).conns| && Apply(cfg, s, e).conns[c] == s.conns[c]
  {
  }
}
