/** The pipeline neither wedges nor runs forever: with live workers, intact
    sockets and an acyclic order of workers, whatever circulates gets answered. */
module PipelineProgress {
  import opened Basics
  import opened Tasks
  import opened Pipeline
  import opened PipelineInvariant
  import opened PipelineSteps

  // ----- assumptions -----

  /** Along every route the workers have increasing ranks. */
  ghost predicate Acyclic(cfg: Config, rank: seq<nat>) {
    && |rank| == |cfg.batchSize|
    && (forall w :: 0 <= w < |rank| ==> rank[w] < |rank|)
    && (forall a: nat, b: nat :: Follows(cfg, a, b) ==> a < |rank| && b < |rank| && rank[a] < rank[b])
  }

  /** Some route passes from worker `a` to worker `b`. */
  ghost predicate Follows(cfg: Config, a: nat, b: nat) {
    exists r, k :: FollowsAt(cfg, a, b, r, k)
  }

  ghost predicate FollowsAt(cfg: Config, a: nat, b: nat, r: string, k: nat) {
    r in cfg.routes && k + 1 < |cfg.routes[r]| && cfg.routes[r][k] == a && cfg.routes[r][k + 1] == b
  }

  /** The socket of the connection has not failed. */
  predicate Live(p: Phase) {
    !p.Dead? && (p.Working? ==> p.alive)
  }

  /** Every worker has a live connection, whatever became of others. */
  ghost predicate AllServed(s: Pipe) {
    forall w :: 0 <= w < |s.queues| ==> Served(s, w)
  }

  ghost predicate Served(s: Pipe, w: nat) {
    exists c :: 0 <= c < |s.conns| && s.conns[c].worker == w && Live(s.conns[c].phase)
  }

  /** What connections and workers do by themselves while sockets hold. */
  ghost predicate Internal(e: Event) {
    e.Receive? || e.CloseBatch? || e.Filter? || e.SendOk? || e.Reply? || e.Work?
  }

  // ----- forwarding goes upwards -----

  ghost predicate ForwardOk(cfg: Config, table: Table, worker: nat, todo: Todo) {
    match todo
    case SendTask(id) =>
      id in table ==>
        table[id].route in cfg.routes && 1 <= table[id].stage <= |cfg.routes[table[id].route]|
        && cfg.routes[table[id].route][table[id].stage - 1] == worker
    case Push(_, w) => Follows(cfg, worker, w)
    case _ => true
  }

  ghost predicate ConnForwardOk(cfg: Config, table: Table, conn: Conn) {
    conn.phase.Working? && conn.phase.alive ==>
      forall i :: 0 <= i < |conn.phase.todo| ==> ForwardOk(cfg, table, conn.worker, conn.phase.todo[i])
  }

  ghost predicate ForwardsOk(cfg: Config, s: Pipe) {
    forall c :: 0 <= c < |s.conns| ==> ConnForwardOk(cfg, s.table, s.conns[c])
  }

  /** Entries of the ids a connection holds may vanish, but do not change. */
  lemma ForwardFrame(cfg: Config, s: Pipe, c: nat, table: Table)
    requires c < |s.conns| && ConnForwardOk(cfg, s.table, s.conns[c])
    requires forall id :: id in Held(s.conns[c].phase) && id in table ==> id in s.table && table[id] == s.table[id]
    ensures ConnForwardOk(cfg, table, s.conns[c])
  {
    var p := s.conns[c].phase;
    if p.Working? && p.alive {
      forall i | 0 <= i < |p.todo| ensures ForwardOk(cfg, table, s.conns[c].worker, p.todo[i]) {
        assert Held(p)[i] == p.todo[i].id && ForwardOk(cfg, s.table, s.conns[c].worker, p.todo[i]);
      }
    }
  }

  lemma ForwardsFrame(cfg: Config, s: Pipe, s': Pipe)
    requires ForwardsOk(cfg, s) && HandsPlaced(s) && s'.conns == s.conns
    requires forall id :: id in s.place && id in s'.table ==> id in s.table && s'.table[id] == s.table[id]
    ensures ForwardsOk(cfg, s')
  {
    forall c | 0 <= c < |s.conns| ensures ConnForwardOk(cfg, s'.table, s.conns[c]) {
      HeldHere(s, c);
      ForwardFrame(cfg, s, c, s'.table);
    }
  }

  lemma ClientForwards(cfg: Config, s: Pipe, e: Event)
    requires cfg.Valid() && Inv(cfg, s) && ForwardsOk(cfg, s) && Enabled(cfg, s, e)
    requires e.Issue? || e.ListNotifier? || e.StoreTask? || e.TryEnqueue? || e.TimeOut? || e.Cancel? || e.Finish?
      || e.DropNotifier? || e.DropTask? || e.Collect?
    ensures ForwardsOk(cfg, Apply(cfg, s, e))
  {
    if e.StoreTask? {
      ClientFacts(cfg, s, e.id);
    }
    ForwardsFrame(cfg, s, Apply(cfg, s, e));
  }

  lemma ReplyForwards(cfg: Config, s: Pipe, c: nat, code: TaskCode, payloads: seq<Bytes>)
    requires cfg.Valid() && Inv(cfg, s) && ForwardsOk(cfg, s) && Enabled(cfg, s, Reply(c, code, payloads))
    ensures ForwardsOk(cfg, DoReply(s, c, code, payloads))
  {
    var s' := DoReply(s, c, code, payloads);
    forall d | 0 <= d < |s'.conns| ensures ConnForwardOk(cfg, s'.table, s'.conns[d]) {
      if d != c {
        ReplyForwardsOther(cfg, s, c, code, payloads, d);
      } else if code == Normal {
        ReplyForwardsOwn(cfg, s, c, payloads);
      }
    }
  }

  lemma ReplyForwardsOther(cfg: Config, s: Pipe, c: nat, code: TaskCode, payloads: seq<Bytes>, d: nat)
    requires cfg.Valid() && Inv(cfg, s) && ForwardsOk(cfg, s) && Enabled(cfg, s, Reply(c, code, payloads))
    requires d < |s.conns| && d != c
    ensures ConnForwardOk(cfg, DoReply(s, c, code, payloads).table, s.conns[d])
  {
    ConnFacts(cfg, s, c);
    HeldHere(s, c);
    UpdateAllFrame(s.table, code, s.conns[c].phase.ids, payloads);
    HeldHere(s, d);
    ForwardFrame(cfg, s, d, DoReply(s, c, code, payloads).table);
  }

  lemma ReplyForwardsOwn(cfg: Config, s: Pipe, c: nat, payloads: seq<Bytes>)
    requires cfg.Valid() && Inv(cfg, s) && Enabled(cfg, s, Reply(c, Normal, payloads))
    ensures var s' := DoReply(s, c, Normal, payloads);
      ConnForwardOk(cfg, s'.table, s'.conns[c])
  {
    ConnFacts(cfg, s, c);
    UpdateAllFrame(s.table, Normal, s.conns[c].phase.ids, payloads);
    AnsweredForwards(cfg, s.table, DoReply(s, c, Normal, payloads).table, s.conns[c], payloads);
  }

  lemma AnsweredForwards(cfg: Config, table: Table, table': Table, conn: Conn, payloads: seq<Bytes>)
    requires conn.phase.Sent? && ConnTasksOk(cfg, table, conn) && |payloads| == |conn.phase.ids|
      && table'.Keys == table.Keys
    requires forall i :: 0 <= i < |conn.phase.ids| && conn.phase.ids[i] in table ==>
      table'[conn.phase.ids[i]] == table[conn.phase.ids[i]].Updated(Normal, payloads[i])
    ensures ConnForwardOk(cfg, table', Conn(conn.worker, Working(SendTasks(conn.phase.ids), true)))
  {
    var ids := conn.phase.ids;
    forall i | 0 <= i < |ids| ensures ForwardOk(cfg, table', conn.worker, SendTasks(ids)[i]) {
      assert Held(conn.phase)[i] == ids[i];
      assert ids[i] in table ==> ItemOk(cfg, table[ids[i]], conn, i);
    }
  }

  lemma WorkForwards(cfg: Config, s: Pipe, c: nat)
    requires cfg.Valid() && Inv(cfg, s) && ForwardsOk(cfg, s) && Enabled(cfg, s, Work(c))
    ensures ForwardsOk(cfg, DoWork(cfg, s, c))
  {
    var s' := DoWork(cfg, s, c);
    var p := s.conns[c].phase;
    if p.todo != [] {
      assert ConnForwardOk(cfg, s.table, s.conns[c]);
      HeadForwards(cfg, s, c, p.todo[0], p.todo[1..], p.alive);
    }
  }

  lemma HeadForwards(cfg: Config, s: Pipe, c: nat, todo: Todo, rest: seq<Todo>, alive: bool)
    requires cfg.Valid() && ForwardsOk(cfg, s) && c < |s.conns| && HeadEnabled(cfg, s, todo)
    requires ConnForwardOk(cfg, s.table, Conn(s.conns[c].worker, Working([todo] + rest, alive)))
    ensures ForwardsOk(cfg, DoHead(cfg, s, c, todo, rest, alive))
  {
    var s' := DoHead(cfg, s, c, todo, rest, alive);
    HeadForwardsHere(cfg, s, c, todo, rest, alive);
    forall d | 0 <= d < |s'.conns| && d != c ensures ConnForwardOk(cfg, s'.table, s'.conns[d]) {
      assert ConnForwardOk(cfg, s.table, s.conns[d]);
    }
  }

  lemma HeadForwardsHere(cfg: Config, s: Pipe, c: nat, todo: Todo, rest: seq<Todo>, alive: bool)
    requires cfg.Valid() && c < |s.conns| && HeadEnabled(cfg, s, todo)
    requires ConnForwardOk(cfg, s.table, Conn(s.conns[c].worker, Working([todo] + rest, alive)))
    ensures
      var s' := DoHead(cfg, s, c, todo, rest, alive);
      ConnForwardOk(cfg, s'.table, s'.conns[c])
  {
    var w := s.conns[c].worker;
    if alive {
      assert ForwardOk(cfg, s.table, w, ([todo] + rest)[0]);
      forall i | 0 <= i < |rest| ensures ForwardOk(cfg, s.table, w, rest[i]) {
        assert ForwardOk(cfg, s.table, w, ([todo] + rest)[i + 1]);
      }
      if todo.SendTask? && todo.id in s.table && s.table[todo.id].stage < |cfg.routes[s.table[todo.id].route]| {
        var t := s.table[todo.id];
        assert FollowsAt(cfg, w, cfg.routes[t.route][t.stage], t.route, t.stage - 1);
      }
    }
  }

  lemma ForwardStep(cfg: Config, s: Pipe, e: Event)
    requires cfg.Valid() && Inv(cfg, s) && ForwardsOk(cfg, s) && Enabled(cfg, s, e)
    ensures ForwardsOk(cfg, Apply(cfg, s, e))
  {
    match e
    case Reply(c, code, payloads) => ReplyForwards(cfg, s, c, code, payloads);
    case Work(c) => WorkForwards(cfg, s, c);
    case Accept(_) => MoveForwards(cfg, s, e);
    case Receive(_) => MoveForwards(cfg, s, e);
    case CloseBatch(_) => MoveForwards(cfg, s, e);
    case Filter(_) => MoveForwards(cfg, s, e);
    case SendOk(_) => MoveForwards(cfg, s, e);
    case SendFail(_) => MoveForwards(cfg, s, e);
    case ReadFail(_) => MoveForwards(cfg, s, e);
    case _ => ClientForwards(cfg, s, e);
  }

  lemma MoveForwards(cfg: Config, s: Pipe, e: Event)
    requires ForwardsOk(cfg, s) && Enabled(cfg, s, e)
    requires e.Accept? || e.Receive? || e.CloseBatch? || e.Filter? || e.SendOk? || e.SendFail? || e.ReadFail?
    ensures ForwardsOk(cfg, Apply(cfg, s, e))
  {
  }

  /** In every reachable state a live connection only pushes to workers that
      follow its own on some route. */
  lemma {:induction false} RunForwards(cfg: Config, s: Pipe, events: seq<Event>, t: Pipe)
    requires cfg.Valid() && Inv(cfg, s) && ForwardsOk(cfg, s) && Reaches(cfg, s, events, t)
    ensures Inv(cfg, t) && ForwardsOk(cfg, t)
    decreases |events|
  {
    if events != [] {
      StepKeeps(cfg, s, events[0]);
      ForwardStep(cfg, s, events[0]);
      RunForwards(cfg, Apply(cfg, s, events[0]), events[1..], t);
    }
  }

  // ----- someone can always step -----

  /** Follows blocked pushes to ever higher ranks until a connection can move. */
  lemma {:induction false} QueueMoves(cfg: Config, rank: seq<nat>, s: Pipe, w: nat) returns (e: Event)
    requires cfg.Valid() && Inv(cfg, s) && ForwardsOk(cfg, s) && Acyclic(cfg, rank) && AllServed(s)
    requires w < |s.queues| && s.queues[w] != []
    ensures Internal(e) && Enabled(cfg, s, e)
    decreases |rank| - rank[w], 1
  {
    assert Served(s, w);
    var c :| 0 <= c < |s.conns| && s.conns[c].worker == w && Live(s.conns[c].phase);
    e := ConnMoves(cfg, rank, s, c);
  }

  lemma {:induction false} ConnMoves(cfg: Config, rank: seq<nat>, s: Pipe, c: nat) returns (e: Event)
    requires cfg.Valid() && Inv(cfg, s) && ForwardsOk(cfg, s) && Acyclic(cfg, rank) && AllServed(s)
    requires c < |s.conns| && s.conns[c].worker < |s.queues| && Live(s.conns[c].phase)
    requires s.conns[c].phase != Gathering([]) || s.queues[s.conns[c].worker] != []
    ensures Internal(e) && Enabled(cfg, s, e)
    decreases |rank| - rank[s.conns[c].worker], 0
  {
    match s.conns[c].phase
    case Gathering(ids) => e := if ids != [] then CloseBatch(c) else Receive(c);
    case Closed(_) =>
      EntriesRouted(cfg, s);
      e := Filter(c);
    case Ready(_, _, _) => e := SendOk(c);
    case Sent(ids, _, _) =>
      ConnFacts(cfg, s, c);
      e := Reply(c, InternalError, seq(|ids|, _ => []));
    case Working(todo, _) =>
      EntriesRouted(cfg, s);
      ConnFacts(cfg, s, c);
      if todo == [] || !todo[0].Push? || |s.queues[todo[0].worker]| < cfg.capacity {
        e := Work(c);
      } else {
        assert ConnForwardOk(cfg, s.table, s.conns[c]) && ForwardOk(cfg, s.table, s.conns[c].worker, todo[0]);
        e := QueueMoves(cfg, rank, s, todo[0].worker);
      }
  }

  lemma EntriesRouted(cfg: Config, s: Pipe)
    requires cfg.Valid() && Inv(cfg, s)
    ensures forall id :: id in s.table ==> s.table[id].route in cfg.routes
  {
    forall id | id in s.table ensures s.table[id].route in cfg.routes {
      assert TaskOk(cfg, s.table[id], s.clients, id);
    }
  }

  /** While anything is queued or held, some connection can step. */
  lemma NoWedge(cfg: Config, rank: seq<nat>, s: Pipe) returns (e: Event)
    requires cfg.Valid() && Inv(cfg, s) && ForwardsOk(cfg, s) && Acyclic(cfg, rank) && AllServed(s)
    requires s.place != map[]
    ensures Internal(e) && Enabled(cfg, s, e)
  {
    var id :| id in s.place;
    assert PlaceReal(s, id, s.place[id]);
    match s.place[id]
    case Queue(w) => e := QueueMoves(cfg, rank, s, w);
    case Hand(c) =>
      ConnFacts(cfg, s, c);
      if Live(s.conns[c].phase) {
        e := ConnMoves(cfg, rank, s, c);
      } else {
        e := DyingMoves(cfg, rank, s, c);
      }
  }

  /** A connection whose send failed gives its ids back, waiting at most for a queue
      that somebody else empties. */
  lemma DyingMoves(cfg: Config, rank: seq<nat>, s: Pipe, c: nat) returns (e: Event)
    requires cfg.Valid() && Inv(cfg, s) && ForwardsOk(cfg, s) && Acyclic(cfg, rank) && AllServed(s)
    requires c < |s.conns| && !Live(s.conns[c].phase) && Held(s.conns[c].phase) != []
    ensures Internal(e) && Enabled(cfg, s, e)
  {
    var todo := s.conns[c].phase.todo;
    EntriesRouted(cfg, s);
    ConnFacts(cfg, s, c);
    if !todo[0].Push? || |s.queues[todo[0].worker]| < cfg.capacity {
      e := Work(c);
    } else {
      e := QueueMoves(cfg, rank, s, todo[0].worker);
    }
  }

  // ----- connections stay -----

  /** What a connection is in the middle of, after a step. */
  lemma HeadLive(cfg: Config, s: Pipe, k: nat, todo: Todo, rest: seq<Todo>, alive: bool, c: nat)
    requires k < |s.conns| && c < |s.conns| && HeadEnabled(cfg, s, todo)
    requires s.conns[k].phase.Working? && s.conns[k].phase.alive == alive
    ensures var t := DoHead(cfg, s, k, todo, rest, alive);
      && |t.conns| == |s.conns| && t.conns[c].worker == s.conns[c].worker
      && (Live(t.conns[c].phase) <==> Live(s.conns[c].phase))
  {
  }

  lemma WorkLive(cfg: Config, s: Pipe, k: nat, c: nat)
    requires Enabled(cfg, s, Work(k)) && c < |s.conns|
    ensures var t := DoWork(cfg, s, k);
      && |t.conns| == |s.conns| && t.conns[c].worker == s.conns[c].worker
      && (Live(t.conns[c].phase) <==> Live(s.conns[c].phase))
  {
    var p := s.conns[k].phase;
    if p.todo != [] {
      HeadLive(cfg, s, k, p.todo[0], p.todo[1..], p.alive, c);
    }
  }

  lemma OthersLive(cfg: Config, s: Pipe, e: Event, c: nat)
    requires Enabled(cfg, s, e) && c < |s.conns| && !e.Work? && !e.Reply? && !e.Filter?
    ensures var t := Apply(cfg, s, e);
      && c < |t.conns| && t.conns[c].worker == s.conns[c].worker
      && (Live(t.conns[c].phase) <==> Live(s.conns[c].phase) && e != SendFail(c) && e != ReadFail(c))
  {
  }

  /** A connection serves its worker for good: after any step it is live if and only if
      it was and the step is not a send or a read that fails on it. */
  lemma LiveExactly(cfg: Config, s: Pipe, e: Event, c: nat)
    requires Enabled(cfg, s, e) && c < |s.conns|
    ensures var t := Apply(cfg, s, e);
      && c < |t.conns| && t.conns[c].worker == s.conns[c].worker
      && (Live(t.conns[c].phase) <==> Live(s.conns[c].phase) && e != SendFail(c) && e != ReadFail(c))
  {
    if e.Work? {
      WorkLive(cfg, s, e.c, c);
    } else if !e.Reply? && !e.Filter? {
      OthersLive(cfg, s, e, c);
    }
  }

  lemma WorkQueues(cfg: Config, s: Pipe, k: nat)
    requires Enabled(cfg, s, Work(k))
    ensures |DoWork(cfg, s, k).queues| == |s.queues|
  {
  }

  /** No send and no read fails on this connection. */
  ghost predicate Spared(events: seq<Event>, c: nat) {
    forall j :: 0 <= j < |events| ==> events[j] != SendFail(c) && events[j] != ReadFail(c)
  }

  lemma {:induction false} LiveAlong(cfg: Config, s: Pipe, events: seq<Event>, t: Pipe, c: nat)
    requires Reaches(cfg, s, events, t) && c < |s.conns|
    ensures c < |t.conns| && t.conns[c].worker == s.conns[c].worker
    ensures Live(t.conns[c].phase) <==> Live(s.conns[c].phase) && Spared(events, c)
    decreases |events|
  {
    if events != [] {
      LiveExactly(cfg, s, events[0], c);
      LiveAlong(cfg, Apply(cfg, s, events[0]), events[1..], t, c);
      assert forall j :: 0 < j < |events| ==> events[j] == events[1..][j - 1];
      assert forall j :: 0 <= j < |events[1..]| ==> events[1..][j] == events[j + 1];
    }
  }

  /** At the start every worker has a live connection that no failure of the run hits. */
  ghost predicate ServedThrough(s: Pipe, events: seq<Event>) {
    forall w :: 0 <= w < |s.queues| ==> SparedFor(s, events, w)
  }

  ghost predicate SparedFor(s: Pipe, events: seq<Event>, w: nat) {
    exists c ::
      0 <= c < |s.conns| && s.conns[c].worker == w && Live(s.conns[c].phase) && Spared(events, c)
  }

  /** Then every worker is served at the end, whatever happened in between. */
  lemma ServedThroughout(cfg: Config, s: Pipe, events: seq<Event>, t: Pipe)
    requires Reaches(cfg, s, events, t) && ServedThrough(s, events)
    ensures AllServed(t)
  {
    forall w | 0 <= w < |t.queues| ensures Served(t, w) {
      QueuesAlong(cfg, s, events, t);
      assert SparedFor(s, events, w);
      var c :| 0 <= c < |s.conns| && s.conns[c].worker == w && Live(s.conns[c].phase) && Spared(events, c);
      LiveAlong(cfg, s, events, t, c);
    }
  }

  lemma {:induction false} QueuesAlong(cfg: Config, s: Pipe, events: seq<Event>, t: Pipe)
    requires Reaches(cfg, s, events, t)
    ensures |t.queues| == |s.queues|
    decreases |events|
  {
    if events != [] {
      if events[0].Work? {
        WorkQueues(cfg, s, events[0].c);
      }
      QueuesAlong(cfg, Apply(cfg, s, events[0]), events[1..], t);
    }
  }

  /** In every reachable state: it is enough that some time before every worker had a
      live connection that has not been hit by a failure since. */
  lemma ReachableMoves(cfg: Config, rank: seq<nat>, before: seq<Event>, s: Pipe, events: seq<Event>, t: Pipe)
    returns (e: Event)
    requires cfg.Valid() && Reaches(cfg, Init(cfg), before, s) && Reaches(cfg, s, events, t)
    requires Acyclic(cfg, rank) && ServedThrough(s, events) && t.place != map[]
    ensures Internal(e) && Enabled(cfg, t, e)
  {
    InitInv(cfg);
    ReachesBoth(cfg, Init(cfg), before, s, events, t);
    RunForwards(cfg, Init(cfg), before + events, t);
    ServedThroughout(cfg, s, events, t);
    e := NoWedge(cfg, rank, t);
  }

  /** None of the batch that a connection has closed has an entry any more. */
  ghost predicate NoneLeft(s: Pipe, c: nat) {
    c < |s.conns| && s.conns[c].phase.Closed? && forall id :: id in s.conns[c].phase.ids ==> id !in s.table
  }

  /** The loop goes round: a connection that is done with its batch, or finds nothing of
      it left, gathers again from nothing, and one whose socket failed ends; a new
      connection starts by gathering. */
  lemma GathersAgain(cfg: Config, s: Pipe, c: nat, alive: bool, w: nat)
    ensures c < |s.conns| && s.conns[c].phase == Working([], alive) ==>
      && Enabled(cfg, s, Work(c))
      && Apply(cfg, s, Work(c)).conns[c] == Conn(s.conns[c].worker, if alive then Gathering([]) else Dead)
    ensures NoneLeft(s, c) && Enabled(cfg, s, Filter(c)) ==>
      Apply(cfg, s, Filter(c)).conns[c] == Conn(s.conns[c].worker, Gathering([]))
    ensures w < |s.queues| ==>
      Enabled(cfg, s, Accept(w)) && Apply(cfg, s, Accept(w)).conns == s.conns + [Conn(w, Gathering([]))]
  {
    if NoneLeft(s, c) {
      PresentNone(s.table, s.conns[c].phase.ids);
    }
  }

  // ----- every step uses something up -----

  /** Stages a task still has to go through; none once its entry is gone. */
  ghost function Remaining(cfg: Config, table: Table, id: Id): nat {
    if id in table && table[id].route in cfg.routes && table[id].stage <= |cfg.routes[table[id].route]|
    then |cfg.routes[table[id].route]| - table[id].stage
    else 0
  }

  ghost function IdsWeight(cfg: Config, table: Table, ids: seq<Id>, base: nat): nat {
    if ids == [] then 0 else base + 20 * Remaining(cfg, table, ids[0]) + IdsWeight(cfg, table, ids[1..], base)
  }

  ghost function TodoWeight(cfg: Config, table: Table, todo: Todo): nat {
    match todo
    case SendTask(id) => if id in table then 20 + 20 * Remaining(cfg, table, id) else 6
    case Push(id, _) => 15 + 20 * Remaining(cfg, table, id)
    case NotifyDone(_) => 4
    case Wake(_) => 3
    case CleanUp(_) => 2
  }

  ghost function TodosWeight(cfg: Config, table: Table, todo: seq<Todo>): nat {
    if todo == [] then 0 else TodoWeight(cfg, table, todo[0]) + TodosWeight(cfg, table, todo[1..])
  }

  ghost function PhaseWeight(cfg: Config, table: Table, p: Phase): nat {
    match p
    case Gathering(ids) => IdsWeight(cfg, table, ids, 12)
    case Closed(ids) => IdsWeight(cfg, table, ids, 11)
    case Ready(ids, _, _) => IdsWeight(cfg, table, ids, 10)
    case Sent(ids, _, _) => IdsWeight(cfg, table, ids, 8)
    case Working(todo, _) => 1 + TodosWeight(cfg, table, todo)
    case Dead => 0
  }

  ghost function QueuesWeight(cfg: Config, table: Table, queues: seq<seq<Id>>): nat {
    if queues == [] then 0 else IdsWeight(cfg, table, queues[0], 13) + QueuesWeight(cfg, table, queues[1..])
  }

  ghost function ConnsWeight(cfg: Config, table: Table, conns: seq<Conn>): nat {
    if conns == [] then 0 else PhaseWeight(cfg, table, conns[0].phase) + ConnsWeight(cfg, table, conns[1..])
  }

  ghost function Weight(cfg: Config, s: Pipe): nat {
    QueuesWeight(cfg, s.table, s.queues) + ConnsWeight(cfg, s.table, s.conns)
  }

  /** No task gained stages or came into being between the two tables. */
  ghost predicate NoHeavier(cfg: Config, table: Table, table': Table, ids: seq<Id>) {
    forall id :: id in ids ==> Remaining(cfg, table', id) <= Remaining(cfg, table, id) && (id in table' ==> id in table)
  }

  lemma {:induction false} IdsMonotone(cfg: Config, table: Table, table': Table, ids: seq<Id>, base: nat)
    requires NoHeavier(cfg, table, table', ids)
    ensures IdsWeight(cfg, table', ids, base) <= IdsWeight(cfg, table, ids, base)
  {
    if ids != [] {
      assert ids[0] in ids;
      IdsMonotone(cfg, table, table', ids[1..], base);
    }
  }

  lemma {:induction false} TodosMonotone(cfg: Config, table: Table, table': Table, todo: seq<Todo>)
    requires NoHeavier(cfg, table, table', TodoIds(todo))
    ensures TodosWeight(cfg, table', todo) <= TodosWeight(cfg, table, todo)
  {
    if todo != [] {
      assert TodoIds(todo)[0] == todo[0].id && TodoIds(todo)[1..] == TodoIds(todo[1..]);
      TodosMonotone(cfg, table, table', todo[1..]);
    }
  }

  lemma PhaseMonotone(cfg: Config, table: Table, table': Table, p: Phase)
    requires NoHeavier(cfg, table, table', Held(p))
    ensures PhaseWeight(cfg, table', p) <= PhaseWeight(cfg, table, p)
  {
    match p
    case Gathering(ids) => IdsMonotone(cfg, table, table', ids, 12);
    case Closed(ids) => IdsMonotone(cfg, table, table', ids, 11);
    case Ready(ids, _, _) => IdsMonotone(cfg, table, table', ids, 10);
    case Sent(ids, _, _) => IdsMonotone(cfg, table, table', ids, 8);
    case Working(todo, _) => TodosMonotone(cfg, table, table', todo);
    case Dead =>
  }

  lemma {:induction false} QueuesMonotone(cfg: Config, table: Table, table': Table, queues: seq<seq<Id>>)
    requires forall w :: 0 <= w < |queues| ==> NoHeavier(cfg, table, table', queues[w])
    ensures QueuesWeight(cfg, table', queues) <= QueuesWeight(cfg, table, queues)
  {
    if queues != [] {
      IdsMonotone(cfg, table, table', queues[0], 13);
      QueuesMonotone(cfg, table, table', queues[1..]);
    }
  }

  lemma {:induction false} ConnsMonotone(cfg: Config, table: Table, table': Table, conns: seq<Conn>, conns': seq<Conn>)
    requires |conns'| == |conns|
    requires forall d ::
      0 <= d < |conns| ==> PhaseWeight(cfg, table', conns'[d].phase) <= PhaseWeight(cfg, table, conns[d].phase)
    ensures ConnsWeight(cfg, table', conns') <= ConnsWeight(cfg, table, conns)
  {
    if conns != [] {
      assert PhaseWeight(cfg, table', conns'[0].phase) <= PhaseWeight(cfg, table, conns[0].phase);
      ConnsMonotone(cfg, table, table', conns[1..], conns'[1..]);
    }
  }

  lemma {:induction false} ConnsDrop(cfg: Config, table: Table, table': Table, conns: seq<Conn>, conns': seq<Conn>,
      c: nat)
    requires |conns'| == |conns| && c < |conns|
    requires forall d ::
      0 <= d < |conns| ==> PhaseWeight(cfg, table', conns'[d].phase) <= PhaseWeight(cfg, table, conns[d].phase)
    requires PhaseWeight(cfg, table', conns'[c].phase) < PhaseWeight(cfg, table, conns[c].phase)
    ensures ConnsWeight(cfg, table', conns') < ConnsWeight(cfg, table, conns)
  {
    assert PhaseWeight(cfg, table', conns'[0].phase) <= PhaseWeight(cfg, table, conns[0].phase);
    if c == 0 {
      ConnsMonotone(cfg, table, table', conns[1..], conns'[1..]);
    } else {
      ConnsDrop(cfg, table, table', conns[1..], conns'[1..], c - 1);
    }
  }

  lemma {:induction false} ConnsUpdate(cfg: Config, table: Table, conns: seq<Conn>, c: nat, conn: Conn)
    requires c < |conns|
    ensures ConnsWeight(cfg, table, conns[c := conn]) + PhaseWeight(cfg, table, conns[c].phase)
      == ConnsWeight(cfg, table, conns) + PhaseWeight(cfg, table, conn.phase)
  {
    if c > 0 {
      assert conns[c := conn][1..] == conns[1..][c - 1 := conn];
      ConnsUpdate(cfg, table, conns[1..], c - 1, conn);
    }
  }

  lemma {:induction false} QueuesUpdate(cfg: Config, table: Table, queues: seq<seq<Id>>, w: nat, queue: seq<Id>)
    requires w < |queues|
    ensures QueuesWeight(cfg, table, queues[w := queue]) + IdsWeight(cfg, table, queues[w], 13)
      == QueuesWeight(cfg, table, queues) + IdsWeight(cfg, table, queue, 13)
  {
    if w > 0 {
      assert queues[w := queue][1..] == queues[1..][w - 1 := queue];
      QueuesUpdate(cfg, table, queues[1..], w - 1, queue);
    }
  }

  lemma {:induction false} IdsAppend(cfg: Config, table: Table, ids: seq<Id>, id: Id, base: nat)
    ensures IdsWeight(cfg, table, ids + [id], base) == IdsWeight(cfg, table, ids, base) + base
      + 20 * Remaining(cfg, table, id)
  {
    if ids != [] {
      assert (ids + [id])[1..] == ids[1..] + [id];
      IdsAppend(cfg, table, ids[1..], id, base);
    }
  }

  lemma {:induction false} IdsLower(cfg: Config, table: Table, ids: seq<Id>, base: nat, lower: nat)
    requires lower < base
    ensures IdsWeight(cfg, table, ids, lower) + |ids| <= IdsWeight(cfg, table, ids, base)
  {
    if ids != [] {
      IdsLower(cfg, table, ids[1..], base, lower);
    }
  }

  lemma {:induction false} PresentLower(cfg: Config, table: Table, ids: seq<Id>, base: nat)
    ensures IdsWeight(cfg, table, Present(table, ids), base) <= IdsWeight(cfg, table, ids, base)
  {
    if ids != [] {
      PresentLower(cfg, table, ids[1..], base);
    }
  }

  /** After a normal answer every live id of the batch has one stage less to go. */
  lemma {:induction false} SendTasksWeight(cfg: Config, table: Table, table': Table, ids: seq<Id>)
    requires forall id :: id in ids && id in table ==> Remaining(cfg, table', id) + 1 <= Remaining(cfg, table, id)
    requires forall id :: id in ids && id in table' ==> id in table
    ensures TodosWeight(cfg, table', SendTasks(ids)) + 2 * |ids| <= IdsWeight(cfg, table, ids, 8)
  {
    if ids != [] {
      assert ids[0] in ids && SendTasks(ids)[1..] == SendTasks(ids[1..]);
      SendTasksWeight(cfg, table, table', ids[1..]);
    }
  }

  lemma {:induction false} NotificationsWeight(cfg: Config, table: Table, table': Table, ids: seq<Id>)
    ensures TodosWeight(cfg, table', Notifications(Present(table, ids))) + 2 * |ids| <= IdsWeight(cfg, table, ids, 8)
  {
    if ids != [] {
      NotificationsWeight(cfg, table, table', ids[1..]);
      if ids[0] in table {
        var kept := Present(table, ids);
        assert kept == [ids[0]] + Present(table, ids[1..]);
        assert Notifications(kept)[1..] == Notifications(kept[1..]) && kept[1..] == Present(table, ids[1..]);
      }
    }
  }

  lemma SamePhaseWeights(cfg: Config, s: Pipe, c: nat, phase: Phase)
    requires c < |s.conns| && PhaseWeight(cfg, s.table, phase) < PhaseWeight(cfg, s.table, s.conns[c].phase)
    ensures ConnsWeight(cfg, s.table, SetConn(s, c, phase).conns) < ConnsWeight(cfg, s.table, s.conns)
  {
    ConnsDrop(cfg, s.table, s.table, s.conns, SetConn(s, c, phase).conns, c);
  }

  lemma ReceiveWeight(cfg: Config, s: Pipe, c: nat)
    requires CanReceive(s, c)
    ensures Weight(cfg, DoReceive(s, c)) < Weight(cfg, s)
  {
    var s' := DoReceive(s, c);
    var w := s.conns[c].worker;
    var id := s.queues[w][0];
    QueuesUpdate(cfg, s.table, s.queues, w, s.queues[w][1..]);
    IdsAppend(cfg, s.table, s.conns[c].phase.ids, id, 12);
    ConnsUpdate(cfg, s.table, s.conns, c, s'.conns[c]);
  }

  lemma CloseBatchWeight(cfg: Config, s: Pipe, c: nat)
    requires Enabled(cfg, s, CloseBatch(c))
    ensures Weight(cfg, Apply(cfg, s, CloseBatch(c))) < Weight(cfg, s)
  {
    var ids := s.conns[c].phase.ids;
    IdsLower(cfg, s.table, ids, 12, 11);
    SamePhaseWeights(cfg, s, c, Closed(ids));
  }

  lemma FilterWeight(cfg: Config, s: Pipe, c: nat)
    requires Enabled(cfg, s, Filter(c)) && s.conns[c].phase.ids != []
    ensures Weight(cfg, DoFilter(cfg, s, c)) < Weight(cfg, s)
  {
    var ids := s.conns[c].phase.ids;
    IdsLower(cfg, s.table, ids, 11, 10);
    PresentLower(cfg, s.table, ids, 10);
    SamePhaseWeights(cfg, s, c, DoFilter(cfg, s, c).conns[c].phase);
  }

  lemma SendOkWeight(cfg: Config, s: Pipe, c: nat)
    requires cfg.Valid() && Inv(cfg, s) && Enabled(cfg, s, SendOk(c))
    ensures Weight(cfg, Apply(cfg, s, SendOk(c))) < Weight(cfg, s)
  {
    ConnFacts(cfg, s, c);
    var p := s.conns[c].phase;
    IdsLower(cfg, s.table, p.ids, 10, 8);
    SamePhaseWeights(cfg, s, c, Sent(p.ids, p.data, p.states));
  }

  lemma ReplyWeight(cfg: Config, s: Pipe, c: nat, code: TaskCode, payloads: seq<Bytes>)
    requires cfg.Valid() && Inv(cfg, s) && Enabled(cfg, s, Reply(c, code, payloads))
    ensures Weight(cfg, DoReply(s, c, code, payloads)) < Weight(cfg, s)
  {
    ConnFacts(cfg, s, c);
    ReplyRemaining(cfg, s, c, code, payloads);
    ReplyShrinks(cfg, s, c, code, payloads);
  }

  lemma ReplyShrinks(cfg: Config, s: Pipe, c: nat, code: TaskCode, payloads: seq<Bytes>)
    requires c < |s.conns| && s.conns[c].phase.Sent? && |payloads| == |s.conns[c].phase.ids| && payloads != []
    requires
      var table := UpdateAll(s.table, code, s.conns[c].phase.ids, payloads);
      && (forall id :: Remaining(cfg, table, id) <= Remaining(cfg, s.table, id) && (id in table <==> id in s.table))
      && forall id ::
        id in s.conns[c].phase.ids && id in s.table ==> Remaining(cfg, table, id) + 1 <= Remaining(cfg, s.table, id)
    ensures Weight(cfg, DoReply(s, c, code, payloads)) < Weight(cfg, s)
  {
    var table := UpdateAll(s.table, code, s.conns[c].phase.ids, payloads);
    QueuesMonotone(cfg, s.table, table, s.queues);
    ReplyConnWeight(cfg, s, c, code, payloads);
    OthersLighter(cfg, s.table, table, s.conns, DoReply(s, c, code, payloads).conns, c);
  }

  lemma OthersLighter(cfg: Config, table: Table, table': Table, conns: seq<Conn>, conns': seq<Conn>, c: nat)
    requires c < |conns| && |conns'| == |conns| && forall d :: 0 <= d < |conns| && d != c ==> conns'[d] == conns[d]
    requires forall id :: Remaining(cfg, table', id) <= Remaining(cfg, table, id) && (id in table' ==> id in table)
    requires PhaseWeight(cfg, table', conns'[c].phase) < PhaseWeight(cfg, table, conns[c].phase)
    ensures ConnsWeight(cfg, table', conns') < ConnsWeight(cfg, table, conns)
  {
    forall d | 0 <= d < |conns| && d != c
      ensures PhaseWeight(cfg, table', conns'[d].phase) <= PhaseWeight(cfg, table, conns[d].phase)
    {
      PhaseMonotone(cfg, table, table', conns[d].phase);
    }
    ConnsDrop(cfg, table, table', conns, conns', c);
  }

  lemma ReplyConnWeight(cfg: Config, s: Pipe, c: nat, code: TaskCode, payloads: seq<Bytes>)
    requires c < |s.conns| && s.conns[c].phase.Sent? && |payloads| == |s.conns[c].phase.ids| && payloads != []
    requires
      var table := UpdateAll(s.table, code, s.conns[c].phase.ids, payloads);
      && (forall id :: id in table ==> id in s.table)
      && forall id ::
        id in s.conns[c].phase.ids && id in s.table ==> Remaining(cfg, table, id) + 1 <= Remaining(cfg, s.table, id)
    ensures
      var s' := DoReply(s, c, code, payloads);
      PhaseWeight(cfg, s'.table, s'.conns[c].phase) < PhaseWeight(cfg, s.table, s.conns[c].phase)
  {
    var ids := s.conns[c].phase.ids;
    AnsweredWeight(cfg, s.table, UpdateAll(s.table, code, ids, payloads), ids, code);
  }

  lemma AnsweredWeight(cfg: Config, table: Table, table': Table, ids: seq<Id>, code: TaskCode)
    requires ids != []
    requires forall id :: id in ids && id in table ==> Remaining(cfg, table', id) + 1 <= Remaining(cfg, table, id)
    requires forall id :: id in ids && id in table' ==> id in table
    ensures 1 + TodosWeight(cfg, table', ReplyTodo(table, ids, code)) < IdsWeight(cfg, table, ids, 8)
  {
    if code == Normal {
      SendTasksWeight(cfg, table, table', ids);
    } else {
      NotificationsWeight(cfg, table, table', ids);
    }
  }

  /** An answer takes one stage off every live task of its batch and off no other. */
  lemma ReplyRemaining(cfg: Config, s: Pipe, c: nat, code: TaskCode, payloads: seq<Bytes>)
    requires cfg.Valid() && Inv(cfg, s) && Enabled(cfg, s, Reply(c, code, payloads))
    ensures
      var table := UpdateAll(s.table, code, s.conns[c].phase.ids, payloads);
      && (forall id :: Remaining(cfg, table, id) <= Remaining(cfg, s.table, id) && (id in table <==> id in s.table))
      && forall id ::
        id in s.conns[c].phase.ids && id in s.table ==> Remaining(cfg, table, id) + 1 <= Remaining(cfg, s.table, id)
  {
    var conn := s.conns[c];
    ConnFacts(cfg, s, c);
    UpdateAllFrame(s.table, code, conn.phase.ids, payloads);
    BatchDue(cfg, s.table, conn);
  }

  lemma BatchDue(cfg: Config, table: Table, conn: Conn)
    requires conn.phase.Sent? && ConnTasksOk(cfg, table, conn)
    ensures forall id :: id in conn.phase.ids && id in table ==> DueAt(cfg, table[id], conn.worker)
  {
    forall i | 0 <= i < |conn.phase.ids| && conn.phase.ids[i] in table
      ensures DueAt(cfg, table[conn.phase.ids[i]], conn.worker)
    {
      assert Held(conn.phase)[i] == conn.phase.ids[i] && ItemOk(cfg, table[conn.phase.ids[i]], conn, i);
    }
  }

  lemma WorkWeight(cfg: Config, s: Pipe, c: nat)
    requires cfg.Valid() && Inv(cfg, s) && Enabled(cfg, s, Work(c))
    ensures Weight(cfg, DoWork(cfg, s, c)) < Weight(cfg, s)
  {
    var p := s.conns[c].phase;
    if p.todo == [] {
      SamePhaseWeights(cfg, s, c, if p.alive then Gathering([]) else Dead);
    } else {
      EntriesRouted(cfg, s);
      ConnFacts(cfg, s, c);
      var id := p.todo[0].id;
      assert id in s.table ==> TaskOk(cfg, s.table[id], s.clients, id);
      HeadWeight(cfg, s, c, p.todo[0], p.todo[1..], p.alive);
    }
  }

  lemma HeadWeight(cfg: Config, s: Pipe, c: nat, todo: Todo, rest: seq<Todo>, alive: bool)
    requires cfg.Valid() && c < |s.conns| && HeadEnabled(cfg, s, todo)
    requires todo.id in s.table
      ==> s.table[todo.id].route in cfg.routes && s.table[todo.id].stage <= |cfg.routes[s.table[todo.id].route]|
    requires s.conns[c].phase.Working? && s.conns[c].phase.todo == [todo] + rest
    ensures Weight(cfg, DoHead(cfg, s, c, todo, rest, alive)) < Weight(cfg, s)
  {
    assert ([todo] + rest)[1..] == rest;
    match todo
    case Push(id, w) => PushWeight(cfg, s, c, id, w, rest, alive);
    case CleanUp(id) => CleanUpWeight(cfg, s, c, id, rest, alive);
    case SendTask(id) =>
      if id in s.table {
        var route := cfg.routes[s.table[id].route];
        var stage := s.table[id].stage;
        LighterHead(cfg, s, c, [if stage >= |route| then NotifyDone(id) else Push(id, route[stage])], rest, alive);
      } else {
        LighterHead(cfg, s, c, [], rest, alive);
      }
    case NotifyDone(id) => LighterHead(cfg, s, c, if id in s.notifiers then [Wake(id)] else [], rest, alive);
    case Wake(id) => LighterHead(cfg, s, c, if ClientAt(s, id, Waiting) then [] else [CleanUp(id)], rest, alive);
  }

  lemma LighterHead(cfg: Config, s: Pipe, c: nat, now: seq<Todo>, rest: seq<Todo>, alive: bool)
    requires c < |s.conns| && s.conns[c].phase.Working? && s.conns[c].phase.todo != []
      && s.conns[c].phase.todo[1..] == rest
    requires |now| <= 1
    requires now != []
      ==> TodoWeight(cfg, s.table, now[0]) < TodoWeight(cfg, s.table, s.conns[c].phase.todo[0])
    ensures ConnsWeight(cfg, s.table, SetConn(s, c, Working(now + rest, alive)).conns)
      < ConnsWeight(cfg, s.table, s.conns)
    ensures now + rest == if now == [] then rest else [now[0]] + rest
  {
    assert now != [] ==> (now + rest)[1..] == rest;
    assert now == [] ==> now + rest == rest;
    SamePhaseWeights(cfg, s, c, Working(now + rest, alive));
  }

  lemma PushWeight(cfg: Config, s: Pipe, c: nat, id: Id, w: nat, rest: seq<Todo>, alive: bool)
    requires c < |s.conns| && HeadEnabled(cfg, s, Push(id, w))
    requires s.conns[c].phase.Working? && s.conns[c].phase.todo == [Push(id, w)] + rest
    ensures Weight(cfg, DoHead(cfg, s, c, Push(id, w), rest, alive)) < Weight(cfg, s)
  {
    QueuesUpdate(cfg, s.table, s.queues, w, s.queues[w] + [id]);
    IdsAppend(cfg, s.table, s.queues[w], id, 13);
    ConnsUpdate(cfg, s.table, s.conns, c, s.conns[c].(phase := Working(rest, alive)));
    assert ([Push(id, w)] + rest)[1..] == rest;
  }

  lemma CleanUpWeight(cfg: Config, s: Pipe, c: nat, id: Id, rest: seq<Todo>, alive: bool)
    requires c < |s.conns| && s.conns[c].phase.Working? && s.conns[c].phase.todo == [CleanUp(id)] + rest
    ensures Weight(cfg, DoHead(cfg, s, c, CleanUp(id), rest, alive)) < Weight(cfg, s)
  {
    var table := s.table - {id};
    QueuesMonotone(cfg, s.table, table, s.queues);
    assert ([CleanUp(id)] + rest)[1..] == rest;
    PhaseMonotone(cfg, s.table, table, Working(rest, alive));
    OthersLighter(cfg, s.table, table, s.conns, SetConn(s, c, Working(rest, alive)).conns, c);
  }

  lemma InternalStepShrinks(cfg: Config, s: Pipe, e: Event)
    requires cfg.Valid() && Inv(cfg, s) && Enabled(cfg, s, e) && Internal(e)
    ensures Weight(cfg, Apply(cfg, s, e)) < Weight(cfg, s)
  {
    match e
    case Receive(c) => ReceiveWeight(cfg, s, c);
    case Reply(c, code, payloads) => ReplyWeight(cfg, s, c, code, payloads);
    case Work(c) => WorkWeight(cfg, s, c);
    case CloseBatch(c) => CloseBatchWeight(cfg, s, c);
    case Filter(c) =>
      ConnFacts(cfg, s, c);
      FilterWeight(cfg, s, c);
    case SendOk(c) => SendOkWeight(cfg, s, c);
    case _ =>
  }

  /** Giving up, whether by timing out or by going away, adds no work. */
  ghost predicate GivingUp(e: Event) {
    e.TimeOut? || e.Cancel? || e.Finish? || e.DropNotifier? || e.DropTask? || e.Collect?
  }

  lemma GivingUpShrinks(cfg: Config, s: Pipe, e: Event)
    requires Enabled(cfg, s, e) && GivingUp(e)
    ensures Weight(cfg, Apply(cfg, s, e)) <= Weight(cfg, s)
  {
    var s' := Apply(cfg, s, e);
    QueuesMonotone(cfg, s.table, s'.table, s.queues);
    forall d | 0 <= d < |s.conns|
      ensures PhaseWeight(cfg, s'.table, s'.conns[d].phase) <= PhaseWeight(cfg, s.table, s.conns[d].phase)
    {
      PhaseMonotone(cfg, s.table, s'.table, s.conns[d].phase);
    }
    ConnsMonotone(cfg, s.table, s'.table, s.conns, s'.conns);
  }

  // ----- draining -----

  /** A client waits for something that is nowhere in the pipeline any more. */
  ghost predicate Lost(s: Pipe, id: Id) {
    ClientAt(s, id, Waiting) && id !in s.place
  }

  /** A read fails on a connection whose batch the client waits for. */
  ghost predicate Loses(s: Pipe, e: Event, id: Id) {
    e.ReadFail? && e.c < |s.conns| && s.conns[e.c].phase.Sent? && id in s.conns[e.c].phase.ids
      && ClientAt(s, id, Waiting)
  }

  ghost predicate GivesUp(e: Event, id: Id) {
    e == TimeOut(id) || e == Cancel(id)
  }

  lemma WorkLosesNobody(cfg: Config, s: Pipe, c: nat, id: Id)
    requires cfg.Valid() && Inv(cfg, s) && Enabled(cfg, s, Work(c))
    ensures Lost(DoWork(cfg, s, c), id) <==> Lost(s, id)
  {
    var p := s.conns[c].phase;
    if p.todo != [] {
      var x := p.todo[0].id;
      ConnFacts(cfg, s, c);
      assert TodoOk(s.notifiers, s.clients, p.todo[0]);
      assert AllAt(s.place, Held(p), Hand(c)) && Held(p)[0] == x;
      if ClientAt(s, x, Waiting) {
        ClientFacts(cfg, s, x);
        if p.todo[0].NotifyDone? {
          NotifierThere(cfg, s, c, x);
        }
      }
      HeadLosesNobody(cfg, s, c, p.todo[0], p.todo[1..], p.alive, id);
    }
  }

  /** A waiting client's notifier is in the map until its turn to be notified. */
  lemma NotifierThere(cfg: Config, s: Pipe, c: nat, id: Id)
    requires HandsPlaced(s) && c < |s.conns| && s.conns[c].phase.Working? && s.conns[c].phase.todo != []
    requires s.conns[c].phase.todo[0] == NotifyDone(id) && ClientAt(s, id, Waiting) && ClientOk(cfg, s, id)
    ensures id in s.notifiers
  {
    var p := s.conns[c].phase;
    assert AllAt(s.place, Held(p), Hand(c));
    assert Held(p)[0] == id;
    forall i | 0 <= i < |p.todo| ensures p.todo[i] != Wake(id) {
      assert Held(p)[i] == p.todo[i].id;
    }
  }

  lemma HeadLosesNobody(cfg: Config, s: Pipe, c: nat, todo: Todo, rest: seq<Todo>, alive: bool, id: Id)
    requires c < |s.conns| && HeadEnabled(cfg, s, todo) && todo.id in s.place
    requires ClientAt(s, todo.id, Waiting) ==>
      todo.id in s.table && !todo.CleanUp? && (todo.NotifyDone? ==> todo.id in s.notifiers)
    ensures Lost(DoHead(cfg, s, c, todo, rest, alive), id) <==> Lost(s, id)
  {
  }

  lemma QueuesFacts(s: Pipe, w: nat)
    requires QueuesPlaced(s) && w < |s.queues| && s.queues[w] != []
    ensures s.queues[w][0] in s.place
  {
    assert AllAt(s.place, s.queues[w], Queue(w));
  }

  lemma WaitersStored(cfg: Config, s: Pipe)
    requires cfg.Valid() && Inv(cfg, s)
    ensures forall id :: ClientAt(s, id, Waiting) ==> id in s.table
  {
    forall id | ClientAt(s, id, Waiting) ensures id in s.table {
      ClientFacts(cfg, s, id);
    }
  }

  lemma InternalLosesNobody(cfg: Config, s: Pipe, e: Event, id: Id)
    requires cfg.Valid() && Inv(cfg, s) && Enabled(cfg, s, e) && Internal(e)
    ensures Lost(Apply(cfg, s, e), id) <==> Lost(s, id)
  {
    match e
    case Work(c) => WorkLosesNobody(cfg, s, c, id);
    case Reply(c, code, payloads) => WaitersStored(cfg, s);
    case Filter(c) => WaitersStored(cfg, s);
    case Receive(c) => QueuesFacts(s, s.conns[c].worker);
    case _ =>
  }

  lemma IssueLosesNobody(cfg: Config, s: Pipe, e: Event, id: Id)
    requires IdsOk(s) && Enabled(cfg, s, e) && e.Issue?
    ensures Lost(Apply(cfg, s, e), id) <==> Lost(s, id)
  {
    FreshId(s);
    assert ClientAt(s, id, Waiting) ==> id in Mentioned(s);
  }

  lemma ClientLosesNobody(cfg: Config, s: Pipe, e: Event, id: Id)
    requires Enabled(cfg, s, e) && !Internal(e) && !e.ReadFail? && !e.Issue? && !GivesUp(e, id)
    ensures Lost(Apply(cfg, s, e), id) <==> Lost(s, id)
  {
  }

  lemma ReadFailLoses(cfg: Config, s: Pipe, c: nat, id: Id)
    requires Enabled(cfg, s, ReadFail(c))
    ensures Lost(Apply(cfg, s, ReadFail(c)), id) <==> Lost(s, id) || Loses(s, ReadFail(c), id)
  {
    assert id in Elements(s.conns[c].phase.ids) <==> id in s.conns[c].phase.ids;
  }

  lemma GivesUpExactly(cfg: Config, s: Pipe, e: Event, id: Id)
    requires Enabled(cfg, s, e) && GivesUp(e, id)
    ensures !Lost(Apply(cfg, s, e), id)
  {
  }

  lemma LosesNobody(cfg: Config, s: Pipe, e: Event, id: Id)
    requires cfg.Valid() && Inv(cfg, s) && Enabled(cfg, s, e) && !e.ReadFail? && !GivesUp(e, id)
    ensures Lost(Apply(cfg, s, e), id) <==> Lost(s, id)
  {
    if Internal(e) {
      InternalLosesNobody(cfg, s, e, id);
    } else if e.Issue? {
      IssueLosesNobody(cfg, s, e, id);
    } else {
      ClientLosesNobody(cfg, s, e, id);
    }
  }

  /** What is in a batch is not lost yet. */
  lemma LosesHeld(s: Pipe, e: Event, id: Id)
    requires HandsPlaced(s)
    ensures Loses(s, e, id) ==> !Lost(s, id)
  {
    if Loses(s, e, id) {
      assert AllAt(s.place, Held(s.conns[e.c].phase), Hand(e.c));
    }
  }

  /** A step leaves a client waiting in vain if and only if it is a read that fails on
      the connection that has the client's task in its batch: a failed send, a full
      queue, an expired or abnormal task lose nobody, whoever was lost before. And a
      client that is lost stays so until it times out or goes away. */
  lemma LosesExactly(cfg: Config, s: Pipe, e: Event, id: Id)
    requires cfg.Valid() && Inv(cfg, s) && Enabled(cfg, s, e)
    ensures !Lost(s, id) && Lost(Apply(cfg, s, e), id) <==> Loses(s, e, id)
    ensures Lost(s, id) ==> (!Lost(Apply(cfg, s, e), id) <==> GivesUp(e, id))
  {
    if e.ReadFail? {
      ReadFailLoses(cfg, s, e.c, id);
    } else if GivesUp(e, id) {
      GivesUpExactly(cfg, s, e, id);
    } else {
      LosesNobody(cfg, s, e, id);
    }
    LosesHeld(s, e, id);
  }

  /** The server after one request has been accepted and nothing else happened. */
  ghost function OneQueued(cfg: Config, route: string, input: Bytes): Pipe
    requires cfg.Valid() && route in cfg.routes
  {
    var w := cfg.routes[route][0];
    Pipe(map[0 := NewTask(input, route)], {0}, 1, Init(cfg).queues[w := [0]], [],
         map[0 := Client(input, route, false, Waiting)], map[0 := Queue(w)], 1, map[0 := 0])
  }

  lemma StoreOne(cfg: Config, route: string, input: Bytes) returns (events: seq<Event>, s: Pipe)
    requires cfg.Valid() && route in cfg.routes
    ensures Reaches(cfg, Init(cfg), events, s)
    ensures s == Init(cfg).(table := map[0 := NewTask(input, route)], notifiers := {0}, nextId := 1,
      clients := map[0 := Client(input, route, false, Stored)], issued := 1, born := map[0 := 0])
  {
    events, s := ReachesThen(cfg, Init(cfg), [], Init(cfg), Issue(route, input, false));
    events, s := ReachesThen(cfg, Init(cfg), events, s, ListNotifier(0));
    events, s := ReachesThen(cfg, Init(cfg), events, s, StoreTask(0));
    assert s.notifiers == {0};
  }

  lemma SubmitOne(cfg: Config, route: string, input: Bytes) returns (events: seq<Event>, s: Pipe)
    requires cfg.Valid() && route in cfg.routes
    ensures Reaches(cfg, Init(cfg), events, s) && s == OneQueued(cfg, route, input)
  {
    events, s := StoreOne(cfg, route, input);
    events, s := ReachesThen(cfg, Init(cfg), events, s, TryEnqueue(0));
    assert [] + [0] == [0];
  }

  /** ... and then sent to a worker. */
  ghost function OneSent(cfg: Config, route: string, input: Bytes): Pipe
    requires cfg.Valid() && route in cfg.routes
  {
    var w := cfg.routes[route][0];
    var phase := Sent([0], [input], [StateBits(0, |cfg.routes[route]|)]);
    OneQueued(cfg, route, input).(queues := Init(cfg).queues, conns := [Conn(w, phase)], place := map[0 := Hand(0)])
  }

  lemma TakeOne(cfg: Config, route: string, input: Bytes, events: seq<Event>) returns (more: seq<Event>, s: Pipe)
    requires cfg.Valid() && route in cfg.routes && Reaches(cfg, Init(cfg), events, OneQueued(cfg, route, input))
    ensures Reaches(cfg, Init(cfg), more, s)
    ensures s == OneQueued(cfg, route, input).(queues := Init(cfg).queues,
      conns := [Conn(cfg.routes[route][0], Gathering([0]))], place := map[0 := Hand(0)])
  {
    more, s := ReachesThen(cfg, Init(cfg), events, OneQueued(cfg, route, input), Accept(cfg.routes[route][0]));
    more, s := ReachesThen(cfg, Init(cfg), more, s, Receive(0));
    assert [] + [0] == [0] && [0][1..] == [] && s.queues == Init(cfg).queues;
  }

  lemma SendOne(cfg: Config, route: string, input: Bytes) returns (events: seq<Event>, s: Pipe)
    requires cfg.Valid() && route in cfg.routes
    ensures Reaches(cfg, Init(cfg), events, s) && s == OneSent(cfg, route, input)
  {
    events, s := SubmitOne(cfg, route, input);
    events, s := TakeOne(cfg, route, input, events);
    events, s := ReachesThen(cfg, Init(cfg), events, s, CloseBatch(0));
    FilterOne(cfg, route, input, s);
    events, s := ReachesThen(cfg, Init(cfg), events, s, Filter(0));
    events, s := ReachesThen(cfg, Init(cfg), events, s, SendOk(0));
  }

  lemma FilterOne(cfg: Config, route: string, input: Bytes, s: Pipe)
    requires cfg.Valid() && route in cfg.routes
    requires s == OneSent(cfg, route, input).(conns := [Conn(cfg.routes[route][0], Closed([0]))])
    ensures Enabled(cfg, s, Filter(0))
    ensures Apply(cfg, s, Filter(0)) ==
      OneSent(cfg, route, input).(
        conns := [Conn(cfg.routes[route][0], Ready([0], [input], [StateBits(0, |cfg.routes[route]|)]))])
  {
    assert Present(s.table, [0]) == [0];
    assert Payloads(s.table, [0]) == [input]
      && States(s.table, cfg.Lengths(), [0]) == [StateBits(0, |cfg.routes[route]|)];
    assert s.place - (Elements([0]) - Elements([0])) == s.place;
  }

  /** A failed read does lose somebody: in every configuration, already with one
      request on one connection. */
  lemma LossHappens(cfg: Config, route: string, input: Bytes) returns (events: seq<Event>, s: Pipe)
    requires cfg.Valid() && route in cfg.routes
    ensures Reaches(cfg, Init(cfg), events, s) && Enabled(cfg, s, ReadFail(0))
    ensures !Lost(s, 0) && Lost(Apply(cfg, s, ReadFail(0)), 0)
  {
    events, s := SendOne(cfg, route, input);
  }

  /** From here on the client neither times out nor goes away. */
  ghost predicate Stays(events: seq<Event>, id: Id) {
    forall i :: 0 <= i < |events| ==> !GivesUp(events[i], id)
  }

  /** The `k`-th event of the run loses the client, which then stays. */
  ghost predicate LostAt(cfg: Config, s: Pipe, events: seq<Event>, id: Id, k: nat, u: Pipe) {
    && k < |events| && Reaches(cfg, s, events[..k], u) && Loses(u, events[k], id) && Stays(events[k + 1..], id)
  }

  lemma LostNow(cfg: Config, s: Pipe, events: seq<Event>, id: Id)
    requires events != [] && Stays(events[1..], id)
    ensures Loses(s, events[0], id) ==> LostAt(cfg, s, events, id, 0, s)
    ensures !GivesUp(events[0], id) ==> Stays(events, id)
  {
    assert events[..0] == [] && forall i :: 0 < i < |events| ==> events[i] == events[1..][i - 1];
  }

  lemma LostLater(cfg: Config, s: Pipe, events: seq<Event>, id: Id, k: nat, u: Pipe)
    requires events != [] && Enabled(cfg, s, events[0])
    requires LostAt(cfg, Apply(cfg, s, events[0]), events[1..], id, k, u)
    ensures LostAt(cfg, s, events, id, k + 1, u)
  {
    var before := events[..k + 1];
    assert before[0] == events[0] && before[1..] == events[1..][..k];
    assert events[1..][k + 1..] == events[k + 2..];
  }

  /** A client that is lost has been so from the beginning, or was lost by a read that
      failed on the connection with its task, and has stayed ever since. */
  lemma {:induction false} WhereLost(cfg: Config, s: Pipe, events: seq<Event>, t: Pipe, id: Id)
    returns (during: bool, k: nat, u: Pipe)
    requires cfg.Valid() && Inv(cfg, s) && Reaches(cfg, s, events, t) && Lost(t, id)
    ensures if during then LostAt(cfg, s, events, id, k, u) else Lost(s, id) && Stays(events, id)
    decreases |events|
  {
    during, k, u := false, 0, s;
    if events != [] {
      var m := Apply(cfg, s, events[0]);
      StepKeeps(cfg, s, events[0]);
      during, k, u := WhereLost(cfg, m, events[1..], t, id);
      if during {
        LostLater(cfg, s, events, id, k, u);
        k := k + 1;
      } else {
        LosesExactly(cfg, s, events[0], id);
        LostNow(cfg, s, events, id);
        during, k, u := !Lost(s, id), 0, s;
      }
    }
  }

  lemma {:induction false} StaysLost(cfg: Config, s: Pipe, events: seq<Event>, t: Pipe, id: Id)
    requires cfg.Valid() && Inv(cfg, s) && Reaches(cfg, s, events, t) && Lost(s, id) && Stays(events, id)
    ensures Lost(t, id)
    decreases |events|
  {
    if events != [] {
      LosesExactly(cfg, s, events[0], id);
      StepKeeps(cfg, s, events[0]);
      assert forall i :: 0 <= i < |events[1..]| ==> events[1..][i] == events[i + 1];
      StaysLost(cfg, Apply(cfg, s, events[0]), events[1..], t, id);
    }
  }

  lemma RestOfRun(events: seq<Event>, k: nat)
    requires 0 < k <= |events|
    ensures events[..k] != [] && events[..k][0] == events[0] && events[..k][1..] == events[1..][..k - 1]
    ensures events[1..][k - 1..] == events[k..]
  {
  }

  /** Reaching a state takes the events up to any of them and then the others. */
  lemma {:induction false} ReachesFrom(cfg: Config, s: Pipe, events: seq<Event>, t: Pipe, k: nat, u: Pipe)
    requires Reaches(cfg, s, events, t) && k <= |events| && Reaches(cfg, s, events[..k], u)
    ensures Reaches(cfg, u, events[k..], t)
    decreases k
  {
    if k == 0 {
      assert events[..0] == [] && events[0..] == events;
    } else {
      RestOfRun(events, k);
      ReachesFrom(cfg, Apply(cfg, s, events[0]), events[1..], t, k - 1, u);
    }
  }

  lemma LostSince(cfg: Config, s: Pipe, events: seq<Event>, t: Pipe, id: Id, k: nat, u: Pipe)
    requires cfg.Valid() && Inv(cfg, s) && Reaches(cfg, s, events, t) && LostAt(cfg, s, events, id, k, u)
    ensures Lost(t, id)
  {
    RunKeeps(cfg, s, events[..k], u);
    ReachesFrom(cfg, s, events, t, k, u);
    assert events[k..][0] == events[k] && events[k..][1..] == events[k + 1..];
    StepKeeps(cfg, u, events[k]);
    LosesExactly(cfg, u, events[k], id);
    StaysLost(cfg, Apply(cfg, u, events[k]), events[k + 1..], t, id);
  }

  ghost predicate LostInRun(cfg: Config, s: Pipe, events: seq<Event>, id: Id) {
    exists k, u :: LostAt(cfg, s, events, id, k, u)
  }

  /** Along every run of the server, whatever was lost before, a client waits for
      something that is nowhere if and only if a read failed on the connection that had
      its task in the batch, and the client has stayed since. */
  lemma LostExactly(cfg: Config, events: seq<Event>, t: Pipe, id: Id)
    requires cfg.Valid() && Reaches(cfg, Init(cfg), events, t)
    ensures Lost(t, id) <==> LostInRun(cfg, Init(cfg), events, id)
  {
    InitInv(cfg);
    if Lost(t, id) {
      var during, k, u := WhereLost(cfg, Init(cfg), events, t, id);
    }
    if LostInRun(cfg, Init(cfg), events, id) {
      var k, u :| LostAt(cfg, Init(cfg), events, id, k, u);
      LostSince(cfg, Init(cfg), events, t, id, k, u);
    }
  }

  /** So while no read fails nobody is lost. */
  lemma RunLosesNobody(cfg: Config, s: Pipe, events: seq<Event>, t: Pipe, id: Id)
    requires cfg.Valid() && Inv(cfg, s) && Reaches(cfg, s, events, t) && !Lost(s, id)
    requires forall i :: 0 <= i < |events| ==> !events[i].ReadFail?
    ensures !Lost(t, id)
  {
    if Lost(t, id) {
      var during, k, u := WhereLost(cfg, s, events, t, id);
    }
  }

  // ----- what a whole run can use up -----

  /** What a connection may add when its socket fails: every id of its batch is
      looked up and queued once more. */
  ghost function Budget(cfg: Config, conn: Conn): nat {
    if conn.worker < |cfg.batchSize| && Live(conn.phase) then 2 + 10 * cfg.Limit(conn.worker) else 0
  }

  ghost function Budgets(cfg: Config, conns: seq<Conn>): nat {
    if conns == [] then 0 else Budget(cfg, conns[0]) + Budgets(cfg, conns[1..])
  }

  /** Steps a handler has before it, with what its submission will add. */
  ghost function ClientWeight(cfg: Config, client: Client): nat {
    var task := if client.route in cfg.routes then 13 + 20 * |cfg.routes[client.route]| else 0;
    match client.phase
    case Issued => 7 + task
    case Listed => 6 + task
    case Stored => 5 + task
    case Waiting => 4
    case Woken => 3
    case Deleting(_) => 2
    case Deleted(_) => 1
    case Cancelled => 0
  }

  ghost function Anyone(clients: map<Id, Client>): (id: Id)
    requires clients != map[]
    ensures id in clients
  {
    var id :| id in clients;
    id
  }

  ghost function ClientsWeight(cfg: Config, clients: map<Id, Client>): nat
    decreases |clients|
  {
    if clients == map[] then 0
    else
      var id := Anyone(clients);
      ClientWeight(cfg, clients[id]) + ClientsWeight(cfg, clients - {id})
  }

  lemma {:induction false} ClientsSplit(cfg: Config, clients: map<Id, Client>, id: Id)
    requires id in clients
    ensures ClientsWeight(cfg, clients) == ClientWeight(cfg, clients[id]) + ClientsWeight(cfg, clients - {id})
    decreases |clients|
  {
    var x := Anyone(clients);
    if x != id {
      ClientsSplit(cfg, clients - {x}, id);
      ClientsSplit(cfg, clients - {id}, x);
      assert clients - {x} - {id} == clients - {id} - {x};
    }
  }

  /** A client that gets on makes the clients lighter by as much. */
  lemma ClientsUpdate(cfg: Config, clients: map<Id, Client>, id: Id, client: Client)
    requires id in clients
    ensures ClientsWeight(cfg, clients[id := client]) + ClientWeight(cfg, clients[id])
      == ClientsWeight(cfg, clients) + ClientWeight(cfg, client)
  {
    ClientsSplit(cfg, clients, id);
    ClientsSplit(cfg, clients[id := client], id);
    assert clients[id := client] - {id} == clients - {id};
  }

  /** Everything that can still happen without new submissions and connections. */
  ghost function Total(cfg: Config, s: Pipe): nat {
    Weight(cfg, s) + Budgets(cfg, s.conns) + ClientsWeight(cfg, s.clients)
  }

  lemma {:induction false} BudgetsUpdate(cfg: Config, conns: seq<Conn>, c: nat, conn: Conn)
    requires c < |conns|
    ensures Budgets(cfg, conns[c := conn]) + Budget(cfg, conns[c]) == Budgets(cfg, conns) + Budget(cfg, conn)
  {
    if c == 0 {
      assert conns[c := conn][1..] == conns[1..];
    } else {
      assert conns[c := conn][1..] == conns[1..][c - 1 := conn];
      BudgetsUpdate(cfg, conns[1..], c - 1, conn);
    }
  }

  /** One connection went on, to a phase that is live only if it was before. */
  ghost predicate OnlyConn(s: Pipe, t: Pipe, c: nat) {
    && c < |s.conns| && |t.conns| == |s.conns|
    && t.conns == s.conns[c := t.conns[c]] && t.conns[c].worker == s.conns[c].worker
    && (Live(t.conns[c].phase) ==> Live(s.conns[c].phase))
  }

  lemma HeadOnlyConn(cfg: Config, s: Pipe, c: nat, todo: Todo, rest: seq<Todo>, alive: bool)
    requires c < |s.conns| && HeadEnabled(cfg, s, todo) && s.conns[c].phase.Working? && s.conns[c].phase.alive == alive
    ensures OnlyConn(s, DoHead(cfg, s, c, todo, rest, alive), c)
  {
  }

  lemma InternalOnlyConn(cfg: Config, s: Pipe, e: Event)
    requires Enabled(cfg, s, e) && Internal(e)
    ensures OnlyConn(s, Apply(cfg, s, e), e.c)
  {
    if e.Work? && s.conns[e.c].phase.todo != [] {
      var p := s.conns[e.c].phase;
      HeadOnlyConn(cfg, s, e.c, p.todo[0], p.todo[1..], p.alive);
    }
  }

  lemma InternalBudget(cfg: Config, s: Pipe, e: Event)
    requires Enabled(cfg, s, e) && Internal(e)
    ensures Budgets(cfg, Apply(cfg, s, e).conns) <= Budgets(cfg, s.conns)
  {
    InternalOnlyConn(cfg, s, e);
    BudgetsUpdate(cfg, s.conns, e.c, Apply(cfg, s, e).conns[e.c]);
  }

  /** Of the clients an internal step can only wake one that waits. */
  lemma InternalClients(cfg: Config, s: Pipe, e: Event)
    requires Enabled(cfg, s, e) && Internal(e)
    ensures ClientsWeight(cfg, Apply(cfg, s, e).clients) <= ClientsWeight(cfg, s.clients)
  {
    if e.Work? && s.conns[e.c].phase.todo != [] {
      var p := s.conns[e.c].phase;
      HeadClients(cfg, s, e.c, p.todo[0], p.todo[1..], p.alive);
    }
  }

  lemma HeadClients(cfg: Config, s: Pipe, c: nat, todo: Todo, rest: seq<Todo>, alive: bool)
    requires c < |s.conns| && HeadEnabled(cfg, s, todo)
    ensures ClientsWeight(cfg, DoHead(cfg, s, c, todo, rest, alive).clients) <= ClientsWeight(cfg, s.clients)
  {
    if todo.Wake? && ClientAt(s, todo.id, Waiting) {
      ClientsUpdate(cfg, s.clients, todo.id, s.clients[todo.id].(phase := Woken));
    }
  }

  lemma InternalTotal(cfg: Config, s: Pipe, e: Event)
    requires cfg.Valid() && Inv(cfg, s) && Enabled(cfg, s, e) && Internal(e)
    ensures Total(cfg, Apply(cfg, s, e)) < Total(cfg, s)
  {
    InternalStepShrinks(cfg, s, e);
    InternalBudget(cfg, s, e);
    InternalClients(cfg, s, e);
  }

  lemma GivingUpClients(cfg: Config, s: Pipe, e: Event)
    requires Enabled(cfg, s, e) && GivingUp(e)
    ensures ClientsWeight(cfg, Apply(cfg, s, e).clients) < ClientsWeight(cfg, s.clients)
  {
    var id, t := e.id, Apply(cfg, s, e);
    ClientsSplit(cfg, s.clients, id);
    if id in t.clients {
      ClientsUpdate(cfg, s.clients, id, t.clients[id]);
      assert t.clients == s.clients[id := t.clients[id]];
    }
  }

  lemma GivingUpTotal(cfg: Config, s: Pipe, e: Event)
    requires Enabled(cfg, s, e) && GivingUp(e)
    ensures Total(cfg, Apply(cfg, s, e)) < Total(cfg, s)
  {
    GivingUpShrinks(cfg, s, e);
    GivingUpClients(cfg, s, e);
  }

  /** The id of a new entry is in no queue and no hand yet. */
  lemma StoreWeight(cfg: Config, s: Pipe, id: Id)
    requires cfg.Valid() && Inv(cfg, s) && Enabled(cfg, s, StoreTask(id))
    ensures Weight(cfg, Apply(cfg, s, StoreTask(id))) <= Weight(cfg, s)
  {
    var t := Apply(cfg, s, StoreTask(id));
    ClientFacts(cfg, s, id);
    forall w | 0 <= w < |s.queues| ensures NoHeavier(cfg, s.table, t.table, s.queues[w]) {
      assert AllAt(s.place, s.queues[w], Queue(w));
    }
    QueuesMonotone(cfg, s.table, t.table, s.queues);
    forall d | 0 <= d < |s.conns|
      ensures PhaseWeight(cfg, t.table, t.conns[d].phase) <= PhaseWeight(cfg, s.table, s.conns[d].phase)
    {
      assert AllAt(s.place, Held(s.conns[d].phase), Hand(d));
      PhaseMonotone(cfg, s.table, t.table, s.conns[d].phase);
    }
    ConnsMonotone(cfg, s.table, t.table, s.conns, t.conns);
  }

  lemma QueuedOne(cfg: Config, table: Table, queues: seq<seq<Id>>, w: nat, id: Id)
    requires w < |queues|
    ensures QueuesWeight(cfg, table, queues[w := queues[w] + [id]]) == QueuesWeight(cfg, table, queues) + 13
      + 20 * Remaining(cfg, table, id)
  {
    QueuesUpdate(cfg, table, queues, w, queues[w] + [id]);
    IdsAppend(cfg, table, queues[w], id, 13);
  }

  lemma StoredRemaining(cfg: Config, s: Pipe, id: Id)
    requires cfg.Valid() && Inv(cfg, s) && ClientAt(s, id, Stored)
    ensures s.clients[id].route in cfg.routes && Remaining(cfg, s.table, id) == |cfg.routes[s.clients[id].route]|
  {
    ClientFacts(cfg, s, id);
  }

  lemma EnqueueTotal(cfg: Config, s: Pipe, id: Id)
    requires cfg.Valid() && Inv(cfg, s) && Enabled(cfg, s, TryEnqueue(id))
    ensures Total(cfg, Apply(cfg, s, TryEnqueue(id))) < Total(cfg, s)
  {
    StoredRemaining(cfg, s, id);
    var w := cfg.routes[s.clients[id].route][0];
    if |s.queues[w]| < cfg.capacity {
      AcceptedTotal(cfg, s, id, w);
    } else {
      RejectedTotal(cfg, s, id);
    }
  }

  lemma RejectedTotal(cfg: Config, s: Pipe, id: Id)
    requires ClientAt(s, id, Stored)
    ensures Total(cfg, SetPhase(s, id, Deleting(Rejected))) < Total(cfg, s)
  {
    ClientsUpdate(cfg, s.clients, id, s.clients[id].(phase := Deleting(Rejected)));
  }

  lemma AcceptedTotal(cfg: Config, s: Pipe, id: Id, w: nat)
    requires w < |s.queues| && ClientAt(s, id, Stored) && s.clients[id].route in cfg.routes
    requires Remaining(cfg, s.table, id) == |cfg.routes[s.clients[id].route]|
    ensures Total(cfg, Enqueue(SetPhase(s, id, Waiting), id, w)) < Total(cfg, s)
  {
    ClientsUpdate(cfg, s.clients, id, s.clients[id].(phase := Waiting));
    QueuedOne(cfg, s.table, s.queues, w, id);
  }

  lemma StoreTotal(cfg: Config, s: Pipe, id: Id)
    requires cfg.Valid() && Inv(cfg, s) && Enabled(cfg, s, StoreTask(id))
    ensures Total(cfg, Apply(cfg, s, StoreTask(id))) < Total(cfg, s)
  {
    StoreWeight(cfg, s, id);
    ClientsUpdate(cfg, s.clients, id, s.clients[id].(phase := Stored));
  }

  lemma ListTotal(cfg: Config, s: Pipe, id: Id)
    requires Enabled(cfg, s, ListNotifier(id))
    ensures Total(cfg, Apply(cfg, s, ListNotifier(id))) < Total(cfg, s)
  {
    ClientsUpdate(cfg, s.clients, id, s.clients[id].(phase := Listed));
  }

  lemma {:induction false} SendTasksCost(cfg: Config, table: Table, ids: seq<Id>)
    ensures TodosWeight(cfg, table, SendTasks(ids)) <= IdsWeight(cfg, table, ids, 10) + 10 * |ids|
  {
    if ids != [] {
      assert SendTasks(ids)[1..] == SendTasks(ids[1..]);
      SendTasksCost(cfg, table, ids[1..]);
    }
  }

  lemma SendFailTotal(cfg: Config, s: Pipe, c: nat)
    requires cfg.Valid() && Inv(cfg, s) && Enabled(cfg, s, SendFail(c))
    ensures Total(cfg, Apply(cfg, s, SendFail(c))) < Total(cfg, s)
  {
    ConnFacts(cfg, s, c);
    var ids, t := s.conns[c].phase.ids, Apply(cfg, s, SendFail(c));
    SendTasksCost(cfg, s.table, ids);
    ConnsUpdate(cfg, s.table, s.conns, c, t.conns[c]);
    BudgetsUpdate(cfg, s.conns, c, t.conns[c]);
  }

  lemma DeadTotal(cfg: Config, s: Pipe, c: nat)
    requires c < |s.conns| && s.conns[c].worker < |cfg.batchSize| && Live(s.conns[c].phase)
    ensures Total(cfg, SetConn(s, c, Dead)) < Total(cfg, s)
  {
    var dead := s.conns[c].(phase := Dead);
    ConnsUpdate(cfg, s.table, s.conns, c, dead);
    BudgetsUpdate(cfg, s.conns, c, dead);
  }

  lemma ReadFailTotal(cfg: Config, s: Pipe, c: nat)
    requires cfg.Valid() && Inv(cfg, s) && Enabled(cfg, s, ReadFail(c))
    ensures Total(cfg, Apply(cfg, s, ReadFail(c))) < Total(cfg, s)
  {
    ConnFacts(cfg, s, c);
    DeadTotal(cfg, s, c);
  }

  /** Every step but a new submission and a new connection uses something up: those
      of connections and workers, of handlers under way, of clients that give up,
      and also sends and reads that fail. */
  lemma EveryStepShrinks(cfg: Config, s: Pipe, e: Event)
    requires cfg.Valid() && Inv(cfg, s) && Enabled(cfg, s, e) && !e.Issue? && !e.Accept?
    ensures Total(cfg, Apply(cfg, s, e)) < Total(cfg, s)
  {
    if Internal(e) {
      InternalTotal(cfg, s, e);
    } else if GivingUp(e) {
      GivingUpTotal(cfg, s, e);
    } else {
      match e
      case ListNotifier(id) => ListTotal(cfg, s, id);
      case StoreTask(id) => StoreTotal(cfg, s, id);
      case TryEnqueue(id) => EnqueueTotal(cfg, s, id);
      case SendFail(c) => SendFailTotal(cfg, s, c);
      case ReadFail(c) => ReadFailTotal(cfg, s, c);
    }
  }

  lemma {:induction false} OneMoreConn(cfg: Config, table: Table, conns: seq<Conn>, conn: Conn)
    ensures ConnsWeight(cfg, table, conns + [conn])
      == ConnsWeight(cfg, table, conns) + PhaseWeight(cfg, table, conn.phase)
    ensures Budgets(cfg, conns + [conn]) == Budgets(cfg, conns) + Budget(cfg, conn)
  {
    if conns == [] {
      assert [] + [conn] == [conn] && [conn][1..] == [];
    } else {
      assert (conns + [conn])[1..] == conns[1..] + [conn];
      OneMoreConn(cfg, table, conns[1..], conn);
    }
  }

  /** What a new connection brings: itself, and what it may use up when it fails. */
  ghost function Brought(cfg: Config, e: Event): nat {
    if e.Accept? then 1 + Budget(cfg, Conn(e.worker, Gathering([]))) else 0
  }

  ghost function AllBrought(cfg: Config, events: seq<Event>): nat {
    if events == [] then 0 else Brought(cfg, events[0]) + AllBrought(cfg, events[1..])
  }

  lemma StepIsPaid(cfg: Config, s: Pipe, e: Event)
    requires cfg.Valid() && Inv(cfg, s) && Enabled(cfg, s, e) && !e.Issue?
    ensures 1 + Total(cfg, Apply(cfg, s, e)) <= Total(cfg, s) + Brought(cfg, e)
  {
    if e.Accept? {
      OneMoreConn(cfg, s.table, s.conns, Conn(e.worker, Gathering([])));
    } else {
      EveryStepShrinks(cfg, s, e);
    }
  }

  ghost predicate NoSubmission(events: seq<Event>) {
    forall i :: 0 <= i < |events| ==> !events[i].Issue?
  }

  lemma {:induction false} RunIsBounded(cfg: Config, s: Pipe, events: seq<Event>, t: Pipe)
    requires cfg.Valid() && Inv(cfg, s) && Reaches(cfg, s, events, t) && NoSubmission(events)
    ensures |events| + Total(cfg, t) <= Total(cfg, s) + AllBrought(cfg, events)
    decreases |events|
  {
    if events != [] {
      assert !events[0].Issue?;
      StepIsPaid(cfg, s, events[0]);
      StepKeeps(cfg, s, events[0]);
      assert forall i :: 0 <= i < |events[1..]| ==> events[1..][i] == events[i + 1];
      RunIsBounded(cfg, Apply(cfg, s, events[0]), events[1..], t);
    }
  }

  ghost predicate AtRest(cfg: Config, s: Pipe) {
    forall e :: Internal(e) ==> !Enabled(cfg, s, e)
  }

  /** A pipeline at rest in which every worker still has a live connection holds
      nothing, and those who wait are those whom failed reads have lost. */
  lemma AtRestIsEmpty(cfg: Config, rank: seq<nat>, events: seq<Event>, s: Pipe)
    requires cfg.Valid() && Reaches(cfg, Init(cfg), events, s) && Acyclic(cfg, rank) && AllServed(s) && AtRest(cfg, s)
    ensures s.place == map[]
    ensures forall id :: ClientAt(s, id, Waiting) <==> LostInRun(cfg, Init(cfg), events, id)
  {
    if s.place != map[] {
      assert ServedThrough(s, []) by {
        forall w | 0 <= w < |s.queues| ensures SparedFor(s, [], w) {
          assert Served(s, w);
        }
      }
      var e := ReachableMoves(cfg, rank, events, s, [], s);
    }
    forall id ensures ClientAt(s, id, Waiting) <==> LostInRun(cfg, Init(cfg), events, id) {
      LostExactly(cfg, events, s, id);
    }
  }

  /** Draining. From every reachable state, without new submissions, every run is
      bounded, whatever clients, workers and sockets do in it, by what is there and by
      what each new connection brings. Where connections can go no further, and every
      worker had at the start a live one that no failure hit, or has one now, nothing
      is queued or held, and exactly those clients still wait whose task was in the
      batch of a read that failed. */
  lemma Drains(cfg: Config, rank: seq<nat>, before: seq<Event>, s: Pipe, events: seq<Event>, t: Pipe)
    requires cfg.Valid() && Acyclic(cfg, rank)
    requires Reaches(cfg, Init(cfg), before, s) && Reaches(cfg, s, events, t) && NoSubmission(events)
    ensures |events| + Total(cfg, t) <= Total(cfg, s) + AllBrought(cfg, events)
    ensures AtRest(cfg, t) && (ServedThrough(s, events) || AllServed(t)) ==>
      && t.place == map[]
      && forall id :: ClientAt(t, id, Waiting) <==> LostInRun(cfg, Init(cfg), before + events, id)
  {
    InitInv(cfg);
    RunKeeps(cfg, Init(cfg), before, s);
    RunIsBounded(cfg, s, events, t);
    ReachesBoth(cfg, Init(cfg), before, s, events, t);
    if AtRest(cfg, t) && (ServedThrough(s, events) || AllServed(t)) {
      if ServedThrough(s, events) {
        ServedThroughout(cfg, s, events, t);
      }
      AtRestIsEmpty(cfg, rank, before + events, t);
    }
  }
}
