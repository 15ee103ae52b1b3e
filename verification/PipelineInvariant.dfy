/** What every step of the pipeline keeps. */
module PipelineInvariant {
  import opened Basics
  import opened Tasks
  import opened Pipeline

  /** The payload an input has become after `k` stages of its route, if every
      worker on the way answers it. */
  ghost function Journey(cfg: Config, route: string, k: nat, input: Bytes): Option<Bytes>
    requires cfg.Valid() && route in cfg.routes && k <= |cfg.routes[route]|
  {
    if k == 0 then Some(input)
    else
      match Journey(cfg, route, k - 1, input)
      case None => None
      case Some(data) => cfg.work(cfg.routes[route][k - 1], StateBits(k - 1, |cfg.routes[route]|), data)
  }

  // ----- identifiers -----

  ghost predicate IdsOk(s: Pipe) {
    && s.nextId == s.issued % ID_SPACE
    && Mentioned(s) <= s.born.Keys
    && (forall id :: id in s.born ==> s.born[id] < s.issued && s.born[id] % ID_SPACE == id)
  }

  // ----- places -----

  ghost predicate AllAt(place: map<Id, Place>, ids: seq<Id>, p: Place) {
    Distinct(ids) && forall i :: 0 <= i < |ids| ==> ids[i] in place && place[ids[i]] == p
  }

  ghost predicate QueuesPlaced(s: Pipe) {
    forall w :: 0 <= w < |s.queues| ==> AllAt(s.place, s.queues[w], Queue(w))
  }

  ghost predicate HandsPlaced(s: Pipe) {
    forall c :: 0 <= c < |s.conns| ==> AllAt(s.place, Held(s.conns[c].phase), Hand(c))
  }

  ghost predicate PlaceReal(s: Pipe, id: Id, p: Place) {
    match p
    case Queue(w) => w < |s.queues| && id in s.queues[w]
    case Hand(c) => c < |s.conns| && id in Held(s.conns[c].phase)
  }

  ghost predicate PlacesReal(s: Pipe) {
    forall id :: id in s.place ==> PlaceReal(s, id, s.place[id])
  }

  // ----- connections -----

  ghost predicate ConnOk(cfg: Config, workers: nat, conn: Conn) {
    && conn.worker < |cfg.batchSize|
    && |Held(conn.phase)| <= cfg.Limit(conn.worker)
    && match conn.phase
       case Closed(ids) => ids != []
       case Ready(ids, data, states) => ids != [] && |ids| == |data| == |states|
       case Sent(ids, data, states) => ids != [] && |ids| == |data| == |states|
       case Working(todo, _) => forall i :: 0 <= i < |todo| && todo[i].Push? ==> todo[i].worker < workers
       case _ => true
  }

  ghost predicate ShapeOk(cfg: Config, s: Pipe) {
    && |s.queues| == |cfg.batchSize|
    && (forall w :: 0 <= w < |s.queues| ==> |s.queues[w]| <= cfg.capacity)
    && (forall c :: 0 <= c < |s.conns| ==> ConnOk(cfg, |s.queues|, s.conns[c]))
  }

  // ----- tasks -----

  /** The entry belongs to the client that owns the id, and as long as nothing
      failed its payload is the client's input moved along the route. */
  ghost predicate TaskOk(cfg: Config, t: Tasks.Task, clients: map<Id, Client>, id: Id)
    requires cfg.Valid()
  {
    && t.route in cfg.routes
    && t.stage <= |cfg.routes[t.route]|
    && (t.stage == 0 ==> t.code == InternalError)
    && id in clients
    && t.route == clients[id].route
    && (t.Fresh() ==> Journey(cfg, t.route, t.stage, clients[id].input) == Some(t.data))
  }

  ghost predicate DueAt(cfg: Config, t: Tasks.Task, w: nat) {
    t.Fresh() && t.route in cfg.routes && t.stage < |cfg.routes[t.route]| && cfg.routes[t.route][t.stage] == w
  }

  ghost predicate QueueTasksOk(cfg: Config, table: Table, queue: seq<Id>, w: nat) {
    forall i :: 0 <= i < |queue| && queue[i] in table ==> DueAt(cfg, table[queue[i]], w)
  }

  ghost predicate ConnTasksOk(cfg: Config, table: Table, conn: Conn) {
    forall i :: 0 <= i < |Held(conn.phase)| && Held(conn.phase)[i] in table ==>
      ItemOk(cfg, table[Held(conn.phase)[i]], conn, i)
  }

  /** What the `i`-th id a connection holds says about its table entry. */
  ghost predicate ItemOk(cfg: Config, t: Tasks.Task, conn: Conn, i: nat)
    requires i < |Held(conn.phase)|
  {
    t.route in cfg.routes &&
    match conn.phase
    case Gathering(_) => DueAt(cfg, t, conn.worker)
    case Closed(_) => DueAt(cfg, t, conn.worker)
    case Ready(_, data, states) => DueAt(cfg, t, conn.worker) && CopyOk(cfg, t, data, states, i)
    case Sent(_, data, states) => DueAt(cfg, t, conn.worker) && CopyOk(cfg, t, data, states, i)
    case Working(todo, _) => PendingOk(cfg, t, todo[i])
  }

  ghost predicate CopyOk(cfg: Config, t: Tasks.Task, data: seq<Bytes>, states: seq<nat>, i: nat)
    requires t.route in cfg.routes
  {
    i < |data| && i < |states| && data[i] == t.data && states[i] == StateBits(t.stage, |cfg.routes[t.route]|)
  }

  ghost predicate PendingOk(cfg: Config, t: Tasks.Task, todo: Todo)
    requires t.route in cfg.routes
  {
    match todo
    case SendTask(_) => t.Fresh()
    case Push(_, w) => DueAt(cfg, t, w)
    case _ => t.Final(|cfg.routes[t.route]|)
  }

  ghost predicate EntriesOk(cfg: Config, s: Pipe)
    requires cfg.Valid()
  {
    forall id :: id in s.table ==> TaskOk(cfg, s.table[id], s.clients, id)
  }

  ghost predicate QueuesDue(cfg: Config, s: Pipe) {
    forall w :: 0 <= w < |s.queues| ==> QueueTasksOk(cfg, s.table, s.queues[w], w)
  }

  ghost predicate HandsDue(cfg: Config, s: Pipe) {
    forall c :: 0 <= c < |s.conns| ==> ConnTasksOk(cfg, s.table, s.conns[c])
  }

  // ----- clients -----

  /** The receiver may still be listening, or it is closed by now. */
  ghost predicate Listening(clients: map<Id, Client>, id: Id) {
    id in clients ==> clients[id].phase == Waiting || ReceiverClosed(clients, id)
  }

  ghost predicate ReceiverClosed(clients: map<Id, Client>, id: Id) {
    id in clients ==>
      clients[id].phase == Deleting(TimedOut) || clients[id].phase == Deleted(TimedOut)
        || clients[id].phase == Cancelled
  }

  /** The connection at which `id` is has already taken its notifier. */
  ghost predicate Waking(s: Pipe, id: Id) {
    && id in s.place && s.place[id].Hand? && s.place[id].c < |s.conns|
    && WakingAt(s.conns[s.place[id].c].phase, id)
  }

  ghost predicate WakingAt(p: Phase, id: Id) {
    p.Working? && Wake(id) in p.todo
  }

  ghost predicate ClientOk(cfg: Config, s: Pipe, id: Id)
    requires id in s.clients
  {
    && s.clients[id].route in cfg.routes
    && match s.clients[id].phase
       case Issued => id !in s.table && id !in s.notifiers && id !in s.place
       case Listed => id !in s.table && id in s.notifiers && id !in s.place
       case Stored => id in s.table && id in s.notifiers && id !in s.place && s.table[id].stage == 0
       case Waiting => id in s.table && (id in s.notifiers || Waking(s, id))
       case Woken =>
         id in s.table && s.table[id].route in cfg.routes && s.table[id].Final(|cfg.routes[s.table[id].route]|)
         && id !in s.notifiers && id !in s.place
       case Deleting(why) => why == TimedOut || id !in s.place
       case Deleted(why) => id !in s.notifiers && (why == TimedOut || id !in s.place)
       case Cancelled => true
  }

  ghost predicate TodoOk(notifiers: set<Id>, clients: map<Id, Client>, t: Todo) {
    match t
    case Wake(id) => id !in notifiers
    case CleanUp(id) => id !in notifiers && ReceiverClosed(clients, id)
    case _ => true
  }

  ghost predicate ConnTodosOk(notifiers: set<Id>, clients: map<Id, Client>, p: Phase) {
    p.Working? ==> forall i :: 0 <= i < |p.todo| ==> TodoOk(notifiers, clients, p.todo[i])
  }

  ghost predicate ClientsOk(cfg: Config, s: Pipe) {
    && (forall id :: id in s.clients ==> ClientOk(cfg, s, id))
    && (forall id :: id in s.notifiers ==> id in s.clients)
    && (forall id :: id in s.place ==> Listening(s.clients, id))
  }

  ghost predicate TodosOk(s: Pipe) {
    forall c :: 0 <= c < |s.conns| ==> ConnTodosOk(s.notifiers, s.clients, s.conns[c].phase)
  }

  ghost predicate PlacesOk(s: Pipe) {
    QueuesPlaced(s) && HandsPlaced(s) && PlacesReal(s)
  }

  ghost predicate TasksOk(cfg: Config, s: Pipe)
    requires cfg.Valid()
  {
    EntriesOk(cfg, s) && QueuesDue(cfg, s) && HandsDue(cfg, s)
  }

  ghost predicate Inv(cfg: Config, s: Pipe)
    requires cfg.Valid()
  {
    IdsOk(s) && PlacesOk(s) && ShapeOk(cfg, s) && TasksOk(cfg, s) && ClientsOk(cfg, s) && TodosOk(s)
  }

  lemma InitInv(cfg: Config)
    requires cfg.Valid()
    ensures Inv(cfg, Init(cfg))
  {
  }
}
