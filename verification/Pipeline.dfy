/** The server side as a step system. Every step is one critical section, one
    channel operation or one socket operation of src/tasks.rs and
    src/protocol.rs, so the runs below are all interleavings at that grain of
    any number of clients and worker connections. */
module Pipeline {
  import opened Basics
  import opened Tasks

  /** Workers are numbered; `batchSize[w]` is the batch limit of worker `w`,
      `routes` lists the workers of each endpoint, and `work` is what one worker
      answers for one payload with its state bits (`None`: it never answers OK). */
  datatype Config = Config(
    capacity: nat,
    batchSize: seq<nat>,
    routes: map<string, seq<nat>>,
    work: (nat, nat, Bytes) -> Option<Bytes>)
  {
    ghost predicate Valid() {
      && capacity >= 1
      && (forall r :: r in routes ==> |routes[r]| >= 1)
      && (forall r, k :: r in routes && 0 <= k < |routes[r]| ==> routes[r][k] < |batchSize|)
    }

    ghost function Lengths(): map<string, nat> {
      map r | r in routes :: |routes[r]|
    }

    ghost function Limit(w: nat): nat
      requires w < |batchSize|
    {
      Max(1, batchSize[w])
    }
  }

  /** Why a client deletes its task: the queue was full, it waited too long, or
      it is a stream whose answer is complete. */
  datatype Reason = Rejected | TimedOut | Finished

  /** Where the code that serves one request stands. */
  datatype ClientPhase =
    | Issued                     // has its id
    | Listed                     // notifier inserted
    | Stored                     // table entry inserted
    | Waiting                    // enqueued, awaiting the notification
    | Woken                      // notification received
    | Deleting(why: Reason)      // about to remove the notifier
    | Deleted(why: Reason)       // about to remove the table entry
    | Cancelled                  // receiver dropped, handler gone

  datatype Client = Client(input: Bytes, route: string, stream: bool, phase: ClientPhase)

  /** What a connection still has to do for an id it holds. */
  datatype Todo =
    | SendTask(id: Id)           // look the task up
    | Push(id: Id, worker: nat)  // blocked on a worker queue
    | NotifyDone(id: Id)         // take the notifier
    | Wake(id: Id)               // the notifier is in hand
    | CleanUp(id: Id)            // the receiver was closed: drop the entry

  datatype Phase =
    | Gathering(ids: seq<Id>)
    | Closed(ids: seq<Id>)
    | Ready(ids: seq<Id>, data: seq<Bytes>, states: seq<nat>)
    | Sent(ids: seq<Id>, data: seq<Bytes>, states: seq<nat>)
    | Working(todo: seq<Todo>, alive: bool)
    | Dead

  datatype Conn = Conn(worker: nat, phase: Phase)

  datatype Place = Queue(w: nat) | Hand(c: nat)

  /** `place` and `born` are history variables: where each circulating id was
      last put, and the number of the submission that last received each id. */
  datatype Pipe = Pipe(
    table: Table,
    notifiers: set<Id>,
    nextId: Id,
    queues: seq<seq<Id>>,
    conns: seq<Conn>,
    clients: map<Id, Client>,
    place: map<Id, Place>,
    issued: nat,
    born: map<Id, nat>)

  datatype Event =
    | Issue(route: string, input: Bytes, stream: bool)
    | ListNotifier(id: Id)
    | StoreTask(id: Id)
    | TryEnqueue(id: Id)
    | TimeOut(id: Id)
    | Cancel(id: Id)
    | Finish(id: Id)
    | DropNotifier(id: Id)
    | DropTask(id: Id)
    | Collect(id: Id)
    | Accept(worker: nat)
    | Receive(c: nat)
    | CloseBatch(c: nat)
    | Filter(c: nat)
    | SendOk(c: nat)
    | SendFail(c: nat)
    | ReadFail(c: nat)
    | Reply(c: nat, code: TaskCode, payloads: seq<Bytes>)
    | Work(c: nat)

  function Held(p: Phase): seq<Id> {
    match p
    case Gathering(ids) => ids
    case Closed(ids) => ids
    case Ready(ids, _, _) => ids
    case Sent(ids, _, _) => ids
    case Working(todo, _) => TodoIds(todo)
    case Dead => []
  }

  function TodoIds(todo: seq<Todo>): (ids: seq<Id>)
    ensures |ids| == |todo|
  {
    seq(|todo|, i requires 0 <= i < |todo| => todo[i].id)
  }

  function SendTasks(ids: seq<Id>): (todo: seq<Todo>)
    ensures TodoIds(todo) == ids
  {
    seq(|ids|, i requires 0 <= i < |ids| => SendTask(ids[i]))
  }

  function Notifications(ids: seq<Id>): (todo: seq<Todo>)
    ensures TodoIds(todo) == ids
  {
    seq(|ids|, i requires 0 <= i < |ids| => NotifyDone(ids[i]))
  }

  function Init(cfg: Config): Pipe {
    Pipe(map[], {}, 0, seq(|cfg.batchSize|, _ => []), [], map[], map[], 0, map[])
  }

  /** Every id that some map, queue, connection or running handler mentions. */
  ghost function Mentioned(s: Pipe): set<Id> {
    s.table.Keys + s.notifiers + s.place.Keys + set id | id in s.clients && s.clients[id].phase != Cancelled
  }

  /** Fewer than 2^32 submissions happened since any mentioned id was issued. */
  ghost predicate Young(s: Pipe) {
    forall id :: id in Mentioned(s) && id in s.born ==> s.issued - s.born[id] < ID_SPACE
  }

  ghost predicate ClientAt(s: Pipe, id: Id, phase: ClientPhase) {
    id in s.clients && s.clients[id].phase == phase
  }

  ghost predicate Enabled(cfg: Config, s: Pipe, e: Event) {
    match e
    case Issue(route, _, _) => route in cfg.routes && Young(s)
    case ListNotifier(id) => ClientAt(s, id, Issued)
    case StoreTask(id) => ClientAt(s, id, Listed)
    case TryEnqueue(id) => ClientAt(s, id, Stored) && Routed(cfg, s, id)
    case TimeOut(id) => ClientAt(s, id, Waiting)
    case Cancel(id) => ClientAt(s, id, Waiting) && !s.clients[id].stream
    case Finish(id) => ClientAt(s, id, Woken) && s.clients[id].stream
    case DropNotifier(id) => id in s.clients && s.clients[id].phase.Deleting?
    case DropTask(id) => id in s.clients && s.clients[id].phase.Deleted?
    case Collect(id) => ClientAt(s, id, Woken) && !s.clients[id].stream
    case Accept(w) => w < |s.queues|
    case Receive(c) =>
      c < |s.conns| && s.conns[c].worker < |s.queues| && s.conns[c].worker < |cfg.batchSize|
        && s.conns[c].phase.Gathering?
      && |s.conns[c].phase.ids| < cfg.Limit(s.conns[c].worker) && s.queues[s.conns[c].worker] != []
    case CloseBatch(c) => c < |s.conns| && s.conns[c].phase.Gathering? && s.conns[c].phase.ids != []
    case Filter(c) =>
      c < |s.conns| && s.conns[c].phase.Closed?
      && forall id :: id in s.table ==> s.table[id].route in cfg.routes
    case SendOk(c) => c < |s.conns| && s.conns[c].phase.Ready?
    case SendFail(c) => c < |s.conns| && s.conns[c].phase.Ready?
    case ReadFail(c) => c < |s.conns| && s.conns[c].phase.Sent?
    case Reply(c, code, payloads) =>
      c < |s.conns| && s.conns[c].phase.Sent? && Answers(cfg, s.conns[c].worker, s.conns[c].phase, code, payloads)
    case Work(c) =>
      c < |s.conns| && s.conns[c].phase.Working?
        && (s.conns[c].phase.todo != [] ==> HeadEnabled(cfg, s, s.conns[c].phase.todo[0]))
  }

  ghost predicate Routed(cfg: Config, s: Pipe, id: Id)
    requires id in s.clients
  {
    var r := s.clients[id].route;
    r in cfg.routes && cfg.routes[r] != [] && cfg.routes[r][0] < |s.queues|
  }

  /** A worker echoes the ids it received. A normal answer carries, for each
      item, what the worker computes from that item alone; any other code may
      carry anything. Stream events are consumed before the answer. */
  ghost predicate Answers(cfg: Config, w: nat, p: Phase, code: TaskCode, payloads: seq<Bytes>)
    requires p.Sent?
  {
    && code != StreamEvent
    && |payloads| == |p.ids| == |p.data| == |p.states|
    && (code == Normal ==> forall i :: 0 <= i < |p.ids| ==> cfg.work(w, p.states[i], p.data[i]) == Some(payloads[i]))
  }

  /** Only a full queue makes a connection wait. */
  ghost predicate HeadEnabled(cfg: Config, s: Pipe, t: Todo) {
    match t
    case SendTask(id) => id in s.table ==> s.table[id].route in cfg.routes
    case Push(_, w) => w < |s.queues| && |s.queues[w]| < cfg.capacity
    case _ => true
  }

  ghost function Apply(cfg: Config, s: Pipe, e: Event): Pipe
    requires Enabled(cfg, s, e)
  {
    match e
    case Issue(route, input, stream) => DoIssue(s, route, input, stream)
    case ListNotifier(id) => SetPhase(s, id, Listed).(notifiers := s.notifiers + {id})
    case StoreTask(id) =>
      SetPhase(s, id, Stored).(table := s.table[id := NewTask(s.clients[id].input, s.clients[id].route)])
    case TryEnqueue(id) =>
      var w := cfg.routes[s.clients[id].route][0];
      if |s.queues[w]| < cfg.capacity then Enqueue(SetPhase(s, id, Waiting), id, w)
      else SetPhase(s, id, Deleting(Rejected))
    case TimeOut(id) => SetPhase(s, id, Deleting(TimedOut))
    case Cancel(id) => SetPhase(s, id, Cancelled)
    case Finish(id) => SetPhase(s, id, Deleting(Finished))
    case DropNotifier(id) => SetPhase(s, id, Deleted(s.clients[id].phase.why)).(notifiers := s.notifiers - {id})
    case DropTask(id) => s.(table := s.table - {id}, clients := s.clients - {id})
    case Collect(id) => s.(table := s.table - {id}, clients := s.clients - {id})
    case Accept(w) => s.(conns := s.conns + [Conn(w, Gathering([]))])
    case Receive(c) => DoReceive(s, c)
    case CloseBatch(c) => SetConn(s, c, Closed(s.conns[c].phase.ids))
    case Filter(c) => DoFilter(cfg, s, c)
    case SendOk(c) =>
      var p := s.conns[c].phase;
      SetConn(s, c, Sent(p.ids, p.data, p.states))
    case SendFail(c) => SetConn(s, c, Working(SendTasks(s.conns[c].phase.ids), false))
    case ReadFail(c) => SetConn(s, c, Dead).(place := s.place - Elements(s.conns[c].phase.ids))
    case Reply(c, code, payloads) => DoReply(s, c, code, payloads)
    case Work(c) => DoWork(cfg, s, c)
  }

  function SetPhase(s: Pipe, id: Id, phase: ClientPhase): Pipe
    requires id in s.clients
  {
    s.(clients := s.clients[id := s.clients[id].(phase := phase)])
  }

  function SetConn(s: Pipe, c: nat, phase: Phase): Pipe
    requires c < |s.conns|
  {
    s.(conns := s.conns[c := s.conns[c].(phase := phase)])
  }

  function Enqueue(s: Pipe, id: Id, w: nat): Pipe
    requires w < |s.queues|
  {
    s.(queues := s.queues[w := s.queues[w] + [id]], place := s.place[id := Queue(w)])
  }

  function DoIssue(s: Pipe, route: string, input: Bytes, stream: bool): Pipe {
    s.(nextId := (s.nextId + 1) % ID_SPACE,
       issued := s.issued + 1,
       born := s.born[s.nextId := s.issued],
       clients := s.clients[s.nextId := Client(input, route, stream, Issued)])
  }

  function DoReceive(s: Pipe, c: nat): Pipe
    requires c < |s.conns| && s.conns[c].worker < |s.queues| && s.conns[c].phase.Gathering?
    requires s.queues[s.conns[c].worker] != []
  {
    var w := s.conns[c].worker;
    var id := s.queues[w][0];
    SetConn(s, c, Gathering(s.conns[c].phase.ids + [id])).(
      queues := s.queues[w := s.queues[w][1..]], place := s.place[id := Hand(c)])
  }

  ghost function DoFilter(cfg: Config, s: Pipe, c: nat): Pipe
    requires c < |s.conns| && s.conns[c].phase.Closed?
    requires forall id :: id in s.table ==> s.table[id].route in cfg.routes
  {
    var ids := s.conns[c].phase.ids;
    var kept := Present(s.table, ids);
    var phase := if kept == [] then Gathering([])
      else Ready(kept, Payloads(s.table, kept), States(s.table, cfg.Lengths(), kept));
    SetConn(s, c, phase).(place := s.place - (Elements(ids) - Elements(kept)))
  }

  function DoReply(s: Pipe, c: nat, code: TaskCode, payloads: seq<Bytes>): Pipe
    requires c < |s.conns| && s.conns[c].phase.Sent? && |payloads| == |s.conns[c].phase.ids|
  {
    var ids := s.conns[c].phase.ids;
    var todo := ReplyTodo(s.table, ids, code);
    SetConn(s, c, Working(todo, true)).(
      table := UpdateAll(s.table, code, ids, payloads),
      place := s.place - (Elements(ids) - Elements(TodoIds(todo))))
  }

  /** After a normal answer every id is sent on; after any other the ids that
      still have an entry are notified. */
  function ReplyTodo(table: Table, ids: seq<Id>, code: TaskCode): seq<Todo> {
    if code == Normal then SendTasks(ids) else Notifications(Present(table, ids))
  }

  ghost function DoWork(cfg: Config, s: Pipe, c: nat): Pipe
    requires c < |s.conns| && s.conns[c].phase.Working?
    requires s.conns[c].phase.todo != [] ==> HeadEnabled(cfg, s, s.conns[c].phase.todo[0])
  {
    var p := s.conns[c].phase;
    if p.todo == [] then SetConn(s, c, if p.alive then Gathering([]) else Dead)
    else DoHead(cfg, s, c, p.todo[0], p.todo[1..], p.alive)
  }

  /** The first item of a connection's work list. */
  ghost function DoHead(cfg: Config, s: Pipe, c: nat, t: Todo, rest: seq<Todo>, alive: bool): Pipe
    requires c < |s.conns| && HeadEnabled(cfg, s, t)
  {
    var drop := SetConn(s, c, Working(rest, alive)).(place := s.place - {t.id});
    match t
    case SendTask(id) =>
      if id !in s.table then drop
      else
        var route := cfg.routes[s.table[id].route];
        var stage := s.table[id].stage;
        SetConn(s, c, Working([if stage >= |route| then NotifyDone(id) else Push(id, route[stage])] + rest, alive))
    case Push(id, w) => Enqueue(drop, id, w)
    case NotifyDone(id) =>
      if id in s.notifiers then SetConn(s, c, Working([Wake(id)] + rest, alive)).(notifiers := s.notifiers - {id})
      else drop
    case Wake(id) =>
      if ClientAt(s, id, Waiting) then SetPhase(drop, id, Woken)
      else SetConn(s, c, Working([CleanUp(id)] + rest, alive))
    case CleanUp(id) => drop.(table := s.table - {id})
  }

  /** What the handler returns when it collects its task. */
  datatype Answer = Task(task: Tasks.Task) | UnknownError

  function Collected(s: Pipe, id: Id): Answer {
    if id in s.table then Answer.Task(s.table[id]) else UnknownError
  }

  /** `events` leads from `s` to `t`. */
  ghost predicate Reaches(cfg: Config, s: Pipe, events: seq<Event>, t: Pipe)
    decreases |events|
  {
    if events == [] then s == t
    else Enabled(cfg, s, events[0]) && Reaches(cfg, Apply(cfg, s, events[0]), events[1..], t)
  }

  lemma {:induction false} ReachesBoth(cfg: Config, s: Pipe, before: seq<Event>, m: Pipe, after: seq<Event>, t: Pipe)
    requires Reaches(cfg, s, before, m) && Reaches(cfg, m, after, t)
    ensures Reaches(cfg, s, before + after, t)
    decreases |before|
  {
    if before == [] {
      assert before + after == after;
    } else {
      var all := before + after;
      assert all[0] == before[0] && all[1..] == before[1..] + after;
      ReachesBoth(cfg, Apply(cfg, s, before[0]), before[1..], m, after, t);
    }
  }

  lemma ReachesThen(cfg: Config, s: Pipe, events: seq<Event>, t: Pipe, e: Event) returns (more: seq<Event>, u: Pipe)
    requires Reaches(cfg, s, events, t) && Enabled(cfg, t, e)
    ensures Reaches(cfg, s, more, u) && u == Apply(cfg, t, e) && more == events + [e]
  {
    more, u := events + [e], Apply(cfg, t, e);
    assert [e][1..] == [] && Reaches(cfg, u, [], u);
    ReachesBoth(cfg, s, events, t, [e], u);
  }
}
