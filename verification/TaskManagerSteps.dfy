/** The task manager and the batch loop as runs of the step system: each operation,
    run on an object that shows a state of the server, is a run of the server. */
module TaskManagerSteps {
  import opened Basics
  import opened Tasks
  import opened Pipeline
  import opened PipelineInvariant
  import opened TaskManagers
  import B = Batching
  import L = LockDiscipline

  /** The part of the object that the steps are about; `deaf` are the listed ids whose
      receivers are closed. */
  datatype View = View(table: Table, listed: set<Id>, deaf: set<Id>, nextId: Id, queues: seq<seq<Id>>) {

    /** The object holds what the state says, and a receiver is closed exactly if its
        client does not listen any more. */
    ghost predicate Of(s: Pipe) {
      && table == s.table && listed == s.notifiers && nextId == s.nextId && queues == s.queues
      && AllHear(listed, deaf, s.clients)
    }

    ghost function Without(id: Id): View {
      View(table - {id}, listed - {id}, deaf - {id}, nextId, queues)
    }
  }

  ghost function ViewOf(m: TaskManager): View
    reads m, m.notifiers.Values
  {
    View(m.table, m.notifiers.Keys, (set id | id in m.notifiers && m.notifiers[id].closed), m.currentId,
      m.queues)
  }

  ghost predicate Shows(m: TaskManager, cfg: Config, s: Pipe)
    reads m, m.notifiers.Values
  {
    m.Valid() && m.capacity == cfg.capacity && m.routes == cfg.routes && ViewOf(m).Of(s)
  }

  ghost predicate AllHear(listed: set<Id>, deaf: set<Id>, clients: map<Id, Client>) {
    forall id :: id in listed ==> Hears(clients, deaf, id)
  }

  ghost predicate Hears(clients: map<Id, Client>, deaf: set<Id>, id: Id) {
    && (id in clients && clients[id].phase == Waiting ==> id !in deaf)
    && (id in clients && ReceiverClosed(clients, id) ==> id in deaf)
  }

  lemma OneMoreHears(listed: set<Id>, deaf: set<Id>, clients: map<Id, Client>, id: Id, client: Client)
    requires AllHear(listed, deaf, clients) && client.phase == Waiting
    ensures AllHear(listed + {id}, deaf - {id}, clients[id := client])
  {
    forall i | i in listed + {id} ensures Hears(clients[id := client], deaf - {id}, i) {
      assert i != id ==> Hears(clients, deaf, i);
    }
  }

  lemma OneLessHears(listed: set<Id>, deaf: set<Id>, clients: map<Id, Client>, id: Id)
    requires AllHear(listed, deaf, clients)
    ensures AllHear(listed - {id}, deaf - {id}, clients - {id}) && AllHear(listed, deaf, clients - {id})
  {
    forall i | i in listed ensures Hears(clients - {id}, deaf, i) {
      assert Hears(clients, deaf, i);
    }
  }

  lemma NotifierGone(listed: set<Id>, deaf: set<Id>, clients: map<Id, Client>, id: Id, client: Client)
    requires AllHear(listed, deaf, clients)
    ensures AllHear(listed - {id}, deaf - {id}, clients[id := client])
    ensures AllHear(listed - {id}, deaf - {id}, clients)
  {
    forall i | i in listed - {id} ensures Hears(clients[id := client], deaf, i) && Hears(clients, deaf, i) {
      assert Hears(clients, deaf, i);
    }
  }

  // ----- submitting -----

  /** The steps of one submission. */
  function Submission(id: Id, route: string, input: Bytes, stream: bool, full: bool): seq<Event> {
    [Issue(route, input, stream), ListNotifier(id), StoreTask(id), TryEnqueue(id)]
    + if full then [DropNotifier(id), DropTask(id)] else []
  }

  /** The first three of them. */
  lemma Lists(cfg: Config, s: Pipe, route: string, input: Bytes, stream: bool) returns (events: seq<Event>, t: Pipe)
    requires route in cfg.routes && Young(s)
    ensures events == [Issue(route, input, stream), ListNotifier(s.nextId), StoreTask(s.nextId)]
    ensures Reaches(cfg, s, events, t) && t == Listing(s, route, input, stream)
  {
    events, t := ReachesThen(cfg, s, [], s, Issue(route, input, stream));
    events, t := ReachesThen(cfg, s, events, t, ListNotifier(s.nextId));
    events, t := ReachesThen(cfg, s, events, t, StoreTask(s.nextId));
  }

  function Listing(s: Pipe, route: string, input: Bytes, stream: bool): Pipe {
    var id := s.nextId;
    s.(nextId := (id + 1) % ID_SPACE,
       issued := s.issued + 1,
       born := s.born[id := s.issued],
       clients := s.clients[id := Client(input, route, stream, Stored)],
       notifiers := s.notifiers + {id},
       table := s.table[id := NewTask(input, route)])
  }

  lemma Accepted(cfg: Config, s: Pipe, route: string, input: Bytes, stream: bool) returns (t: Pipe)
    requires cfg.Valid() && route in cfg.routes && Young(s) && |s.queues| == |cfg.batchSize|
    requires |s.queues[cfg.routes[route][0]]| < cfg.capacity
    ensures var id, w := s.nextId, cfg.routes[route][0];
      && Reaches(cfg, s, Submission(id, route, input, stream, false), t)
      && t.nextId == (id + 1) % ID_SPACE && t.queues == s.queues[w := s.queues[w] + [id]]
      && t.table == s.table[id := NewTask(input, route)] && t.notifiers == s.notifiers + {id}
      && t.clients == s.clients[id := Client(input, route, stream, Waiting)]
  {
    var events, u := Lists(cfg, s, route, input, stream);
    events, t := ReachesThen(cfg, s, events, u, TryEnqueue(s.nextId));
    assert events == Submission(s.nextId, route, input, stream, false);
  }

  /** The two steps of a deletion. */
  lemma Deletes(cfg: Config, s: Pipe, id: Id) returns (t: Pipe)
    requires id in s.clients && s.clients[id].phase.Deleting?
    ensures Reaches(cfg, s, [DropNotifier(id), DropTask(id)], t)
    ensures t == s.(notifiers := s.notifiers - {id}, table := s.table - {id}, clients := s.clients - {id})
  {
    var events: seq<Event>;
    events, t := ReachesThen(cfg, s, [], s, DropNotifier(id));
    events, t := ReachesThen(cfg, s, events, t, DropTask(id));
    assert t.clients == s.clients - {id};
  }

  lemma TurnedAway(cfg: Config, s: Pipe, route: string, input: Bytes, stream: bool)
    returns (events: seq<Event>, t: Pipe)
    requires cfg.Valid() && route in cfg.routes && Young(s) && |s.queues| == |cfg.batchSize|
    requires |s.queues[cfg.routes[route][0]]| >= cfg.capacity
    ensures var id := s.nextId;
      && events == [Issue(route, input, stream), ListNotifier(id), StoreTask(id), TryEnqueue(id)]
      && Reaches(cfg, s, events, t)
      && t == Listing(s, route, input, stream).(
        clients := s.clients[id := Client(input, route, stream, Deleting(Rejected))])
  {
    var u: Pipe;
    events, u := Lists(cfg, s, route, input, stream);
    events, t := ReachesThen(cfg, s, events, u, TryEnqueue(s.nextId));
  }

  lemma Refused(cfg: Config, s: Pipe, route: string, input: Bytes, stream: bool) returns (t: Pipe)
    requires cfg.Valid() && route in cfg.routes && Young(s) && |s.queues| == |cfg.batchSize|
    requires |s.queues[cfg.routes[route][0]]| >= cfg.capacity
    ensures var id := s.nextId;
      && Reaches(cfg, s, Submission(id, route, input, stream, true), t)
      && t.nextId == (id + 1) % ID_SPACE && t.queues == s.queues
      && t.table == s.table - {id} && t.notifiers == s.notifiers - {id} && t.clients == s.clients - {id}
  {
    var id := s.nextId;
    var events, u := TurnedAway(cfg, s, route, input, stream);
    t := Deletes(cfg, u, id);
    ReachesBoth(cfg, s, events, u, [DropNotifier(id), DropTask(id)], t);
  }

  ghost function Submitted(v: View, route: string, input: Bytes, w: nat, full: bool): View
    requires w < |v.queues|
  {
    var id, next := v.nextId, (v.nextId + 1) % ID_SPACE;
    if full then v.Without(id).(nextId := next)
    else
      View(v.table[id := NewTask(input, route)], v.listed + {id}, v.deaf - {id}, next,
        v.queues[w := v.queues[w] + [id]])
  }

  lemma Submits(cfg: Config, s: Pipe, route: string, input: Bytes, stream: bool, v: View, u: View) returns (t: Pipe)
    requires cfg.Valid() && route in cfg.routes && Young(s) && |s.queues| == |cfg.batchSize| && v.Of(s)
    requires var w := cfg.routes[route][0];
      u == Submitted(v, route, input, w, |s.queues[w]| >= cfg.capacity)
    ensures var full := |s.queues[cfg.routes[route][0]]| >= cfg.capacity;
      Reaches(cfg, s, Submission(s.nextId, route, input, stream, full), t) && u.Of(t)
  {
    if |s.queues[cfg.routes[route][0]]| >= cfg.capacity {
      t := Refused(cfg, s, route, input, stream);
      OneLessHears(v.listed, v.deaf, s.clients, s.nextId);
    } else {
      t := Accepted(cfg, s, route, input, stream);
      OneMoreHears(v.listed, v.deaf, s.clients, s.nextId, Client(input, route, stream, Waiting));
    }
  }

  /** Adding a task is a submission: accepted and queued, or refused and gone. */
  method AddNewTask(m: TaskManager, ghost cfg: Config, ghost s: Pipe, data: Bytes, key: string, ghost stream: bool,
      ghost c: L.Course)
    returns (r: Result<(Id, Receiver), ServiceError>, ghost t: Pipe, ghost d: L.Course)
    requires cfg.Valid() && Shows(m, cfg, s) && key in cfg.routes && Young(s) && |s.queues| == |cfg.batchSize|
    requires c.held == {}
    modifies m`table, m`notifiers, m`streams, m`currentId, m`queues
    ensures Reaches(cfg, s, Submission(s.nextId, key, data, stream, r.Err?), t) && Shows(m, cfg, t)
  {
    ghost var v := ViewOf(m);
    r, d := m.AddNewTask(data, key, c);
    t := Submits(cfg, s, key, data, stream, v, ViewOf(m));
  }

  // ----- waiting and deleting -----

  /** What a handler does after its wait: collecting, or the two steps of a deletion. */
  method AwaitTask(m: TaskManager, ghost cfg: Config, ghost s: Pipe, id: Id, expired: bool, ghost c: L.Course)
    returns (r: Result<Tasks.Task, ServiceError>, ghost t: Pipe, ghost d: L.Course)
    requires Shows(m, cfg, s) && c.held == {} && id in s.clients
    requires if expired then s.clients[id].phase.Deleting? else ClientAt(s, id, Woken) && !s.clients[id].stream
    modifies m`table, m`notifiers, m`streams
    ensures Reaches(cfg, s, if expired then [DropNotifier(id), DropTask(id)] else [Collect(id)], t) && Shows(m, cfg, t)
    ensures !expired ==>
      r == match Collected(s, id) case Task(task) => Ok(task) case UnknownError => Err(ServiceError.UnknownError)
  {
    ghost var v := ViewOf(m);
    r, d := m.AwaitTask(id, expired, c);
    if expired {
      t := Deletes(cfg, s, id);
      OneLessHears(v.listed, v.deaf, s.clients, id);
      assert ViewOf(m) == v.Without(id);
    } else {
      ghost var events;
      events, t := ReachesThen(cfg, s, [], s, Collect(id));
      OneLessHears(v.listed, v.deaf, s.clients, id);
    }
  }

  // ----- batches -----

  /** What is sent to a worker is what the connection then has ready. */
  method GetMultiTasksData(m: TaskManager, ghost cfg: Config, ghost s: Pipe, ghost k: nat, ids: seq<Id>,
      ghost c: L.Course)
    returns (kept: seq<Id>, data: seq<Bytes>, states: seq<nat>, ghost t: Pipe, ghost d: L.Course)
    requires Shows(m, cfg, s) && c.held == {} && Enabled(cfg, s, Filter(k)) && s.conns[k].phase == Closed(ids)
    ensures Reaches(cfg, s, [Filter(k)], t) && Shows(m, cfg, t)
    ensures kept == Present(s.table, ids) && |data| == |states| == |kept|
    ensures k < |t.conns| && t.conns[k].phase == if kept == [] then Gathering([]) else Ready(kept, data, states)
  {
    kept, data, states, d := m.GetMultiTasksData(ids, c);
    assert m.Lengths() == cfg.Lengths();
    ghost var events;
    events, t := ReachesThen(cfg, s, [], s, Filter(k));
  }

  /** A reply changes the table as one step, and lines up the same ids. */
  method UpdateTable(m: TaskManager, ghost cfg: Config, ghost s: Pipe, ghost k: nat, code: TaskCode, ids: seq<Id>,
      data: seq<Bytes>, ghost c: L.Course)
    returns (abnormal: seq<Id>, ghost t: Pipe, ghost d: L.Course)
    requires Shows(m, cfg, s) && c.held == {} && Enabled(cfg, s, Reply(k, code, data)) && s.conns[k].phase.ids == ids
    modifies m`table
    ensures Reaches(cfg, s, [Reply(k, code, data)], t) && Shows(m, cfg, t)
    ensures k < |t.conns| && t.conns[k].phase
      == Working(if code == Normal then SendTasks(ids) else Notifications(abnormal), true)
  {
    abnormal, d := m.UpdateTable(code, ids, data, c);
    ghost var events;
    events, t := ReachesThen(cfg, s, [], s, Reply(k, code, data));
  }

  /** Gathering ids is that many receive steps. */
  lemma {:induction false} Gathers(cfg: Config, s: Pipe, k: nat, n: nat) returns (events: seq<Event>, t: Pipe)
    requires k < |s.conns| && s.conns[k].phase.Gathering?
    requires s.conns[k].worker < |s.queues| && s.conns[k].worker < |cfg.batchSize|
    requires n <= |s.queues[s.conns[k].worker]| && |s.conns[k].phase.ids| + n <= cfg.Limit(s.conns[k].worker)
    ensures Reaches(cfg, s, events, t) && |events| == n && forall e :: e in events ==> e == Receive(k)
    ensures var w := s.conns[k].worker;
      && t.queues == s.queues[w := s.queues[w][n..]]
      && t.conns == s.conns[k := Conn(w, Gathering(s.conns[k].phase.ids + s.queues[w][..n]))]
      && t.table == s.table && t.notifiers == s.notifiers && t.nextId == s.nextId && t.clients == s.clients
    decreases n
  {
    var w := s.conns[k].worker;
    if n == 0 {
      events, t := [], s;
      assert s.conns[k].phase.ids + [] == s.conns[k].phase.ids;
    } else {
      var u := Apply(cfg, s, Receive(k));
      var more: seq<Event>;
      more, t := Gathers(cfg, u, k, n - 1);
      events := [Receive(k)] + more;
      assert events[1..] == more;
      assert u.queues[w][n - 1..] == s.queues[w][n..];
      assert u.conns[k].phase.ids + u.queues[w][..n - 1] == s.conns[k].phase.ids + s.queues[w][..n];
    }
  }

  /** The batch loop is a run of receive steps that closes the batch it returns. */
  method GetBatch(receiver: B.StageQueue, ghost cfg: Config, ghost s: Pipe, ghost k: nat, batchSize: nat, arrivals: nat)
    returns (ids: seq<Id>, ghost events: seq<Event>, ghost t: Pipe)
    requires k < |s.conns| && s.conns[k].phase == Gathering([])
    requires s.conns[k].worker < |s.queues| && s.conns[k].worker < |cfg.batchSize|
    requires cfg.batchSize[s.conns[k].worker] == batchSize && s.queues[s.conns[k].worker] == receiver.ids
    requires receiver.ids != [] && arrivals < |receiver.ids|
    modifies receiver
    ensures Reaches(cfg, s, events, t) && |events| == |ids| + 1
    ensures var w := s.conns[k].worker;
      && t.conns == s.conns[k := Conn(w, Closed(ids))] && t.queues == s.queues[w := receiver.ids]
      && t.table == s.table && t.notifiers == s.notifiers && t.clients == s.clients && t.nextId == s.nextId
  {
    ghost var queue := receiver.ids;
    ids := B.GetBatch(receiver, batchSize, arrivals);
    assert queue[..|ids|] == ids && queue[|ids|..] == receiver.ids;
    events, t := Gathers(cfg, s, k, |ids|);
    assert [] + ids == ids;
    events, t := ReachesThen(cfg, s, events, t, CloseBatch(k));
  }

  // ----- sending on and notifying -----

  /** An id in the hand of a connection has a client that waits, or none that listens. */
  lemma HeldIsAwaited(cfg: Config, s: Pipe, k: nat, t: Todo, rest: seq<Todo>, alive: bool)
    requires cfg.Valid() && Inv(cfg, s) && k < |s.conns| && s.conns[k].phase == Working([t] + rest, alive)
    ensures Listening(s.clients, t.id) && (t.id in s.notifiers ==> t.id in s.clients)
  {
    assert AllAt(s.place, Held(s.conns[k].phase), Hand(k));
    assert Held(s.conns[k].phase)[0] == t.id;
  }

  /** The steps of one notification, and where they lead. */
  ghost function Told(s: Pipe, k: nat, id: Id, rest: seq<Todo>, alive: bool): Pipe
    requires k < |s.conns|
  {
    var done := SetConn(s, k, Working(rest, alive)).(place := s.place - {id}, notifiers := s.notifiers - {id});
    if id !in s.notifiers then done
    else if ClientAt(s, id, Waiting) then SetPhase(done, id, Woken)
    else done.(table := s.table - {id})
  }

  lemma Notifies(cfg: Config, s: Pipe, k: nat, id: Id, rest: seq<Todo>, alive: bool) returns (events: seq<Event>)
    requires k < |s.conns| && s.conns[k].phase == Working([NotifyDone(id)] + rest, alive)
    ensures Reaches(cfg, s, events, Told(s, k, id, rest, alive)) && forall e :: e in events ==> e == Work(k)
  {
    var t := Head(cfg, s, k, NotifyDone(id), rest, alive);
    if id !in s.notifiers {
      assert s.notifiers - {id} == s.notifiers;
      events := [Work(k)];
    } else if ClientAt(s, id, Waiting) {
      Wakes(cfg, s, t, k, id, rest, alive);
      events := [Work(k)] + [Work(k)];
      ReachesBoth(cfg, s, [Work(k)], t, [Work(k)], Told(s, k, id, rest, alive));
    } else {
      CleansUp(cfg, s, t, k, id, rest, alive);
      events := [Work(k)] + ([Work(k)] + [Work(k)]);
      ReachesBoth(cfg, s, [Work(k)], t, [Work(k)] + [Work(k)], Told(s, k, id, rest, alive));
    }
  }

  lemma Wakes(cfg: Config, s: Pipe, t: Pipe, k: nat, id: Id, rest: seq<Todo>, alive: bool)
    requires k < |s.conns| && id in s.notifiers && ClientAt(s, id, Waiting)
    requires t == SetConn(s, k, Working([Wake(id)] + rest, alive)).(notifiers := s.notifiers - {id})
    ensures Reaches(cfg, t, [Work(k)], Told(s, k, id, rest, alive))
  {
    var u := Head(cfg, t, k, Wake(id), rest, alive);
    assert u.conns == s.conns[k := s.conns[k].(phase := Working(rest, alive))];
  }

  lemma CleansUp(cfg: Config, s: Pipe, t: Pipe, k: nat, id: Id, rest: seq<Todo>, alive: bool)
    requires k < |s.conns| && id in s.notifiers && !ClientAt(s, id, Waiting)
    requires t == SetConn(s, k, Working([Wake(id)] + rest, alive)).(notifiers := s.notifiers - {id})
    ensures Reaches(cfg, t, [Work(k)] + [Work(k)], Told(s, k, id, rest, alive))
  {
    var u := Head(cfg, t, k, Wake(id), rest, alive);
    assert u.conns == s.conns[k := s.conns[k].(phase := Working([CleanUp(id)] + rest, alive))];
    Cleans(cfg, s, u, k, id, rest, alive);
    ReachesBoth(cfg, t, [Work(k)], u, [Work(k)], Told(s, k, id, rest, alive));
  }

  lemma Cleans(cfg: Config, s: Pipe, t: Pipe, k: nat, id: Id, rest: seq<Todo>, alive: bool)
    requires k < |s.conns| && id in s.notifiers && !ClientAt(s, id, Waiting)
    requires t == SetConn(s, k, Working([CleanUp(id)] + rest, alive)).(notifiers := s.notifiers - {id})
    ensures Reaches(cfg, t, [Work(k)], Told(s, k, id, rest, alive))
  {
    var u := Head(cfg, t, k, CleanUp(id), rest, alive);
    assert u.conns == s.conns[k := s.conns[k].(phase := Working(rest, alive))];
  }

  /** One step on the first item of a work list. */
  lemma Head(cfg: Config, s: Pipe, k: nat, todo: Todo, rest: seq<Todo>, alive: bool) returns (t: Pipe)
    requires k < |s.conns| && s.conns[k].phase == Working([todo] + rest, alive) && HeadEnabled(cfg, s, todo)
    ensures t == DoHead(cfg, s, k, todo, rest, alive) && Reaches(cfg, s, [Work(k)], t)
  {
    assert ([todo] + rest)[1..] == rest;
    var events: seq<Event>;
    events, t := ReachesThen(cfg, s, [], s, Work(k));
    assert events == [Work(k)];
  }

  ghost function Notified(v: View, id: Id): View {
    if id in v.listed && id in v.deaf then v.Without(id)
    else v.(listed := v.listed - {id}, deaf := v.deaf - {id})
  }

  lemma NotifiedIsTold(s: Pipe, k: nat, id: Id, rest: seq<Todo>, alive: bool, v: View)
    requires k < |s.conns| && s.conns[k].phase == Working([NotifyDone(id)] + rest, alive)
    requires Listening(s.clients, id) && (id in s.notifiers ==> id in s.clients) && v.Of(s)
    ensures Notified(v, id).Of(Told(s, k, id, rest, alive))
  {
    assert id in v.listed ==> Hears(s.clients, v.deaf, id);
    if ClientAt(s, id, Waiting) {
      NotifierGone(v.listed, v.deaf, s.clients, id, s.clients[id].(phase := Woken));
    } else {
      NotifierGone(v.listed, v.deaf, s.clients, id, Client([], "", false, Woken));
    }
  }

  method NotifyView(m: TaskManager, id: Id, ghost c: L.Course) returns (ghost d: L.Course)
    requires m.Valid() && c.held == {}
    modifies m`table, m`notifiers, if id in m.notifiers then {m.notifiers[id]} else {}
    ensures m.Valid() && ViewOf(m) == Notified(old(ViewOf(m)), id)
  {
    d := m.NotifyTaskDone(id, c);
  }

  /** A notification is one to three steps of the connection that holds the id. */
  method NotifyTaskDone(m: TaskManager, ghost cfg: Config, ghost s: Pipe, ghost k: nat, id: Id, ghost rest: seq<Todo>,
      ghost alive: bool, ghost c: L.Course)
    returns (ghost events: seq<Event>, ghost d: L.Course)
    requires cfg.Valid() && Inv(cfg, s) && Shows(m, cfg, s) && c.held == {}
    requires k < |s.conns| && s.conns[k].phase == Working([NotifyDone(id)] + rest, alive)
    modifies m`table, m`notifiers, if id in m.notifiers then {m.notifiers[id]} else {}
    ensures Reaches(cfg, s, events, Told(s, k, id, rest, alive)) && forall e :: e in events ==> e == Work(k)
    ensures Shows(m, cfg, Told(s, k, id, rest, alive))
  {
    ghost var v := ViewOf(m);
    HeldIsAwaited(cfg, s, k, NotifyDone(id), rest, alive);
    NotifiedIsTold(s, k, id, rest, alive, v);
    events := Notifies(cfg, s, k, id, rest, alive);
    d := NotifyView(m, id, c);
  }

  /** Whether a task that is sent on has to wait for room in its next queue. */
  predicate Waits(capacity: nat, routes: map<string, seq<nat>>, v: View, id: Id) {
    && id in v.table && v.table[id].route in routes
    && var route := routes[v.table[id].route];
      v.table[id].stage < |route| && route[v.table[id].stage] < |v.queues|
      && |v.queues[route[v.table[id].stage]]| >= capacity
  }

  ghost function SentOn(capacity: nat, routes: map<string, seq<nat>>, v: View, id: Id): View
    requires id in v.table ==> v.table[id].route in routes
    requires forall r, i :: r in routes && 0 <= i < |routes[r]| ==> routes[r][i] < |v.queues|
  {
    if id !in v.table || Waits(capacity, routes, v, id) then v
    else if v.table[id].stage >= |routes[v.table[id].route]| then Notified(v, id)
    else
      var w := routes[v.table[id].route][v.table[id].stage];
      v.(queues := v.queues[w := v.queues[w] + [id]])
  }

  method SendView(m: TaskManager, id: Id, ghost c: L.Course) returns (waits: bool, ghost d: L.Course)
    requires m.Valid() && c.held == {}
    modifies m`table, m`notifiers, m`queues, if id in m.notifiers then {m.notifiers[id]} else {}
    ensures m.Valid() && waits == Waits(m.capacity, m.routes, old(ViewOf(m)), id)
    ensures ViewOf(m) == SentOn(m.capacity, m.routes, old(ViewOf(m)), id)
  {
    waits, d := m.SendTask(id, c);
  }

  /** The place after a task has been sent on. */
  ghost predicate WentOn(cfg: Config, k: nat, id: Id, rest: seq<Todo>, alive: bool, v: View, t: Pipe)
  {
    && k < |t.conns| && Routable(cfg, v, id) && SentOn(cfg.capacity, cfg.routes, v, id).Of(t)
    && if Waits(cfg.capacity, cfg.routes, v, id) then !Enabled(cfg, t, Work(k))
       else t.conns[k].phase == Working(rest, alive)
  }

  ghost predicate Routable(cfg: Config, v: View, id: Id) {
    && (id in v.table ==> v.table[id].route in cfg.routes)
    && (forall r, i :: r in cfg.routes && 0 <= i < |cfg.routes[r]| ==> cfg.routes[r][i] < |v.queues|)
  }

  lemma Sends(cfg: Config, s: Pipe, k: nat, id: Id, rest: seq<Todo>, alive: bool, v: View)
    returns (events: seq<Event>, t: Pipe)
    requires k < |s.conns| && s.conns[k].phase == Working([Todo.SendTask(id)] + rest, alive)
    requires Listening(s.clients, id) && (id in s.notifiers ==> id in s.clients) && v.Of(s) && Routable(cfg, v, id)
    ensures Reaches(cfg, s, events, t) && forall e :: e in events ==> e == Work(k)
    ensures WentOn(cfg, k, id, rest, alive, v, t)
  {
    var u := Head(cfg, s, k, Todo.SendTask(id), rest, alive);
    if id !in s.table {
      events, t := [Work(k)], u;
    } else {
      var stage, route := s.table[id].stage, cfg.routes[s.table[id].route];
      if stage >= |route| {
        events, t := SendsLast(cfg, u, k, id, rest, alive, v);
      } else {
        events, t := SendsNext(cfg, u, k, id, route[stage], rest, alive, v);
      }
      ReachesBoth(cfg, s, [Work(k)], u, events, t);
      events := [Work(k)] + events;
    }
  }

  lemma SendsLast(cfg: Config, u: Pipe, k: nat, id: Id, rest: seq<Todo>, alive: bool, v: View)
    returns (events: seq<Event>, t: Pipe)
    requires k < |u.conns| && u.conns[k].phase == Working([NotifyDone(id)] + rest, alive)
    requires Listening(u.clients, id) && (id in u.notifiers ==> id in u.clients) && v.Of(u) && Routable(cfg, v, id)
    requires id in u.table && u.table[id].stage >= |cfg.routes[u.table[id].route]|
    ensures Reaches(cfg, u, events, t) && forall e :: e in events ==> e == Work(k)
    ensures WentOn(cfg, k, id, rest, alive, v, t)
  {
    events := Notifies(cfg, u, k, id, rest, alive);
    t := Told(u, k, id, rest, alive);
    NotifiedIsTold(u, k, id, rest, alive, v);
  }

  lemma SendsNext(cfg: Config, u: Pipe, k: nat, id: Id, w: nat, rest: seq<Todo>, alive: bool, v: View)
    returns (events: seq<Event>, t: Pipe)
    requires k < |u.conns| && u.conns[k].phase == Working([Push(id, w)] + rest, alive)
    requires v.Of(u) && Routable(cfg, v, id) && id in u.table
    requires var (stage, route) := (u.table[id].stage, cfg.routes[u.table[id].route]);
      stage < |route| && w == route[stage]
    ensures Reaches(cfg, u, events, t) && forall e :: e in events ==> e == Work(k)
    ensures WentOn(cfg, k, id, rest, alive, v, t)
  {
    if |u.queues[w]| >= cfg.capacity {
      events, t := [], u;
      assert ([Push(id, w)] + rest)[0] == Push(id, w);
    } else {
      t := Head(cfg, u, k, Push(id, w), rest, alive);
      events := [Work(k)];
    }
  }

  /** Sending a task on is as many steps of the connection that holds it as there are
      up to the next item, or up to where the connection is blocked. */
  method SendTask(m: TaskManager, ghost cfg: Config, ghost s: Pipe, ghost k: nat, id: Id, ghost rest: seq<Todo>,
      ghost alive: bool, ghost c: L.Course)
    returns (waits: bool, ghost events: seq<Event>, ghost t: Pipe, ghost d: L.Course)
    requires cfg.Valid() && Inv(cfg, s) && Shows(m, cfg, s) && c.held == {}
    requires k < |s.conns| && s.conns[k].phase == Working([Todo.SendTask(id)] + rest, alive)
    modifies m`table, m`notifiers, m`queues, if id in m.notifiers then {m.notifiers[id]} else {}
    ensures Reaches(cfg, s, events, t) && (forall e :: e in events ==> e == Work(k)) && Shows(m, cfg, t)
    ensures k < |t.conns| && if waits then !Enabled(cfg, t, Work(k)) else t.conns[k].phase == Working(rest, alive)
  {
    ghost var v := ViewOf(m);
    HeldIsAwaited(cfg, s, k, Todo.SendTask(id), rest, alive);
    assert Routable(cfg, v, id);
    events, t := Sends(cfg, s, k, id, rest, alive, v);
    waits, d := SendView(m, id, c);
  }
}
