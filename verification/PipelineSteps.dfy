/** Every step of the pipeline keeps the invariant: one lemma a step, after the
    lemmas about moving ids between queues and connections that they share. */
module PipelineSteps {
  import opened Basics
  import opened Tasks
  import opened Pipeline
  import opened PipelineInvariant

  // ----- moving ids -----

  /** A connection lets go of some of the ids it holds. */
  lemma Release(s: Pipe, c: nat, phase: Phase, gone: set<Id>)
    requires PlacesOk(s) && c < |s.conns| && Distinct(Held(phase))
    requires forall id :: id in Held(phase) <==> id in Held(s.conns[c].phase) && id !in gone
    requires forall id :: id in gone ==> id in Held(s.conns[c].phase)
    ensures PlacesOk(SetConn(s, c, phase).(place := s.place - gone))
  {
    var s' := SetConn(s, c, phase).(place := s.place - gone);
    HeldHere(s, c);
    ReleaseHands(s, c, phase, gone);
    forall w | 0 <= w < |s'.queues| ensures AllAt(s'.place, s'.queues[w], Queue(w)) {
      assert AllAt(s.place, s.queues[w], Queue(w));
    }
    forall id | id in s'.place ensures PlaceReal(s', id, s'.place[id]) {
      assert PlaceReal(s, id, s.place[id]);
    }
  }

  lemma ReleaseHands(s: Pipe, c: nat, phase: Phase, gone: set<Id>)
    requires HandsPlaced(s) && c < |s.conns| && Distinct(Held(phase))
    requires forall id :: id in Held(phase) <==> id in Held(s.conns[c].phase) && id !in gone
    requires forall id :: id in gone ==> id in Held(s.conns[c].phase)
    ensures HandsPlaced(SetConn(s, c, phase).(place := s.place - gone))
  {
    var s' := SetConn(s, c, phase).(place := s.place - gone);
    HeldHere(s, c);
    forall d | 0 <= d < |s'.conns| ensures AllAt(s'.place, Held(s'.conns[d].phase), Hand(d)) {
      assert AllAt(s.place, Held(s.conns[d].phase), Hand(d));
      forall i | 0 <= i < |Held(s'.conns[d].phase)|
        ensures Held(s'.conns[d].phase)[i] in s'.place && s'.place[Held(s'.conns[d].phase)[i]] == Hand(d)
      {
        assert Held(s'.conns[d].phase)[i] in Held(s'.conns[d].phase);
      }
    }
  }

  lemma HeldHere(s: Pipe, c: nat)
    requires HandsPlaced(s) && c < |s.conns|
    ensures forall id :: id in Held(s.conns[c].phase) ==> id in s.place && s.place[id] == Hand(c)
  {
    assert AllAt(s.place, Held(s.conns[c].phase), Hand(c));
  }

  lemma QueuedHere(s: Pipe, w: nat)
    requires QueuesPlaced(s) && w < |s.queues|
    ensures forall id :: id in s.queues[w] ==> id in s.place && s.place[id] == Queue(w)
  {
    assert AllAt(s.place, s.queues[w], Queue(w));
  }

  /** A connection changes what it does with the ids it holds. */
  lemma Rephase(s: Pipe, c: nat, phase: Phase)
    requires PlacesOk(s) && c < |s.conns| && Held(phase) == Held(s.conns[c].phase)
    ensures PlacesOk(SetConn(s, c, phase))
  {
    assert AllAt(s.place, Held(s.conns[c].phase), Hand(c));
    Release(s, c, phase, {});
    assert s.place - {} == s.place;
  }

  /** An id that is nowhere goes to the back of a queue. */
  lemma EnqueuePlaces(s: Pipe, id: Id, w: nat)
    requires PlacesOk(s) && w < |s.queues| && id !in s.place
    ensures PlacesOk(Enqueue(s, id, w))
  {
    var s' := Enqueue(s, id, w);
    forall v | 0 <= v < |s'.queues| ensures AllAt(s'.place, s'.queues[v], Queue(v)) {
      assert AllAt(s.place, s.queues[v], Queue(v));
      QueuedHere(s, v);
    }
    forall c | 0 <= c < |s'.conns| ensures AllAt(s'.place, Held(s'.conns[c].phase), Hand(c)) {
      assert AllAt(s.place, Held(s.conns[c].phase), Hand(c));
    }
    forall x | x in s'.place ensures PlaceReal(s', x, s'.place[x]) {
      assert x in s.place ==> PlaceReal(s, x, s.place[x]);
    }
  }

  ghost predicate CanReceive(s: Pipe, c: nat) {
    && c < |s.conns| && s.conns[c].worker < |s.queues| && s.conns[c].phase.Gathering?
    && s.queues[s.conns[c].worker] != []
  }

  /** The head of a queue moves to the connection that received it. */
  lemma ReceivePlaces(s: Pipe, c: nat)
    requires PlacesOk(s) && CanReceive(s, c)
    ensures PlacesOk(DoReceive(s, c))
  {
    ReceiveQueues(s, c);
    ReceiveHands(s, c);
    ReceiveReal(s, c);
  }

  lemma ReceiveQueues(s: Pipe, c: nat)
    requires QueuesPlaced(s) && CanReceive(s, c)
    ensures QueuesPlaced(DoReceive(s, c))
  {
    var s' := DoReceive(s, c);
    forall v | 0 <= v < |s'.queues| ensures AllAt(s'.place, s'.queues[v], Queue(v)) {
      assert AllAt(s.place, s.queues[v], Queue(v));
      QueuedHere(s, s.conns[c].worker);
    }
  }

  lemma ReceiveHands(s: Pipe, c: nat)
    requires PlacesOk(s) && CanReceive(s, c)
    ensures HandsPlaced(DoReceive(s, c))
  {
    var s' := DoReceive(s, c);
    QueuedHere(s, s.conns[c].worker);
    forall d | 0 <= d < |s'.conns| ensures AllAt(s'.place, Held(s'.conns[d].phase), Hand(d)) {
      HeldHere(s, d);
      assert AllAt(s.place, Held(s.conns[d].phase), Hand(d));
      assert Held(s'.conns[d].phase) == if d == c then Held(s.conns[c].phase) + [s.queues[s.conns[c].worker][0]]
        else Held(s.conns[d].phase);
    }
  }

  lemma ReceiveReal(s: Pipe, c: nat)
    requires PlacesReal(s) && CanReceive(s, c)
    ensures PlacesReal(DoReceive(s, c))
  {
    var s' := DoReceive(s, c);
    forall x | x in s'.place ensures PlaceReal(s', x, s'.place[x]) {
      if x in s.place {
        assert PlaceReal(s, x, s.place[x]);
      }
    }
  }

  /** What connections wait to do does not depend on ids that are nowhere. */
  lemma TodosFrame(s: Pipe, s': Pipe)
    requires HandsPlaced(s) && TodosOk(s) && s'.conns == s.conns
    requires forall id :: id in s.place && id in s'.notifiers ==> id in s.notifiers
    requires forall id :: id in s.place && ReceiverClosed(s.clients, id) ==> ReceiverClosed(s'.clients, id)
    ensures TodosOk(s')
  {
    forall c | 0 <= c < |s.conns| ensures ConnTodosOk(s'.notifiers, s'.clients, s.conns[c].phase) {
      var p := s.conns[c].phase;
      if p.Working? {
        assert ConnTodosOk(s.notifiers, s.clients, p);
        assert AllAt(s.place, Held(p), Hand(c));
        forall i | 0 <= i < |p.todo| ensures TodoOk(s'.notifiers, s'.clients, p.todo[i]) {
          assert Held(p)[i] == p.todo[i].id;
          assert TodoOk(s.notifiers, s.clients, p.todo[i]);
        }
      }
    }
  }

  // ----- steps of the clients -----

  lemma DifferentResidues(a: nat, b: nat)
    requires 0 < b - a < ID_SPACE
    ensures a % ID_SPACE != b % ID_SPACE
  {
  }

  /** An id handed out while no mention of it is 2^32 submissions old is new. */
  lemma FreshId(s: Pipe)
    requires IdsOk(s) && Young(s)
    ensures s.nextId !in Mentioned(s)
  {
    forall id | id in Mentioned(s) ensures id != s.nextId {
      DifferentResidues(s.born[id], s.issued);
    }
  }

  /** Only what is recorded about `id` differs; nothing moves. */
  ghost predicate OnlyAt(s: Pipe, s': Pipe, id: Id) {
    && s'.queues == s.queues && s'.conns == s.conns && s'.place == s.place
    && (forall x :: x != id ==> (x in s'.table <==> x in s.table) && (x in s'.table ==> s'.table[x] == s.table[x]))
    && (forall x :: x != id ==>
      (x in s'.clients <==> x in s.clients) && (x in s'.clients ==> s'.clients[x] == s.clients[x]))
    && (forall x :: x != id ==> (x in s'.notifiers <==> x in s.notifiers))
  }

  /** A step that concerns one id keeps the invariant if that id comes out well. */
  lemma ClientStep(cfg: Config, s: Pipe, s': Pipe, id: Id)
    requires cfg.Valid() && Inv(cfg, s) && OnlyAt(s, s', id) && IdsOk(s')
    requires id in s'.table ==> TaskOk(cfg, s'.table[id], s'.clients, id)
    requires id in s'.clients ==> ClientOk(cfg, s', id)
    requires id in s'.notifiers ==> id in s'.clients
    requires id in s.place && id in s'.table ==> id in s.table && s'.table[id] == s.table[id]
    requires id in s.place ==> Listening(s'.clients, id) && (id in s'.notifiers ==> id in s.notifiers)
    requires id in s.place && ReceiverClosed(s.clients, id) ==> ReceiverClosed(s'.clients, id)
    ensures Inv(cfg, s')
  {
    TodosFrame(s, s');
    SamePlaces(s, s');
    ClientStepTasks(cfg, s, s', id);
    ClientStepClients(cfg, s, s', id);
  }

  lemma SamePlaces(s: Pipe, s': Pipe)
    requires PlacesOk(s) && s'.queues == s.queues && s'.conns == s.conns && s'.place == s.place
    ensures PlacesOk(s')
  {
    forall x | x in s'.place ensures PlaceReal(s', x, s'.place[x]) {
      assert PlaceReal(s, x, s.place[x]);
    }
  }

  lemma ClientStepTasks(cfg: Config, s: Pipe, s': Pipe, id: Id)
    requires cfg.Valid() && PlacesOk(s) && TasksOk(cfg, s) && OnlyAt(s, s', id)
    requires id in s'.table ==> TaskOk(cfg, s'.table[id], s'.clients, id)
    requires id in s.place && id in s'.table ==> id in s.table && s'.table[id] == s.table[id]
    ensures TasksOk(cfg, s')
  {
    forall x | x in s'.table ensures TaskOk(cfg, s'.table[x], s'.clients, x) {
      assert x != id ==> TaskOk(cfg, s.table[x], s.clients, x);
    }
    ClientStepDue(cfg, s, s'.table, id);
  }

  lemma ClientStepDue(cfg: Config, s: Pipe, table: Table, id: Id)
    requires QueuesPlaced(s) && HandsPlaced(s) && QueuesDue(cfg, s) && HandsDue(cfg, s)
    requires forall x :: x in s.place && x in table ==> x in s.table && table[x] == s.table[x]
    ensures forall w :: 0 <= w < |s.queues| ==> QueueTasksOk(cfg, table, s.queues[w], w)
    ensures forall c :: 0 <= c < |s.conns| ==> ConnTasksOk(cfg, table, s.conns[c])
  {
    forall w | 0 <= w < |s.queues| ensures QueueTasksOk(cfg, table, s.queues[w], w) {
      assert QueueTasksOk(cfg, s.table, s.queues[w], w);
      QueuedHere(s, w);
    }
    forall c | 0 <= c < |s.conns| ensures ConnTasksOk(cfg, table, s.conns[c]) {
      assert ConnTasksOk(cfg, s.table, s.conns[c]);
      HeldHere(s, c);
    }
  }

  lemma ClientStepClients(cfg: Config, s: Pipe, s': Pipe, id: Id)
    requires ClientsOk(cfg, s) && OnlyAt(s, s', id)
    requires id in s'.clients ==> ClientOk(cfg, s', id)
    requires id in s'.notifiers ==> id in s'.clients
    requires id in s.place ==> Listening(s'.clients, id)
    ensures ClientsOk(cfg, s')
  {
    forall x | x in s'.clients ensures ClientOk(cfg, s', x) {
      if x != id {
        assert ClientOk(cfg, s, x);
        assert Waking(s, x) <==> Waking(s', x);
      }
    }
    forall x | x in s'.place ensures Listening(s'.clients, x) {
      assert Listening(s.clients, x);
    }
  }

  lemma IssueKeeps(cfg: Config, s: Pipe, route: string, input: Bytes, stream: bool)
    requires cfg.Valid() && Inv(cfg, s) && Enabled(cfg, s, Issue(route, input, stream))
    ensures Inv(cfg, Apply(cfg, s, Issue(route, input, stream)))
  {
    FreshId(s);
    ClientStep(cfg, s, DoIssue(s, route, input, stream), s.nextId);
  }

  /** What the steps of a client may assume about its id. */
  lemma ClientFacts(cfg: Config, s: Pipe, id: Id)
    requires cfg.Valid() && Inv(cfg, s) && id in s.clients
    ensures ClientOk(cfg, s, id)
    ensures id in s.place ==> Listening(s.clients, id)
    ensures id in s.table ==> TaskOk(cfg, s.table[id], s.clients, id)
  {
  }

  lemma ListNotifierKeeps(cfg: Config, s: Pipe, id: Id)
    requires cfg.Valid() && Inv(cfg, s) && Enabled(cfg, s, ListNotifier(id))
    ensures Inv(cfg, Apply(cfg, s, ListNotifier(id)))
  {
    ClientFacts(cfg, s, id);
    ClientStep(cfg, s, Apply(cfg, s, ListNotifier(id)), id);
  }

  lemma StoreTaskKeeps(cfg: Config, s: Pipe, id: Id)
    requires cfg.Valid() && Inv(cfg, s) && Enabled(cfg, s, StoreTask(id))
    ensures Inv(cfg, Apply(cfg, s, StoreTask(id)))
  {
    ClientFacts(cfg, s, id);
    ClientStep(cfg, s, Apply(cfg, s, StoreTask(id)), id);
  }

  lemma TimeOutKeeps(cfg: Config, s: Pipe, id: Id)
    requires cfg.Valid() && Inv(cfg, s) && Enabled(cfg, s, TimeOut(id))
    ensures Inv(cfg, Apply(cfg, s, TimeOut(id)))
  {
    ClientFacts(cfg, s, id);
    ClientStep(cfg, s, Apply(cfg, s, TimeOut(id)), id);
  }

  lemma CancelKeeps(cfg: Config, s: Pipe, id: Id)
    requires cfg.Valid() && Inv(cfg, s) && Enabled(cfg, s, Cancel(id))
    ensures Inv(cfg, Apply(cfg, s, Cancel(id)))
  {
    ClientFacts(cfg, s, id);
    ClientStep(cfg, s, Apply(cfg, s, Cancel(id)), id);
  }

  lemma FinishKeeps(cfg: Config, s: Pipe, id: Id)
    requires cfg.Valid() && Inv(cfg, s) && Enabled(cfg, s, Finish(id))
    ensures Inv(cfg, Apply(cfg, s, Finish(id)))
  {
    ClientFacts(cfg, s, id);
    ClientStep(cfg, s, Apply(cfg, s, Finish(id)), id);
  }

  lemma DropNotifierKeeps(cfg: Config, s: Pipe, id: Id)
    requires cfg.Valid() && Inv(cfg, s) && Enabled(cfg, s, DropNotifier(id))
    ensures Inv(cfg, Apply(cfg, s, DropNotifier(id)))
  {
    ClientFacts(cfg, s, id);
    ClientStep(cfg, s, Apply(cfg, s, DropNotifier(id)), id);
  }

  lemma DropTaskKeeps(cfg: Config, s: Pipe, id: Id)
    requires cfg.Valid() && Inv(cfg, s) && Enabled(cfg, s, DropTask(id))
    ensures Inv(cfg, Apply(cfg, s, DropTask(id)))
  {
    ClientFacts(cfg, s, id);
    ClientStep(cfg, s, Apply(cfg, s, DropTask(id)), id);
  }

  lemma CollectKeeps(cfg: Config, s: Pipe, id: Id)
    requires cfg.Valid() && Inv(cfg, s) && Enabled(cfg, s, Collect(id))
    ensures Inv(cfg, Apply(cfg, s, Collect(id)))
  {
    ClientFacts(cfg, s, id);
    ClientStep(cfg, s, Apply(cfg, s, Collect(id)), id);
  }

  lemma EnqueueKeeps(cfg: Config, s: Pipe, id: Id, w: nat)
    requires cfg.Valid() && Inv(cfg, s) && w < |s.queues| && |s.queues[w]| < cfg.capacity
    requires id !in s.place && id in s.born && Listening(s.clients, id)
    requires id in s.table ==> DueAt(cfg, s.table[id], w)
    ensures Inv(cfg, Enqueue(s, id, w))
  {
    var s' := Enqueue(s, id, w);
    EnqueuePlaces(s, id, w);
    forall v | 0 <= v < |s'.queues| ensures QueueTasksOk(cfg, s'.table, s'.queues[v], v) {
      assert QueueTasksOk(cfg, s.table, s.queues[v], v);
    }
    forall x | x in s'.clients ensures ClientOk(cfg, s', x) {
      assert ClientOk(cfg, s, x);
      assert Waking(s, x) ==> Waking(s', x);
    }
  }

  lemma TryEnqueueKeeps(cfg: Config, s: Pipe, id: Id)
    requires cfg.Valid() && Inv(cfg, s) && Enabled(cfg, s, TryEnqueue(id))
    ensures Inv(cfg, Apply(cfg, s, TryEnqueue(id)))
  {
    assert ClientOk(cfg, s, id) && TaskOk(cfg, s.table[id], s.clients, id);
    var w := cfg.routes[s.clients[id].route][0];
    if |s.queues[w]| < cfg.capacity {
      ClientStep(cfg, s, SetPhase(s, id, Waiting), id);
      EnqueueKeeps(cfg, SetPhase(s, id, Waiting), id, w);
    } else {
      ClientStep(cfg, s, SetPhase(s, id, Deleting(Rejected)), id);
    }
  }

  // ----- steps of the connections -----

  lemma WakeHeld(p: Phase, id: Id)
    requires WakingAt(p, id)
    ensures id in Held(p)
  {
    var i :| 0 <= i < |p.todo| && p.todo[i] == Wake(id);
    assert Held(p)[i] == id;
  }

  /** A connection moves on, possibly letting go of ids, without touching the
      tables; no notifier it has in hand may be forgotten. */
  lemma ConnStep(cfg: Config, s: Pipe, c: nat, phase: Phase, gone: set<Id>)
    requires cfg.Valid() && Inv(cfg, s) && c < |s.conns|
    requires Distinct(Held(phase))
    requires forall id :: id in Held(phase) <==> id in Held(s.conns[c].phase) && id !in gone
    requires forall id :: id in gone ==> id in Held(s.conns[c].phase)
    requires ConnOk(cfg, |s.queues|, Conn(s.conns[c].worker, phase))
    requires ConnTasksOk(cfg, s.table, Conn(s.conns[c].worker, phase))
    requires ConnTodosOk(s.notifiers, s.clients, phase)
    requires forall id :: ClientAt(s, id, Waiting) && WakingAt(s.conns[c].phase, id) ==> WakingAt(phase, id)
    ensures Inv(cfg, SetConn(s, c, phase).(place := s.place - gone))
  {
    var s' := SetConn(s, c, phase).(place := s.place - gone);
    Release(s, c, phase, gone);
    ConnStepClients(cfg, s, c, phase, gone);
    assert IdsOk(s') && ShapeOk(cfg, s');
    forall d | 0 <= d < |s'.conns| ensures ConnTasksOk(cfg, s'.table, s'.conns[d]) {
      assert ConnTasksOk(cfg, s.table, s.conns[d]);
    }
    forall d | 0 <= d < |s'.conns| ensures ConnTodosOk(s'.notifiers, s'.clients, s'.conns[d].phase) {
      assert ConnTodosOk(s.notifiers, s.clients, s.conns[d].phase);
    }
  }

  lemma ConnStepClients(cfg: Config, s: Pipe, c: nat, phase: Phase, gone: set<Id>)
    requires HandsPlaced(s) && ClientsOk(cfg, s) && c < |s.conns|
    requires forall id :: id in Held(phase) <==> id in Held(s.conns[c].phase) && id !in gone
    requires forall id :: id in gone ==> id in Held(s.conns[c].phase)
    requires forall id :: ClientAt(s, id, Waiting) && WakingAt(s.conns[c].phase, id) ==> WakingAt(phase, id)
    ensures ClientsOk(cfg, SetConn(s, c, phase).(place := s.place - gone))
  {
    var s' := SetConn(s, c, phase).(place := s.place - gone);
    HeldHere(s, c);
    forall x | x in s'.clients ensures ClientOk(cfg, s', x) {
      assert ClientOk(cfg, s, x);
      if ClientAt(s, x, Waiting) && Waking(s, x) {
        if s.place[x].c == c {
          WakeHeld(phase, x);
        }
        assert Waking(s', x);
      }
    }
  }

  /** The ids a connection holds when it is handed the same work differently. */
  lemma ConnFacts(cfg: Config, s: Pipe, c: nat)
    requires cfg.Valid() && Inv(cfg, s) && c < |s.conns|
    ensures Distinct(Held(s.conns[c].phase))
    ensures ConnOk(cfg, |s.queues|, s.conns[c])
    ensures ConnTasksOk(cfg, s.table, s.conns[c])
    ensures ConnTodosOk(s.notifiers, s.clients, s.conns[c].phase)
    ensures s.place - {} == s.place
  {
    assert AllAt(s.place, Held(s.conns[c].phase), Hand(c));
  }

  lemma AcceptKeeps(cfg: Config, s: Pipe, worker: nat)
    requires cfg.Valid() && Inv(cfg, s) && Enabled(cfg, s, Accept(worker))
    ensures Inv(cfg, Apply(cfg, s, Accept(worker)))
  {
    AcceptClients(cfg, s, worker);
    AcceptPlaces(s, worker);
  }

  lemma AcceptPlaces(s: Pipe, worker: nat)
    requires PlacesOk(s)
    ensures PlacesOk(s.(conns := s.conns + [Conn(worker, Gathering([]))]))
  {
    var s' := s.(conns := s.conns + [Conn(worker, Gathering([]))]);
    forall x | x in s'.place ensures PlaceReal(s', x, s'.place[x]) {
      assert PlaceReal(s, x, s.place[x]);
    }
  }

  lemma AcceptClients(cfg: Config, s: Pipe, worker: nat)
    requires ClientsOk(cfg, s)
    ensures ClientsOk(cfg, s.(conns := s.conns + [Conn(worker, Gathering([]))]))
  {
    var s' := s.(conns := s.conns + [Conn(worker, Gathering([]))]);
    forall x | x in s'.clients ensures ClientOk(cfg, s', x) {
      assert ClientOk(cfg, s, x);
      assert Waking(s, x) ==> Waking(s', x);
    }
  }

  lemma ReceiveKeeps(cfg: Config, s: Pipe, c: nat)
    requires cfg.Valid() && Inv(cfg, s) && Enabled(cfg, s, Receive(c))
    ensures Inv(cfg, Apply(cfg, s, Receive(c)))
  {
    ReceivePlaces(s, c);
    ReceiveTasks(cfg, s, c);
    ReceiveClients(cfg, s, c);
    ReceiveRest(cfg, s, c);
  }

  lemma ReceiveRest(cfg: Config, s: Pipe, c: nat)
    requires IdsOk(s) && QueuesPlaced(s) && ShapeOk(cfg, s) && TodosOk(s) && Enabled(cfg, s, Receive(c))
    ensures
      var s' := DoReceive(s, c);
      IdsOk(s') && ShapeOk(cfg, s') && TodosOk(s')
  {
    var s' := DoReceive(s, c);
    QueuedHere(s, s.conns[c].worker);
    assert s'.place.Keys == s.place.Keys;
    forall d | 0 <= d < |s'.conns| ensures ConnTodosOk(s'.notifiers, s'.clients, s'.conns[d].phase) {
      assert ConnTodosOk(s.notifiers, s.clients, s.conns[d].phase);
    }
  }

  lemma ReceiveTasks(cfg: Config, s: Pipe, c: nat)
    requires cfg.Valid() && TasksOk(cfg, s) && CanReceive(s, c)
    ensures TasksOk(cfg, DoReceive(s, c))
  {
    var s' := DoReceive(s, c);
    var w := s.conns[c].worker;
    assert QueueTasksOk(cfg, s.table, s.queues[w], w);
    forall v | 0 <= v < |s'.queues| ensures QueueTasksOk(cfg, s'.table, s'.queues[v], v) {
      assert QueueTasksOk(cfg, s.table, s.queues[v], v);
    }
    forall d | 0 <= d < |s'.conns| ensures ConnTasksOk(cfg, s'.table, s'.conns[d]) {
      assert ConnTasksOk(cfg, s.table, s.conns[d]);
      if d == c {
        var conn := s'.conns[c];
        forall i | 0 <= i < |Held(conn.phase)| && Held(conn.phase)[i] in s.table
          ensures ItemOk(cfg, s.table[Held(conn.phase)[i]], conn, i)
        {
          assert i < |Held(s.conns[c].phase)| ==> ItemOk(cfg, s.table[Held(conn.phase)[i]], s.conns[c], i);
        }
      }
    }
  }

  lemma ReceiveClients(cfg: Config, s: Pipe, c: nat)
    requires cfg.Valid() && PlacesOk(s) && ClientsOk(cfg, s) && CanReceive(s, c)
    ensures ClientsOk(cfg, DoReceive(s, c))
  {
    var s' := DoReceive(s, c);
    QueuedHere(s, s.conns[c].worker);
    forall x | x in s'.clients ensures ClientOk(cfg, s', x) {
      assert ClientOk(cfg, s, x);
      assert Waking(s, x) ==> Waking(s', x);
    }
    forall x | x in s'.place ensures Listening(s'.clients, x) {
      assert Listening(s.clients, x);
    }
  }

  lemma CloseBatchKeeps(cfg: Config, s: Pipe, c: nat)
    requires cfg.Valid() && Inv(cfg, s) && Enabled(cfg, s, CloseBatch(c))
    ensures Inv(cfg, Apply(cfg, s, CloseBatch(c)))
  {
    ConnFacts(cfg, s, c);
    ConnStep(cfg, s, c, Closed(s.conns[c].phase.ids), {});
  }

  lemma FilterKeeps(cfg: Config, s: Pipe, c: nat)
    requires cfg.Valid() && Inv(cfg, s) && Enabled(cfg, s, Filter(c))
    ensures Inv(cfg, Apply(cfg, s, Filter(c)))
  {
    ConnFacts(cfg, s, c);
    var ids := s.conns[c].phase.ids;
    var kept := Present(s.table, ids);
    PresentDistinct(s.table, ids);
    var phase := if kept == [] then Gathering([])
      else Ready(kept, Payloads(s.table, kept), States(s.table, cfg.Lengths(), kept));
    forall i | 0 <= i < |Held(phase)| ensures ItemOk(cfg, s.table[Held(phase)[i]], Conn(s.conns[c].worker, phase), i) {
      assert kept[i] in ids;
    }
    ConnStep(cfg, s, c, phase, Elements(ids) - Elements(kept));
  }

  lemma SendOkKeeps(cfg: Config, s: Pipe, c: nat)
    requires cfg.Valid() && Inv(cfg, s) && Enabled(cfg, s, SendOk(c))
    ensures Inv(cfg, Apply(cfg, s, SendOk(c)))
  {
    ConnFacts(cfg, s, c);
    var p := s.conns[c].phase;
    ConnStep(cfg, s, c, Sent(p.ids, p.data, p.states), {});
  }

  lemma SendFailKeeps(cfg: Config, s: Pipe, c: nat)
    requires cfg.Valid() && Inv(cfg, s) && Enabled(cfg, s, SendFail(c))
    ensures Inv(cfg, Apply(cfg, s, SendFail(c)))
  {
    ConnFacts(cfg, s, c);
    ConnStep(cfg, s, c, Working(SendTasks(s.conns[c].phase.ids), false), {});
  }

  lemma ReadFailKeeps(cfg: Config, s: Pipe, c: nat)
    requires cfg.Valid() && Inv(cfg, s) && Enabled(cfg, s, ReadFail(c))
    ensures Inv(cfg, Apply(cfg, s, ReadFail(c)))
  {
    ConnFacts(cfg, s, c);
    ConnStep(cfg, s, c, Dead, Elements(s.conns[c].phase.ids));
  }

  // ----- the work list of a connection -----

  /** The first item of a work list is done. */
  lemma DropHeadKeeps(cfg: Config, s: Pipe, c: nat)
    requires cfg.Valid() && Inv(cfg, s) && c < |s.conns| && s.conns[c].phase.Working? && s.conns[c].phase.todo != []
    requires !s.conns[c].phase.todo[0].Wake?
    ensures
      var p := s.conns[c].phase;
      Inv(cfg, SetConn(s, c, Working(p.todo[1..], p.alive)).(place := s.place - {p.todo[0].id}))
  {
    ConnFacts(cfg, s, c);
    var p := s.conns[c].phase;
    var rest := Working(p.todo[1..], p.alive);
    TailHeld(p.todo);
    TailTasks(cfg, s.table, s.conns[c]);
    ConnStep(cfg, s, c, rest, {p.todo[0].id});
  }

  lemma TailTasks(cfg: Config, table: Table, conn: Conn)
    requires conn.phase.Working? && conn.phase.todo != [] && ConnTasksOk(cfg, table, conn)
    ensures ConnTasksOk(cfg, table, Conn(conn.worker, Working(conn.phase.todo[1..], conn.phase.alive)))
  {
    var rest := Working(conn.phase.todo[1..], conn.phase.alive);
    forall i | 0 <= i < |Held(rest)| && Held(rest)[i] in table
      ensures ItemOk(cfg, table[Held(rest)[i]], Conn(conn.worker, rest), i)
    {
      assert Held(rest)[i] == Held(conn.phase)[i + 1];
      assert ItemOk(cfg, table[Held(conn.phase)[i + 1]], conn, i + 1);
    }
  }

  /** The first item of a work list becomes another step for the same id. */
  lemma SwapHeadKeeps(cfg: Config, s: Pipe, c: nat, t: Todo)
    requires cfg.Valid() && Inv(cfg, s) && c < |s.conns| && s.conns[c].phase.Working? && s.conns[c].phase.todo != []
    requires t.id == s.conns[c].phase.todo[0].id
    requires t.Push? ==> t.worker < |s.queues|
    requires t.id in s.table ==> s.table[t.id].route in cfg.routes && PendingOk(cfg, s.table[t.id], t)
    requires TodoOk(s.notifiers, s.clients, t)
    requires s.conns[c].phase.todo[0].Wake? ==> !ClientAt(s, t.id, Waiting)
    ensures Inv(cfg, SetConn(s, c, Working([t] + s.conns[c].phase.todo[1..], s.conns[c].phase.alive)))
  {
    ConnFacts(cfg, s, c);
    var p := s.conns[c].phase;
    var phase := Working([t] + p.todo[1..], p.alive);
    assert Held(phase) == Held(p);
    SwapTasks(cfg, s.table, s.conns[c], t);
    ConnStep(cfg, s, c, phase, {});
  }

  lemma SwapTasks(cfg: Config, table: Table, conn: Conn, t: Todo)
    requires conn.phase.Working? && conn.phase.todo != [] && ConnTasksOk(cfg, table, conn)
    requires t.id == conn.phase.todo[0].id
    requires t.id in table ==> table[t.id].route in cfg.routes && PendingOk(cfg, table[t.id], t)
    ensures ConnTasksOk(cfg, table, Conn(conn.worker, Working([t] + conn.phase.todo[1..], conn.phase.alive)))
  {
    var phase := Working([t] + conn.phase.todo[1..], conn.phase.alive);
    forall i | 0 <= i < |Held(phase)| && Held(phase)[i] in table
      ensures ItemOk(cfg, table[Held(phase)[i]], Conn(conn.worker, phase), i)
    {
      assert Held(phase)[i] == Held(conn.phase)[i];
      assert ItemOk(cfg, table[Held(conn.phase)[i]], conn, i);
    }
  }

  /** The notifier of the first item leaves the map for the connection. */
  lemma TakeNotifierKeeps(cfg: Config, s: Pipe, c: nat, id: Id)
    requires cfg.Valid() && Inv(cfg, s) && c < |s.conns| && s.conns[c].phase.Working? && s.conns[c].phase.todo != []
    requires s.conns[c].phase.todo[0] == NotifyDone(id) && id in s.notifiers
    ensures
      var p := s.conns[c].phase;
      Inv(cfg, SetConn(s, c, Working([Wake(id)] + p.todo[1..], p.alive)).(notifiers := s.notifiers - {id}))
  {
    TakeNotifierPlaces(s, c, id);
    TakeNotifierDuties(cfg, s, c, id);
    TakeNotifierClients(cfg, s, c, id);
  }

  lemma TakeNotifierPlaces(s: Pipe, c: nat, id: Id)
    requires IdsOk(s) && PlacesOk(s) && c < |s.conns| && s.conns[c].phase.Working? && s.conns[c].phase.todo != []
    requires s.conns[c].phase.todo[0] == NotifyDone(id)
    ensures
      var p := s.conns[c].phase;
      var s' := SetConn(s, c, Working([Wake(id)] + p.todo[1..], p.alive)).(notifiers := s.notifiers - {id});
      PlacesOk(s') && IdsOk(s')
  {
    var p := s.conns[c].phase;
    var phase := Working([Wake(id)] + p.todo[1..], p.alive);
    assert Held(phase) == Held(p);
    Rephase(s, c, phase);
    SamePlaces(SetConn(s, c, phase), SetConn(s, c, phase).(notifiers := s.notifiers - {id}));
  }

  lemma TakeNotifierDuties(cfg: Config, s: Pipe, c: nat, id: Id)
    requires cfg.Valid() && Inv(cfg, s) && c < |s.conns| && s.conns[c].phase.Working? && s.conns[c].phase.todo != []
    requires s.conns[c].phase.todo[0] == NotifyDone(id)
    ensures
      var p := s.conns[c].phase;
      var s' := SetConn(s, c, Working([Wake(id)] + p.todo[1..], p.alive)).(notifiers := s.notifiers - {id});
      ShapeOk(cfg, s') && TasksOk(cfg, s') && TodosOk(s')
  {
    TakeNotifierTasks(cfg, s, c, id);
    TakeNotifierTodos(s, c, id);
    assert ConnOk(cfg, |s.queues|, s.conns[c]);
  }

  lemma TakeNotifierTasks(cfg: Config, s: Pipe, c: nat, id: Id)
    requires cfg.Valid() && TasksOk(cfg, s) && c < |s.conns| && s.conns[c].phase.Working? && s.conns[c].phase.todo != []
    requires s.conns[c].phase.todo[0] == NotifyDone(id)
    ensures
      var p := s.conns[c].phase;
      TasksOk(cfg, SetConn(s, c, Working([Wake(id)] + p.todo[1..], p.alive)).(notifiers := s.notifiers - {id}))
  {
    var p := s.conns[c].phase;
    var s' := SetConn(s, c, Working([Wake(id)] + p.todo[1..], p.alive)).(notifiers := s.notifiers - {id});
    assert ConnTasksOk(cfg, s.table, s.conns[c]) && Held(p)[0] == id;
    assert id in s.table ==> ItemOk(cfg, s.table[id], s.conns[c], 0);
    SwapTasks(cfg, s.table, s.conns[c], Wake(id));
    forall d | 0 <= d < |s'.conns| ensures ConnTasksOk(cfg, s'.table, s'.conns[d]) {
      assert ConnTasksOk(cfg, s.table, s.conns[d]);
    }
  }

  lemma TakeNotifierTodos(s: Pipe, c: nat, id: Id)
    requires TodosOk(s) && c < |s.conns| && s.conns[c].phase.Working? && s.conns[c].phase.todo != []
    requires s.conns[c].phase.todo[0] == NotifyDone(id)
    ensures
      var p := s.conns[c].phase;
      TodosOk(SetConn(s, c, Working([Wake(id)] + p.todo[1..], p.alive)).(notifiers := s.notifiers - {id}))
  {
    var p := s.conns[c].phase;
    var s' := SetConn(s, c, Working([Wake(id)] + p.todo[1..], p.alive)).(notifiers := s.notifiers - {id});
    forall d | 0 <= d < |s'.conns| ensures ConnTodosOk(s'.notifiers, s'.clients, s'.conns[d].phase) {
      assert ConnTodosOk(s.notifiers, s.clients, s.conns[d].phase);
    }
  }

  lemma TakeNotifierClients(cfg: Config, s: Pipe, c: nat, id: Id)
    requires cfg.Valid() && Inv(cfg, s) && c < |s.conns| && s.conns[c].phase.Working? && s.conns[c].phase.todo != []
    requires s.conns[c].phase.todo[0] == NotifyDone(id)
    ensures
      var p := s.conns[c].phase;
      ClientsOk(cfg, SetConn(s, c, Working([Wake(id)] + p.todo[1..], p.alive)).(notifiers := s.notifiers - {id}))
  {
    var p := s.conns[c].phase;
    var phase := Working([Wake(id)] + p.todo[1..], p.alive);
    var s' := SetConn(s, c, phase).(notifiers := s.notifiers - {id});
    HeldHere(s, c);
    assert Held(p)[0] == id && phase.todo[0] == Wake(id);
    assert id in s.place && Listening(s.clients, id) && Waking(s', id);
    forall x | x in s'.clients ensures ClientOk(cfg, s', x) {
      assert ClientOk(cfg, s, x);
      if Waking(s, x) && s.place[x].c == c {
        var i :| 0 <= i < |p.todo| && p.todo[i] == Wake(x);
        assert phase.todo[i] == Wake(x);
      }
    }
  }

  /** The one receiver that is still listening gets its notification. */
  lemma WakeUpKeeps(cfg: Config, s: Pipe, c: nat, id: Id)
    requires cfg.Valid() && Inv(cfg, s) && c < |s.conns| && s.conns[c].phase.Working? && s.conns[c].phase.todo != []
    requires s.conns[c].phase.todo[0] == Wake(id) && ClientAt(s, id, Waiting)
    ensures
      var p := s.conns[c].phase;
      Inv(cfg, SetPhase(SetConn(s, c, Working(p.todo[1..], p.alive)).(place := s.place - {id}), id, Woken))
  {
    WakeUpPlaces(cfg, s, c, id);
    WakeUpClients(cfg, s, c, id);
    WakeUpRest(cfg, s, c, id);
  }

  lemma WakeUpPlaces(cfg: Config, s: Pipe, c: nat, id: Id)
    requires cfg.Valid() && Inv(cfg, s) && c < |s.conns| && s.conns[c].phase.Working? && s.conns[c].phase.todo != []
    requires s.conns[c].phase.todo[0] == Wake(id) && id in s.clients
    ensures
      var p := s.conns[c].phase;
      var s' := SetPhase(SetConn(s, c, Working(p.todo[1..], p.alive)).(place := s.place - {id}), id, Woken);
      PlacesOk(s') && IdsOk(s') && ShapeOk(cfg, s')
  {
    var p := s.conns[c].phase;
    var rest := Working(p.todo[1..], p.alive);
    var mid := SetConn(s, c, rest).(place := s.place - {id});
    ConnFacts(cfg, s, c);
    HeldHere(s, c);
    assert Held(p)[0] == id;
    TailPlaces(s, c);
    SamePlaces(mid, SetPhase(mid, id, Woken));
  }

  lemma TailPlaces(s: Pipe, c: nat)
    requires PlacesOk(s) && c < |s.conns| && s.conns[c].phase.Working? && s.conns[c].phase.todo != []
    ensures
      var p := s.conns[c].phase;
      PlacesOk(SetConn(s, c, Working(p.todo[1..], p.alive)).(place := s.place - {p.todo[0].id}))
  {
    var p := s.conns[c].phase;
    assert AllAt(s.place, Held(p), Hand(c));
    TailHeld(p.todo);
    Release(s, c, Working(p.todo[1..], p.alive), {p.todo[0].id});
  }

  lemma TailHeld(todo: seq<Todo>)
    requires todo != [] && Distinct(TodoIds(todo))
    ensures Distinct(TodoIds(todo[1..])) && todo[0].id in TodoIds(todo)
    ensures forall id :: id in TodoIds(todo[1..]) <==> id in TodoIds(todo) && id != todo[0].id
  {
    var ids := TodoIds(todo);
    assert TodoIds(todo[1..]) == ids[1..] && ids[0] == todo[0].id;
    assert ids == [ids[0]] + ids[1..];
  }

  lemma WakeUpRest(cfg: Config, s: Pipe, c: nat, id: Id)
    requires cfg.Valid() && Inv(cfg, s) && c < |s.conns| && s.conns[c].phase.Working? && s.conns[c].phase.todo != []
    requires s.conns[c].phase.todo[0] == Wake(id) && id in s.clients
    ensures
      var p := s.conns[c].phase;
      var s' := SetPhase(SetConn(s, c, Working(p.todo[1..], p.alive)).(place := s.place - {id}), id, Woken);
      TasksOk(cfg, s') && TodosOk(s')
  {
    var p := s.conns[c].phase;
    var mid := SetConn(s, c, Working(p.todo[1..], p.alive)).(place := s.place - {id});
    var s' := SetPhase(mid, id, Woken);
    ConnFacts(cfg, s, c);
    WakeUpPlaces(cfg, s, c, id);
    TailTasks(cfg, s.table, s.conns[c]);
    forall d | 0 <= d < |s'.conns| ensures ConnTasksOk(cfg, s'.table, s'.conns[d]) {
      assert ConnTasksOk(cfg, s.table, s.conns[d]);
    }
    forall d | 0 <= d < |mid.conns| ensures ConnTodosOk(mid.notifiers, mid.clients, mid.conns[d].phase) {
      assert ConnTodosOk(s.notifiers, s.clients, s.conns[d].phase);
    }
    SamePlaces(s', mid);
    TodosFrame(mid, s');
  }

  lemma WakeUpClients(cfg: Config, s: Pipe, c: nat, id: Id)
    requires cfg.Valid() && Inv(cfg, s) && c < |s.conns| && s.conns[c].phase.Working? && s.conns[c].phase.todo != []
    requires s.conns[c].phase.todo[0] == Wake(id) && ClientAt(s, id, Waiting)
    ensures
      var p := s.conns[c].phase;
      ClientsOk(cfg, SetPhase(SetConn(s, c, Working(p.todo[1..], p.alive)).(place := s.place - {id}), id, Woken))
  {
    var p := s.conns[c].phase;
    var s' := SetPhase(SetConn(s, c, Working(p.todo[1..], p.alive)).(place := s.place - {id}), id, Woken);
    ConnFacts(cfg, s, c);
    HeldHere(s, c);
    assert Held(p)[0] == id && TodoOk(s.notifiers, s.clients, p.todo[0]);
    assert ClientOk(cfg, s, id) && ItemOk(cfg, s.table[id], s.conns[c], 0);
    WakeUpOthers(cfg, s, c, id);
  }

  lemma WakeUpOthers(cfg: Config, s: Pipe, c: nat, id: Id)
    requires HandsPlaced(s) && ClientsOk(cfg, s) && c < |s.conns| && s.conns[c].phase.Working?
      && s.conns[c].phase.todo != []
    requires s.conns[c].phase.todo[0] == Wake(id) && ClientAt(s, id, Waiting) && id !in s.notifiers
    requires id in s.table && s.table[id].route in cfg.routes && s.table[id].Final(|cfg.routes[s.table[id].route]|)
    ensures
      var p := s.conns[c].phase;
      ClientsOk(cfg, SetPhase(SetConn(s, c, Working(p.todo[1..], p.alive)).(place := s.place - {id}), id, Woken))
  {
    var p := s.conns[c].phase;
    var s' := SetPhase(SetConn(s, c, Working(p.todo[1..], p.alive)).(place := s.place - {id}), id, Woken);
    forall x | x in s'.clients ensures ClientOk(cfg, s', x) {
      assert ClientOk(cfg, s, x);
      if x != id && Waking(s, x) && s.place[x].c == c {
        var i :| 0 <= i < |p.todo| && p.todo[i] == Wake(x);
        assert p.todo[1..][i - 1] == Wake(x);
      }
    }
    forall x | x in s'.place ensures Listening(s'.clients, x) {
      assert Listening(s.clients, x);
    }
  }

  lemma SendTaskKeeps(cfg: Config, s: Pipe, c: nat, id: Id)
    requires cfg.Valid() && Inv(cfg, s) && Enabled(cfg, s, Work(c)) && s.conns[c].phase.todo != []
    requires s.conns[c].phase.todo[0] == SendTask(id)
    ensures Inv(cfg, Apply(cfg, s, Work(c)))
  {
    ConnFacts(cfg, s, c);
    assert Held(s.conns[c].phase)[0] == id;
    if id in s.table {
      var t := s.table[id];
      var route := cfg.routes[t.route];
      assert TaskOk(cfg, t, s.clients, id) && ItemOk(cfg, t, s.conns[c], 0);
      SwapHeadKeeps(cfg, s, c, if t.stage >= |route| then NotifyDone(id) else Push(id, route[t.stage]));
    } else {
      DropHeadKeeps(cfg, s, c);
    }
  }

  lemma PushKeeps(cfg: Config, s: Pipe, c: nat, id: Id, w: nat)
    requires cfg.Valid() && Inv(cfg, s) && Enabled(cfg, s, Work(c)) && s.conns[c].phase.todo != []
    requires s.conns[c].phase.todo[0] == Push(id, w)
    ensures Inv(cfg, Apply(cfg, s, Work(c)))
  {
    ConnFacts(cfg, s, c);
    HeldHere(s, c);
    assert Held(s.conns[c].phase)[0] == id;
    assert id in s.place && Listening(s.clients, id);
    assert id in s.table ==> ItemOk(cfg, s.table[id], s.conns[c], 0);
    DropHeadKeeps(cfg, s, c);
    var p := s.conns[c].phase;
    var drop := SetConn(s, c, Working(p.todo[1..], p.alive)).(place := s.place - {id});
    EnqueueKeeps(cfg, drop, id, w);
  }

  lemma CleanUpKeeps(cfg: Config, s: Pipe, c: nat, id: Id)
    requires cfg.Valid() && Inv(cfg, s) && Enabled(cfg, s, Work(c)) && s.conns[c].phase.todo != []
    requires s.conns[c].phase.todo[0] == CleanUp(id)
    ensures Inv(cfg, Apply(cfg, s, Work(c)))
  {
    ConnFacts(cfg, s, c);
    assert TodoOk(s.notifiers, s.clients, s.conns[c].phase.todo[0]);
    DropHeadKeeps(cfg, s, c);
    var p := s.conns[c].phase;
    ForgetEntry(cfg, SetConn(s, c, Working(p.todo[1..], p.alive)).(place := s.place - {id}), id);
  }

  lemma ForgetEntry(cfg: Config, s: Pipe, id: Id)
    requires cfg.Valid() && Inv(cfg, s) && ReceiverClosed(s.clients, id)
    ensures Inv(cfg, s.(table := s.table - {id}))
  {
    assert id in s.clients ==> ClientOk(cfg, s, id);
    ClientStep(cfg, s, s.(table := s.table - {id}), id);
  }

  lemma WorkKeeps(cfg: Config, s: Pipe, c: nat)
    requires cfg.Valid() && Inv(cfg, s) && Enabled(cfg, s, Work(c))
    ensures Inv(cfg, Apply(cfg, s, Work(c)))
  {
    var p := s.conns[c].phase;
    ConnFacts(cfg, s, c);
    if p.todo == [] {
      ConnStep(cfg, s, c, if p.alive then Gathering([]) else Dead, {});
    } else {
      assert Held(p)[0] == p.todo[0].id;
      match p.todo[0]
      case SendTask(id) => SendTaskKeeps(cfg, s, c, id);
      case Push(id, w) => PushKeeps(cfg, s, c, id, w);
      case NotifyDone(id) =>
        if id in s.notifiers {
          TakeNotifierKeeps(cfg, s, c, id);
        } else {
          DropHeadKeeps(cfg, s, c);
        }
      case Wake(id) =>
        if ClientAt(s, id, Waiting) {
          WakeUpKeeps(cfg, s, c, id);
        } else {
          StaleWakeKeeps(cfg, s, c, id);
        }
      case CleanUp(id) => CleanUpKeeps(cfg, s, c, id);
    }
  }

  lemma StaleWakeKeeps(cfg: Config, s: Pipe, c: nat, id: Id)
    requires cfg.Valid() && Inv(cfg, s) && Enabled(cfg, s, Work(c)) && s.conns[c].phase.todo != []
    requires s.conns[c].phase.todo[0] == Wake(id) && !ClientAt(s, id, Waiting)
    ensures Inv(cfg, Apply(cfg, s, Work(c)))
  {
    ConnFacts(cfg, s, c);
    HeldHere(s, c);
    assert Held(s.conns[c].phase)[0] == id && TodoOk(s.notifiers, s.clients, s.conns[c].phase.todo[0]);
    assert id in s.place && Listening(s.clients, id);
    assert id in s.table ==> ItemOk(cfg, s.table[id], s.conns[c], 0);
    SwapHeadKeeps(cfg, s, c, CleanUp(id));
  }

  // ----- replies -----

  /** One answered task: the payload moved one worker further along its route,
      or the task failed for good. */
  lemma AnswerMoves(cfg: Config, t: Tasks.Task, clients: map<Id, Client>, id: Id, w: nat, code: TaskCode,
      payload: Bytes)
    requires cfg.Valid() && TaskOk(cfg, t, clients, id) && DueAt(cfg, t, w)
    requires code == Normal ==> cfg.work(w, StateBits(t.stage, |cfg.routes[t.route]|), t.data) == Some(payload)
    ensures
      var t' := t.Updated(code, payload);
      TaskOk(cfg, t', clients, id) && if code == Normal then t'.Fresh() else t'.Final(|cfg.routes[t'.route]|)
  {
  }

  lemma ReplyEntry(cfg: Config, s: Pipe, c: nat, code: TaskCode, payloads: seq<Bytes>, i: nat)
    requires cfg.Valid() && Inv(cfg, s) && Enabled(cfg, s, Reply(c, code, payloads))
    requires i < |payloads| && s.conns[c].phase.ids[i] in s.table
    ensures
      var id := s.conns[c].phase.ids[i];
      var t := s.table[id].Updated(code, payloads[i]);
      TaskOk(cfg, t, s.clients, id) && if code == Normal then t.Fresh() else t.Final(|cfg.routes[t.route]|)
  {
    var conn := s.conns[c];
    var id := conn.phase.ids[i];
    assert ConnTasksOk(cfg, s.table, conn) && Held(conn.phase)[i] == id;
    assert ItemOk(cfg, s.table[id], conn, i);
    AnswerMoves(cfg, s.table[id], s.clients, id, conn.worker, code, payloads[i]);
  }

  lemma ReplyEntryOk(cfg: Config, s: Pipe, c: nat, code: TaskCode, payloads: seq<Bytes>, i: nat)
    requires cfg.Valid() && Inv(cfg, s) && Enabled(cfg, s, Reply(c, code, payloads))
    requires i < |payloads| && s.conns[c].phase.ids[i] in s.table && Distinct(s.conns[c].phase.ids)
    ensures
      var id := s.conns[c].phase.ids[i];
      var table := UpdateAll(s.table, code, s.conns[c].phase.ids, payloads);
      id in table && TaskOk(cfg, table[id], s.clients, id)
  {
    ReplyEntry(cfg, s, c, code, payloads, i);
    UpdatedAt(s.table, code, s.conns[c].phase.ids, payloads, i);
  }

  lemma ReplyEntries(cfg: Config, s: Pipe, c: nat, code: TaskCode, payloads: seq<Bytes>)
    requires cfg.Valid() && Inv(cfg, s) && Enabled(cfg, s, Reply(c, code, payloads))
    ensures EntriesOk(cfg, DoReply(s, c, code, payloads))
  {
    var ids := s.conns[c].phase.ids;
    var table := UpdateAll(s.table, code, ids, payloads);
    ConnFacts(cfg, s, c);
    UpdateAllFrame(s.table, code, ids, payloads);
    forall id | id in table ensures TaskOk(cfg, table[id], s.clients, id) {
      if id in ids {
        var i :| 0 <= i < |ids| && ids[i] == id;
        ReplyEntryOk(cfg, s, c, code, payloads, i);
      } else {
        assert TaskOk(cfg, s.table[id], s.clients, id);
      }
    }
  }

  /** Ids elsewhere are not in the answered batch. */
  lemma ReplyElsewhere(cfg: Config, s: Pipe, c: nat, table: Table)
    requires cfg.Valid() && PlacesOk(s) && TasksOk(cfg, s) && c < |s.conns|
    requires table.Keys == s.table.Keys
    requires forall id :: id in table && id !in Held(s.conns[c].phase) ==> table[id] == s.table[id]
    ensures forall w :: 0 <= w < |s.queues| ==> QueueTasksOk(cfg, table, s.queues[w], w)
    ensures forall d :: 0 <= d < |s.conns| && d != c ==> ConnTasksOk(cfg, table, s.conns[d])
  {
    HeldHere(s, c);
    forall w | 0 <= w < |s.queues| ensures QueueTasksOk(cfg, table, s.queues[w], w) {
      assert QueueTasksOk(cfg, s.table, s.queues[w], w);
      QueuedHere(s, w);
    }
    forall d | 0 <= d < |s.conns| && d != c ensures ConnTasksOk(cfg, table, s.conns[d]) {
      assert ConnTasksOk(cfg, s.table, s.conns[d]);
      HeldHere(s, d);
    }
  }

  /** The batch after an answer: still live or final, as the code says. */
  lemma AnsweredBatch(cfg: Config, s: Pipe, c: nat, code: TaskCode, payloads: seq<Bytes>)
    requires cfg.Valid() && Inv(cfg, s) && Enabled(cfg, s, Reply(c, code, payloads))
    ensures
      var ids := s.conns[c].phase.ids;
      var table := UpdateAll(s.table, code, ids, payloads);
      forall i :: 0 <= i < |ids| && ids[i] in table ==> AnsweredOk(cfg, table[ids[i]], code)
  {
    var ids := s.conns[c].phase.ids;
    var table := UpdateAll(s.table, code, ids, payloads);
    ConnFacts(cfg, s, c);
    UpdateAllFrame(s.table, code, ids, payloads);
    forall i | 0 <= i < |ids| && ids[i] in table ensures AnsweredOk(cfg, table[ids[i]], code) {
      ReplyEntry(cfg, s, c, code, payloads, i);
    }
  }

  ghost predicate AnsweredOk(cfg: Config, t: Tasks.Task, code: TaskCode) {
    t.route in cfg.routes && if code == Normal then t.Fresh() else t.Final(|cfg.routes[t.route]|)
  }

  lemma AnsweredItems(cfg: Config, table: Table, table': Table, worker: nat, ids: seq<Id>, code: TaskCode)
    requires table'.Keys == table.Keys
    requires forall i :: 0 <= i < |ids| && ids[i] in table' ==> AnsweredOk(cfg, table'[ids[i]], code)
    ensures ConnTasksOk(cfg, table', Conn(worker, Working(ReplyTodo(table, ids, code), true)))
  {
    var kept := Present(table, ids);
    forall j | 0 <= j < |kept| ensures kept[j] in ids {
    }
  }

  lemma ReplyHeld(table: Table, ids: seq<Id>, code: TaskCode)
    requires Distinct(ids)
    ensures
      var now := TodoIds(ReplyTodo(table, ids, code));
      Distinct(now) && |now| <= |ids| && forall id :: id in now ==> id in ids
  {
    PresentDistinct(table, ids);
  }

  lemma ReplyPlaces(s: Pipe, c: nat, code: TaskCode, payloads: seq<Bytes>)
    requires PlacesOk(s) && c < |s.conns| && s.conns[c].phase.Sent? && |payloads| == |s.conns[c].phase.ids|
    ensures PlacesOk(DoReply(s, c, code, payloads))
  {
    var ids := s.conns[c].phase.ids;
    var todo := ReplyTodo(s.table, ids, code);
    assert AllAt(s.place, Held(s.conns[c].phase), Hand(c));
    ReplyHeld(s.table, ids, code);
    var gone := Elements(ids) - Elements(TodoIds(todo));
    Release(s, c, Working(todo, true), gone);
    SamePlaces(SetConn(s, c, Working(todo, true)).(place := s.place - gone), DoReply(s, c, code, payloads));
  }

  lemma ReplyClient(cfg: Config, s: Pipe, c: nat, code: TaskCode, payloads: seq<Bytes>, x: Id)
    requires cfg.Valid() && Inv(cfg, s) && Enabled(cfg, s, Reply(c, code, payloads)) && x in s.clients
    ensures ClientOk(cfg, DoReply(s, c, code, payloads), x)
  {
    var s' := DoReply(s, c, code, payloads);
    var ids := s.conns[c].phase.ids;
    ConnFacts(cfg, s, c);
    HeldHere(s, c);
    UpdateAllFrame(s.table, code, ids, payloads);
    assert ClientOk(cfg, s, x);
    assert Waking(s, x) ==> s.place[x].c != c && x !in ids && Waking(s', x);
  }

  lemma ReplyClients(cfg: Config, s: Pipe, c: nat, code: TaskCode, payloads: seq<Bytes>)
    requires cfg.Valid() && Inv(cfg, s) && Enabled(cfg, s, Reply(c, code, payloads))
    ensures ClientsOk(cfg, DoReply(s, c, code, payloads))
  {
    var s' := DoReply(s, c, code, payloads);
    forall x | x in s'.clients ensures ClientOk(cfg, s', x) {
      ReplyClient(cfg, s, c, code, payloads, x);
    }
    forall x | x in s'.place ensures Listening(s'.clients, x) {
      assert Listening(s.clients, x);
    }
  }

  lemma ReplyKeeps(cfg: Config, s: Pipe, c: nat, code: TaskCode, payloads: seq<Bytes>)
    requires cfg.Valid() && Inv(cfg, s) && Enabled(cfg, s, Reply(c, code, payloads))
    ensures Inv(cfg, Apply(cfg, s, Reply(c, code, payloads)))
  {
    ReplyEntries(cfg, s, c, code, payloads);
    ReplyDue(cfg, s, c, code, payloads);
    ReplyPlaces(s, c, code, payloads);
    ReplyClients(cfg, s, c, code, payloads);
    ReplyRest(cfg, s, c, code, payloads);
  }

  lemma ReplyDue(cfg: Config, s: Pipe, c: nat, code: TaskCode, payloads: seq<Bytes>)
    requires cfg.Valid() && Inv(cfg, s) && Enabled(cfg, s, Reply(c, code, payloads))
    ensures
      var s' := DoReply(s, c, code, payloads);
      QueuesDue(cfg, s') && HandsDue(cfg, s')
  {
    var ids := s.conns[c].phase.ids;
    var table := UpdateAll(s.table, code, ids, payloads);
    ConnFacts(cfg, s, c);
    UpdateAllFrame(s.table, code, ids, payloads);
    ReplyElsewhere(cfg, s, c, table);
    AnsweredBatch(cfg, s, c, code, payloads);
    AnsweredItems(cfg, s.table, table, s.conns[c].worker, ids, code);
  }

  lemma ReplyRest(cfg: Config, s: Pipe, c: nat, code: TaskCode, payloads: seq<Bytes>)
    requires cfg.Valid() && Inv(cfg, s) && Enabled(cfg, s, Reply(c, code, payloads))
    ensures
      var s' := DoReply(s, c, code, payloads);
      IdsOk(s') && ShapeOk(cfg, s') && TodosOk(s')
  {
    ConnFacts(cfg, s, c);
    ReplyIds(s, c, code, payloads);
    ReplyShape(cfg, s, c, code, payloads);
    ReplyTodos(s, c, code, payloads);
  }

  lemma ReplyIds(s: Pipe, c: nat, code: TaskCode, payloads: seq<Bytes>)
    requires IdsOk(s) && c < |s.conns| && s.conns[c].phase.Sent? && |payloads| == |s.conns[c].phase.ids|
    requires Distinct(s.conns[c].phase.ids)
    ensures IdsOk(DoReply(s, c, code, payloads))
  {
    UpdateAllFrame(s.table, code, s.conns[c].phase.ids, payloads);
    assert Mentioned(DoReply(s, c, code, payloads)) <= Mentioned(s);
  }

  lemma ReplyShape(cfg: Config, s: Pipe, c: nat, code: TaskCode, payloads: seq<Bytes>)
    requires ShapeOk(cfg, s) && c < |s.conns| && s.conns[c].phase.Sent? && |payloads| == |s.conns[c].phase.ids|
    requires Distinct(s.conns[c].phase.ids)
    ensures ShapeOk(cfg, DoReply(s, c, code, payloads))
  {
    assert ConnOk(cfg, |s.queues|, s.conns[c]);
    ReplyHeld(s.table, s.conns[c].phase.ids, code);
  }

  lemma ReplyTodos(s: Pipe, c: nat, code: TaskCode, payloads: seq<Bytes>)
    requires TodosOk(s) && c < |s.conns| && s.conns[c].phase.Sent? && |payloads| == |s.conns[c].phase.ids|
    ensures TodosOk(DoReply(s, c, code, payloads))
  {
    var s' := DoReply(s, c, code, payloads);
    forall d | 0 <= d < |s'.conns| ensures ConnTodosOk(s'.notifiers, s'.clients, s'.conns[d].phase) {
      assert ConnTodosOk(s.notifiers, s.clients, s.conns[d].phase);
    }
  }

  // ----- all steps, all runs -----

  lemma StepKeeps(cfg: Config, s: Pipe, e: Event)
    requires cfg.Valid() && Inv(cfg, s) && Enabled(cfg, s, e)
    ensures Inv(cfg, Apply(cfg, s, e))
  {
    match e
    case Issue(route, input, stream) => IssueKeeps(cfg, s, route, input, stream);
    case ListNotifier(id) => ListNotifierKeeps(cfg, s, id);
    case StoreTask(id) => StoreTaskKeeps(cfg, s, id);
    case TryEnqueue(id) => TryEnqueueKeeps(cfg, s, id);
    case TimeOut(id) => TimeOutKeeps(cfg, s, id);
    case Cancel(id) => CancelKeeps(cfg, s, id);
    case Finish(id) => FinishKeeps(cfg, s, id);
    case DropNotifier(id) => DropNotifierKeeps(cfg, s, id);
    case DropTask(id) => DropTaskKeeps(cfg, s, id);
    case Collect(id) => CollectKeeps(cfg, s, id);
    case Accept(worker) => AcceptKeeps(cfg, s, worker);
    case Receive(c) => ReceiveKeeps(cfg, s, c);
    case CloseBatch(c) => CloseBatchKeeps(cfg, s, c);
    case Filter(c) => FilterKeeps(cfg, s, c);
    case SendOk(c) => SendOkKeeps(cfg, s, c);
    case SendFail(c) => SendFailKeeps(cfg, s, c);
    case ReadFail(c) => ReadFailKeeps(cfg, s, c);
    case Reply(c, code, payloads) => ReplyKeeps(cfg, s, c, code, payloads);
    case Work(c) => WorkKeeps(cfg, s, c);
  }

  /** The invariant holds in every reachable state. */
  lemma {:induction false} RunKeeps(cfg: Config, s: Pipe, events: seq<Event>, t: Pipe)
    requires cfg.Valid() && Inv(cfg, s) && Reaches(cfg, s, events, t)
    ensures Inv(cfg, t)
    decreases |events|
  {
    if events != [] {
      StepKeeps(cfg, s, events[0]);
      RunKeeps(cfg, Apply(cfg, s, events[0]), events[1..], t);
    }
  }
}