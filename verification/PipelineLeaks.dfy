/** Entries that nobody will ever remove: a client that goes away leaves its entry to the
    pipeline, and a failed read gives the entry up. */
module PipelineLeaks {
  import opened Basics
  import opened Tasks
  import opened Pipeline
  import opened PipelineInvariant
  import opened PipelineSteps
  import opened PipelineTheorems
  import opened PipelineProgress

  // ----- what a client that went away leaves behind -----

  /** A connection has taken the notifier and is about to signal, or has found the
      receiver closed. */
  ghost predicate TakenAt(p: Phase, id: Id) {
    p.Working? && (Wake(id) in p.todo || CleanUp(id) in p.todo)
  }

  ghost predicate Taken(s: Pipe, id: Id) {
    && id in s.place && s.place[id].Hand? && s.place[id].c < |s.conns|
    && TakenAt(s.conns[s.place[id].c].phase, id)
  }

  /** The entry of a client that went away still has its notifier, or a connection is
      about to remove it. */
  ghost predicate Notifiable(s: Pipe, id: Id) {
    ClientAt(s, id, Cancelled) && id in s.table ==> id in s.notifiers || Taken(s, id)
  }

  lemma CancelKeepsNotifiable(cfg: Config, s: Pipe, id: Id)
    requires cfg.Valid() && Inv(cfg, s) && Enabled(cfg, s, Cancel(id))
    ensures Notifiable(Apply(cfg, s, Cancel(id)), id)
  {
    ClientFacts(cfg, s, id);
  }

  lemma ClientKeepsNotifiable(cfg: Config, s: Pipe, e: Event, id: Id)
    requires Enabled(cfg, s, e) && !OfConn(e) && e != Cancel(id) && Notifiable(s, id)
    ensures Notifiable(Apply(cfg, s, e), id)
  {
  }

  /** Another connection keeps what it has in hand. */
  lemma TakenStays(cfg: Config, s: Pipe, e: Event, id: Id)
    requires Enabled(cfg, s, e) && OfConn(e) && !e.Work? && QueuesPlaced(s) && HandsPlaced(s) && Taken(s, id)
    ensures Taken(Apply(cfg, s, e), id)
  {
    var c := s.place[id].c;
    if !e.Accept? {
      HeldHere(s, e.c);
      assert e.c != c;
      if e.Receive? {
        QueuedHere(s, s.conns[e.c].worker);
      }
    }
    MoveIsLocal(cfg, s, e, c);
    PlaceStays(cfg, s, e, id);
  }

  lemma PlaceStays(cfg: Config, s: Pipe, e: Event, id: Id)
    requires Enabled(cfg, s, e) && OfConn(e) && !e.Work? && id in s.place
    requires !e.Accept? ==> id !in Held(s.conns[e.c].phase)
    requires e.Receive? ==> id != s.queues[s.conns[e.c].worker][0]
    ensures id in Apply(cfg, s, e).place && Apply(cfg, s, e).place[id] == s.place[id]
  {
  }

  lemma MoveKeepsNotifiable(cfg: Config, s: Pipe, e: Event, id: Id)
    requires Enabled(cfg, s, e) && OfConn(e) && !e.Work? && Notifiable(s, id)
    requires QueuesPlaced(s) && HandsPlaced(s)
    ensures Notifiable(Apply(cfg, s, e), id)
  {
    MoveKeepsMaps(cfg, s, e, id);
    if Taken(s, id) {
      TakenStays(cfg, s, e, id);
    }
  }

  lemma MoveKeepsMaps(cfg: Config, s: Pipe, e: Event, id: Id)
    requires Enabled(cfg, s, e) && OfConn(e) && !e.Work? && HandsPlaced(s)
    ensures var t := Apply(cfg, s, e);
      t.clients == s.clients && t.notifiers == s.notifiers && (id in t.table <==> id in s.table)
  {
    if e.Reply? {
      assert AllAt(s.place, Held(s.conns[e.c].phase), Hand(e.c));
      UpdateAllFrame(s.table, e.code, s.conns[e.c].phase.ids, e.payloads);
    }
  }

  /** The rest of a work list stays in hand. */
  lemma HeadKeepsRest(cfg: Config, s: Pipe, c: nat, todo: Todo, rest: seq<Todo>, alive: bool, x: Todo)
    requires c < |s.conns| && HeadEnabled(cfg, s, todo) && x in rest
    ensures var p := DoHead(cfg, s, c, todo, rest, alive).conns[c].phase;
      p.Working? && x in p.todo
  {
  }

  lemma HeadKeepsOthers(cfg: Config, s: Pipe, c: nat, todo: Todo, rest: seq<Todo>, alive: bool, id: Id)
    requires c < |s.conns| && s.conns[c].phase == Working([todo] + rest, alive) && HeadEnabled(cfg, s, todo)
    requires id != todo.id && Notifiable(s, id)
    ensures Notifiable(DoHead(cfg, s, c, todo, rest, alive), id)
  {
    if Wake(id) in rest {
      HeadKeepsRest(cfg, s, c, todo, rest, alive, Wake(id));
    } else if CleanUp(id) in rest {
      HeadKeepsRest(cfg, s, c, todo, rest, alive, CleanUp(id));
    }
  }

  lemma HeadKeepsOwn(cfg: Config, s: Pipe, c: nat, todo: Todo, rest: seq<Todo>, alive: bool)
    requires c < |s.conns| && s.conns[c].phase == Working([todo] + rest, alive) && HeadEnabled(cfg, s, todo)
    requires todo.id in s.place && s.place[todo.id] == Hand(c) && Notifiable(s, todo.id)
    requires Taken(s, todo.id) ==> todo.Wake? || todo.CleanUp?
    ensures Notifiable(DoHead(cfg, s, c, todo, rest, alive), todo.id)
  {
    var phase := DoHead(cfg, s, c, todo, rest, alive).conns[c].phase;
    if phase.todo != [] {
      assert phase.todo[0] in phase.todo;
    }
  }

  /** An id is on a work list once. */
  lemma OnceInHand(s: Pipe, c: nat, todo: Todo, rest: seq<Todo>, alive: bool)
    requires HandsPlaced(s) && c < |s.conns| && s.conns[c].phase == Working([todo] + rest, alive)
    ensures todo.id in s.place && s.place[todo.id] == Hand(c)
    ensures Taken(s, todo.id) ==> todo.Wake? || todo.CleanUp?
  {
    var ids := Held(s.conns[c].phase);
    assert AllAt(s.place, ids, Hand(c)) && ids[0] == todo.id;
    forall i | 0 <= i < |rest| ensures rest[i].id != todo.id {
      assert ids[i + 1] == rest[i].id;
    }
  }

  lemma HeadKeepsNotifiable(cfg: Config, s: Pipe, c: nat, todo: Todo, rest: seq<Todo>, alive: bool, id: Id)
    requires c < |s.conns| && s.conns[c].phase == Working([todo] + rest, alive) && HeadEnabled(cfg, s, todo)
    requires HandsPlaced(s) && Notifiable(s, id)
    ensures Notifiable(DoHead(cfg, s, c, todo, rest, alive), id)
  {
    if id == todo.id {
      OnceInHand(s, c, todo, rest, alive);
      HeadKeepsOwn(cfg, s, c, todo, rest, alive);
    } else {
      HeadKeepsOthers(cfg, s, c, todo, rest, alive, id);
    }
  }

  lemma NotifiableKept(cfg: Config, s: Pipe, e: Event, id: Id)
    requires cfg.Valid() && Inv(cfg, s) && Enabled(cfg, s, e) && Notifiable(s, id)
    ensures Notifiable(Apply(cfg, s, e), id)
  {
    if e.Work? {
      var p := s.conns[e.c].phase;
      if p.todo != [] {
        assert p.todo == [p.todo[0]] + p.todo[1..];
        HeadKeepsNotifiable(cfg, s, e.c, p.todo[0], p.todo[1..], p.alive, id);
      }
    } else if OfConn(e) {
      MoveKeepsNotifiable(cfg, s, e, id);
    } else if e == Cancel(id) {
      CancelKeepsNotifiable(cfg, s, id);
    } else {
      ClientKeepsNotifiable(cfg, s, e, id);
    }
  }

  lemma {:induction false} NotifiableAlong(cfg: Config, s: Pipe, events: seq<Event>, t: Pipe, id: Id)
    requires cfg.Valid() && Inv(cfg, s) && Reaches(cfg, s, events, t) && Notifiable(s, id)
    ensures Notifiable(t, id)
    decreases |events|
  {
    if events != [] {
      NotifiableKept(cfg, s, events[0], id);
      StepKeeps(cfg, s, events[0]);
      NotifiableAlong(cfg, Apply(cfg, s, events[0]), events[1..], t, id);
    }
  }

  // ----- which step leaves an entry behind -----

  /** An entry without a client, in no queue and no hand. */
  ghost predicate Left(s: Pipe, id: Id) {
    ClientAt(s, id, Cancelled) && id in s.table && id !in s.place
  }

  /** A read fails on a connection whose batch has the entry of a client that went away,
      or a client that is lost already goes away. */
  ghost predicate Leaves(s: Pipe, e: Event, id: Id) {
    || (e == Cancel(id) && Lost(s, id))
    || (e.ReadFail? && e.c < |s.conns| && s.conns[e.c].phase.Sent? && id in s.conns[e.c].phase.ids
        && ClientAt(s, id, Cancelled) && id in s.table)
  }

  lemma HeadLeavesNothing(cfg: Config, s: Pipe, c: nat, todo: Todo, rest: seq<Todo>, alive: bool, id: Id)
    requires c < |s.conns| && HeadEnabled(cfg, s, todo) && todo.id in s.place
    requires ClientAt(s, todo.id, Cancelled) && todo.id in s.table && todo.NotifyDone? ==> todo.id in s.notifiers
    ensures Left(DoHead(cfg, s, c, todo, rest, alive), id) <==> Left(s, id)
  {
  }

  lemma WorkLeavesNothing(cfg: Config, s: Pipe, c: nat, id: Id)
    requires cfg.Valid() && Inv(cfg, s) && Enabled(cfg, s, Work(c)) && Notifiable(s, id)
    ensures Left(DoWork(cfg, s, c), id) <==> Left(s, id)
  {
    var p := s.conns[c].phase;
    if p.todo != [] {
      var x := p.todo[0].id;
      assert p.todo == [p.todo[0]] + p.todo[1..];
      OnceInHand(s, c, p.todo[0], p.todo[1..], p.alive);
      if x == id {
        HeadLeavesNothing(cfg, s, c, p.todo[0], p.todo[1..], p.alive, id);
      } else {
        HeadElsewhere(cfg, s, c, p.todo[0], p.todo[1..], p.alive, id);
      }
    }
  }

  lemma HeadElsewhere(cfg: Config, s: Pipe, c: nat, todo: Todo, rest: seq<Todo>, alive: bool, id: Id)
    requires c < |s.conns| && HeadEnabled(cfg, s, todo) && id != todo.id
    ensures Left(DoHead(cfg, s, c, todo, rest, alive), id) <==> Left(s, id)
  {
  }

  lemma ReplyLeavesNothing(cfg: Config, s: Pipe, c: nat, code: TaskCode, payloads: seq<Bytes>, id: Id)
    requires Enabled(cfg, s, Reply(c, code, payloads)) && HandsPlaced(s)
    ensures Left(DoReply(s, c, code, payloads), id) <==> Left(s, id)
  {
    var ids := s.conns[c].phase.ids;
    assert AllAt(s.place, Held(s.conns[c].phase), Hand(c));
    UpdateAllFrame(s.table, code, ids, payloads);
    if id in ids {
      assert id in TodoIds(ReplyTodo(s.table, ids, code)) <==> code == Normal || id in s.table;
    }
  }

  lemma MoveLeavesNothing(cfg: Config, s: Pipe, e: Event, id: Id)
    requires Enabled(cfg, s, e) && OfConn(e) && !e.Work? && !e.ReadFail? && QueuesPlaced(s) && HandsPlaced(s)
    ensures Left(Apply(cfg, s, e), id) <==> Left(s, id)
  {
    match e
    case Reply(c, code, payloads) => ReplyLeavesNothing(cfg, s, c, code, payloads, id);
    case Receive(c) => QueuesFacts(s, s.conns[c].worker);
    case Filter(c) => HeldHere(s, c);
    case _ =>
  }

  lemma ReadFailLeaves(cfg: Config, s: Pipe, c: nat, id: Id)
    requires Enabled(cfg, s, ReadFail(c))
    ensures Left(Apply(cfg, s, ReadFail(c)), id) <==> Left(s, id) || Leaves(s, ReadFail(c), id)
  {
    assert id in Elements(s.conns[c].phase.ids) <==> id in s.conns[c].phase.ids;
  }

  lemma IssueLeavesNothing(cfg: Config, s: Pipe, e: Event, id: Id)
    requires Enabled(cfg, s, e) && e.Issue? && IdsOk(s)
    ensures Left(Apply(cfg, s, e), id) <==> Left(s, id)
  {
    FreshId(s);
    assert id in s.table ==> id in Mentioned(s);
  }

  lemma CancelLeaves(cfg: Config, s: Pipe, id: Id)
    requires cfg.Valid() && Inv(cfg, s) && Enabled(cfg, s, Cancel(id))
    ensures Left(Apply(cfg, s, Cancel(id)), id) <==> Lost(s, id)
    ensures !Left(s, id)
  {
    ClientFacts(cfg, s, id);
  }

  lemma ClientLeavesNothing(cfg: Config, s: Pipe, e: Event, id: Id)
    requires Enabled(cfg, s, e) && !OfConn(e) && !e.Issue? && e != Cancel(id)
    ensures Left(Apply(cfg, s, e), id) <==> Left(s, id)
  {
  }

  lemma ClientLeaves(cfg: Config, s: Pipe, e: Event, id: Id)
    requires cfg.Valid() && Inv(cfg, s) && Enabled(cfg, s, e) && !OfConn(e)
    ensures Left(Apply(cfg, s, e), id) <==> Left(s, id) || Leaves(s, e, id)
  {
    if e.Issue? {
      IssueLeavesNothing(cfg, s, e, id);
    } else if e == Cancel(id) {
      CancelLeaves(cfg, s, id);
    } else {
      ClientLeavesNothing(cfg, s, e, id);
    }
  }

  /** An entry is left behind for good, and by no other step. */
  lemma LeavesExactly(cfg: Config, s: Pipe, e: Event, id: Id)
    requires cfg.Valid() && Inv(cfg, s) && Enabled(cfg, s, e) && Notifiable(s, id)
    ensures Left(Apply(cfg, s, e), id) <==> Left(s, id) || Leaves(s, e, id)
  {
    if e.ReadFail? {
      ReadFailLeaves(cfg, s, e.c, id);
    } else if e.Work? {
      WorkLeavesNothing(cfg, s, e.c, id);
    } else if OfConn(e) {
      MoveLeavesNothing(cfg, s, e, id);
    } else {
      ClientLeaves(cfg, s, e, id);
    }
  }

  // ----- along runs -----

  /** The `k`-th event of the run leaves the entry behind. */
  ghost predicate LeftAt(cfg: Config, s: Pipe, events: seq<Event>, id: Id, k: nat, u: Pipe) {
    k < |events| && Reaches(cfg, s, events[..k], u) && Leaves(u, events[k], id)
  }

  ghost predicate LeftInRun(cfg: Config, s: Pipe, events: seq<Event>, id: Id) {
    exists k: nat, u :: LeftAt(cfg, s, events, id, k, u)
  }

  lemma LeftLater(cfg: Config, s: Pipe, events: seq<Event>, id: Id, k: nat, u: Pipe)
    requires events != [] && Enabled(cfg, s, events[0])
    requires LeftAt(cfg, Apply(cfg, s, events[0]), events[1..], id, k, u)
    ensures LeftAt(cfg, s, events, id, k + 1, u)
  {
    var before := events[..k + 1];
    assert before[0] == events[0] && before[1..] == events[1..][..k];
  }

  lemma {:induction false} WhereLeft(cfg: Config, s: Pipe, events: seq<Event>, t: Pipe, id: Id)
    returns (during: bool, k: nat, u: Pipe)
    requires cfg.Valid() && Inv(cfg, s) && Notifiable(s, id) && Reaches(cfg, s, events, t) && Left(t, id)
    ensures if during then LeftAt(cfg, s, events, id, k, u) else Left(s, id)
    decreases |events|
  {
    during, k, u := false, 0, s;
    if events != [] {
      var m := Apply(cfg, s, events[0]);
      StepKeeps(cfg, s, events[0]);
      NotifiableKept(cfg, s, events[0], id);
      during, k, u := WhereLeft(cfg, m, events[1..], t, id);
      if during {
        LeftLater(cfg, s, events, id, k, u);
        k := k + 1;
      } else {
        LeavesExactly(cfg, s, events[0], id);
        assert events[..0] == [];
        during, k, u := !Left(s, id), 0, s;
      }
    }
  }

  lemma {:induction false} StaysLeft(cfg: Config, s: Pipe, events: seq<Event>, t: Pipe, id: Id)
    requires cfg.Valid() && Inv(cfg, s) && Notifiable(s, id) && Reaches(cfg, s, events, t) && Left(s, id)
    ensures Left(t, id)
    decreases |events|
  {
    if events != [] {
      LeavesExactly(cfg, s, events[0], id);
      StepKeeps(cfg, s, events[0]);
      NotifiableKept(cfg, s, events[0], id);
      StaysLeft(cfg, Apply(cfg, s, events[0]), events[1..], t, id);
    }
  }

  lemma LeftSince(cfg: Config, s: Pipe, events: seq<Event>, t: Pipe, id: Id, k: nat, u: Pipe)
    requires cfg.Valid() && Inv(cfg, s) && Notifiable(s, id) && Reaches(cfg, s, events, t)
    requires LeftAt(cfg, s, events, id, k, u)
    ensures Left(t, id)
  {
    RunKeeps(cfg, s, events[..k], u);
    NotifiableAlong(cfg, s, events[..k], u, id);
    ReachesFrom(cfg, s, events, t, k, u);
    assert events[k..][0] == events[k] && events[k..][1..] == events[k + 1..];
    StepKeeps(cfg, u, events[k]);
    NotifiableKept(cfg, u, events[k], id);
    LeavesExactly(cfg, u, events[k], id);
    StaysLeft(cfg, Apply(cfg, u, events[k]), events[k + 1..], t, id);
  }

  /** Along every run an entry stands without a client, in no queue and no hand, if and
      only if a read failed on a connection that had it in its batch after its client
      went away, or its client went away after such a read had lost it. Then it
      stands for ever, and so does its notifier. */
  lemma LeaksExactly(cfg: Config, events: seq<Event>, t: Pipe, id: Id)
    requires cfg.Valid() && Reaches(cfg, Init(cfg), events, t)
    ensures Left(t, id) <==> LeftInRun(cfg, Init(cfg), events, id)
    ensures Left(t, id) ==> id in t.notifiers
  {
    InitInv(cfg);
    NotifiableAlong(cfg, Init(cfg), events, t, id);
    if Left(t, id) {
      var during, k, u := WhereLeft(cfg, Init(cfg), events, t, id);
    }
    if LeftInRun(cfg, Init(cfg), events, id) {
      var k: nat, u :| LeftAt(cfg, Init(cfg), events, id, k, u);
      LeftSince(cfg, Init(cfg), events, t, id, k, u);
    }
  }

  /** Where the server has drained, the entries of clients that went away are gone, but
      for exactly those. */
  lemma DrainedLeaks(cfg: Config, rank: seq<nat>, before: seq<Event>, s: Pipe, events: seq<Event>, t: Pipe, id: Id)
    requires cfg.Valid() && Acyclic(cfg, rank)
    requires Reaches(cfg, Init(cfg), before, s) && Reaches(cfg, s, events, t) && NoSubmission(events)
    requires AtRest(cfg, t) && (ServedThrough(s, events) || AllServed(t))
    ensures ClientAt(t, id, Cancelled) && id in t.table <==> LeftInRun(cfg, Init(cfg), before + events, id)
  {
    Drains(cfg, rank, before, s, events, t);
    ReachesBoth(cfg, Init(cfg), before, s, events, t);
    LeaksExactly(cfg, before + events, t, id);
  }

  /** It does happen: in every configuration one request, a failed read and a client that
      goes away are enough. */
  lemma LeakHappens(cfg: Config, route: string, input: Bytes) returns (events: seq<Event>, s: Pipe)
    requires cfg.Valid() && route in cfg.routes
    ensures Reaches(cfg, Init(cfg), events, s) && Left(s, 0) && 0 in s.notifiers
  {
    var sent;
    events, sent := SendOne(cfg, route, input);
    events, s := ReachesThen(cfg, Init(cfg), events, sent, ReadFail(0));
    events, s := ReachesThen(cfg, Init(cfg), events, s, Cancel(0));
    assert 0 in Elements(sent.conns[0].phase.ids);
  }
}
