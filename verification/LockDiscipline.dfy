/** The four locks of the task manager: which operation takes which, in what
    order, and why waiting for one of them can never go round in a circle. */
module LockDiscipline {
  datatype Lock = CurrentId | Notifiers | Table | StreamSenders

  /** `Elsewhere` is work without a lock that may wait: a channel or a timer. */
  datatype Op = Acquire(lock: Lock) | Release(lock: Lock) | Elsewhere

  /** What a thread holds, and all that it has done. A lock is acquired, and a
      channel or timer is turned to, only by a thread that holds none. */
  datatype Course = Course(held: set<Lock>, ops: seq<Op>) {

    function Acquire(lock: Lock): Course
      requires held == {}
    {
      Course({lock}, ops + [Op.Acquire(lock)])
    }

    function Release(lock: Lock): Course
      requires held == {lock}
    {
      Course({}, ops + [Op.Release(lock)])
    }

    function Leave(): Course
      requires held == {}
    {
      Course({}, ops + [Elsewhere])
    }

    function Then(more: seq<Op>): Course {
      Course(held, ops + more)
    }
  }

  // ----- the operations, as sequences of lock operations for each outcome -----

  function Critical(lock: Lock): seq<Op> {
    [Acquire(lock), Release(lock)]
  }

  function DeleteTask(hasStream: bool): seq<Op> {
    Critical(Notifiers) + Critical(Table) + if hasStream then Critical(StreamSenders) else []
  }

  function ListNewTask(): seq<Op> {
    Critical(CurrentId) + Critical(Notifiers) + Critical(Table)
  }

  function AddNewTask(full: bool): seq<Op> {
    ListNewTask() + [Elsewhere] + if full then DeleteTask(false) else []
  }

  /** The wait for the notification, and what follows it. */
  function AwaitTask(expired: bool): seq<Op> {
    [Elsewhere] + if expired then DeleteTask(false) else Critical(Table)
  }

  function SubmitTask(full: bool, expired: bool): seq<Op> {
    if full then AddNewTask(true) else AddNewTask(false) + AwaitTask(expired)
  }

  function ListStream(): seq<Op> {
    Critical(StreamSenders)
  }

  function SubmitSseTask(full: bool): seq<Op> {
    if full then AddNewTask(true) else AddNewTask(false) + ListStream()
  }

  function WaitSseFinish(): seq<Op> {
    [Elsewhere] + DeleteTask(true)
  }

  function NotifyTaskDone(found: bool, closed: bool): seq<Op> {
    Critical(Notifiers) + if found && closed then Critical(Table) else []
  }

  datatype Sending = Absent | LastStage(found: bool, closed: bool) | NextStage

  function SendTask(outcome: Sending): seq<Op> {
    match outcome
    case Absent => Critical(Table)
    case LastStage(found, closed) => Critical(Table) + NotifyTaskDone(found, closed)
    case NextStage => Critical(Table) + [Elsewhere]
  }

  /** One event: looking the sender up, and sending if there is one. */
  function SendStreamEvent(found: bool): seq<Op> {
    Critical(StreamSenders) + if found then [Elsewhere] else []
  }

  function SendStreamEvents(found: seq<bool>): seq<Op> {
    if found == [] then []
    else SendStreamEvents(found[..|found| - 1]) + SendStreamEvent(found[|found| - 1])
  }

  function NotifyAll(outcomes: seq<(bool, bool)>): seq<Op> {
    if outcomes == [] then []
    else
      var (found, closed) := outcomes[|outcomes| - 1];
      NotifyAll(outcomes[..|outcomes| - 1]) + NotifyTaskDone(found, closed)
  }

  function UpdateMultiTasks(found: seq<bool>, outcomes: seq<(bool, bool)>): seq<Op> {
    Critical(Table) + SendStreamEvents(found) + NotifyAll(outcomes)
  }

  function GetMultiTasksData(): seq<Op> {
    Critical(Table)
  }

  // ----- what a thread has done, put together -----

  lemma ThenAgain(c: Course, a: seq<Op>, b: seq<Op>)
    ensures c.Then(a).Then(b) == c.Then(a + b)
  {
    assert c.ops + a + b == c.ops + (a + b);
  }

  lemma Section(c: Course, lock: Lock)
    requires c.held == {}
    ensures c.Acquire(lock).Release(lock) == c.Then(Critical(lock))
  {
    assert c.ops + [Op.Acquire(lock)] + [Op.Release(lock)] == c.ops + Critical(lock);
  }

  lemma Listing(c: Course)
    requires c.held == {}
    ensures var named := c.Acquire(CurrentId).Release(CurrentId).Acquire(Notifiers).Release(Notifiers);
      named.Acquire(Table).Release(Table) == c.Then(ListNewTask())
  {
    Section(c, CurrentId);
    Section(c.Then(Critical(CurrentId)), Notifiers);
    ThenAgain(c, Critical(CurrentId), Critical(Notifiers));
    Section(c.Then(Critical(CurrentId) + Critical(Notifiers)), Table);
    ThenAgain(c, Critical(CurrentId) + Critical(Notifiers), Critical(Table));
  }

  lemma Adding(c: Course)
    requires c.held == {}
    ensures c.Then(ListNewTask()).Leave() == c.Then(AddNewTask(false))
    ensures AddNewTask(true) == AddNewTask(false) + DeleteTask(false)
  {
    ThenAgain(c, ListNewTask(), [Elsewhere]);
  }

  lemma Replying(c: Course, found: seq<bool>, outcomes: seq<(bool, bool)>)
    ensures c.Then(Critical(Table)).Then(SendStreamEvents(found)).Then(NotifyAll(outcomes))
      == c.Then(UpdateMultiTasks(found, outcomes))
  {
    ThenAgain(c, Critical(Table), SendStreamEvents(found));
    ThenAgain(c, Critical(Table) + SendStreamEvents(found), NotifyAll(outcomes));
  }

  lemma NoEvents(c: Course)
    ensures c.Then(SendStreamEvents([])) == c
  {
    assert c.ops + [] == c.ops;
  }

  lemma OneMoreEvent(c: Course, found: seq<bool>, next: bool)
    ensures c.Then(SendStreamEvents(found)).Then(SendStreamEvent(next)) == c.Then(SendStreamEvents(found + [next]))
  {
    assert (found + [next])[..|found|] == found;
    ThenAgain(c, SendStreamEvents(found), SendStreamEvent(next));
  }

  lemma {:induction false} MoreEvents(c: Course, found: seq<bool>, more: seq<bool>)
    ensures c.Then(SendStreamEvents(found)).Then(SendStreamEvents(more)) == c.Then(SendStreamEvents(found + more))
    decreases |more|
  {
    if more == [] {
      NoEvents(c.Then(SendStreamEvents(found)));
      assert found + [] == found;
    } else {
      var n := |more| - 1;
      MoreEvents(c, found, more[..n]);
      OneMoreEvent(c.Then(SendStreamEvents(found)), more[..n], more[n]);
      OneMoreEvent(c, found + more[..n], more[n]);
      assert more[..n] + [more[n]] == more && found + more[..n] + [more[n]] == found + more;
    }
  }

  lemma NoNotices(c: Course)
    ensures c.Then(NotifyAll([])) == c
  {
    assert c.ops + [] == c.ops;
  }

  lemma OneMoreNotice(c: Course, outcomes: seq<(bool, bool)>, next: (bool, bool))
    ensures c.Then(NotifyAll(outcomes)).Then(NotifyTaskDone(next.0, next.1)) == c.Then(NotifyAll(outcomes + [next]))
  {
    assert (outcomes + [next])[..|outcomes|] == outcomes;
    ThenAgain(c, NotifyAll(outcomes), NotifyTaskDone(next.0, next.1));
  }

  /** The locks of an operation in the order they are taken: each is taken and given back
      before the next. */
  lemma LocksInOrder()
    ensures AddNewTask(false) == [
        Op.Acquire(CurrentId), Op.Release(CurrentId), Op.Acquire(Notifiers), Op.Release(Notifiers),
        Op.Acquire(Table), Op.Release(Table), Elsewhere]
    ensures AddNewTask(true) == AddNewTask(false) + DeleteTask(false)
    ensures DeleteTask(false) == [Op.Acquire(Notifiers), Op.Release(Notifiers), Op.Acquire(Table), Op.Release(Table)]
    ensures DeleteTask(true) == DeleteTask(false) + [Op.Acquire(StreamSenders), Op.Release(StreamSenders)]
    ensures NotifyTaskDone(true, true) == DeleteTask(false)
    ensures NotifyTaskDone(true, false) == [Op.Acquire(Notifiers), Op.Release(Notifiers)]
    ensures NotifyTaskDone(false, false) == [Op.Acquire(Notifiers), Op.Release(Notifiers)]
    ensures SendTask(NextStage) == [Op.Acquire(Table), Op.Release(Table), Elsewhere]
    ensures AwaitTask(false) == [Elsewhere, Op.Acquire(Table), Op.Release(Table)]
    ensures SendStreamEvent(true) == [Op.Acquire(StreamSenders), Op.Release(StreamSenders), Elsewhere]
  {
  }

  // ----- one lock at a time -----

  /** Every lock is released before anything else is done. */
  predicate Flat(ops: seq<Op>)
    decreases |ops|
  {
    ops == [] ||
    (ops[0].Elsewhere? && Flat(ops[1..])) ||
    (ops[0].Acquire? && |ops| > 1 && ops[1] == Release(ops[0].lock) && Flat(ops[2..]))
  }

  lemma {:induction false} FlatJoin(a: seq<Op>, b: seq<Op>)
    requires Flat(a) && Flat(b)
    ensures Flat(a + b)
    decreases |a|
  {
    if a == [] {
      assert a + b == b;
    } else if a[0].Elsewhere? {
      FlatJoin(a[1..], b);
      assert (a + b)[1..] == a[1..] + b;
    } else {
      FlatJoin(a[2..], b);
      assert (a + b)[2..] == a[2..] + b;
    }
  }

  lemma FlatSmall(lock: Lock)
    ensures Flat([]) && Flat(Critical(lock)) && Flat([Elsewhere])
  {
    assert Critical(lock)[2..] == [] && [Elsewhere][1..] == [];
  }

  lemma FlatDelete(hasStream: bool)
    ensures Flat(DeleteTask(hasStream))
  {
    FlatSmall(Notifiers);
    FlatSmall(Table);
    FlatSmall(StreamSenders);
    FlatJoin(Critical(Notifiers), Critical(Table));
    FlatJoin(Critical(Notifiers) + Critical(Table), if hasStream then Critical(StreamSenders) else []);
  }

  lemma FlatAdd(full: bool)
    ensures Flat(AddNewTask(full))
  {
    FlatSmall(CurrentId);
    FlatSmall(Notifiers);
    FlatSmall(Table);
    FlatDelete(false);
    FlatJoin(Critical(CurrentId), Critical(Notifiers));
    FlatJoin(Critical(CurrentId) + Critical(Notifiers), Critical(Table));
    FlatJoin(ListNewTask(), [Elsewhere]);
    FlatJoin(ListNewTask() + [Elsewhere], if full then DeleteTask(false) else []);
  }

  lemma FlatNotify(found: bool, closed: bool)
    ensures Flat(NotifyTaskDone(found, closed))
  {
    FlatSmall(Notifiers);
    FlatSmall(Table);
    FlatJoin(Critical(Notifiers), if found && closed then Critical(Table) else []);
  }

  lemma FlatEvent(found: bool)
    ensures Flat(SendStreamEvent(found))
  {
    FlatSmall(StreamSenders);
    FlatJoin(Critical(StreamSenders), if found then [Elsewhere] else []);
  }

  lemma {:induction false} FlatEvents(found: seq<bool>)
    ensures Flat(SendStreamEvents(found))
  {
    if found != [] {
      var n := |found| - 1;
      FlatEvents(found[..n]);
      FlatEvent(found[n]);
      FlatJoin(SendStreamEvents(found[..n]), SendStreamEvent(found[n]));
    }
  }

  lemma {:induction false} FlatNotifyAll(outcomes: seq<(bool, bool)>)
    ensures Flat(NotifyAll(outcomes))
  {
    if outcomes != [] {
      var n := |outcomes| - 1;
      var (found, closed) := outcomes[n];
      FlatNotifyAll(outcomes[..n]);
      FlatNotify(found, closed);
      FlatJoin(NotifyAll(outcomes[..n]), NotifyTaskDone(found, closed));
    }
  }

  lemma FlatSubmit(full: bool, expired: bool)
    ensures Flat(SubmitTask(full, expired)) && Flat(SubmitSseTask(full)) && Flat(WaitSseFinish())
  {
    FlatAdd(full);
    FlatSmall(Table);
    FlatSmall(StreamSenders);
    FlatDelete(false);
    FlatDelete(true);
    FlatJoin([Elsewhere], DeleteTask(true));
    if !full {
      FlatJoin([Elsewhere], if expired then DeleteTask(false) else Critical(Table));
      FlatJoin(AddNewTask(false), AwaitTask(expired));
      FlatJoin(AddNewTask(false), ListStream());
    }
  }

  lemma FlatReply(outcome: Sending, found: seq<bool>, outcomes: seq<(bool, bool)>)
    ensures Flat(SendTask(outcome)) && Flat(UpdateMultiTasks(found, outcomes)) && Flat(GetMultiTasksData())
  {
    FlatSmall(Table);
    FlatJoin(Critical(Table), [Elsewhere]);
    if outcome.LastStage? {
      FlatNotify(outcome.found, outcome.closed);
      FlatJoin(Critical(Table), NotifyTaskDone(outcome.found, outcome.closed));
    }
    FlatEvents(found);
    FlatNotifyAll(outcomes);
    FlatJoin(Critical(Table), SendStreamEvents(found));
    FlatJoin(Critical(Table) + SendStreamEvents(found), NotifyAll(outcomes));
  }

  // ----- any number of threads -----

  datatype Thread = Thread(todo: seq<Op>, holds: set<Lock>)

  predicate CanStep(threads: seq<Thread>, i: nat)
    requires i < |threads|
  {
    threads[i].todo != [] &&
    match threads[i].todo[0]
    case Acquire(l) => forall j :: 0 <= j < |threads| ==> l !in threads[j].holds
    case Release(l) => l in threads[i].holds
    case Elsewhere => true
  }

  function Step(threads: seq<Thread>, i: nat): seq<Thread>
    requires i < |threads| && CanStep(threads, i)
  {
    var t := threads[i];
    threads[i := Thread(t.todo[1..],
      match t.todo[0]
      case Acquire(l) => t.holds + {l}
      case Release(l) => t.holds - {l}
      case Elsewhere => t.holds)]
  }

  ghost predicate Runs(s: seq<Thread>, schedule: seq<nat>, t: seq<Thread>)
    decreases |schedule|
  {
    if schedule == [] then s == t
    else schedule[0] < |s| && CanStep(s, schedule[0]) && Runs(Step(s, schedule[0]), schedule[1..], t)
  }

  /** A thread holds nothing, or one lock that it releases next. */
  predicate OneAtATime(t: Thread) {
    if t.holds == {} then Flat(t.todo)
    else t.todo != [] && t.todo[0].Release? && t.holds == {t.todo[0].lock} && Flat(t.todo[1..])
  }

  predicate Disciplined(threads: seq<Thread>) {
    && (forall i :: 0 <= i < |threads| ==> OneAtATime(threads[i]))
    && (forall i, j :: 0 <= i < j < |threads| ==> threads[i].holds !! threads[j].holds)
  }

  lemma StepKeeps(threads: seq<Thread>, i: nat)
    requires Disciplined(threads) && i < |threads| && CanStep(threads, i)
    ensures Disciplined(Step(threads, i))
  {
    var t, u := threads[i], Step(threads, i)[i];
    assert OneAtATime(t);
    if t.todo[0].Acquire? {
      assert t.todo[1..][1..] == t.todo[2..];
      assert u.holds == {t.todo[0].lock};
    }
    assert OneAtATime(u);
  }

  lemma {:induction false} RunKeeps(s: seq<Thread>, schedule: seq<nat>, t: seq<Thread>)
    requires Disciplined(s) && Runs(s, schedule, t)
    ensures Disciplined(t)
    decreases |schedule|
  {
    if schedule != [] {
      StepKeeps(s, schedule[0]);
      RunKeeps(Step(s, schedule[0]), schedule[1..], t);
    }
  }

  /** Any number of threads, each with any flat program, in any order: no thread ever
      holds two locks, no lock has two holders, and whoever has to wait for a lock
      waits for a thread that is able to release it, never for one that waits. */
  lemma WaitingIsNeverCyclic(s: seq<Thread>, schedule: seq<nat>, t: seq<Thread>, i: nat)
    requires forall k :: 0 <= k < |s| ==> s[k].holds == {} && Flat(s[k].todo)
    requires Runs(s, schedule, t) && i < |t|
    ensures |t[i].holds| <= 1
    ensures forall j :: 0 <= j < |t| && j != i ==> t[i].holds !! t[j].holds
    ensures t[i].todo != [] && !CanStep(t, i) ==>
      t[i].todo[0].Acquire? && exists j ::
        0 <= j < |t| && t[i].todo[0].lock in t[j].holds && CanStep(t, j) && t[j].todo[0] == Release(t[i].todo[0].lock)
  {
    RunKeeps(s, schedule, t);
    assert OneAtATime(t[i]);
    if t[i].todo != [] && !CanStep(t, i) {
      var l := t[i].todo[0].lock;
      var j :| 0 <= j < |t| && l in t[j].holds;
      assert OneAtATime(t[j]);
    }
  }
}
