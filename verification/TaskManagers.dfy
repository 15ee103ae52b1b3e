/** The task manager as the object it is: every method changes the maps in
    place and is specified by the value functions the step system uses. The course
    that goes through every method records the locks its thread takes: a lock can
    be taken, and a channel or timer turned to, only while none is held. */
module TaskManagers {
  import opened Basics
  import opened Tasks
  import L = LockDiscipline

  datatype ServiceError = Timeout | TooManyRequests | UnknownError

  /** The receiving half of a oneshot channel. */
  class Receiver {
    var done: bool
    var closed: bool

    constructor ()
      ensures !done && !closed
    {
      done, closed := false, false;
    }
  }

  type Events = seq<(Bytes, TaskCode)>

  const CHANNEL_ROOM: nat := 16

  /** A stream channel: the events its receiver has taken, those still in it, and whether
      the receiver is there. */
  datatype Stream = Stream(taken: Events, unread: Events, open: bool) {

    /** Every event the channel ever accepted. */
    function Accepted(): Events {
      taken + unread
    }

    /** The receiver is there, and does not leave while a full channel is waited for. */
    predicate Listening(id: Id, leaving: set<Id>) {
      open && (|unread| < CHANNEL_ROOM || id !in leaving)
    }

    /** A send to a full channel waits until the receiver takes an event or leaves. */
    function Sent(id: Id, datum: Bytes, code: TaskCode, leaving: set<Id>): Stream {
      if !open then this
      else if |unread| < CHANNEL_ROOM then Stream(taken, unread + [(datum, code)], open)
      else if id in leaving then Stream(taken, unread, false)
      else Stream(taken + [unread[0]], unread[1..] + [(datum, code)], open)
    }

    lemma SentAccepts(id: Id, datum: Bytes, code: TaskCode, leaving: set<Id>)
      ensures Sent(id, datum, code, leaving).Accepted()
        == Accepted() + if open && (|unread| < 16 || id !in leaving) then [(datum, code)] else []
      ensures |unread| <= CHANNEL_ROOM ==> |Sent(id, datum, code, leaving).unread| <= CHANNEL_ROOM
    {
      if |unread| >= CHANNEL_ROOM {
        assert unread == [unread[0]] + unread[1..];
      }
    }
  }

  type Streams = map<Id, Stream>

  /** One event for a task that may have no stream; the receivers of those `leaving` go
      away if they are waited for. */
  function SendOne(streams: Streams, id: Id, datum: Bytes, code: TaskCode, leaving: set<Id>): (after: Streams)
    ensures after.Keys == streams.Keys
  {
    if id in streams then streams[id := streams[id].Sent(id, datum, code, leaving)] else streams
  }

  /** The error events of one abnormal reply: the `i`-th task still in the table
      is sent the `i`-th payload of the reply. */
  function Deliver(streams: Streams, abnormal: seq<Id>, data: seq<Bytes>, code: TaskCode, leaving: set<Id>)
    : (after: Streams)
    requires |abnormal| <= |data|
    ensures after.Keys == streams.Keys
    decreases |abnormal|
  {
    if abnormal == [] then streams
    else
      var n := |abnormal| - 1;
      SendOne(Deliver(streams, abnormal[..n], data, code, leaving), abnormal[n], data[n], code, leaving)
  }

  lemma DeliverOneMore(streams: Streams, abnormal: seq<Id>, data: seq<Bytes>, code: TaskCode, leaving: set<Id>, i: nat)
    requires i < |abnormal| <= |data|
    ensures Deliver(streams, abnormal[..i + 1], data, code, leaving)
      == SendOne(Deliver(streams, abnormal[..i], data, code, leaving), abnormal[i], data[i], code, leaving)
  {
    assert abnormal[..i + 1][..i] == abnormal[..i];
  }

  /** The tasks that an abnormal reply ends. */
  function Affected(table: Table, code: TaskCode, ids: seq<Id>): (abnormal: seq<Id>)
    ensures |abnormal| <= |ids|
  {
    if code == Normal then [] else Present(table, ids)
  }

  /** Which of the ids have a stream. */
  ghost function Found(streams: Streams, ids: seq<Id>): (found: seq<bool>)
    ensures |found| == |ids|
  {
    seq(|ids|, i requires 0 <= i < |ids| => ids[i] in streams)
  }

  lemma FoundOneMore(streams: Streams, ids: seq<Id>, i: nat)
    requires i < |ids|
    ensures Found(streams, ids[..i + 1]) == Found(streams, ids[..i]) + [ids[i] in streams]
  {
  }

  class TaskManager {
    const capacity: nat
    const routes: map<string, seq<nat>>
    var table: Table
    var notifiers: map<Id, Receiver>
    var streams: Streams
    var currentId: Id
    var queues: seq<seq<Id>>

    ghost predicate Valid()
      reads this
    {
      && (forall r, k :: r in routes && 0 <= k < |routes[r]| ==> routes[r][k] < |queues|)
      && (forall r :: r in routes ==> routes[r] != [])
      && (forall id :: id in table ==> table[id].route in routes)
      && (forall x, y :: x in notifiers && y in notifiers && x != y ==> notifiers[x] != notifiers[y])
    }

    constructor (capacity: nat, routes: map<string, seq<nat>>, workers: nat)
      requires forall r, k :: r in routes && 0 <= k < |routes[r]| ==> routes[r][k] < workers
      requires forall r :: r in routes ==> routes[r] != []
      ensures Valid() && this.capacity == capacity && this.routes == routes
      ensures table == map[] && notifiers == map[] && streams == map[] && currentId == 0
      ensures |queues| == workers && forall q :: q in queues ==> q == []
    {
      this.capacity, this.routes := capacity, routes;
      table, notifiers, streams, currentId := map[], map[], map[], 0;
      queues := seq(workers, _ => []);
    }

    // The only ways to what a lock guards: each asks for the lock.

    method GetTask(id: Id, ghost c: L.Course) returns (task: Option<Task>)
      requires L.Table in c.held
      ensures task == if id in table then Some(table[id]) else None
    {
      task := if id in table then Some(table[id]) else None;
    }

    method PutTask(id: Id, task: Task, ghost c: L.Course)
      requires L.Table in c.held
      modifies this`table
      ensures table == old(table)[id := task]
    {
      table := table[id := task];
    }

    method RemoveTask(id: Id, ghost c: L.Course) returns (task: Option<Task>)
      requires L.Table in c.held
      modifies this`table
      ensures task == if id in old(table) then Some(old(table)[id]) else None
      ensures table == old(table) - {id}
    {
      task := if id in table then Some(table[id]) else None;
      table := table - {id};
    }

    method PutNotifier(id: Id, rx: Receiver, ghost c: L.Course)
      requires L.Notifiers in c.held
      modifies this`notifiers
      ensures notifiers == old(notifiers)[id := rx]
    {
      notifiers := notifiers[id := rx];
    }

    method RemoveNotifier(id: Id, ghost c: L.Course) returns (rx: Option<Receiver>)
      requires L.Notifiers in c.held
      modifies this`notifiers
      ensures rx == if id in old(notifiers) then Some(old(notifiers)[id]) else None
      ensures notifiers == old(notifiers) - {id}
    {
      rx := if id in notifiers then Some(notifiers[id]) else None;
      notifiers := notifiers - {id};
    }

    method NextId(ghost c: L.Course) returns (id: Id)
      requires L.CurrentId in c.held
      modifies this`currentId
      ensures id == old(currentId) && currentId == (id + 1) % ID_SPACE
    {
      id := currentId;
      currentId := (id + 1) % ID_SPACE;
    }

    method PutStream(id: Id, ghost c: L.Course)
      requires L.StreamSenders in c.held
      modifies this`streams
      ensures streams == old(streams)[id := Stream([], [], true)]
    {
      streams := streams[id := Stream([], [], true)];
    }

    method HasStream(id: Id, ghost c: L.Course) returns (found: bool)
      requires L.StreamSenders in c.held
      ensures found == (id in streams)
    {
      found := id in streams;
    }

    method RemoveStream(id: Id, ghost c: L.Course)
      requires L.StreamSenders in c.held
      modifies this`streams
      ensures streams == old(streams) - {id}
    {
      streams := streams - {id};
    }

    /** A send on a channel that has been looked up, which may wait and so wants no lock. */
    method Send(id: Id, datum: Bytes, code: TaskCode, leaving: set<Id>, ghost c: L.Course)
      requires c.held == {} && id in streams
      modifies this`streams
      ensures streams == SendOne(old(streams), id, datum, code, leaving)
    {
      streams := streams[id := streams[id].Sent(id, datum, code, leaving)];
    }

    /** Removes both entries, and the stream if there is one. */
    method DeleteTask(id: Id, hasStream: bool, ghost c: L.Course) returns (task: Option<Task>, ghost d: L.Course)
      requires Valid() && c.held == {}
      modifies this`table, this`notifiers, this`streams
      ensures Valid() && d == c.Then(L.DeleteTask(hasStream))
      ensures task == if id in old(table) then Some(old(table)[id]) else None
      ensures table == old(table) - {id} && notifiers == old(notifiers) - {id}
      ensures streams == if hasStream then old(streams) - {id} else old(streams)
    {
      d := c.Acquire(L.Notifiers);
      var sender := RemoveNotifier(id, d);
      d := d.Release(L.Notifiers);
      d := d.Acquire(L.Table);
      task := RemoveTask(id, d);
      d := d.Release(L.Table);
      if hasStream {
        d := d.Acquire(L.StreamSenders);
        RemoveStream(id, d);
        d := d.Release(L.StreamSenders);
      }
    }

    /** A new id, its notifier and its entry, each under its own lock. */
    method ListNewTask(data: Bytes, key: string, ghost c: L.Course) returns (id: Id, rx: Receiver, ghost d: L.Course)
      requires Valid() && c.held == {} && key in routes
      modifies this`table, this`notifiers, this`currentId
      ensures Valid() && d == c.Then(L.ListNewTask())
      ensures id == old(currentId) && currentId == (old(currentId) + 1) % ID_SPACE
      ensures fresh(rx) && !rx.done && !rx.closed
      ensures table == old(table)[id := NewTask(data, key)] && notifiers == old(notifiers)[id := rx]
    {
      L.Listing(c);
      rx := new Receiver();
      d := c.Acquire(L.CurrentId);
      id := NextId(d);
      d := d.Release(L.CurrentId);
      d := d.Acquire(L.Notifiers);
      PutNotifier(id, rx, d);
      d := d.Release(L.Notifiers);
      d := d.Acquire(L.Table);
      PutTask(id, NewTask(data, key), d);
      d := d.Release(L.Table);
    }

    /** Either the task is stored and queued for the first worker of its route,
        or the queue was full and nothing of it remains. */
    method AddNewTask(data: Bytes, key: string, ghost c: L.Course)
      returns (r: Result<(Id, Receiver), ServiceError>, ghost d: L.Course)
      requires Valid() && c.held == {} && key in routes
      modifies this`table, this`notifiers, this`streams, this`currentId, this`queues
      ensures Valid() && streams == old(streams) && d == c.Then(L.AddNewTask(r.Err?))
      ensures currentId == (old(currentId) + 1) % ID_SPACE
      ensures r.Ok? <==> |old(queues)[routes[key][0]]| < capacity
      ensures r.Ok? ==>
        var id, w := old(currentId), routes[key][0];
        r.value.0 == id && fresh(r.value.1) && !r.value.1.done && !r.value.1.closed
        && table == old(table)[id := NewTask(data, key)] && notifiers == old(notifiers)[id := r.value.1]
        && queues == old(queues)[w := old(queues)[w] + [id]]
      ensures r.Err? ==>
        r.error == TooManyRequests && queues == old(queues)
        && table == old(table) - {old(currentId)} && notifiers == old(notifiers) - {old(currentId)}
    {
      var id: Id, rx: Receiver;
      id, rx, d := ListNewTask(data, key, c);
      var w := routes[key][0];
      d := d.Leave();
      L.Adding(c);
      if |queues[w]| >= capacity {
        var gone: Option<Task>;
        L.ThenAgain(c, L.AddNewTask(false), L.DeleteTask(false));
        gone, d := DeleteTask(id, false, d);
        return Err(TooManyRequests), d;
      }
      queues := queues[w := queues[w] + [id]];
      return Ok((id, rx)), d;
    }

    /** What a handler does once its wait is over. */
    method AwaitTask(id: Id, expired: bool, ghost c: L.Course)
      returns (r: Result<Task, ServiceError>, ghost d: L.Course)
      requires Valid() && c.held == {}
      modifies this`table, this`notifiers, this`streams
      ensures Valid() && streams == old(streams) && d == c.Then(L.AwaitTask(expired))
      ensures r == if expired then Err(Timeout) else if id in old(table) then Ok(old(table)[id]) else Err(UnknownError)
      ensures table == old(table) - {id}
      ensures notifiers == if expired then old(notifiers) - {id} else old(notifiers)
    {
      d := c.Leave();
      if expired {
        var gone: Option<Task>;
        gone, d := DeleteTask(id, false, d);
        return Err(Timeout), d;
      }
      d := d.Acquire(L.Table);
      var task := RemoveTask(id, d);
      d := d.Release(L.Table);
      r := if task.Some? then Ok(task.value) else Err(UnknownError);
    }

    method ListStream(id: Id, ghost c: L.Course) returns (ghost d: L.Course)
      requires Valid() && c.held == {}
      modifies this`streams
      ensures Valid() && d == c.Then(L.ListStream())
      ensures streams == old(streams)[id := Stream([], [], true)]
    {
      d := c.Acquire(L.StreamSenders);
      PutStream(id, d);
      d := d.Release(L.StreamSenders);
    }

    /** However the wait for a stream ends, all that is left of it is removed. */
    method WaitSseFinish(id: Id, ghost c: L.Course) returns (task: Option<Task>, ghost d: L.Course)
      requires Valid() && c.held == {}
      modifies this`table, this`notifiers, this`streams
      ensures Valid() && d == c.Then(L.WaitSseFinish())
      ensures task == if id in old(table) then Some(old(table)[id]) else None
      ensures table == old(table) - {id} && notifiers == old(notifiers) - {id} && streams == old(streams) - {id}
    {
      d := c.Leave();
      task, d := DeleteTask(id, true, d);
    }

    /** Takes the notifier at most once; a closed receiver costs the entry. */
    method NotifyTaskDone(id: Id, ghost c: L.Course) returns (ghost d: L.Course)
      requires Valid() && c.held == {}
      modifies this`table, this`notifiers, if id in notifiers then {notifiers[id]} else {}
      ensures Valid() && notifiers == old(notifiers) - {id}
      ensures table == if id in old(notifiers) && old(notifiers[id].closed) then old(table) - {id} else old(table)
      ensures id in old(notifiers) ==>
        var rx := old(notifiers)[id];
        rx.closed == old(rx.closed) && rx.done == (old(rx.done) || !old(rx.closed))
      ensures d == c.Then(L.NotifyTaskDone(id in old(notifiers), id in old(notifiers) && old(notifiers[id].closed)))
    {
      d := c.Acquire(L.Notifiers);
      var res := RemoveNotifier(id, d);
      d := d.Release(L.Notifiers);
      if res.Some? {
        var sender := res.value;
        if !sender.closed {
          sender.done := true;
        } else {
          d := d.Acquire(L.Table);
          var task := RemoveTask(id, d);
          d := d.Release(L.Table);
        }
      }
    }

    /** The next step of a task. When the next queue is full the sender waits and
        nothing happens until there is room. */
    method SendTask(id: Id, ghost c: L.Course) returns (waits: bool, ghost d: L.Course)
      requires Valid() && c.held == {}
      modifies this`table, this`notifiers, this`queues, if id in notifiers then {notifiers[id]} else {}
      ensures Valid()
      ensures id !in old(table) ==>
        && !waits && d == c.Then(L.SendTask(L.Absent))
        && table == old(table) && notifiers == old(notifiers) && queues == old(queues)
      ensures id in old(table) && old(table)[id].stage < |routes[old(table)[id].route]| ==>
        var w := routes[old(table)[id].route][old(table)[id].stage];
        && (waits <==> |old(queues)[w]| >= capacity) && d == c.Then(L.SendTask(L.NextStage))
        && table == old(table) && notifiers == old(notifiers)
        && queues == if waits then old(queues) else old(queues)[w := old(queues)[w] + [id]]
      ensures id in old(table) && old(table)[id].stage >= |routes[old(table)[id].route]| ==>
        var closed := id in old(notifiers) && old(notifiers[id].closed);
        && !waits && d == c.Then(L.SendTask(L.LastStage(id in old(notifiers), closed)))
        && notifiers == old(notifiers) - {id} && queues == old(queues)
        && table == if closed then old(table) - {id} else old(table)
      ensures id in old(notifiers) ==>
        var rx := old(notifiers)[id];
        var told := id in old(table) && old(table)[id].stage >= |routes[old(table)[id].route]| && !old(rx.closed);
        rx.closed == old(rx.closed) && rx.done == (old(rx.done) || told)
    {
      waits := false;
      d := c.Acquire(L.Table);
      var task := GetTask(id, d);
      d := d.Release(L.Table);
      if task.None? {
        return;
      }
      var stage, route := task.value.stage, routes[task.value.route];
      if stage >= |route| {
        d := NotifyTaskDone(id, d);
        return;
      }
      d := d.Leave();
      waits := |queues[route[stage]]| >= capacity;
      if !waits {
        queues := queues[route[stage] := queues[route[stage]] + [id]];
      }
    }

    ghost function Lengths(): map<string, nat> {
      map r | r in routes :: |routes[r]|
    }

    /** What is sent to a worker: payloads and state bits of the live ids. */
    method GetMultiTasksData(ids: seq<Id>, ghost c: L.Course)
      returns (kept: seq<Id>, data: seq<Bytes>, states: seq<nat>, ghost d: L.Course)
      requires Valid() && c.held == {}
      ensures d == c.Then(L.GetMultiTasksData())
      ensures kept == Present(table, ids)
      ensures data == Payloads(table, kept) && states == States(table, Lengths(), kept)
    {
      kept, data, states := [], [], [];
      d := c.Acquire(L.Table);
      for i := 0 to |ids|
        invariant kept == Present(table, ids[..i])
        invariant data == Payloads(table, kept) && states == States(table, Lengths(), kept)
      {
        PresentAppend(table, ids[..i], ids[i]);
        assert ids[..i + 1] == ids[..i] + [ids[i]];
        var task := GetTask(ids[i], d);
        if task.Some? {
          kept := kept + [ids[i]];
          data := data + [task.value.data];
          states := states + [StateBits(task.value.stage, |routes[task.value.route]|)];
        }
      }
      assert ids[..|ids|] == ids;
      d := d.Release(L.Table);
    }

    /** The part of an update made under the table lock. */
    method UpdateTable(code: TaskCode, ids: seq<Id>, data: seq<Bytes>, ghost c: L.Course)
      returns (abnormal: seq<Id>, ghost d: L.Course)
      requires Valid() && c.held == {} && |ids| == |data|
      modifies this`table
      ensures Valid() && d == c.Then(L.Critical(L.Table))
      ensures table == UpdateAll(old(table), code, ids, data) && table.Keys == old(table).Keys
      ensures abnormal == Affected(old(table), code, ids)
    {
      abnormal := [];
      d := c.Acquire(L.Table);
      for i := 0 to |ids|
        invariant table == UpdateAll(old(table), code, ids[..i], data[..i])
        invariant abnormal == Affected(old(table), code, ids[..i])
      {
        UpdatePrefix(old(table), code, ids, data, i);
        UpdateRoutes(old(table), code, ids[..i], data[..i]);
        var task := GetTask(ids[i], d);
        if task.Some? {
          PutTask(ids[i], task.value.Updated(code, data[i]), d);
          if code != Normal {
            abnormal := abnormal + [ids[i]];
          }
        }
      }
      d := d.Release(L.Table);
      assert ids[..|ids|] == ids && data[..|data|] == data;
      UpdateRoutes(old(table), code, ids, data);
    }

    /** One event: the sender is looked up under the lock and used without it. */
    method SendEvent(id: Id, datum: Bytes, code: TaskCode, leaving: set<Id>, ghost c: L.Course)
      returns (ghost d: L.Course)
      requires c.held == {}
      modifies this`streams
      ensures d == c.Then(L.SendStreamEvent(id in old(streams)))
      ensures streams == SendOne(old(streams), id, datum, code, leaving)
    {
      d := c.Acquire(L.StreamSenders);
      var found := HasStream(id, d);
      d := d.Release(L.StreamSenders);
      if found {
        d := d.Leave();
        Send(id, datum, code, leaving, d);
      }
    }

    method SendEvents(code: TaskCode, abnormal: seq<Id>, data: seq<Bytes>, leaving: set<Id>, ghost c: L.Course)
      returns (ghost d: L.Course)
      requires |abnormal| <= |data| && c.held == {}
      modifies this`streams
      ensures d == c.Then(L.SendStreamEvents(Found(old(streams), abnormal)))
      ensures streams == Deliver(old(streams), abnormal, data, code, leaving)
    {
      d := c;
      L.NoEvents(c);
      for i := 0 to |abnormal|
        invariant d == c.Then(L.SendStreamEvents(Found(old(streams), abnormal[..i])))
        invariant streams == Deliver(old(streams), abnormal[..i], data, code, leaving)
      {
        ghost var found := Found(old(streams), abnormal[..i]);
        FoundOneMore(old(streams), abnormal, i);
        L.OneMoreEvent(c, found, abnormal[i] in streams);
        DeliverOneMore(old(streams), abnormal, data, code, leaving, i);
        d := SendEvent(abnormal[i], data[i], code, leaving, d);
      }
      assert abnormal[..|abnormal|] == abnormal;
    }

    /** Those of the ids whose receiver has been dropped. */
    ghost function Deserted(ids: seq<Id>): set<Id>
      reads this`notifiers, notifiers.Values
    {
      set id | id in ids && id in notifiers && notifiers[id].closed
    }

    /** Where a round of notifications stands: `told` have been notified. */
    ghost predicate Notified(before: map<Id, Receiver>, entries: Table, closed: set<Id>, told: set<Id>)
      reads this, before.Values
    {
      && Valid() && notifiers == before - told && table == entries - closed * told
      && (forall id :: id in before ==> (before[id].closed <==> id in closed))
      && (forall id :: id in told && id in before && id !in closed ==> before[id].done)
    }

    method NotifyNext(id: Id, ghost before: map<Id, Receiver>, ghost entries: Table, ghost closed: set<Id>,
        ghost told: set<Id>,
        ghost c: L.Course)
      returns (ghost d: L.Course)
      requires c.held == {}
      requires Notified(before, entries, closed, told) && closed <= before.Keys
      requires forall x, y :: x in before && y in before && x != y ==> before[x] != before[y]
      modifies this`table, this`notifiers, before.Values
      ensures Notified(before, entries, closed, told + {id})
      ensures d == c.Then(L.NotifyTaskDone(id in before.Keys - told, id in closed - told))
    {
      d := NotifyTaskDone(id, c);
      assert before - (told + {id}) == before - told - {id};
    }

    method NotifyAll(ids: seq<Id>, ghost c: L.Course) returns (ghost outcomes: seq<(bool, bool)>, ghost d: L.Course)
      requires Valid() && c.held == {}
      modifies this`table, this`notifiers, notifiers.Values
      ensures Valid() && notifiers == old(notifiers) - Elements(ids)
      ensures table == old(table) - old(Deserted(ids))
      ensures forall id :: id in ids && id in old(notifiers) && !old(notifiers[id].closed) ==> old(notifiers)[id].done
      ensures d == c.Then(L.NotifyAll(outcomes)) && |outcomes| == |ids|
    {
      outcomes, d := [], c;
      L.NoNotices(c);
      ghost var before, entries, gone := notifiers, table, Deserted(ids);
      ghost var closed := set id | id in before && before[id].closed;
      for i := 0 to |ids|
        invariant Notified(before, entries, closed, Elements(ids[..i]))
        invariant d == c.Then(L.NotifyAll(outcomes)) && |outcomes| == i
      {
        ghost var told := Elements(ids[..i]);
        assert Elements(ids[..i + 1]) == told + {ids[i]};
        d := NotifyNext(ids[i], before, entries, closed, told, d);
        ghost var outcome := (ids[i] in before.Keys - told, ids[i] in closed - told);
        L.OneMoreNotice(c, outcomes, outcome);
        outcomes := outcomes + [outcome];
      }
      assert ids[..|ids|] == ids && closed * Elements(ids) == gone;
    }

    /** A reply: the table is updated first and, if the code is abnormal, error
        events are sent and every task still known is notified. */
    method UpdateMultiTasks(code: TaskCode, ids: seq<Id>, data: seq<Bytes>, leaving: set<Id>,
        ghost c: L.Course)
      returns (ghost outcomes: seq<(bool, bool)>, ghost d: L.Course)
      requires Valid() && c.held == {} && |ids| == |data|
      modifies this`table, this`notifiers, this`streams, notifiers.Values
      ensures Valid()
      ensures var abnormal := Affected(old(table), code, ids);
        && notifiers == old(notifiers) - Elements(abnormal)
        && streams == Deliver(old(streams), abnormal, data, code, leaving)
        && table == UpdateAll(old(table), code, ids, data) - old(Deserted(abnormal))
        && (forall id ::
          id in abnormal && id in old(notifiers) && !old(notifiers[id].closed) ==> old(notifiers)[id].done)
        && d == c.Then(L.UpdateMultiTasks(Found(old(streams), abnormal), outcomes)) && |outcomes| == |abnormal|
    {
      var abnormal: seq<Id>;
      abnormal, d := UpdateTable(code, ids, data, c);
      outcomes, d := FinishAbnormal(code, abnormal, data, leaving, d);
      L.Replying(c, Found(old(streams), abnormal), outcomes);
    }

    /** The part of an update made without the table lock. */
    method FinishAbnormal(code: TaskCode, abnormal: seq<Id>, data: seq<Bytes>, leaving: set<Id>,
        ghost c: L.Course)
      returns (ghost outcomes: seq<(bool, bool)>, ghost d: L.Course)
      requires Valid() && c.held == {} && |abnormal| <= |data|
      modifies this`table, this`notifiers, this`streams, notifiers.Values
      ensures Valid() && notifiers == old(notifiers) - Elements(abnormal)
      ensures streams == Deliver(old(streams), abnormal, data, code, leaving)
      ensures table == old(table) - old(Deserted(abnormal))
      ensures forall id ::
        id in abnormal && id in old(notifiers) && !old(notifiers[id].closed) ==> old(notifiers)[id].done
      ensures d == c.Then(L.SendStreamEvents(Found(old(streams), abnormal))).Then(L.NotifyAll(outcomes))
      ensures |outcomes| == |abnormal|
    {
      d := SendEvents(code, abnormal, data, leaving, c);
      assert Deserted(abnormal) == old(Deserted(abnormal));
      outcomes, d := NotifyAll(abnormal, d);
    }
  }

  lemma {:induction false} UpdateRoutes(table: Table, code: TaskCode, ids: seq<Id>, data: seq<Bytes>)
    requires |ids| == |data|
    ensures UpdateAll(table, code, ids, data).Keys == table.Keys
    ensures forall id :: id in table ==> UpdateAll(table, code, ids, data)[id].route == table[id].route
    decreases |ids|
  {
    if ids != [] {
      UpdateRoutes(table, code, ids[..|ids| - 1], data[..|ids| - 1]);
    }
  }

  lemma UpdatePrefix(table: Table, code: TaskCode, ids: seq<Id>, data: seq<Bytes>, i: nat)
    requires i < |ids| == |data|
    ensures UpdateAll(table, code, ids[..i + 1], data[..i + 1])
      == UpdateOne(UpdateAll(table, code, ids[..i], data[..i]), code, ids[i], data[i])
    ensures Affected(table, code, ids[..i + 1])
      == Affected(table, code, ids[..i]) + if code != Normal && ids[i] in table then [ids[i]] else []
  {
    assert ids[..i + 1][..i] == ids[..i] && data[..i + 1][..i] == data[..i];
    assert ids[..i + 1] == ids[..i] + [ids[i]];
    PresentAppend(table, ids[..i], ids[i]);
  }

  // ----- which error reaches which stream -----

  lemma {:induction false} DeliverAt(streams: Streams, abnormal: seq<Id>, data: seq<Bytes>, code: TaskCode,
      leaving: set<Id>)
    requires |abnormal| <= |data| && Distinct(abnormal)
    ensures forall id ::
      id in streams && id !in abnormal ==> Deliver(streams, abnormal, data, code, leaving)[id] == streams[id]
    ensures forall k :: 0 <= k < |abnormal| && abnormal[k] in streams ==>
      Deliver(streams, abnormal, data, code, leaving)[abnormal[k]]
        == streams[abnormal[k]].Sent(abnormal[k], data[k], code, leaving)
  {
    if abnormal != [] {
      var n := |abnormal| - 1;
      DeliverAt(streams, abnormal[..n], data, code, leaving);
      assert abnormal[n] !in abnormal[..n];
    }
  }

  /** Every stream of a task still in the table is sent the payload that the
      reply carries for that very task, and no other stream is sent anything. */
  ghost predicate EachOwnError(table: Table, streams: Streams, ids: seq<Id>, data: seq<Bytes>, code: TaskCode,
      leaving: set<Id>)
    requires |ids| == |data|
  {
    var after := Deliver(streams, Present(table, ids), data, code, leaving);
    && (forall k :: 0 <= k < |ids| && ids[k] in table && ids[k] in streams ==>
          after[ids[k]] == streams[ids[k]].Sent(ids[k], data[k], code, leaving))
    && (forall id :: id in streams && (id !in ids || id !in table) ==> after[id] == streams[id])
  }

  /** A coordinator's error reply carries one payload for all its tasks, so each
      stream gets its own error whichever tasks expired in the meantime. */
  lemma UniformErrorsReachTheirStreams(table: Table, streams: Streams, ids: seq<Id>, data: seq<Bytes>, code: TaskCode,
      leaving: set<Id>)
    requires |ids| == |data| && Distinct(ids)
    requires forall i, j :: 0 <= i < |data| && 0 <= j < |data| ==> data[i] == data[j]
    ensures EachOwnError(table, streams, ids, data, code, leaving)
  {
    var abnormal := Present(table, ids);
    PresentDistinct(table, ids);
    DeliverAt(streams, abnormal, data, code, leaving);
    forall k | 0 <= k < |ids| && ids[k] in table && ids[k] in streams
      ensures Deliver(streams, abnormal, data, code, leaving)[ids[k]]
        == streams[ids[k]].Sent(ids[k], data[k], code, leaving)
    {
      var j :| 0 <= j < |abnormal| && abnormal[j] == ids[k];
    }
  }

  predicate ListenedTo(streams: Streams, id: Id, leaving: set<Id>) {
    id in streams && streams[id].Listening(id, leaving)
  }

  /** The `k`-th live task is the `k`-th of the batch, or nobody listens to it. */
  predicate InItsPlace(streams: Streams, abnormal: seq<Id>, ids: seq<Id>, leaving: set<Id>, k: nat)
    requires k < |abnormal| <= |ids|
  {
    ListenedTo(streams, abnormal[k], leaving) ==> abnormal[k] == ids[k]
  }

  /** With arbitrary payloads the delivery by position is right exactly when no
      task expired ahead of a live one whose stream is listened to. */
  lemma PositionalErrorsExactly(table: Table, streams: Streams, ids: seq<Id>, code: TaskCode, leaving: set<Id>)
    requires Distinct(ids)
    ensures var abnormal := Present(table, ids);
      (forall data: seq<Bytes> :: |data| == |ids| ==> EachOwnError(table, streams, ids, data, code, leaving))
      <==> (forall k :: 0 <= k < |abnormal| ==> InItsPlace(streams, abnormal, ids, leaving, k))
  {
    var abnormal := Present(table, ids);
    PresentDistinct(table, ids);
    if forall k :: 0 <= k < |abnormal| ==> InItsPlace(streams, abnormal, ids, leaving, k) {
      forall data: seq<Bytes> | |data| == |ids| ensures EachOwnError(table, streams, ids, data, code, leaving) {
        InPlace(table, streams, abnormal, ids, data, code, leaving);
      }
    } else {
      var k :| 0 <= k < |abnormal| && !InItsPlace(streams, abnormal, ids, leaving, k);
      assert abnormal[k] in ids;
      var j :| 0 <= j < |ids| && ids[j] == abnormal[k];
      MisplacedError(table, streams, ids, code, leaving, k, j);
    }
  }

  lemma OwnError(streams: Streams, abnormal: seq<Id>, ids: seq<Id>, data: seq<Bytes>, code: TaskCode, leaving: set<Id>,
      k: nat, j: nat)
    requires Distinct(ids) && j < |abnormal| <= |ids| == |data| && k < |ids| && ids[k] in streams
    requires abnormal[j] == ids[k] && InItsPlace(streams, abnormal, ids, leaving, j)
    ensures streams[ids[k]].Sent(ids[k], data[j], code, leaving) == streams[ids[k]].Sent(ids[k], data[k], code, leaving)
  {
  }

  lemma InPlace(table: Table, streams: Streams, abnormal: seq<Id>, ids: seq<Id>, data: seq<Bytes>, code: TaskCode,
      leaving: set<Id>)
    requires Distinct(ids) && |ids| == |data| && abnormal == Present(table, ids)
    requires forall k :: 0 <= k < |abnormal| ==> InItsPlace(streams, abnormal, ids, leaving, k)
    ensures EachOwnError(table, streams, ids, data, code, leaving)
  {
    PresentDistinct(table, ids);
    DeliverAt(streams, abnormal, data, code, leaving);
    forall k | 0 <= k < |ids| && ids[k] in table && ids[k] in streams
      ensures Deliver(streams, abnormal, data, code, leaving)[ids[k]]
        == streams[ids[k]].Sent(ids[k], data[k], code, leaving)
    {
      var j :| 0 <= j < |abnormal| && abnormal[j] == ids[k];
      OwnError(streams, abnormal, ids, data, code, leaving, k, j);
    }
  }

  lemma MisplacedError(table: Table, streams: Streams, ids: seq<Id>, code: TaskCode, leaving: set<Id>, k: nat, j: nat)
    requires Distinct(ids) && k < |Present(table, ids)| && j < |ids| && j != k
    requires ids[j] == Present(table, ids)[k] && ListenedTo(streams, ids[j], leaving)
    ensures exists data: seq<Bytes> :: |data| == |ids| && !EachOwnError(table, streams, ids, data, code, leaving)
  {
    var data: seq<Bytes> := seq(|ids|, i => if i == k then [0] else [1]);
    assert data[k] == [0] && data[j] == [1];
    Misplaced(table, streams, ids, data, code, leaving, k, j);
  }

  lemma Misplaced(table: Table, streams: Streams, ids: seq<Id>, data: seq<Bytes>, code: TaskCode, leaving: set<Id>,
      k: nat, j: nat)
    requires Distinct(ids) && k < |Present(table, ids)| && j < |ids| == |data|
    requires ids[j] == Present(table, ids)[k] && ListenedTo(streams, ids[j], leaving) && data[j] != data[k]
    ensures !EachOwnError(table, streams, ids, data, code, leaving)
  {
    var abnormal := Present(table, ids);
    PresentDistinct(table, ids);
    DeliverAt(streams, abnormal, data, code, leaving);
    var stream := streams[ids[j]];
    var sent := stream.Accepted();
    assert abnormal[k] in abnormal;
    stream.SentAccepts(ids[j], data[k], code, leaving);
    stream.SentAccepts(ids[j], data[j], code, leaving);
    assert (sent + [(data[k], code)])[|sent|] != (sent + [(data[j], code)])[|sent|];
  }
}
