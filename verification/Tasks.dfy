/** The task table of the server and what each critical section does to it,
    as functions on values. The state machine of module Pipeline and the class
    of module TaskManagers are both stated in terms of these functions. */
module Tasks {
  import opened Basics

  datatype TaskCode = Normal | BadRequestError | ValidationError | TimeoutError | InternalError | StreamEvent

  datatype Task = Task(code: TaskCode, data: Bytes, stage: nat, route: string) {

    /** What one reply does to a task: new code, new payload, next stage. */
    function Updated(newCode: TaskCode, newData: Bytes): Task {
      Task(newCode, newData, stage + 1, route)
    }

    /** Nothing has gone wrong with the task so far. */
    predicate Fresh() {
      stage == 0 || code == Normal
    }

    /** The task has its answer: it went through every stage, or one failed. */
    predicate Final(total: nat) {
      (code == Normal && stage == total) || (code != Normal && stage > 0)
    }
  }

  type Table = map<Id, Task>

  function NewTask(data: Bytes, route: string): Task {
    Task(InternalError, data, 0, route)
  }

  /** Bit 0 marks the first stage of the route (ingress), bit 1 the last (egress). */
  function StateBits(stage: nat, total: nat): nat {
    (if stage == 0 then 1 else 0) + (if stage + 1 == total then 2 else 0)
  }

  /** The ids that still have a table entry, in order. */
  function Present(table: Table, ids: seq<Id>): (kept: seq<Id>)
    ensures |kept| <= |ids|
    ensures forall id :: id in kept <==> id in ids && id in table
  {
    if ids == [] then []
    else if ids[0] in table then [ids[0]] + Present(table, ids[1..])
    else Present(table, ids[1..])
  }

  function Payloads(table: Table, ids: seq<Id>): (data: seq<Bytes>)
    requires forall id :: id in ids ==> id in table
  {
    seq(|ids|, i requires 0 <= i < |ids| => table[ids[i]].data)
  }

  function States(table: Table, lengths: map<string, nat>, ids: seq<Id>): (states: seq<nat>)
    requires forall id :: id in ids ==> id in table && table[id].route in lengths
  {
    seq(|ids|, i requires 0 <= i < |ids| => StateBits(table[ids[i]].stage, lengths[table[ids[i]].route]))
  }

  /** One reply applied to the table: ids without an entry are skipped. */
  function UpdateAll(table: Table, code: TaskCode, ids: seq<Id>, data: seq<Bytes>): Table
    requires |ids| == |data|
    decreases |ids|
  {
    if ids == [] then table
    else UpdateOne(UpdateAll(table, code, ids[..|ids| - 1], data[..|ids| - 1]), code, ids[|ids| - 1], data[|ids| - 1])
  }

  function UpdateOne(table: Table, code: TaskCode, id: Id, datum: Bytes): Table {
    if id in table then table[id := table[id].Updated(code, datum)] else table
  }

  lemma {:induction false} PresentAppend(table: Table, ids: seq<Id>, id: Id)
    ensures Present(table, ids + [id]) == Present(table, ids) + if id in table then [id] else []
  {
    if ids == [] {
      assert [] + [id] == [id];
    } else {
      assert (ids + [id])[1..] == ids[1..] + [id];
      PresentAppend(table, ids[1..], id);
    }
  }

  /** The live ids are those of the batch that have an entry, all of them and in order. */
  lemma {:induction false} PresentInOrder(table: Table, ids: seq<Id>) returns (place: seq<nat>)
    ensures Picks(Present(table, ids), ids, place)
    ensures forall i: nat :: i in place <==> i < |ids| && ids[i] in table
    decreases |ids|
  {
    place := [];
    if ids != [] {
      var n := |ids| - 1;
      place := PresentInOrder(table, ids[..n]);
      PresentAppend(table, ids[..n], ids[n]);
      assert ids[..n] + [ids[n]] == ids;
      place := PicksMore(Present(table, ids[..n]), ids, place, ids[n] in table);
    }
  }

  lemma {:induction false} PresentNone(table: Table, ids: seq<Id>)
    requires forall id :: id in ids ==> id !in table
    ensures Present(table, ids) == []
  {
    if ids != [] {
      PresentNone(table, ids[1..]);
    }
  }

  lemma {:induction false} PresentDistinct(table: Table, ids: seq<Id>)
    requires Distinct(ids)
    ensures Distinct(Present(table, ids))
  {
    if ids != [] {
      assert Distinct(ids[1..]);
      PresentDistinct(table, ids[1..]);
      assert ids[0] !in ids[1..];
    }
  }

  /** A reply gives each entry of the ids it carries its code and the payload at the
      id's own position, whatever the code, and moves it on by one stage; it touches
      no other entry. */
  lemma {:induction false} UpdateAllFrame(table: Table, code: TaskCode, ids: seq<Id>, data: seq<Bytes>)
    requires |ids| == |data| && Distinct(ids)
    ensures UpdateAll(table, code, ids, data).Keys == table.Keys
    ensures forall id :: id in table && id !in ids ==> UpdateAll(table, code, ids, data)[id] == table[id]
    ensures forall i :: 0 <= i < |ids| && ids[i] in table ==>
      var was, now := table[ids[i]], UpdateAll(table, code, ids, data)[ids[i]];
      now.code == code && now.data == data[i] && now.stage == was.stage + 1 && now.route == was.route
  {
    if ids != [] {
      var n := |ids| - 1;
      UpdateAllFrame(table, code, ids[..n], data[..n]);
      assert ids[n] !in ids[..n];
    }
  }

  lemma UpdatedAt(table: Table, code: TaskCode, ids: seq<Id>, data: seq<Bytes>, i: nat)
    requires |ids| == |data| && Distinct(ids) && i < |ids| && ids[i] in table
    ensures
      var now := UpdateAll(table, code, ids, data);
      ids[i] in now && now[ids[i]] == table[ids[i]].Updated(code, data[i])
  {
    UpdateAllFrame(table, code, ids, data);
  }
}
