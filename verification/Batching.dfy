/** How a connection gathers a batch from its stage queue. */
module Batching {
  import opened Basics

  /** The receiving end of a stage queue. */
  class StageQueue {
    var ids: seq<Id>

    constructor (ids: seq<Id>)
      ensures this.ids == ids
    {
      this.ids := ids;
    }

    method Recv() returns (id: Id)
      requires ids != []
      modifies this
      ensures [id] + ids == old(ids)
    {
      id, ids := ids[0], ids[1..];
    }
  }

  /** Fills a batch up to its limit or until the wait timer fires, which it does
      while waiting for one more than `arrivals` ids; what was gathered stays. */
  method InnerBatch(receiver: StageQueue, batch: seq<Id>, limit: nat, arrivals: nat) returns (ids: seq<Id>)
    requires |batch| < limit && arrivals <= |receiver.ids|
    modifies receiver
    ensures batch <= ids && ids + receiver.ids == batch + old(receiver.ids)
    ensures |ids| == if |batch| + arrivals < limit then |batch| + arrivals else limit
  {
    ids := batch;
    var left: nat := arrivals;
    while left > 0
      invariant left <= |receiver.ids| && |ids| == |batch| + arrivals - left < limit
      invariant batch <= ids && ids + receiver.ids == batch + old(receiver.ids)
    {
      ghost var before, queue := ids, receiver.ids;
      var id := receiver.Recv();
      ids, left := ids + [id], left - 1;
      assert queue == [id] + receiver.ids && ids == before + [id];
      assert ids + receiver.ids == before + queue;
      if |ids| == limit {
        break;
      }
    }
  }

  /** A batch is the front of its queue, in order, with nothing lost: one id when the
      limit is one or less, otherwise as many as came before the timer, up to
      the limit. */
  method GetBatch(receiver: StageQueue, batchSize: nat, arrivals: nat) returns (ids: seq<Id>)
    requires receiver.ids != [] && arrivals < |receiver.ids|
    modifies receiver
    ensures ids + receiver.ids == old(receiver.ids)
    ensures 1 <= |ids| <= Max(1, batchSize)
    ensures batchSize > 1 ==> |ids| == if 1 + arrivals < batchSize then 1 + arrivals else batchSize
  {
    var id := receiver.Recv();
    ids := [id];
    if batchSize <= 1 {
      return;
    }
    ids := InnerBatch(receiver, ids, batchSize, arrivals);
  }
}
