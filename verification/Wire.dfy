/** Across the wire: what one language writes the other reads. */
module Wire {
  import opened Basics
  import opened Frames
  import opened Tasks
  import R = RustWire
  import P = PythonWire
  import K = PythonSocket

  function IdBytes(ids: seq<Id>): (b: seq<Bytes>)
    ensures |b| == |ids| && forall i :: 0 <= i < |ids| ==> |b[i]| == 4
  {
    seq(|ids|, i requires 0 <= i < |ids| => PutU32(ids[i]))
  }

  /** With retries after timeouts the worker receives the batch the server sent, ids
      as four bytes each, and nothing of what follows it, if and only if calls
      stall only before its first byte and then no fixed-size field is cut and
      nothing stalls. */
  lemma ServerToWorker(ids: seq<Id>, data: seq<Bytes>, states: seq<U16>, rest: Bytes, cuts: seq<P.Cut>)
    requires R.Parallel(ids, data, states) && R.Bounded(ids, data)
    ensures var (out, d) := P.ReceiveBatch(P.Arriving(R.Sent(ids, data, states) + rest, cuts));
      var jobs := seq(|ids|, i requires 0 <= i < |ids| => P.Job(PutU32(ids[i]), states[i], data[i]));
      out == P.Got(([0, 0], jobs)) && d.bytes == rest
      <==> P.MessageWhole(P.SkipStalls(cuts), R.MessageOf(0, ids, data, states))
  {
    R.SentIsFrame(ids, data, states);
    JobsSent(ids, data, states);
    P.BatchReceivedExactly(R.MessageOf(0, ids, data, states), rest, cuts);
    assert PutU16(0) == [0, 0];
  }

  lemma JobsSent(ids: seq<Id>, data: seq<Bytes>, states: seq<U16>)
    requires R.Parallel(ids, data, states)
    ensures P.JobsOf(R.MessageOf(0, ids, data, states).items)
      == seq(|ids|, i requires 0 <= i < |ids| => P.Job(PutU32(ids[i]), states[i], data[i]))
  {
  }

  /** The server reads the reply the worker sent, with the ids it gave the worker,
      and nothing of what follows it. */
  lemma WorkerToServer(flag: int, ids: seq<Id>, states: seq<int>, payloads: seq<Bytes>, rest: Bytes)
    requires K.Sendable(flag, IdBytes(ids), states, payloads) && |states| == |ids|
    ensures var r := Decode(K.Packed(flag, IdBytes(ids), states, payloads) + rest);
      && r.Some? && r.value.1 == rest && r.value.0.flag == flag
      && R.IdsOf(r.value.0.items) == ids && R.DataOf(r.value.0.items) == payloads
        && R.StatesOf(r.value.0.items) == states
  {
    K.PackedIsFrame(flag, IdBytes(ids), states, payloads);
    var m := K.ReplyOf(flag, IdBytes(ids), states, payloads);
    RoundTrip(m, rest);
    forall i | 0 <= i < |ids| ensures m.items[i] == Item(ids[i], states[i], payloads[i]) {
      U32RoundTrip(ids[i]);
    }
  }

  // ----- how a batch gets lost, in bytes -----

  /** The frame of one task with id 0, state 0 and no payload. */
  function SmallFrame(): Bytes {
    [0, 0] + [0, 1] + [0, 0, 0, 0] + [0, 0] + [0, 0, 0, 0]
  }

  lemma SmallFrameIs()
    ensures R.Sent([0], [[]], [0]) == SmallFrame()
  {
    assert R.SentFrom([0], [[]], [0], 1) == [];
    assert R.SentFrom([0], [[]], [0], 0) == [0, 0, 0, 0] + [0, 0] + [0, 0, 0, 0];
  }

  /** A call that is offered exactly what is at the front gets that. */
  lemma RecvIs(front: Bytes, rest: Bytes, cuts: seq<P.Cut>, n: nat)
    requires n > 0 && !P.Stalls(cuts) && |front| == P.Offer(cuts, n)
    ensures P.Recv(P.Arriving(front + rest, cuts), n) == (Some(front), P.Arriving(rest, P.Pop(cuts)))
  {
    assert (front + rest)[..|front|] == front && (front + rest)[|front|..] == rest;
  }

  /** An id that comes in two parts: the worker goes on with an id of one byte, and
      three bytes of the batch are left for the next one. */
  lemma CutIdHappens()
    ensures var cuts := [P.Ready(2), P.Ready(2), P.Ready(1)];
      P.ReceiveBatch(P.Arriving(R.Sent([0], [[]], [0]), cuts))
        == (P.Got(([0, 0], [P.Job([0], 0, [])])), P.Arriving([0, 0, 0], []))
  {
    SmallFrameIs();
    var cuts := [P.Ready(2), P.Ready(2), P.Ready(1)];
    var job := [0, 0, 0, 0] + [0, 0] + [0, 0, 0, 0];
    assert SmallFrame() == [0, 0] + ([0, 1] + job);
    RecvIs([0, 0], [0, 1] + job, cuts, 2);
    RecvIs([0, 1], job, P.Pop(cuts), 2);
    assert P.Pop(P.Pop(cuts)) == [P.Ready(1)];
    var c, d, e := P.Arriving(SmallFrame(), cuts), P.Arriving([0, 1] + job, P.Pop(cuts)), P.Arriving(job, [P.Ready(1)]);
    P.FlagAndCount(c, [0, 0], [0, 1], d, e, true);
    ShortJob(job);
  }

  lemma ShortJob(job: Bytes)
    requires job == [0, 0, 0, 0] + [0, 0] + [0, 0, 0, 0]
    ensures P.ReceiveJobs(P.Arriving(job, [P.Ready(1)]), 1) == (P.Got([P.Job([0], 0, [])]), P.Arriving([0, 0, 0], []))
  {
    var afterState := [0, 0, 0, 0] + [0, 0, 0];
    var afterId := [0, 0] + afterState;
    assert job == [0] + afterId;
    ShortId(afterId, afterState, [0, 0, 0]);
    P.JobsCons(P.Arriving(job, [P.Ready(1)]), 1);
    assert [P.Job([0], 0, [])] + [] == [P.Job([0], 0, [])];
  }

  lemma ShortId(afterId: Bytes, afterState: Bytes, afterLength: Bytes)
    requires afterId == [0, 0] + afterState && afterState == [0, 0, 0, 0] + afterLength
    ensures P.ReceiveJob(P.Arriving([0] + afterId, [P.Ready(1)]))
      == (P.Got(P.Job([0], 0, [])), P.Arriving(afterLength, []))
  {
    RecvIs([0], afterId, [P.Ready(1)], 4);
    RecvIs([0, 0], afterState, [], 2);
    RecvIs([0, 0, 0, 0], afterLength, [], 4);
  }

  /** A stall after the flag: the next try takes the count for a flag and the id for a
      count, answers an empty batch and leaves eight bytes of the real one. */
  lemma StallHappens()
    ensures var cuts := [P.Ready(2), P.Stall];
      P.ReceiveBatch(P.Arriving(R.Sent([0], [[]], [0]), cuts))
        == (P.Got(([0, 1], [])), P.Arriving(SmallFrame()[6..], []))
  {
    SmallFrameIs();
    var cuts, rest := [P.Ready(2), P.Stall], SmallFrame()[6..];
    var afterFlag := [0, 1] + ([0, 0] + rest);
    assert SmallFrame() == [0, 0] + afterFlag;
    RecvIs([0, 0], afterFlag, cuts, 2);
    assert P.Pop(cuts) == [P.Stall];
    assert P.Receive(P.Arriving(SmallFrame(), cuts)) == (P.TimedOut, P.Arriving(afterFlag, []));
    RecvIs([0, 1], [0, 0] + rest, [], 2);
    RecvIs([0, 0], rest, [], 2);
    assert P.Receive(P.Arriving(afterFlag, [])) == (P.Got(([0, 1], [])), P.Arriving(rest, []));
  }

  /** A batch of 2^16 tasks is announced as none at all. */
  lemma OverlongHappens(ids: seq<Id>, data: seq<Bytes>, states: seq<U16>)
    requires R.Parallel(ids, data, states) && |ids| == U16_SPACE
    ensures Decode(R.Sent(ids, data, states)) == Some((Message(0, []), R.SentFrom(ids, data, states, 0)))
    ensures R.SentFrom(ids, data, states, 0) != []
  {
    U16RoundTrip(0);
    var b := R.Sent(ids, data, states);
    assert b[..2] == PutU16(0) && b[2..4] == PutU16(0) && b[4..] == R.SentFrom(ids, data, states, 0);
  }

  // ----- status flags -----

  datatype Status = Okay | BadRequest | ValidationError | InternalError | TimeoutError | StreamEvent

  function FlagOf(s: Status): U16 {
    match s
    case Okay => 1
    case BadRequest => 2
    case ValidationError => 4
    case InternalError => 8
    case TimeoutError => 16
    case StreamEvent => 32768
  }

  function CodeFor(s: Status): TaskCode {
    match s
    case Okay => Normal
    case BadRequest => TaskCode.BadRequestError
    case ValidationError => TaskCode.ValidationError
    case InternalError => TaskCode.InternalError
    case TimeoutError => TaskCode.TimeoutError
    case StreamEvent => TaskCode.StreamEvent
  }

  /** The server maps every flag a worker sends to the code of the same name, and
      different flags to different codes. */
  lemma FlagsAgree(s: Status, t: Status)
    ensures R.CodeOf(FlagOf(s)) == CodeFor(s)
    ensures R.CodeOf(FlagOf(s)) == R.CodeOf(FlagOf(t)) <==> s == t
  {
  }
}
