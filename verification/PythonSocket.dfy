/** The worker's socket as it is used: loops over a buffer that is filled packet by
    packet, lists that grow task by task, and a reply that is built and then sent
    in one piece. */
module PythonSocket {
  import opened Basics
  import opened Frames
  import opened PythonWire

  datatype SendError = DifferentLengths | CannotPack

  class Socket {
    var arriving: Arriving
    var sent: Bytes

    constructor (arriving: Arriving)
      ensures this.arriving == arriving && sent == []
    {
      this.arriving, sent := arriving, [];
    }

    method RecvSome(n: nat) returns (b: Option<Bytes>)
      requires n > 0
      modifies `arriving
      ensures (b, arriving) == Recv(old(arriving), n)
    {
      b, arriving := Recv(arriving, n).0, Recv(arriving, n).1;
    }

    /** Receives into the part of a buffer that is still empty. */
    method RecvInto(buffer: array<Byte>, from: nat) returns (packet: Option<nat>)
      requires from < buffer.Length
      modifies `arriving, buffer
      ensures var (got, d) := Recv(old(arriving), buffer.Length - from);
        && arriving == d && (packet.Some? <==> got.Some?)
        && (got.Some? ==>
              && packet.value == |got.value|
              && buffer[..from] == old(buffer[..from]) && buffer[from..from + packet.value] == got.value)
    {
      var (got, d) := Recv(arriving, buffer.Length - from);
      arriving := d;
      if got.None? {
        return None;
      }
      packet := Some(|got.value|);
      forall i | 0 <= i < |got.value| {
        buffer[from + i] := got.value[i];
      }
    }

    /** One more packet of a payload that is being rebuilt. */
    method ReceivePacket(buffer: array<Byte>, size: nat, ghost whole: (Outcome<Bytes>, Arriving))
      returns (packet: Option<nat>)
      requires size < buffer.Length
      requires Rebuilt(whole, buffer[..size], arriving, buffer.Length - size)
      modifies `arriving, buffer
      ensures packet.None? ==> whole == (TimedOut, arriving)
      ensures packet == Some(0) ==> whole == (Starved, arriving)
      ensures packet.Some? && packet.value > 0 ==>
        && size + packet.value <= buffer.Length
        && Rebuilt(whole, buffer[..size + packet.value], arriving, buffer.Length - (size + packet.value))
    {
      ghost var c, before := arriving, buffer[..size];
      OneMorePacket(whole, before, c, buffer.Length - size);
      packet := RecvInto(buffer, size);
      if packet.Some? {
        assert buffer[..size + packet.value] == before + Recv(c, buffer.Length - size).0.value;
      }
    }

    /** The payload is rebuilt whatever the packets. `Starved` stands for the loop that
        the original never leaves when the peer has cut the payload off. */
    method ReceiveAll(length: nat) returns (payload: Outcome<Bytes>)
      modifies `arriving
      ensures (payload, arriving) == RecvAll(old(arriving), length)
    {
      ghost var whole := RecvAll(arriving, length);
      var buffer := new Byte[length](_ => 0);
      var size := 0;
      assert buffer[..0] == [];
      NothingYet(whole, arriving, length);
      while size < length
        invariant size <= length
        invariant Rebuilt(whole, buffer[..size], arriving, buffer.Length - size)
      {
        var packet := ReceivePacket(buffer, size, whole);
        if packet.None? {
          return TimedOut;
        }
        if packet.value == 0 {
          return Starved;
        }
        size := size + packet.value;
      }
      assert buffer[..size] == buffer[..];
      NothingLeft(whole, buffer[..], arriving);
      payload := Got(buffer[..]);
    }

    /** One task of a batch. */
    method ReceiveOne() returns (job: Outcome<Job>)
      modifies `arriving
      ensures (job, arriving) == ReceiveJob(old(arriving))
    {
      var id := RecvSome(4);
      if id.None? { return TimedOut; }
      var state := RecvSome(2);
      if state.None? { return TimedOut; }
      var length := RecvSome(4);
      if length.None? { return TimedOut; }
      if |length.value| != 4 { return StructError; }
      var payload := ReceiveAll(GetU32(length.value));
      job := FinishJob(id.value, state.value, payload);
    }

    /** One call of `receive`. */
    method Receive() returns (r: Outcome<Batch>)
      modifies `arriving
      ensures var (out, d) := PythonWire.Receive(old(arriving));
        arriving == d && Returned(out, r)
    {
      var flag := RecvSome(2);
      if flag.None? { return TimedOut; }
      var batchSizeBytes := RecvSome(2);
      if batchSizeBytes.None? { return TimedOut; }
      if |batchSizeBytes.value| != 2 { return StructError; }
      r := ReceiveTasks(flag.value, GetU16(batchSizeBytes.value));
    }

    /** The next of `n` tasks that are still to come. */
    method ReceiveNext(ghost whole: (Outcome<seq<Job>>, Arriving), ghost jobs: seq<Job>, ghost n: nat)
      returns (job: Outcome<Job>)
      requires n > 0 && Continues(whole, jobs, ReceiveJobs(arriving, n))
      modifies `arriving
      ensures if job.Got? then Continues(whole, jobs + [job.value], ReceiveJobs(arriving, n - 1))
        else whole == (Failed(job), arriving)
    {
      OneMoreJob(whole, jobs, arriving, n);
      job := ReceiveOne();
    }

    method ReceiveTasks(flag: Bytes, n: nat) returns (r: Outcome<Batch>)
      modifies `arriving
      ensures var (out, d) := ReceiveJobs(old(arriving), n);
        arriving == d && Returned(WithFlag(flag, out), r)
    {
      var ids: seq<Bytes>, states: seq<U16>, payloads: seq<Bytes> := [], [], [];
      var batchSize := n;
      ghost var whole := ReceiveJobs(arriving, n);
      ghost var jobs: seq<Job> := [];
      NoJobsYet(whole);
      while batchSize > 0
        invariant |jobs| == n - batchSize && Columns(jobs, ids, states, payloads)
        invariant Continues(whole, jobs, ReceiveJobs(arriving, batchSize))
      {
        var job := ReceiveNext(whole, jobs, batchSize);
        batchSize := batchSize - 1;
        if !job.Got? {
          return FailedBatch(job);
        }
        ColumnsGrow(jobs, job.value, ids, states, payloads);
        ids, states, payloads := ids + [job.value.id], states + [job.value.state], payloads + [job.value.payload];
        jobs := jobs + [job.value];
      }
      NoJobsLeft(whole, jobs, arriving);
      return Got(Batch(flag, ids, states, payloads));
    }

    /** Sends a whole reply or, if it cannot be packed, nothing. */
    method Send(flag: int, ids: seq<Bytes>, states: seq<int>, payloads: seq<Bytes>) returns (error: Option<SendError>)
      modifies `sent
      ensures error.None? <==> Sendable(flag, ids, states, payloads)
      ensures sent == old(sent) + if Sendable(flag, ids, states, payloads) then Packed(flag, ids, states, payloads)
        else []
    {
      if !Packs16(flag) {
        return Some(CannotPack);
      }
      if |ids| != |payloads| {
        return Some(DifferentLengths);
      }
      if !Packs16(|ids|) {
        return Some(CannotPack);
      }
      var data := PutU16(flag) + PutU16(|ids|);
      var i := 0;
      while |ids| > 0 && (i < |ids| || i < |states|)
        invariant sent == old(sent) && i <= |ids| && (ids != [] ==> i <= |states|)
        invariant ids != [] ==> forall j :: 0 <= j < i ==> Packs16(states[j]) && |payloads[j]| < U32_SPACE
        invariant Sendable(flag, ids, states, payloads)
          ==> data + PackedFrom(ids, states, payloads, i) == Packed(flag, ids, states, payloads)
        decreases |ids| + |states| - 2 * i
      {
        if i == |ids| || i == |states| {
          return Some(DifferentLengths);
        }
        if !Packs16(states[i]) || |payloads[i]| >= U32_SPACE {
          return Some(CannotPack);
        }
        ghost var before := data;
        data := data + ids[i];
        data := data + PutU16(states[i]);
        data := data + PutU32(|payloads[i]|);
        data := data + payloads[i];
        if Sendable(flag, ids, states, payloads) {
          Regroup(before, ids[i], PutU16(states[i]), PutU32(|payloads[i]|), payloads[i],
            PackedFrom(ids, states, payloads, i + 1));
        }
        i := i + 1;
      }
      assert data + [] == data;
      sent := sent + data;
      return None;
    }
  }

  // ----- sending -----

  predicate Packs16(n: int) {
    0 <= n < U16_SPACE
  }

  /** What a reply must satisfy to be sent at all: as many payloads as ids, one
      state for each of them unless there is none, and every number in its field. */
  predicate Sendable(flag: int, ids: seq<Bytes>, states: seq<int>, payloads: seq<Bytes>) {
    && Packs16(flag) && |ids| == |payloads| < U16_SPACE
    && (ids != [] ==> |states| == |ids|)
    && forall i :: 0 <= i < |ids| ==> Packs16(states[i]) && |payloads[i]| < U32_SPACE
  }

  function PackedFrom(ids: seq<Bytes>, states: seq<int>, payloads: seq<Bytes>, i: nat): Bytes
    requires i <= |ids| == |payloads| && (ids != [] ==> |states| == |ids|)
    requires forall i :: 0 <= i < |ids| ==> Packs16(states[i]) && |payloads[i]| < U32_SPACE
    decreases |ids| - i
  {
    if i == |ids| then []
    else
      assert Packs16(states[i]);
      ids[i] + PutU16(states[i]) + PutU32(|payloads[i]|) + payloads[i] + PackedFrom(ids, states, payloads, i + 1)
  }

  function Packed(flag: int, ids: seq<Bytes>, states: seq<int>, payloads: seq<Bytes>): Bytes
    requires Sendable(flag, ids, states, payloads)
  {
    PutU16(flag) + PutU16(|ids|) + PackedFrom(ids, states, payloads, 0)
  }

  /** The message a reply amounts to when its ids are four bytes each. */
  function ReplyOf(flag: int, ids: seq<Bytes>, states: seq<int>, payloads: seq<Bytes>): (m: Message)
    requires Sendable(flag, ids, states, payloads) && forall i :: 0 <= i < |ids| ==> |ids[i]| == 4
    ensures Fits(m)
  {
    Message(flag, seq(|ids|, i requires 0 <= i < |ids| => Item(GetU32(ids[i]), states[i], payloads[i])))
  }

  lemma {:induction false} PackedFromIsItems(flag: int, ids: seq<Bytes>, states: seq<int>, payloads: seq<Bytes>, i: nat)
    requires Sendable(flag, ids, states, payloads) && forall i :: 0 <= i < |ids| ==> |ids[i]| == 4
    requires i <= |ids|
    ensures PackedFrom(ids, states, payloads, i) == PutItems(ReplyOf(flag, ids, states, payloads).items[i..])
    decreases |ids| - i
  {
    var items := ReplyOf(flag, ids, states, payloads).items;
    if i < |ids| {
      PackedFromIsItems(flag, ids, states, payloads, i + 1);
      U32Canonical(ids[i]);
      var rest := items[i..];
      assert rest[0] == items[i] && rest[1..] == items[i + 1..];
      assert PutItem(items[i]) == ids[i] + PutU16(states[i]) + PutU32(|payloads[i]|) + payloads[i];
    } else {
      assert items[i..] == [];
    }
  }

  /** A reply with four-byte ids is the frame of its message. */
  lemma PackedIsFrame(flag: int, ids: seq<Bytes>, states: seq<int>, payloads: seq<Bytes>)
    requires Sendable(flag, ids, states, payloads) && forall i :: 0 <= i < |ids| ==> |ids[i]| == 4
    ensures Packed(flag, ids, states, payloads) == Encode(ReplyOf(flag, ids, states, payloads))
  {
    PackedFromIsItems(flag, ids, states, payloads, 0);
    assert ReplyOf(flag, ids, states, payloads).items[0..] == ReplyOf(flag, ids, states, payloads).items;
  }

  // ----- receiving, step by step -----

  /** What was rebuilt so far and what is still to come make the payload. */
  ghost predicate Rebuilt(whole: (Outcome<Bytes>, Arriving), sofar: Bytes, c: Arriving, length: nat) {
    whole == (WithPacket(sofar, RecvAll(c, length).0), RecvAll(c, length).1)
  }

  lemma NothingYet(whole: (Outcome<Bytes>, Arriving), c: Arriving, length: nat)
    requires whole == RecvAll(c, length)
    ensures Rebuilt(whole, [], c, length)
  {
    if whole.0.Got? {
      assert [] + whole.0.value == whole.0.value;
    }
  }

  lemma NothingLeft(whole: (Outcome<Bytes>, Arriving), sofar: Bytes, c: Arriving)
    requires Rebuilt(whole, sofar, c, 0)
    ensures whole == (Got(sofar), c)
  {
    assert sofar + [] == sofar;
  }

  lemma OneMorePacket(whole: (Outcome<Bytes>, Arriving), sofar: Bytes, c: Arriving, length: nat)
    requires 0 < length && Rebuilt(whole, sofar, c, length)
    ensures var (packet, d) := Recv(c, length);
      if packet.None? then whole == (TimedOut, d)
      else if packet.value == [] then whole == (Starved, d)
      else Rebuilt(whole, sofar + packet.value, d, length - |packet.value|)
  {
    var (packet, d) := Recv(c, length);
    if packet.Some? && packet.value != [] {
      var more := RecvAll(d, length - |packet.value|).0;
      if more.Got? {
        Joined(sofar, packet.value, more.value);
      }
    }
  }

  /** What a call of `receive` returns. */
  datatype Batch = Batch(flag: Bytes, ids: seq<Bytes>, states: seq<U16>, payloads: seq<Bytes>)

  /** The batch in columns, or the same failure. */
  ghost predicate Returned(out: Outcome<(Bytes, seq<Job>)>, r: Outcome<Batch>) {
    match out
    case Got(v) => r.Got? && r.value.flag == v.0 && Columns(v.1, r.value.ids, r.value.states, r.value.payloads)
    case StructError => r == StructError
    case TimedOut => r == TimedOut
    case Starved => r == Starved
  }

  ghost predicate Columns(jobs: seq<Job>, ids: seq<Bytes>, states: seq<U16>, payloads: seq<Bytes>) {
    |ids| == |states| == |payloads| == |jobs| &&
    forall i :: 0 <= i < |jobs| ==> jobs[i] == Job(ids[i], states[i], payloads[i])
  }

  lemma ColumnsGrow(jobs: seq<Job>, job: Job, ids: seq<Bytes>, states: seq<U16>, payloads: seq<Bytes>)
    requires Columns(jobs, ids, states, payloads)
    ensures Columns(jobs + [job], ids + [job.id], states + [job.state], payloads + [job.payload])
  {
  }

  /** The same failure of a whole batch. */
  function Failed(job: Outcome<Job>): Outcome<seq<Job>>
    requires !job.Got?
  {
    match job
    case StructError => StructError
    case TimedOut => TimedOut
    case Starved => Starved
  }

  function FailedBatch(job: Outcome<Job>): (r: Outcome<Batch>)
    requires !job.Got?
    ensures Returned(WithFlag([], Failed(job)), r)
  {
    match job
    case StructError => StructError
    case TimedOut => TimedOut
    case Starved => Starved
  }

  /** What came so far and what is still to come make the batch. */
  ghost predicate Continues(whole: (Outcome<seq<Job>>, Arriving), jobs: seq<Job>, more: (Outcome<seq<Job>>, Arriving)) {
    && whole.1 == more.1
    && if more.0.Got? then whole.0 == Got(jobs + more.0.value) else whole.0 == more.0
  }

  lemma NoJobsYet(whole: (Outcome<seq<Job>>, Arriving))
    ensures Continues(whole, [], whole)
  {
    if whole.0.Got? {
      assert [] + whole.0.value == whole.0.value;
    }
  }

  lemma NoJobsLeft(whole: (Outcome<seq<Job>>, Arriving), jobs: seq<Job>, c: Arriving)
    requires Continues(whole, jobs, ReceiveJobs(c, 0))
    ensures whole == (Got(jobs), c)
  {
    assert jobs + [] == jobs;
  }

  lemma OneMoreJob(whole: (Outcome<seq<Job>>, Arriving), jobs: seq<Job>, c: Arriving, n: nat)
    requires n > 0 && Continues(whole, jobs, ReceiveJobs(c, n))
    ensures var (job, d) := ReceiveJob(c);
      if job.Got? then Continues(whole, jobs + [job.value], ReceiveJobs(d, n - 1)) else whole == (Failed(job), d)
  {
    JobsCons(c, n);
    var (job, d) := ReceiveJob(c);
    if job.Got? && ReceiveJobs(d, n - 1).0.Got? {
      var more := ReceiveJobs(d, n - 1).0.value;
      assert jobs + ([job.value] + more) == jobs + [job.value] + more;
    }
  }
}
