/** The worker's end of the socket: receiving a batch. A `recv` may return fewer
    bytes than it was asked for, and may time out. */
module PythonWire {
  import opened Basics
  import opened Frames

  /** What one call finds: some bytes, or none until its timeout. */
  datatype Cut = Ready(n: nat) | Stall

  /** What is still to come before the peer closes, and what each coming call finds;
      beyond the list every call finds enough. */
  datatype Arriving = Arriving(bytes: Bytes, cuts: seq<Cut>)

  function Pop(cuts: seq<Cut>): (rest: seq<Cut>)
    ensures cuts != [] ==> |rest| < |cuts|
  {
    if cuts == [] then [] else cuts[1..]
  }

  predicate Stalls(cuts: seq<Cut>) {
    cuts != [] && cuts[0].Stall?
  }

  /** How much a call that asks for `n` bytes is offered when it does not stall. */
  function Offer(cuts: seq<Cut>, n: nat): (k: nat)
    requires n > 0
    ensures 0 < k <= n
  {
    if cuts == [] || cuts[0].Stall? || cuts[0].n >= n then n else Max(1, cuts[0].n)
  }

  function Least(a: nat, b: nat): nat {
    if a < b then a else b
  }

  /** One `recv(n)`: a timeout takes nothing, and no bytes come back only at the end
      of the stream. */
  function Recv(c: Arriving, n: nat): (r: (Option<Bytes>, Arriving))
    requires n > 0
    ensures r.0.None? ==> Stalls(c.cuts) && r.1 == Arriving(c.bytes, c.cuts[1..])
    ensures r.0.Some? ==>
      |r.0.value| <= n && |c.bytes| == |r.0.value| + |r.1.bytes| && (r.0.value == [] <==> c.bytes == [])
    ensures r.1.cuts == Pop(c.cuts)
  {
    if Stalls(c.cuts) then (None, Arriving(c.bytes, Pop(c.cuts)))
    else
      var k := Least(Offer(c.cuts, n), |c.bytes|);
      (Some(c.bytes[..k]), Arriving(c.bytes[k..], Pop(c.cuts)))
  }

  /** How a call ends: with a value; with the error that unpacking a short field
      raises; with a timeout; or never, for a payload that the peer cut off is
      asked for again and again. */
  datatype Outcome<+T> = Got(value: T) | StructError | TimedOut | Starved

  /** Repeated receiving of what is missing. */
  function RecvAll(c: Arriving, length: nat): (r: (Outcome<Bytes>, Arriving))
    ensures |r.1.bytes| <= |c.bytes| && |r.1.cuts| <= |c.cuts| && (r.0.TimedOut? ==> |r.1.cuts| < |c.cuts|)
    ensures r.0.Got? ==> |r.0.value| == length && |c.bytes| == length + |r.1.bytes|
    decreases length
  {
    if length == 0 then (Got([]), c)
    else
      match Recv(c, length)
      case (None, d) => (TimedOut, d)
      case (Some(packet), d) =>
        if packet == [] then (Starved, d)
        else
          var (more, e) := RecvAll(d, length - |packet|);
          (WithPacket(packet, more), e)
  }

  function WithPacket(packet: Bytes, more: Outcome<Bytes>): Outcome<Bytes> {
    match more
    case Got(b) => Got(packet + b)
    case StructError => StructError
    case TimedOut => TimedOut
    case Starved => Starved
  }

  /** No call of a payload stalls. */
  predicate Flows(cuts: seq<Cut>, length: nat)
    decreases length
  {
    length == 0 || (!Stalls(cuts) && Flows(Pop(cuts), length - Offer(cuts, length)))
  }

  /** The cuts that are left once a payload has been received. */
  function AfterPayload(cuts: seq<Cut>, length: nat): seq<Cut>
    decreases length
  {
    if length == 0 then cuts else AfterPayload(Pop(cuts), length - Offer(cuts, length))
  }

  /** A payload that is there is put together again however it is cut into packets,
      exactly if no call for it stalls. */
  lemma {:induction false} RecvAllExact(c: Arriving, length: nat)
    requires length <= |c.bytes|
    ensures RecvAll(c, length).0 == (if Flows(c.cuts, length) then Got(c.bytes[..length]) else TimedOut)
    ensures Flows(c.cuts, length) ==> RecvAll(c, length).1 == Arriving(c.bytes[length..], AfterPayload(c.cuts, length))
    decreases length
  {
    if length > 0 && !Stalls(c.cuts) {
      var (packet, d) := Recv(c, length);
      RecvAllExact(d, length - |packet.value|);
      assert c.bytes[..length] == packet.value + d.bytes[..length - |packet.value|];
    }
  }

  // ----- receiving -----

  /** A task as the worker sees it: the id stays as the bytes that came. */
  datatype Job = Job(id: Bytes, state: U16, payload: Bytes)

  function JobSize(job: Job): nat {
    |job.id| + 6 + |job.payload|
  }

  function JobsSize(jobs: seq<Job>): nat {
    if jobs == [] then 0 else JobSize(jobs[0]) + JobsSize(jobs[1..])
  }

  function ReceiveJob(c: Arriving): (r: (Outcome<Job>, Arriving))
    ensures |r.1.bytes| <= |c.bytes| && |r.1.cuts| <= |c.cuts| && (r.0.TimedOut? ==> |r.1.cuts| < |c.cuts|)
    ensures r.0.Got? ==> |c.bytes| == JobSize(r.0.value) + |r.1.bytes|
  {
    var (id, c1) := Recv(c, 4);
    if id.None? then (TimedOut, c1)
    else
      var (state, c2) := Recv(c1, 2);
      if state.None? then (TimedOut, c2)
      else
        var (length, c3) := Recv(c2, 4);
        if length.None? then (TimedOut, c3)
        else if |length.value| != 4 then (StructError, c3)
        else
          var (payload, c4) := RecvAll(c3, GetU32(length.value));
          (FinishJob(id.value, state.value, payload), c4)
  }

  /** The state is unpacked only after the payload has come. */
  function FinishJob(id: Bytes, state: Bytes, payload: Outcome<Bytes>): Outcome<Job> {
    match payload
    case Got(b) => if |state| != 2 then StructError else Got(Job(id, GetU16(state), b))
    case StructError => StructError
    case TimedOut => TimedOut
    case Starved => Starved
  }

  function ReceiveJobs(c: Arriving, n: nat): (r: (Outcome<seq<Job>>, Arriving))
    ensures |r.1.bytes| <= |c.bytes| && |r.1.cuts| <= |c.cuts| && (r.0.TimedOut? ==> |r.1.cuts| < |c.cuts|)
    ensures r.0.Got? ==> |c.bytes| == JobsSize(r.0.value) + |r.1.bytes|
    decreases n
  {
    if n == 0 then (Got([]), c)
    else
      var (job, d) := ReceiveJob(c);
      match job
      case StructError => (StructError, d)
      case TimedOut => (TimedOut, d)
      case Starved => (Starved, d)
      case Got(j) =>
        var (jobs, e) := ReceiveJobs(d, n - 1);
        (WithFirst(j, jobs), e)
  }

  function WithFirst(job: Job, jobs: Outcome<seq<Job>>): (r: Outcome<seq<Job>>)
    ensures jobs.Got? ==> r.Got? && JobsSize(r.value) == JobSize(job) + JobsSize(jobs.value)
  {
    match jobs
    case Got(js) =>
      assert ([job] + js)[1..] == js;
      Got([job] + js)
    case StructError => StructError
    case TimedOut => TimedOut
    case Starved => Starved
  }

  /** One call of `receive`. */
  function Receive(c: Arriving): (r: (Outcome<(Bytes, seq<Job>)>, Arriving))
    ensures |r.1.bytes| <= |c.bytes| && |r.1.cuts| <= |c.cuts| && (r.0.TimedOut? ==> |r.1.cuts| < |c.cuts|)
    ensures r.0.Got? ==> |c.bytes| == |r.0.value.0| + 2 + JobsSize(r.0.value.1) + |r.1.bytes|
  {
    var (flag, c1) := Recv(c, 2);
    if flag.None? then (TimedOut, c1)
    else
      var (count, c2) := Recv(c1, 2);
      if count.None? then (TimedOut, c2)
      else if |count.value| != 2 then (StructError, c2)
      else
        var (jobs, d) := ReceiveJobs(c2, GetU16(count.value));
        (WithFlag(flag.value, jobs), d)
  }

  function WithFlag(flag: Bytes, jobs: Outcome<seq<Job>>): Outcome<(Bytes, seq<Job>)> {
    match jobs
    case Got(js) => Got((flag, js))
    case StructError => StructError
    case TimedOut => TimedOut
    case Starved => Starved
  }

  /** Receiving is tried again after a timeout, from wherever the timeout left the
      stream. */
  function ReceiveBatch(c: Arriving): (r: (Outcome<(Bytes, seq<Job>)>, Arriving))
    ensures !r.0.TimedOut?
    decreases |c.cuts|
  {
    var (out, d) := Receive(c);
    if out.TimedOut? then ReceiveBatch(d) else (out, d)
  }

  function JobOf(item: Item): Job {
    Job(PutU32(item.id), item.state, item.data)
  }

  function JobsOf(items: seq<Item>): (jobs: seq<Job>)
    ensures |jobs| == |items|
  {
    seq(|items|, i requires 0 <= i < |items| => JobOf(items[i]))
  }

  // ----- how receiving ends -----

  predicate NoStall(cuts: seq<Cut>) {
    forall i :: 0 <= i < |cuts| ==> cuts[i].Ready?
  }

  /** Only a call that stalls makes a timeout, and only the end of the stream starves. */
  predicate Ends(c: Arriving, timedOut: bool, starved: bool, d: Arriving) {
    && (NoStall(c.cuts) ==> NoStall(d.cuts) && !timedOut)
    && (starved ==> d.bytes == [])
  }

  lemma {:induction false} PayloadEnds(c: Arriving, length: nat)
    ensures var (out, d) := RecvAll(c, length);
      Ends(c, out.TimedOut?, out.Starved?, d) && !out.StructError?
    decreases length
  {
    if length > 0 && Recv(c, length).0.Some? && Recv(c, length).0.value != [] {
      PayloadEnds(Recv(c, length).1, length - |Recv(c, length).0.value|);
    }
  }

  lemma JobEnds(c: Arriving)
    ensures var (out, d) := ReceiveJob(c);
      Ends(c, out.TimedOut?, out.Starved?, d)
  {
    var (id, c1) := Recv(c, 4);
    if id.Some? {
      var (state, c2) := Recv(c1, 2);
      if state.Some? {
        var (length, c3) := Recv(c2, 4);
        if length.Some? && |length.value| == 4 {
          PayloadEnds(c3, GetU32(length.value));
          JobPayload(c, id.value, c1, state.value, c2, length.value, c3);
        }
      }
    }
  }

  predicate JobsMeetEnd(c: Arriving, n: nat) {
    var (out, d) := ReceiveJobs(c, n);
    Ends(c, out.TimedOut?, out.Starved?, d)
  }

  lemma OneJobMore(c: Arriving, n: nat)
    requires ReceiveJob(c).0.Got? ==> JobsMeetEnd(ReceiveJob(c).1, n)
    ensures JobsMeetEnd(c, n + 1)
  {
    JobEnds(c);
    JobsCons(c, n + 1);
  }

  lemma {:induction false} JobsEnd(c: Arriving, n: nat)
    ensures JobsMeetEnd(c, n)
    decreases n
  {
    if n > 0 {
      var less: nat := n - 1;
      if ReceiveJob(c).0.Got? {
        JobsEnd(ReceiveJob(c).1, less);
      }
      OneJobMore(c, less);
    }
  }

  /** What fields that come short do: a length raises before the payload is asked for, a
      state only after the payload has been taken, and an id is kept as it came. */
  lemma ShortFields(c: Arriving, id: Bytes, c1: Arriving, state: Bytes, c2: Arriving, length: Bytes, c3: Arriving)
    requires Recv(c, 4) == (Some(id), c1) && Recv(c1, 2) == (Some(state), c2) && Recv(c2, 4) == (Some(length), c3)
    ensures |length| != 4 ==> ReceiveJob(c) == (StructError, c3)
    ensures |length| == 4 && GetU32(length) <= |c3.bytes| && Flows(c3.cuts, GetU32(length)) ==>
      var n, (out, d) := GetU32(length), ReceiveJob(c);
      && d == Arriving(c3.bytes[n..], AfterPayload(c3.cuts, n))
      && out == if |state| == 2 then Got(Job(id, GetU16(state), c3.bytes[..n])) else StructError
  {
    if |length| == 4 && GetU32(length) <= |c3.bytes| {
      JobPayload(c, id, c1, state, c2, length, c3);
      RecvAllExact(c3, GetU32(length));
    }
  }

  /** One call of `receive` times out only if some `recv` stalls, and goes on for ever only
      when the stream has ended inside a payload. */
  lemma ReceiveEnds(c: Arriving)
    ensures var (out, d) := Receive(c);
      Ends(c, out.TimedOut?, out.Starved?, d)
  {
    var (flag, c1) := Recv(c, 2);
    if flag.Some? {
      var (count, c2) := Recv(c1, 2);
      if count.Some? && |count.value| == 2 {
        JobsEnd(c2, GetU16(count.value));
      }
    }
  }

  // ----- when a message is received as it was sent -----

  /** The next call gets all of the `n` bytes it asks for, in time. */
  predicate Whole(cuts: seq<Cut>, n: nat) {
    cuts == [] || (cuts[0].Ready? && cuts[0].n >= n)
  }

  predicate JobWhole(cuts: seq<Cut>, length: nat) {
    Whole(cuts, 4) && Whole(Pop(cuts), 2) && Whole(Pop(Pop(cuts)), 4) && Flows(Pop(Pop(Pop(cuts))), length)
  }

  function AfterJob(cuts: seq<Cut>, length: nat): seq<Cut> {
    AfterPayload(Pop(Pop(Pop(cuts))), length)
  }

  predicate JobsWhole(cuts: seq<Cut>, items: seq<Item>)
    decreases |items|
  {
    items == [] || (JobWhole(cuts, |items[0].data|) && JobsWhole(AfterJob(cuts, |items[0].data|), items[1..]))
  }

  /** No fixed-size field is cut, and no call stalls; payloads may be cut anywhere. */
  predicate MessageWhole(cuts: seq<Cut>, m: Message) {
    Whole(cuts, 2) && Whole(Pop(cuts), 2) && JobsWhole(Pop(Pop(cuts)), m.items)
  }

  /** A field of `n` bytes at the front arrives exactly if its call is whole. */
  lemma RecvField(field: Bytes, rest: Bytes, cuts: seq<Cut>)
    requires |field| > 1
    ensures var (got, d) := Recv(Arriving(field + rest, cuts), |field|);
      && (Whole(cuts, |field|) ==> got == Some(field) && d == Arriving(rest, Pop(cuts)))
      && (!Whole(cuts, |field|) ==> got.None? || |got.value| < |field|)
  {
    assert (field + rest)[..|field|] == field && (field + rest)[|field|..] == rest;
  }

  lemma JobExactly(item: Item, rest: Bytes, cuts: seq<Cut>)
    requires ItemFits(item)
    ensures var (out, d) := ReceiveJob(Arriving(PutItem(item) + rest, cuts));
      && (out == Got(JobOf(item)) <==> JobWhole(cuts, |item.data|))
      && (JobWhole(cuts, |item.data|) ==> d == Arriving(rest, AfterJob(cuts, |item.data|)))
  {
    var c := Arriving(PutItem(item) + rest, cuts);
    var c1, c2, c3 := JobFields(c, item, rest);
    if Whole(cuts, 4) {
      JobFromFields(c, c1, c2, c3, item, rest);
    } else {
      IdCut(c);
    }
  }

  /** What the calls for the three fields of a task find. */
  lemma JobFields(c: Arriving, item: Item, rest: Bytes) returns (c1: Arriving, c2: Arriving, c3: Arriving)
    requires ItemFits(item) && c.bytes == PutItem(item) + rest
    ensures c3.bytes == item.data + rest
    ensures c1.cuts == Pop(c.cuts) && c2.cuts == Pop(c1.cuts) && c3.cuts == Pop(c2.cuts)
    ensures FieldAt(c, PutU32(item.id), c1)
    ensures FieldAt(c1, PutU16(item.state), c2)
    ensures FieldAt(c2, PutU32(|item.data|), c3)
  {
    var id, state, length := PutU32(item.id), PutU16(item.state), PutU32(|item.data|);
    c3 := Arriving(item.data + rest, Pop(Pop(Pop(c.cuts))));
    c2 := Arriving(length + c3.bytes, Pop(Pop(c.cuts)));
    c1 := Arriving(state + c2.bytes, Pop(c.cuts));
    assert c.bytes == id + c1.bytes;
    RecvField(id, c1.bytes, c.cuts);
    RecvField(state, c2.bytes, c1.cuts);
    RecvField(length, c3.bytes, c2.cuts);
  }

  /** The next call is for this field, and gets it whole or else comes short. */
  predicate FieldAt(c: Arriving, field: Bytes, after: Arriving)
    requires field != []
  {
    var (got, d) := Recv(c, |field|);
    if Whole(c.cuts, |field|) then got == Some(field) && d == after else got.None? || |got.value| < |field|
  }

  lemma JobFromFields(c: Arriving, c1: Arriving, c2: Arriving, c3: Arriving, item: Item, rest: Bytes)
    requires ItemFits(item) && c3.bytes == item.data + rest && Whole(c.cuts, 4)
    requires FieldAt(c, PutU32(item.id), c1) && FieldAt(c1, PutU16(item.state), c2)
      && FieldAt(c2, PutU32(|item.data|), c3)
    ensures var whole := Whole(c1.cuts, 2) && Whole(c2.cuts, 4) && Flows(c3.cuts, |item.data|);
      && (ReceiveJob(c).0 == Got(JobOf(item)) <==> whole)
      && (whole ==> ReceiveJob(c).1 == Arriving(rest, AfterPayload(c3.cuts, |item.data|)))
  {
    if Whole(c1.cuts, 2) && Whole(c2.cuts, 4) {
      JobPayload(c, PutU32(item.id), c1, PutU16(item.state), c2, PutU32(|item.data|), c3);
      PayloadExactly(item, rest, c3.cuts);
    } else {
      StateOrLengthCut(c, c1);
    }
  }

  lemma PayloadExactly(item: Item, rest: Bytes, cuts: seq<Cut>)
    requires ItemFits(item)
    ensures var (out, d) := RecvAll(Arriving(item.data + rest, cuts), GetU32(PutU32(|item.data|)));
      && (FinishJob(PutU32(item.id), PutU16(item.state), out) == Got(JobOf(item)) <==> Flows(cuts, |item.data|))
      && (Flows(cuts, |item.data|) ==> d == Arriving(rest, AfterPayload(cuts, |item.data|)))
  {
    U32RoundTrip(|item.data|);
    U16RoundTrip(item.state);
    RecvAllExact(Arriving(item.data + rest, cuts), |item.data|);
    assert (item.data + rest)[..|item.data|] == item.data && (item.data + rest)[|item.data|..] == rest;
  }

  lemma IdCut(c: Arriving)
    requires Recv(c, 4).0.None? || |Recv(c, 4).0.value| < 4
    ensures ReceiveJob(c).0.Got? ==> |ReceiveJob(c).0.value.id| < 4
  {
  }

  lemma StateOrLengthCut(c: Arriving, c1: Arriving)
    requires Recv(c, 4).1 == c1
    requires var (state, c2) := Recv(c1, 2);
      state.None? || |state.value| < 2 || Recv(c2, 4).0.None? || |Recv(c2, 4).0.value| < 4
    ensures !ReceiveJob(c).0.Got?
  {
  }

  lemma JobPayload(c: Arriving, id: Bytes, c1: Arriving, state: Bytes, c2: Arriving, length: Bytes, c3: Arriving)
    requires |length| == 4
    requires Recv(c, 4) == (Some(id), c1) && Recv(c1, 2) == (Some(state), c2) && Recv(c2, 4) == (Some(length), c3)
    ensures ReceiveJob(c) == (FinishJob(id, state, RecvAll(c3, GetU32(length)).0), RecvAll(c3, GetU32(length)).1)
  {
  }

  lemma {:induction false} JobsExactly(items: seq<Item>, rest: Bytes, cuts: seq<Cut>)
    requires forall i :: 0 <= i < |items| ==> ItemFits(items[i])
    ensures var (out, d) := ReceiveJobs(Arriving(PutItems(items) + rest, cuts), |items|);
      && (out == Got(JobsOf(items)) <==> JobsWhole(cuts, items))
      && (JobsWhole(cuts, items) ==> d.bytes == rest)
    decreases |items|
  {
    if items == [] {
      assert PutItems(items) + rest == rest;
    } else {
      var tail := PutItems(items[1..]) + rest;
      Joined(PutItem(items[0]), PutItems(items[1..]), rest);
      JobExactly(items[0], tail, cuts);
      var later := AfterJob(cuts, |items[0].data|);
      JobsExactly(items[1..], rest, later);
      var c := Arriving(PutItem(items[0]) + tail, cuts);
      JobThenJobs(c, Arriving(tail, later), items, JobWhole(cuts, |items[0].data|), JobsWhole(later, items[1..]));
      if JobWhole(cuts, |items[0].data|) {
        JobsCons(c, |items|);
      }
    }
  }

  lemma JobThenJobs(c: Arriving, d: Arriving, items: seq<Item>, first: bool, others: bool)
    requires items != []
    requires ReceiveJob(c).0 == Got(JobOf(items[0])) <==> first
    requires first ==> ReceiveJob(c).1 == d
    requires ReceiveJobs(d, |items| - 1).0 == Got(JobsOf(items[1..])) <==> others
    ensures ReceiveJobs(c, |items|).0 == Got(JobsOf(items)) <==> first && others
  {
    JobsOfCons(items);
    JobsCons(c, |items|);
    var (job, after) := ReceiveJob(c);
    ConsExactly(job, ReceiveJobs(after, |items| - 1).0, ReceiveJobs(c, |items|).0, JobOf(items[0]), JobsOf(items[1..]));
  }

  lemma JobsOfCons(items: seq<Item>)
    requires items != []
    ensures JobsOf(items) == [JobOf(items[0])] + JobsOf(items[1..])
  {
  }

  /** The first task of a batch, then the others; or how the first one fails. */
  lemma JobsCons(c: Arriving, n: nat)
    requires n > 0
    ensures var (job, d) := ReceiveJob(c);
      if job.Got? then ReceiveJobs(c, n) == (WithFirst(job.value, ReceiveJobs(d, n - 1).0), ReceiveJobs(d, n - 1).1)
      else
        && ReceiveJobs(c, n).1 == d
        && ReceiveJobs(c, n).0 ==
          (if job.StructError? then StructError else if job.TimedOut? then TimedOut else Starved)
  {
  }

  lemma ConsExactly(job: Outcome<Job>, jobs: Outcome<seq<Job>>, all: Outcome<seq<Job>>, x: Job, xs: seq<Job>)
    requires if job.Got? then all == WithFirst(job.value, jobs) else !all.Got?
    ensures all == Got([x] + xs) <==> job == Got(x) && jobs == Got(xs)
  {
    if job.Got? && jobs.Got? {
      var js := [job.value] + jobs.value;
      assert js[0] == job.value && js[1..] == jobs.value;
      assert ([x] + xs)[0] == x && ([x] + xs)[1..] == xs;
    }
  }

  /** One call receives a message as it was sent, and leaves what follows it alone,
      exactly if none of its fixed-size fields is cut and none of its calls stalls. */
  lemma ReceivedExactly(m: Message, rest: Bytes, cuts: seq<Cut>)
    requires Fits(m)
    ensures var (out, d) := Receive(Arriving(Encode(m) + rest, cuts));
      && (out == Got((PutU16(m.flag), JobsOf(m.items))) <==> MessageWhole(cuts, m))
      && (MessageWhole(cuts, m) ==> d.bytes == rest)
  {
    var flag, count, tail := PutU16(m.flag), PutU16(|m.items|), PutItems(m.items) + rest;
    assert Encode(m) + rest == flag + (count + tail);
    var c := Arriving(Encode(m) + rest, cuts);
    RecvField(flag, count + tail, cuts);
    RecvField(count, tail, Pop(cuts));
    U16RoundTrip(|m.items|);
    JobsExactly(m.items, rest, Pop(Pop(cuts)));
    if Whole(cuts, 2) {
      FlagAndCount(c, flag, count, Arriving(count + tail, Pop(cuts)), Arriving(tail, Pop(Pop(cuts))),
        Whole(Pop(cuts), 2));
    } else {
      FlagCut(c);
    }
  }

  lemma FlagCut(c: Arriving)
    requires Recv(c, 2).0.None? || |Recv(c, 2).0.value| < 2
    ensures Receive(c).0.Got? ==> |Receive(c).0.value.0| < 2
  {
  }

  lemma FlagAndCount(c: Arriving, flag: Bytes, count: Bytes, d: Arriving, e: Arriving, whole: bool)
    requires |count| == 2 && Recv(c, 2) == (Some(flag), d)
    requires if whole then Recv(d, 2) == (Some(count), e) else Recv(d, 2).0.None? || |Recv(d, 2).0.value| < 2
    ensures if !whole then !Receive(c).0.Got?
      else Receive(c) == (WithFlag(flag, ReceiveJobs(e, GetU16(count)).0), ReceiveJobs(e, GetU16(count)).1)
  {
  }

  // ----- timeouts and trying again -----

  function SkipStalls(cuts: seq<Cut>): (rest: seq<Cut>)
    ensures !Stalls(rest)
  {
    if Stalls(cuts) then SkipStalls(cuts[1..]) else cuts
  }

  lemma {:induction false} ItemsSize(items: seq<Item>)
    requires forall i :: 0 <= i < |items| ==> ItemFits(items[i])
    ensures |PutItems(items)| == JobsSize(JobsOf(items))
  {
    if items != [] {
      JobsOfCons(items);
      assert JobsOf(items)[1..] == JobsOf(items[1..]);
      ItemsSize(items[1..]);
    }
  }

  /** A timeout inside a message has taken the bytes before it off the stream. */
  lemma TimeoutTakes(c: Arriving)
    requires Receive(c).0.TimedOut?
    ensures Stalls(c.cuts) ==> Receive(c).1 == Arriving(c.bytes, c.cuts[1..])
    ensures !Stalls(c.cuts) && c.bytes != [] ==> |Receive(c).1.bytes| < |c.bytes|
  {
    var (flag, c1) := Recv(c, 2);
    if flag.Some? && c.bytes != [] {
      assert |c1.bytes| < |c.bytes|;
    }
  }

  /** A batch that is read leaves less than what was there by exactly its size. */
  lemma {:induction false} BatchTakes(c: Arriving, m: Message)
    requires Fits(m) && ReceiveBatch(c).0 == Got((PutU16(m.flag), JobsOf(m.items)))
    ensures |ReceiveBatch(c).1.bytes| + |Encode(m)| <= |c.bytes|
    decreases |c.cuts|
  {
    var (out, d) := Receive(c);
    ItemsSize(m.items);
    if out.TimedOut? {
      BatchTakes(d, m);
    }
  }

  /** With retries after timeouts a message is received as it was sent, with what
      follows it left alone, if and only if calls stall only before its first byte
      and then no fixed-size field is cut and nothing stalls. */
  lemma {:induction false} BatchReceivedExactly(m: Message, rest: Bytes, cuts: seq<Cut>)
    requires Fits(m)
    ensures var (out, d) := ReceiveBatch(Arriving(Encode(m) + rest, cuts));
      out == Got((PutU16(m.flag), JobsOf(m.items))) && d.bytes == rest <==> MessageWhole(SkipStalls(cuts), m)
    decreases |cuts|
  {
    var c := Arriving(Encode(m) + rest, cuts);
    var (out, d) := Receive(c);
    ReceivedExactly(m, rest, cuts);
    if out.TimedOut? {
      TimeoutTakes(c);
      if Stalls(cuts) {
        BatchReceivedExactly(m, rest, cuts[1..]);
      } else {
        MessageStalled(m, rest, d);
      }
    }
  }

  /** Once bytes of a message are lost it cannot be received in its place any more. */
  lemma MessageStalled(m: Message, rest: Bytes, d: Arriving)
    requires Fits(m) && |d.bytes| < |Encode(m) + rest|
    ensures !(ReceiveBatch(d).0 == Got((PutU16(m.flag), JobsOf(m.items))) && ReceiveBatch(d).1.bytes == rest)
  {
    if ReceiveBatch(d).0 == Got((PutU16(m.flag), JobsOf(m.items))) {
      BatchTakes(d, m);
    }
  }
}
