/** Streaming from inside `forward`: the worker's thread, the thread that sends
    stream events, and the semaphore that keeps both off the socket at once. Each
    step is one operation on the semaphore, the queue or the socket. */
module Handshakes {
  import opened Basics

  datatype Event = Event(text: Bytes, index: int)

  datatype Frame = EventFrame(id: Bytes, text: Bytes) | ReplyFrame(ids: seq<Bytes>, payloads: seq<Bytes>) | NoFrame

  /** The worker's thread. */
  datatype Main =
    | Idle                              // waiting for a batch
    | Running                           // inside forward
    | Putting(event: Event)             // has acquired for an event, not yet queued it
    | Wanting(payloads: seq<Bytes>)     // about to acquire for the reply
    | Writing(payloads: seq<Bytes>)     // sending the reply
    | Releasing

  /** The thread that sends stream events. */
  datatype Streamer =
    | Waiting
    | Holding(event: Event)
    | Sending(frame: Frame)
    | Sent
    | Failed                            // the index named no task of the batch

  /** `turns` is a history variable: for each batch its ids, the events put for it
      and the reply, if it has been written. */
  datatype Turn = Turn(ids: seq<Bytes>, events: seq<Event>, reply: Option<seq<Bytes>>)

  datatype Process = Process(
    permits: nat,
    lost: nat,              // permits acquired for events that were never queued
    queue: seq<Event>,
    main: Main,
    streamer: Streamer,
    currentIds: seq<Bytes>,
    wire: seq<Frame>,
    turns: seq<Turn>)

  datatype Step =
    | Receive(ids: seq<Bytes>)
    | Acquire(event: Event)
    | Put
    | Interrupt(answer: seq<Bytes>)     // forward is interrupted after Acquire, before Put
    | Finish(payloads: seq<Bytes>)      // forward is over, one way or another
    | AcquireReply
    | GiveUpReply                       // the acquire of the reply times out
    | WriteReply
    | ReleaseReply
    | Pick
    | StartEvent
    | WriteEvent
    | ReleaseEvent

  /** Indexing a list counts from the end when the index is negative. */
  predicate Names(ids: seq<Bytes>, index: int) {
    -|ids| <= index < |ids|
  }

  function FrameOf(ids: seq<Bytes>, e: Event): Frame {
    if !Names(ids, e.index) then NoFrame
    else EventFrame(if e.index >= 0 then ids[e.index] else ids[|ids| + e.index], e.text)
  }

  const START: Process := Process(1, 0, [], Idle, Waiting, [], [], [])

  predicate Enabled(s: Process, e: Step) {
    match e
    case Receive(_) => s.main.Idle?
    case Acquire(_) => s.main.Running? && s.permits > 0
    case Put => s.main.Putting?
    case Interrupt(_) => s.main.Putting?
    case Finish(_) => s.main.Running?
    case AcquireReply => s.main.Wanting? && s.permits > 0
    case GiveUpReply => s.main.Wanting? && s.permits == 0
    case WriteReply => s.main.Writing? && s.turns != []
    case ReleaseReply => s.main.Releasing?
    case Pick => s.streamer.Waiting? && s.queue != []
    case StartEvent => s.streamer.Holding?
    case WriteEvent => s.streamer.Sending?
    case ReleaseEvent => s.streamer.Sent?
  }

  function Apply(s: Process, e: Step): Process
    requires Enabled(s, e)
  {
    match e
    case Receive(ids) => s.(main := Running, currentIds := ids, turns := s.turns + [Turn(ids, [], None)])
    case Acquire(event) => s.(main := Putting(event), permits := s.permits - 1)
    case Put =>
      s.(main := Running, queue := s.queue + [s.main.event], turns := WithEvent(s.turns, s.main.event))
    case Interrupt(answer) => s.(main := Wanting(answer), lost := s.lost + 1)
    case Finish(payloads) => s.(main := Wanting(payloads))
    case AcquireReply => s.(main := Writing(s.main.payloads), permits := s.permits - 1)
    case GiveUpReply => s.(main := Writing(s.main.payloads))
    case WriteReply =>
      s.(main := Releasing, wire := s.wire + [ReplyFrame(s.currentIds, s.main.payloads)],
         turns := WithReply(s.turns, s.main.payloads))
    case ReleaseReply => s.(main := Idle, permits := s.permits + 1)
    case Pick => s.(streamer := Holding(s.queue[0]), queue := s.queue[1..])
    case StartEvent =>
      var f := FrameOf(s.currentIds, s.streamer.event);
      s.(streamer := if f.NoFrame? then Failed else Sending(f))
    case WriteEvent => s.(streamer := Sent, wire := s.wire + [s.streamer.frame])
    case ReleaseEvent => s.(streamer := Waiting, permits := s.permits + 1)
  }

  function WithEvent(turns: seq<Turn>, e: Event): seq<Turn> {
    if turns == [] then []
    else var last := turns[|turns| - 1]; turns[|turns| - 1 := last.(events := last.events + [e])]
  }

  function WithReply(turns: seq<Turn>, payloads: seq<Bytes>): seq<Turn>
    requires turns != []
  {
    turns[|turns| - 1 := turns[|turns| - 1].(reply := Some(payloads))]
  }

  /** Two threads are sending on the socket at once. */
  predicate Overlap(s: Process) {
    s.main.Writing? && s.streamer.Sending?
  }

  /** `steps` leads from `s` to `t`. */
  predicate Runs(s: Process, steps: seq<Step>, t: Process)
    decreases |steps|
  {
    if steps == [] then s == t else Enabled(s, steps[0]) && Runs(Apply(s, steps[0]), steps[1..], t)
  }

  /** No acquire times out. */
  predicate Patient(steps: seq<Step>) {
    forall i :: 0 <= i < |steps| ==> !steps[i].GiveUpReply?
  }

  // ----- the permit -----

  function One(b: bool): nat {
    if b then 1 else 0
  }

  /** The streaming thread has an event in its hands. */
  predicate Active(t: Streamer) {
    t.Holding? || t.Sending? || t.Sent?
  }

  /** Permits that are free or with someone who may still give them back: an event that
      is queued or being sent, the worker between acquiring and queuing, the reply. */
  function Circulating(s: Process): nat {
    s.permits + |s.queue| + One(Active(s.streamer)) + One(s.main.Putting?)
      + One(s.main.Writing? || s.main.Releasing?)
  }

  /** At most one of all those who may go on holds a permit. */
  predicate AtMostOne(s: Process) {
    Circulating(s) <= 1
  }

  /** How many acquires of a reply time out. */
  function Timeouts(steps: seq<Step>): nat {
    if steps == [] then 0 else One(steps[0].GiveUpReply?) + Timeouts(steps[1..])
  }

  /** A timed-out acquire does no harm when there is no event it could meet. */
  predicate Harmless(s: Process, e: Step) {
    e.GiveUpReply? ==> s.queue == [] && !Active(s.streamer)
  }

  /** A run whose acquires time out only harmlessly. */
  predicate Careful(s: Process, steps: seq<Step>)
    decreases |steps|
  {
    steps == [] || (Enabled(s, steps[0]) && Harmless(s, steps[0]) && Careful(Apply(s, steps[0]), steps[1..]))
  }

  // ----- what is on the wire -----

  /** An event that names nobody is never sent. */
  function Shown(f: Frame): seq<Frame> {
    if f.NoFrame? then [] else [f]
  }

  function EventFrames(ids: seq<Bytes>, events: seq<Event>): seq<Frame> {
    if events == [] then []
    else EventFrames(ids, events[..|events| - 1]) + Shown(FrameOf(ids, events[|events| - 1]))
  }

  /** One batch: its events in the order they were put, then its reply. */
  function TurnFrames(t: Turn): seq<Frame> {
    EventFrames(t.ids, t.events) + if t.reply.Some? then [ReplyFrame(t.ids, t.reply.value)] else []
  }

  function AllFrames(turns: seq<Turn>): seq<Frame> {
    if turns == [] then [] else AllFrames(turns[..|turns| - 1]) + TurnFrames(turns[|turns| - 1])
  }

  /** What has been put but not yet written. */
  function Pending(s: Process): seq<Frame> {
    (match s.streamer
     case Holding(e) => Shown(FrameOf(s.currentIds, e))
     case Sending(f) => [f]
     case _ => [])
    + EventFrames(s.currentIds, s.queue)
  }

  /** No event is queued or in the streaming thread's hands. */
  predicate Quiet(s: Process) {
    s.queue == [] && !Active(s.streamer)
  }

  predicate BetweenTurns(m: Main) {
    m.Idle? || m.Releasing?
  }

  /** The wire is what the batches so far amount to, up to what is still pending. */
  predicate WireOk(s: Process) {
    s.wire + Pending(s) == AllFrames(s.turns)
  }

  /** Only the batch in work is unanswered, and no event is about without one. */
  predicate TurnsOk(s: Process) {
    && (forall k :: 0 <= k < |s.turns| - 1 ==> s.turns[k].reply.Some?)
    && (if BetweenTurns(s.main) then s.turns == [] || s.turns[|s.turns| - 1].reply.Some?
        else s.turns != [] && s.turns[|s.turns| - 1].reply == None && s.turns[|s.turns| - 1].ids == s.currentIds)
    && (BetweenTurns(s.main) || s.main.Writing? ==> Quiet(s))
  }

  predicate Inv(s: Process) {
    AtMostOne(s) && TurnsOk(s) && WireOk(s)
  }

  // ----- what every step keeps -----

  lemma PermitsKept(s: Process, e: Step)
    requires Enabled(s, e)
    ensures Circulating(Apply(s, e)) + Apply(s, e).lost + One(Apply(s, e).streamer.Failed?)
      == Circulating(s) + s.lost + One(s.streamer.Failed?) + One(e.GiveUpReply?)
  {
  }

  lemma ExclusionKept(s: Process, e: Step)
    requires AtMostOne(s) && Enabled(s, e) && Harmless(s, e)
    ensures AtMostOne(Apply(s, e))
  {
  }

  lemma TurnsKept(s: Process, e: Step)
    requires AtMostOne(s) && TurnsOk(s) && Enabled(s, e) && Harmless(s, e)
    ensures TurnsOk(Apply(s, e))
  {
  }

  lemma FramesOfOneMore(turns: seq<Turn>, t: Turn)
    ensures AllFrames(turns + [t]) == AllFrames(turns) + TurnFrames(t)
  {
    assert (turns + [t])[..|turns|] == turns;
  }

  lemma FramesOfLast(turns: seq<Turn>, t: Turn)
    requires turns != []
    ensures AllFrames(turns[|turns| - 1 := t]) == AllFrames(turns[..|turns| - 1]) + TurnFrames(t)
  {
    assert turns[|turns| - 1 := t] == turns[..|turns| - 1] + [t];
    FramesOfOneMore(turns[..|turns| - 1], t);
  }

  lemma FramesOfEvent(ids: seq<Bytes>, events: seq<Event>, e: Event)
    ensures EventFrames(ids, events + [e]) == EventFrames(ids, events) + Shown(FrameOf(ids, e))
    ensures EventFrames(ids, [e]) == Shown(FrameOf(ids, e))
  {
    assert (events + [e])[..|events|] == events;
    assert [e][..0] == [];
  }

  lemma ReceiveKeeps(s: Process, ids: seq<Bytes>)
    requires Inv(s) && s.main.Idle?
    ensures WireOk(Apply(s, Receive(ids)))
  {
    FramesOfOneMore(s.turns, Turn(ids, [], None));
    assert TurnFrames(Turn(ids, [], None)) == [];
    assert Pending(s) == [] && Pending(Apply(s, Receive(ids))) == [];
  }

  lemma PutKeeps(s: Process)
    requires Inv(s) && s.main.Putting?
    ensures WireOk(Apply(s, Put))
  {
    var e, turns := s.main.event, s.turns;
    var f := Shown(FrameOf(s.currentIds, e));
    OneEventMore(turns, e);
    assert s.queue == [] && Pending(s) == [] && s.wire + [] == s.wire;
    assert s.queue + [e] == [e];
    FramesOfEvent(s.currentIds, [], e);
    assert Pending(Apply(s, Put)) == f;
  }

  /** Frames added to the last batch are added to all of them. */
  lemma LastGrows(turns: seq<Turn>, t: Turn, more: seq<Frame>)
    requires turns != [] && TurnFrames(t) == TurnFrames(turns[|turns| - 1]) + more
    ensures AllFrames(turns[|turns| - 1 := t]) == AllFrames(turns) + more
  {
    FramesOfLast(turns, t);
    var before, last := AllFrames(turns[..|turns| - 1]), TurnFrames(turns[|turns| - 1]);
    assert before + (last + more) == before + last + more;
  }

  lemma {:induction false} OneEventMore(turns: seq<Turn>, e: Event)
    requires turns != [] && turns[|turns| - 1].reply == None
    ensures AllFrames(WithEvent(turns, e)) == AllFrames(turns) + Shown(FrameOf(turns[|turns| - 1].ids, e))
  {
    var last := turns[|turns| - 1];
    var longer := last.(events := last.events + [e]);
    FramesOfEvent(last.ids, last.events, e);
    assert TurnFrames(longer) == TurnFrames(last) + Shown(FrameOf(last.ids, e));
    LastGrows(turns, longer, Shown(FrameOf(last.ids, e)));
  }

  lemma {:induction false} WithReplyGrows(turns: seq<Turn>, payloads: seq<Bytes>)
    requires turns != [] && turns[|turns| - 1].reply == None
    ensures AllFrames(WithReply(turns, payloads)) == AllFrames(turns) + [ReplyFrame(turns[|turns| - 1].ids, payloads)]
  {
    var last := turns[|turns| - 1];
    var done := last.(reply := Some(payloads));
    assert TurnFrames(done) == TurnFrames(last) + [ReplyFrame(last.ids, payloads)];
    LastGrows(turns, done, [ReplyFrame(last.ids, payloads)]);
  }

  lemma WriteReplyKeeps(s: Process)
    requires Inv(s) && Enabled(s, WriteReply)
    ensures WireOk(Apply(s, WriteReply))
  {
    WithReplyGrows(s.turns, s.main.payloads);
    assert Pending(s) == [] && Pending(Apply(s, WriteReply)) == [];
    assert s.wire + [] == s.wire;
  }

  predicate OfStreamer(e: Step) {
    e.Pick? || e.StartEvent? || e.WriteEvent? || e.ReleaseEvent?
  }

  lemma PickPending(ids: seq<Bytes>, e: Event, queue: seq<Event>)
    requires queue == [e]
    ensures [] + EventFrames(ids, queue) == Shown(FrameOf(ids, e)) + EventFrames(ids, [])
  {
    FramesOfEvent(ids, [], e);
  }

  lemma PickKeeps(s: Process)
    requires Inv(s) && Enabled(s, Pick)
    ensures WireOk(Apply(s, Pick))
  {
    assert |s.queue| == 1 && Apply(s, Pick).queue == [];
    PickPending(s.currentIds, s.queue[0], s.queue);
  }

  /** Taking an event, starting to send it and sending it move the head of what is
      pending onto the wire. */
  lemma StreamerKeeps(s: Process, e: Step)
    requires Inv(s) && Enabled(s, e) && OfStreamer(e)
    ensures WireOk(Apply(s, e))
  {
    var t := Apply(s, e);
    match e
    case Pick => PickKeeps(s);
    case StartEvent =>
      assert s.queue == [] && Pending(t) == Pending(s);
    case WriteEvent =>
      assert s.queue == [] && Pending(s) == [s.streamer.frame] && Pending(t) == [];
    case ReleaseEvent =>
      assert Pending(t) == Pending(s);
  }

  lemma OthersKeep(s: Process, e: Step)
    requires Inv(s) && Enabled(s, e) && Harmless(s, e)
    requires e.Acquire? || e.Interrupt? || e.Finish? || e.AcquireReply? || e.GiveUpReply? || e.ReleaseReply?
    ensures WireOk(Apply(s, e))
  {
    assert Pending(Apply(s, e)) == Pending(s);
  }

  /** Every step keeps the wire and the exclusion, also an acquire that times out
      when there is no event it could meet. */
  lemma StepKeeps(s: Process, e: Step)
    requires Inv(s) && Enabled(s, e) && Harmless(s, e)
    ensures Inv(Apply(s, e))
  {
    ExclusionKept(s, e);
    TurnsKept(s, e);
    match e
    case Receive(ids) => ReceiveKeeps(s, ids);
    case Put => PutKeeps(s);
    case WriteReply => WriteReplyKeeps(s);
    case Pick => StreamerKeeps(s, e);
    case StartEvent => StreamerKeeps(s, e);
    case WriteEvent => StreamerKeeps(s, e);
    case ReleaseEvent => StreamerKeeps(s, e);
    case _ => OthersKeep(s, e);
  }

  lemma {:induction false} RunKeeps(s: Process, steps: seq<Step>, t: Process)
    requires Inv(s) && Careful(s, steps) && Runs(s, steps, t)
    ensures Inv(t)
    decreases |steps|
  {
    if steps != [] {
      StepKeeps(s, steps[0]);
      RunKeeps(Apply(s, steps[0]), steps[1..], t);
    }
  }

  lemma {:induction false} PatientRun(s: Process, steps: seq<Step>, t: Process)
    requires Patient(steps) && Runs(s, steps, t)
    ensures Careful(s, steps) && Timeouts(steps) == 0
    decreases |steps|
  {
    if steps != [] {
      assert !steps[0].GiveUpReply?;
      assert forall i :: 0 <= i < |steps[1..]| ==> steps[1..][i] == steps[i + 1];
      PatientRun(Apply(s, steps[0]), steps[1..], t);
    }
  }

  lemma {:induction false} PermitsAlong(s: Process, steps: seq<Step>, t: Process)
    requires Runs(s, steps, t)
    ensures Circulating(t) + t.lost + One(t.streamer.Failed?)
      == Circulating(s) + s.lost + One(s.streamer.Failed?) + Timeouts(steps)
    decreases |steps|
  {
    if steps != [] {
      PermitsKept(s, steps[0]);
      PermitsAlong(Apply(s, steps[0]), steps[1..], t);
    }
  }

  /** The law of the permits, over every run: those in circulation, those lost and that
      of a thread that failed are the one there was and one more for every acquire of
      a reply that timed out. */
  lemma PermitsCounted(steps: seq<Step>, t: Process)
    requires Runs(START, steps, t)
    ensures Circulating(t) + t.lost + One(t.streamer.Failed?) == 1 + Timeouts(steps)
  {
    PermitsAlong(START, steps, t);
  }

  /** Over every run whose acquires time out only when no event is queued or
      in the streaming thread's hands, the two threads are never on the socket
      together; what is on the wire is a beginning of the batches in order, each its
      own events in the order they were put and then its reply; and whenever the
      worker waits for a batch it is all of that. */
  lemma HandshakeIsSafe(steps: seq<Step>, t: Process)
    requires Careful(START, steps) && Runs(START, steps, t)
    ensures !Overlap(t) && !Misdelivered(t)
    ensures t.wire <= AllFrames(t.turns)
    ensures forall k :: 0 <= k < |t.turns| - 1 ==> t.turns[k].reply.Some?
    ensures BetweenTurns(t.main) ==>
      t.wire == AllFrames(t.turns) && forall k :: 0 <= k < |t.turns| ==> t.turns[k].reply.Some?
  {
    assert Pending(START) == [] && AllFrames([]) == [];
    RunKeeps(START, steps, t);
    InvIsSafe(t);
  }

  lemma InvIsSafe(t: Process)
    requires Inv(t)
    ensures !Overlap(t) && !Misdelivered(t) && t.wire <= AllFrames(t.turns)
    ensures BetweenTurns(t.main) ==> t.wire == AllFrames(t.turns)
  {
    assert t.wire + Pending(t) == AllFrames(t.turns);
    if Quiet(t) {
      assert Pending(t) == [];
    }
    forall i | 0 <= i < |t.wire| && t.wire[i].EventFrame? ensures WasPut(t.turns, t.wire[i]) {
      assert t.wire[i] == AllFrames(t.turns)[i];
      var k, j := FrameLocated(t.turns, i);
    }
  }

  // ----- whose event a frame is -----

  /** Some batch put an event that amounts to this frame. */
  predicate WasPut(turns: seq<Turn>, f: Frame) {
    exists k, j :: 0 <= k < |turns| && 0 <= j < |turns[k].events| && FrameOf(turns[k].ids, turns[k].events[j]) == f
  }

  /** An event is on the wire under an id that no batch that put it has. */
  predicate Misdelivered(s: Process) {
    exists i :: 0 <= i < |s.wire| && s.wire[i].EventFrame? && !WasPut(s.turns, s.wire[i])
  }

  lemma {:induction false} EventLocated(ids: seq<Bytes>, events: seq<Event>, i: nat) returns (j: nat)
    requires i < |EventFrames(ids, events)|
    ensures j < |events| && EventFrames(ids, events)[i] == FrameOf(ids, events[j])
    ensures i == |EventFrames(ids, events[..j])|
    decreases |events|
  {
    var n := |events| - 1;
    if i < |EventFrames(ids, events[..n])| {
      j := EventLocated(ids, events[..n], i);
      assert events[..n][..j] == events[..j];
    } else {
      j := n;
    }
  }

  /** Every event frame is exactly the frame of one event of one batch, and sits where
      that event's turn comes within the frames of that batch. */
  lemma {:induction false} FrameLocated(turns: seq<Turn>, i: nat) returns (k: nat, j: nat)
    requires i < |AllFrames(turns)| && AllFrames(turns)[i].EventFrame?
    ensures k < |turns| && j < |turns[k].events|
    ensures AllFrames(turns)[i] == FrameOf(turns[k].ids, turns[k].events[j])
    ensures i == |AllFrames(turns[..k])| + |EventFrames(turns[k].ids, turns[k].events[..j])|
    decreases |turns|
  {
    var n := |turns| - 1;
    var before := AllFrames(turns[..n]);
    if i < |before| {
      k, j := FrameLocated(turns[..n], i);
      assert turns[..n][..k] == turns[..k];
    } else {
      k := n;
      assert AllFrames(turns)[i] == TurnFrames(turns[n])[i - |before|];
      j := EventLocated(turns[n].ids, turns[n].events, i - |before|);
    }
  }

  /** How many of these events name a task of the batch. */
  function InRange(ids: seq<Bytes>, events: seq<Event>): (n: nat)
    ensures n <= |events|
  {
    if events == [] then 0
    else InRange(ids, events[..|events| - 1]) + One(-|ids| <= events[|events| - 1].index < |ids|)
  }

  lemma {:induction false} FramesInRange(ids: seq<Bytes>, events: seq<Event>)
    ensures |EventFrames(ids, events)| == InRange(ids, events)
    decreases |events|
  {
    if events != [] {
      FramesInRange(ids, events[..|events| - 1]);
    }
  }

  /** The frame is for the task that the index names: counted from the front, or from the
      end when it is negative. */
  predicate Addressed(f: Frame, ids: seq<Bytes>, e: Event) {
    && f.EventFrame? && f.text == e.text && -|ids| <= e.index < |ids|
    && (e.index >= 0 ==> f.id == ids[e.index])
    && (e.index < 0 ==> f.id == ids[|ids| + e.index])
  }

  /** In every such run an event on the wire is the event that its own batch put at
      that place, under the id that its index names in that batch. */
  lemma EventsNameTheirBatch(steps: seq<Step>, t: Process, i: nat) returns (k: nat, j: nat)
    requires Careful(START, steps) && Runs(START, steps, t) && i < |t.wire| && t.wire[i].EventFrame?
    ensures k < |t.turns| && j < |t.turns[k].events|
    ensures Addressed(t.wire[i], t.turns[k].ids, t.turns[k].events[j])
    ensures i == |AllFrames(t.turns[..k])| + InRange(t.turns[k].ids, t.turns[k].events[..j])
  {
    HandshakeIsSafe(steps, t);
    assert t.wire[i] == AllFrames(t.turns)[i];
    k, j := FrameLocated(t.turns, i);
    FramesInRange(t.turns[k].ids, t.turns[k].events[..j]);
  }

  /** What a batch amounts to on the wire: a frame for each event whose index names one of
      its tasks, addressed to that task, in the order the events were put, nothing for
      any other event, and then the reply with its ids and payloads. */
  lemma TurnExactly(t: Turn, j: nat)
    requires t.reply.Some?
    ensures |TurnFrames(t)| == InRange(t.ids, t.events) + 1
    ensures TurnFrames(t)[|TurnFrames(t)| - 1] == ReplyFrame(t.ids, t.reply.value)
    ensures j < |t.events| && -|t.ids| <= t.events[j].index < |t.ids| ==>
      var i := InRange(t.ids, t.events[..j]);
      i + 1 < |TurnFrames(t)| && Addressed(TurnFrames(t)[i], t.ids, t.events[j])
  {
    FramesInRange(t.ids, t.events);
    if j < |t.events| && -|t.ids| <= t.events[j].index < |t.ids| {
      EventAt(t.ids, t.events, j);
      FramesInRange(t.ids, t.events[..j]);
    }
  }

  lemma {:induction false} EventAt(ids: seq<Bytes>, events: seq<Event>, j: nat)
    requires j < |events| && -|ids| <= events[j].index < |ids|
    ensures |EventFrames(ids, events[..j])| < |EventFrames(ids, events)|
    ensures EventFrames(ids, events)[|EventFrames(ids, events[..j])|] == FrameOf(ids, events[j])
    decreases |events|
  {
    var n := |events| - 1;
    if j < n {
      EventAt(ids, events[..n], j);
      assert events[..n][..j] == events[..j];
    }
  }

  // ----- the batches are what the steps of the run say -----

  /** The event of the last acquire, and what `forward` last ended with. */
  function LastAcquired(steps: seq<Step>): Option<Event> {
    if steps == [] then None
    else if steps[|steps| - 1].Acquire? then Some(steps[|steps| - 1].event)
    else LastAcquired(steps[..|steps| - 1])
  }

  function LastAnswer(steps: seq<Step>): Option<seq<Bytes>> {
    if steps == [] then None
    else
      match steps[|steps| - 1]
      case Finish(payloads) => Some(payloads)
      case Interrupt(answer) => Some(answer)
      case _ => LastAnswer(steps[..|steps| - 1])
  }

  /** A run told by its steps alone: each received batch with the events acquired for and
      put while it was the last, and with the answer that was written for it. */
  function Told(steps: seq<Step>): seq<Turn> {
    if steps == [] then []
    else
      var before := Told(steps[..|steps| - 1]);
      match steps[|steps| - 1]
      case Receive(ids) => before + [Turn(ids, [], None)]
      case Put =>
        if before == [] || LastAcquired(steps).None? then before
        else
          var last := before[|before| - 1];
          before[..|before| - 1] + [Turn(last.ids, last.events + [LastAcquired(steps).value], last.reply)]
      case WriteReply =>
        if before == [] then before
        else
          var last := before[|before| - 1];
          before[..|before| - 1] + [Turn(last.ids, last.events, LastAnswer(steps))]
      case _ => before
  }

  /** Where the worker's thread stands, told by the steps. */
  predicate Minds(steps: seq<Step>, m: Main) {
    && (m.Putting? ==> LastAcquired(steps) == Some(m.event))
    && (m.Wanting? || m.Writing? ==> LastAnswer(steps) == Some(m.payloads))
  }

  lemma ToldOneMore(steps: seq<Step>, s: Process, e: Step)
    requires s.turns == Told(steps) && Minds(steps, s.main) && Enabled(s, e)
    requires s.main.Putting? || s.main.Writing? ==> s.turns != []
    ensures Apply(s, e).turns == Told(steps + [e]) && Minds(steps + [e], Apply(s, e).main)
  {
    var all := steps + [e];
    assert all[|all| - 1] == e && all[..|all| - 1] == steps;
  }

  lemma {:induction false} TurnsAreTold(steps: seq<Step>, t: Process)
    requires Runs(START, steps, t)
    ensures t.turns == Told(steps) && Minds(steps, t.main)
    decreases |steps|
  {
    if steps != [] {
      var n := |steps| - 1;
      var s := RunsUpTo(START, steps, t);
      TurnsAreTold(steps[..n], s);
      InWorkAlong(START, steps[..n], s);
      ToldOneMore(steps[..n], s, steps[n]);
      assert steps[..n] + [steps[n]] == steps;
    }
  }

  /** The state before the last step of a run. */
  lemma {:induction false} RunsUpTo(s: Process, steps: seq<Step>, t: Process) returns (m: Process)
    requires steps != [] && Runs(s, steps, t)
    ensures Runs(s, steps[..|steps| - 1], m) && Enabled(m, steps[|steps| - 1]) && Apply(m, steps[|steps| - 1]) == t
    decreases |steps|
  {
    if |steps| == 1 {
      m := s;
      assert steps[1..] == [];
    } else {
      m := RunsUpTo(Apply(s, steps[0]), steps[1..], t);
      assert steps[..|steps| - 1][1..] == steps[1..][..|steps| - 2];
    }
  }

  // ----- what permits are lost to -----

  /** How often `forward` is interrupted between acquiring for an event and queuing it. */
  function Interrupts(steps: seq<Step>): nat {
    if steps == [] then 0 else Interrupts(steps[..|steps| - 1]) + One(steps[|steps| - 1].Interrupt?)
  }

  /** The `k`-th step of the run starts an event whose index names no task of the batch. */
  predicate Stumbles(steps: seq<Step>, k: nat, u: Process) {
    && k < |steps| && steps[k].StartEvent? && Runs(START, steps[..k], u) && u.streamer.Holding?
    && !(-|u.currentIds| <= u.streamer.event.index < |u.currentIds|)
  }

  ghost predicate Stumbled(steps: seq<Step>) {
    exists k: nat, u :: Stumbles(steps, k, u)
  }

  lemma {:induction false} OneEnd(s: Process, steps: seq<Step>, t: Process, u: Process)
    requires Runs(s, steps, t) && Runs(s, steps, u)
    ensures t == u
    decreases |steps|
  {
    if steps != [] {
      OneEnd(Apply(s, steps[0]), steps[1..], t, u);
    }
  }

  lemma StumblesSooner(steps: seq<Step>, e: Step, k: nat, u: Process)
    requires k < |steps|
    ensures Stumbles(steps + [e], k, u) <==> Stumbles(steps, k, u)
  {
    assert (steps + [e])[..k] == steps[..k];
  }

  lemma StumbledOneMore(steps: seq<Step>, s: Process, e: Step)
    requires Runs(START, steps, s) && Enabled(s, e)
    ensures Stumbled(steps + [e]) <==>
      (Stumbled(steps) || (e.StartEvent? && !(-|s.currentIds| <= s.streamer.event.index < |s.currentIds|)))
  {
    var all := steps + [e];
    assert all[..|steps|] == steps;
    if Stumbled(all) {
      var k: nat, u :| Stumbles(all, k, u);
      if k < |steps| {
        StumblesSooner(steps, e, k, u);
      } else {
        OneEnd(START, steps, s, u);
      }
    }
    if Stumbled(steps) {
      var k: nat, u :| Stumbles(steps, k, u);
      StumblesSooner(steps, e, k, u);
    }
    if e.StartEvent? && !(-|s.currentIds| <= s.streamer.event.index < |s.currentIds|) {
      assert Stumbles(all, |steps|, s);
    }
  }

  /** Over all runs: a permit is lost for good by each interruption between acquiring and
      queuing, and the streaming thread has failed, with its permit, if and only if it
      came upon an event whose index names no task of the batch. */
  lemma {:induction false} LossesExactly(steps: seq<Step>, t: Process)
    requires Runs(START, steps, t)
    ensures t.lost == Interrupts(steps) && (t.streamer.Failed? <==> Stumbled(steps))
    decreases |steps|
  {
    if steps != [] {
      var n := |steps| - 1;
      var s := RunsUpTo(START, steps, t);
      LossesExactly(steps[..n], s);
      StumbledOneMore(steps[..n], s, steps[n]);
      assert steps[..n] + [steps[n]] == steps;
    }
  }

  // ----- a waiting reply -----

  predicate AllOfStreamer(steps: seq<Step>) {
    forall i :: 0 <= i < |steps| ==> OfStreamer(steps[i])
  }

  /** Steps the streaming thread has before it. */
  function StreamerWork(s: Process): nat {
    4 * |s.queue| +
    match s.streamer
    case Holding(_) => 3
    case Sending(_) => 2
    case Sent => 1
    case _ => 0
  }

  lemma {:induction false} StreamerWorksOff(s: Process, steps: seq<Step>, t: Process)
    requires AllOfStreamer(steps) && Runs(s, steps, t)
    ensures |steps| + StreamerWork(t) <= StreamerWork(s)
    ensures t.main == s.main && t.lost == s.lost && Patient(steps)
    decreases |steps|
  {
    if steps != [] {
      assert OfStreamer(steps[0]);
      assert forall i :: 0 <= i < |steps[1..]| ==> steps[1..][i] == steps[i + 1];
      StreamerWorksOff(Apply(s, steps[0]), steps[1..], t);
    }
  }

  /** A worker that waits to reply is held up for at most four steps of the streaming
      thread for each permit there ever was. When that thread can go no further, the
      reply has its permit if and only if not all of them are lost, or with the failed
      thread and the events it left behind. */
  lemma ReplyIsNotStuck(steps: seq<Step>, s: Process, more: seq<Step>, t: Process)
    requires Runs(START, steps, s) && s.main.Wanting?
    requires AllOfStreamer(more) && Runs(s, more, t)
    ensures |more| <= 4 * (1 + Timeouts(steps))
    ensures (forall e :: OfStreamer(e) ==> !Enabled(t, e)) ==>
      && (t.queue != [] ==> t.streamer.Failed?)
      && (Enabled(t, AcquireReply) <==> t.lost + One(t.streamer.Failed?) + |t.queue| <= Timeouts(steps))
  {
    PermitsCounted(steps, s);
    WorkForPermits(s);
    StreamerWorksOff(s, more, t);
    PatientRun(s, more, t);
    PermitsAlong(s, more, t);
    if forall e :: OfStreamer(e) ==> !Enabled(t, e) {
      WorkedOff(t);
    }
  }

  lemma WorkForPermits(s: Process)
    ensures StreamerWork(s) <= 4 * Circulating(s)
  {
  }

  lemma WorkedOff(t: Process)
    requires forall e :: OfStreamer(e) ==> !Enabled(t, e)
    ensures t.queue != [] ==> t.streamer.Failed?
    ensures t.main.Wanting? ==> (Enabled(t, AcquireReply) <==> |t.queue| < Circulating(t))
  {
    assert !Enabled(t, Pick) && !Enabled(t, StartEvent) && !Enabled(t, WriteEvent) && !Enabled(t, ReleaseEvent);
  }

  // ----- when the acquire of a reply times out -----

  /** One more step at the end of a run. */
  lemma {:induction false} RunsThen(s: Process, steps: seq<Step>, t: Process, e: Step)
    requires Runs(s, steps, t) && Enabled(t, e)
    ensures Runs(s, steps + [e], Apply(t, e))
    decreases |steps|
  {
    if steps == [] {
      assert steps + [e] == [e] && [e][1..] == [];
    } else {
      assert (steps + [e])[1..] == steps[1..] + [e];
      RunsThen(Apply(s, steps[0]), steps[1..], t, e);
    }
  }

  /** Extends a patient run by a step. */
  lemma Extend(s: Process, steps: seq<Step>, t: Process, e: Step) returns (more: seq<Step>, u: Process)
    requires Runs(s, steps, t) && Patient(steps) && Enabled(t, e) && !e.GiveUpReply?
    ensures Runs(s, more, u) && Patient(more) && u == Apply(t, e)
  {
    RunsThen(s, steps, t, e);
    more, u := steps + [e], Apply(t, e);
  }

  /** The worker finishes its reply, takes the next batch and so has a permit to spare. */
  lemma NextBatch(s: Process, steps: seq<Step>, t: Process, ids: seq<Bytes>) returns (more: seq<Step>, u: Process)
    requires Runs(s, steps, t) && Patient(steps) && t.main.Writing? && t.turns != []
    ensures Runs(s, more, u) && Patient(more)
    ensures u.main == Running && u.currentIds == ids && u.permits == t.permits + 1
    ensures u.queue == t.queue && u.streamer == t.streamer
    ensures u.turns == WithReply(t.turns, t.main.payloads) + [Turn(ids, [], None)]
  {
    more, u := Extend(s, steps, t, WriteReply);
    more, u := Extend(s, more, u, ReleaseReply);
    more, u := Extend(s, more, u, Receive(ids));
  }

  /** The worker goes on to its reply with the spare permit. */
  lemma ReplyNow(s: Process, steps: seq<Step>, t: Process) returns (more: seq<Step>, u: Process)
    requires Runs(s, steps, t) && Patient(steps) && t.main.Running? && t.permits > 0
    ensures Runs(s, more, u) && Patient(more)
    ensures u == t.(main := Writing([]), permits := t.permits - 1)
  {
    more, u := Extend(s, steps, t, Finish([]));
    more, u := Extend(s, more, u, AcquireReply);
  }

  /** The streaming thread is done with what it had. */
  lemma Release(s: Process, steps: seq<Step>, t: Process) returns (more: seq<Step>, u: Process)
    requires Runs(s, steps, t) && Patient(steps) && (t.streamer.Sending? || t.streamer.Sent?)
    ensures Runs(s, more, u) && Patient(more)
    ensures u.streamer.Waiting? && u.permits == t.permits + 1
    ensures u.main == t.main && u.queue == t.queue && u.currentIds == t.currentIds && u.turns == t.turns
  {
    more, u := steps, t;
    if t.streamer.Sending? {
      more, u := Extend(s, more, u, WriteEvent);
    }
    more, u := Extend(s, more, u, ReleaseEvent);
  }

  /** The worker puts one more event. */
  lemma PutOne(s: Process, steps: seq<Step>, t: Process, e: Event) returns (more: seq<Step>, u: Process)
    requires Runs(s, steps, t) && Patient(steps) && t.main.Running? && t.permits > 0 && t.queue == [] && t.turns != []
    ensures Runs(s, more, u) && Patient(more)
    ensures u == t.(permits := t.permits - 1, queue := [e], turns := WithEvent(t.turns, e))
  {
    more, u := Extend(s, steps, t, Acquire(e));
    more, u := Extend(s, more, u, Put);
    assert [] + [e] == [e];
  }

  /** The event that is waiting to be sent. */
  predicate NextUp(s: Process, e: Event) {
    s.streamer == Holding(e) || (s.streamer.Waiting? && s.queue != [] && s.queue[0] == e)
  }

  lemma StartNext(s: Process, steps: seq<Step>, t: Process, e: Event) returns (more: seq<Step>, u: Process)
    requires Runs(s, steps, t) && Patient(steps) && NextUp(t, e) && Names(t.currentIds, e.index)
    ensures Runs(s, more, u) && Patient(more)
    ensures u.streamer == Sending(FrameOf(t.currentIds, e))
    ensures u.main == t.main && u.permits == t.permits && u.turns == t.turns && u.wire == t.wire
  {
    more, u := steps, t;
    if t.streamer.Waiting? {
      more, u := Extend(s, more, u, Pick);
    }
    more, u := Extend(s, more, u, StartEvent);
  }

  /** Enough copies of an id for an index to name one. */
  function Copies(id: Bytes, index: int): (ids: seq<Bytes>)
    ensures Names(ids, index) && forall i :: 0 <= i < |ids| ==> ids[i] == id
  {
    seq(if index >= 0 then index + 1 else -index, _ => id)
  }

  /** After a timed-out acquire with an event about: a state in the next batch with a
      permit to spare and that event, or one more of the worker's, still to be sent. */
  lemma SpareAndEvent(s: Process, id: Bytes) returns (steps: seq<Step>, t: Process, e: Event)
    requires s.main.Writing? && s.turns != [] && !s.streamer.Failed? && !Quiet(s)
    ensures Runs(s, steps, t) && Patient(steps)
    ensures t.main.Running? && t.permits > 0 && t.turns != [] && NextUp(t, e) && Names(t.currentIds, e.index)
  {
    e := if s.streamer.Holding? then s.streamer.event else if s.queue != [] then s.queue[0] else Event([], 0);
    steps, t := NextBatch(s, [], s, Copies(id, e.index));
    if t.streamer.Sending? || t.streamer.Sent? {
      steps, t := Release(s, steps, t);
      if t.queue == [] {
        steps, t := PutOne(s, steps, t, e);
      }
    }
  }

  /** Then the two threads can meet on the socket ... */
  lemma MeetAgain(s: Process) returns (steps: seq<Step>, t: Process)
    requires s.main.Writing? && s.turns != [] && !s.streamer.Failed? && !Quiet(s)
    ensures Runs(s, steps, t) && Patient(steps) && Overlap(t)
  {
    var e;
    steps, t, e := SpareAndEvent(s, []);
    steps, t := StartNext(s, steps, t, e);
    steps, t := ReplyNow(s, steps, t);
  }

  /** ... and an event can be sent under an id of a batch that did not put it. */
  lemma Misfile(s: Process) returns (steps: seq<Step>, t: Process)
    requires s.main.Writing? && s.turns != [] && !s.streamer.Failed? && !Quiet(s)
    ensures Runs(s, steps, t) && Patient(steps) && Misdelivered(t)
  {
    var e;
    steps, t, e := SpareAndEvent(s, []);
    steps, t := ReplyNow(s, steps, t);
    var before := WithReply(t.turns, []);
    var id := Unused(before);
    steps, t := NextBatch(s, steps, t, Copies(id, e.index));
    steps, t := StartNext(s, steps, t, e);
    var f := EventFrame(id, e.text);
    steps, t := Extend(s, steps, t, WriteEvent);
    assert t.wire[|t.wire| - 1] == f;
    assert !WasPut(t.turns, f);
  }

  /** The longest id of some batches. */
  function LongestId(ids: seq<Bytes>): (n: nat)
    ensures forall i :: 0 <= i < |ids| ==> |ids[i]| <= n
  {
    if ids == [] then 0 else Max(LongestId(ids[..|ids| - 1]), |ids[|ids| - 1]|)
  }

  function Longest(turns: seq<Turn>): (n: nat)
    ensures forall k, i :: 0 <= k < |turns| && 0 <= i < |turns[k].ids| ==> |turns[k].ids[i]| <= n
  {
    if turns == [] then 0 else Max(Longest(turns[..|turns| - 1]), LongestId(turns[|turns| - 1].ids))
  }

  /** An id of none of these batches. */
  function Unused(turns: seq<Turn>): (id: Bytes)
    ensures forall k :: 0 <= k < |turns| ==> id !in turns[k].ids
  {
    seq(Longest(turns) + 1, _ => 0)
  }

  ghost predicate CanOverlap(u: Process) {
    exists more, t :: Patient(more) && Runs(u, more, t) && Overlap(t)
  }

  ghost predicate CanMisdeliver(u: Process) {
    exists more, t :: Patient(more) && Runs(u, more, t) && Misdelivered(t)
  }

  /** While a batch is in work it is the last one, whatever else happened. */
  predicate InWork(s: Process) {
    BetweenTurns(s.main) || (s.turns != [] && s.turns[|s.turns| - 1].ids == s.currentIds)
  }

  lemma {:induction false} InWorkAlong(s: Process, steps: seq<Step>, t: Process)
    requires InWork(s) && Runs(s, steps, t)
    ensures InWork(t)
    decreases |steps|
  {
    if steps != [] {
      InWorkAlong(Apply(s, steps[0]), steps[1..], t);
    }
  }

  // ----- when it does no harm -----

  /** The frame, or what is to become of an event, is of some batch. */
  predicate Owned(turns: seq<Turn>, f: Frame) {
    f.EventFrame? ==> WasPut(turns, f)
  }

  predicate EventOwned(s: Process, e: Event) {
    s.turns != [] && e in s.turns[|s.turns| - 1].events
  }

  /** Whatever is on the wire or on its way there is an event of its own batch. */
  predicate Tidy(s: Process) {
    && AtMostOne(s) && InWork(s)
    && (BetweenTurns(s.main) || s.main.Writing? ==> Quiet(s))
    && (forall i :: 0 <= i < |s.wire| ==> Owned(s.turns, s.wire[i]))
    && (forall i :: 0 <= i < |s.queue| ==> EventOwned(s, s.queue[i]))
    && (s.streamer.Holding? ==> EventOwned(s, s.streamer.event))
    && (s.streamer.Sending? ==> Owned(s.turns, s.streamer.frame))
  }

  /** The batches so far, with what has been added to them. */
  predicate Grown(turns: seq<Turn>, later: seq<Turn>) {
    && |turns| <= |later|
    && forall k :: 0 <= k < |turns| ==> later[k].ids == turns[k].ids && turns[k].events <= later[k].events
  }

  lemma TurnsGrow(s: Process, e: Step)
    requires Enabled(s, e)
    ensures Grown(s.turns, Apply(s, e).turns)
  {
  }

  lemma StaysOwned(turns: seq<Turn>, later: seq<Turn>, f: Frame)
    requires Grown(turns, later) && Owned(turns, f)
    ensures Owned(later, f)
  {
    if f.EventFrame? {
      var k, j :| 0 <= k < |turns| && 0 <= j < |turns[k].events| && FrameOf(turns[k].ids, turns[k].events[j]) == f;
      assert later[k].events[j] == turns[k].events[j];
    }
  }

  lemma WireStaysOwned(s: Process, e: Step)
    requires Tidy(s) && Enabled(s, e)
    ensures forall i :: 0 <= i < |s.wire| ==> Owned(Apply(s, e).turns, s.wire[i])
    ensures s.streamer.Sending? ==> Owned(Apply(s, e).turns, s.streamer.frame)
  {
    TurnsGrow(s, e);
    forall i | 0 <= i < |s.wire| ensures Owned(Apply(s, e).turns, s.wire[i]) {
      StaysOwned(s.turns, Apply(s, e).turns, s.wire[i]);
    }
    if s.streamer.Sending? {
      StaysOwned(s.turns, Apply(s, e).turns, s.streamer.frame);
    }
  }

  lemma StartsOwned(s: Process)
    requires Tidy(s) && s.streamer.Holding?
    ensures Owned(s.turns, FrameOf(s.currentIds, s.streamer.event))
  {
    var n := |s.turns| - 1;
    var j :| 0 <= j < |s.turns[n].events| && s.turns[n].events[j] == s.streamer.event;
  }

  lemma TidyKept(s: Process, e: Step)
    requires Tidy(s) && Enabled(s, e) && !e.GiveUpReply?
    ensures Tidy(Apply(s, e))
  {
    PermitsKept(s, e);
    WireStaysOwned(s, e);
    if e.StartEvent? {
      StartsOwned(s);
    }
  }

  lemma {:induction false} TidyAlong(s: Process, steps: seq<Step>, t: Process)
    requires Tidy(s) && Patient(steps) && Runs(s, steps, t)
    ensures Tidy(t)
    decreases |steps|
  {
    if steps != [] {
      assert !steps[0].GiveUpReply?;
      assert forall i :: 0 <= i < |steps[1..]| ==> steps[1..][i] == steps[i + 1];
      TidyKept(s, steps[0]);
      TidyAlong(Apply(s, steps[0]), steps[1..], t);
    }
  }

  /** A permit that nothing else has is no harm, from whatever state. */
  lemma {:induction false} AloneAlong(s: Process, steps: seq<Step>, t: Process)
    requires AtMostOne(s) && Patient(steps) && Runs(s, steps, t)
    ensures !Overlap(t)
    decreases |steps|
  {
    if steps != [] {
      assert !steps[0].GiveUpReply?;
      assert forall i :: 0 <= i < |steps[1..]| ==> steps[1..][i] == steps[i + 1];
      PermitsKept(s, steps[0]);
      AloneAlong(Apply(s, steps[0]), steps[1..], t);
    }
  }

  /** A streaming thread that failed sends nothing any more. */
  lemma {:induction false} FailedAlong(s: Process, steps: seq<Step>, t: Process)
    requires s.streamer.Failed? && Runs(s, steps, t)
    ensures t.streamer.Failed? && !Overlap(t)
    ensures (forall i :: 0 <= i < |s.wire| ==> Owned(s.turns, s.wire[i])) ==> !Misdelivered(t)
    decreases |steps|
  {
    if steps != [] {
      var u := Apply(s, steps[0]);
      TurnsGrow(s, steps[0]);
      if forall i :: 0 <= i < |s.wire| ==> Owned(s.turns, s.wire[i]) {
        forall i | 0 <= i < |u.wire| ensures Owned(u.turns, u.wire[i]) {
          if i < |s.wire| {
            StaysOwned(s.turns, u.turns, s.wire[i]);
          }
        }
      }
      FailedAlong(u, steps[1..], t);
    }
  }

  // ----- exactly when it does harm -----

  lemma NeverOverlaps(u: Process)
    requires AtMostOne(u) || u.streamer.Failed?
    ensures !CanOverlap(u)
  {
    forall more, t | Patient(more) && Runs(u, more, t) ensures !Overlap(t) {
      if u.streamer.Failed? {
        FailedAlong(u, more, t);
      } else {
        AloneAlong(u, more, t);
      }
    }
  }

  lemma NeverMisdelivers(u: Process)
    requires u.main.Writing? && InWork(u) && !Misdelivered(u)
    requires (AtMostOne(u) && Quiet(u)) || u.streamer.Failed?
    ensures !CanMisdeliver(u)
  {
    forall i | 0 <= i < |u.wire| ensures Owned(u.turns, u.wire[i]) {
    }
    forall more, t | Patient(more) && Runs(u, more, t) ensures !Misdelivered(t) {
      if u.streamer.Failed? {
        FailedAlong(u, more, t);
      } else {
        TidyAlong(u, more, t);
        assert forall i :: 0 <= i < |t.wire| ==> Owned(t.turns, t.wire[i]);
      }
    }
  }

  lemma HarmFromHere(u: Process)
    requires u.main.Writing? && u.turns != [] && !u.streamer.Failed? && !Quiet(u)
    ensures CanOverlap(u) && CanMisdeliver(u)
  {
    var more, t := MeetAgain(u);
    var more', t' := Misfile(u);
  }

  /** When the acquire of a reply times out, be it the first or not and whatever came of
      those before, then from there on, with no further timeout, the two threads can be
      on the socket at once, and an event can be sent under an id of a batch that did
      not put it, each if and only if an event is queued or in the hands of the
      streaming thread and that thread has not failed; for what has been sent under a
      wrong id already, nothing is needed. */
  lemma GivingUpExactly(steps: seq<Step>, s: Process)
    requires Runs(START, steps, s) && Enabled(s, GiveUpReply)
    ensures var u, harm := Apply(s, GiveUpReply), !Harmless(s, GiveUpReply) && !s.streamer.Failed?;
      && (CanOverlap(u) <==> harm)
      && (CanMisdeliver(u) <==> harm || Misdelivered(s))
  {
    var u := Apply(s, GiveUpReply);
    InWorkAlong(START, steps, s);
    if !Quiet(s) && !s.streamer.Failed? {
      HarmFromHere(u);
    } else {
      NeverOverlaps(u);
      if Misdelivered(s) {
        assert Runs(u, [], u) && Patient([]) && Misdelivered(u);
      } else {
        NeverMisdelivers(u);
      }
    }
  }

  /** For the first timeout of a worker process that is to say: if and only if the permit
      it waited for still exists, neither lost nor taken by a thread that failed. */
  lemma FirstGivingUp(steps: seq<Step>, s: Process)
    requires Patient(steps) && Runs(START, steps, s) && Enabled(s, GiveUpReply)
    ensures CanOverlap(Apply(s, GiveUpReply)) <==> s.lost == 0 && !s.streamer.Failed?
    ensures CanMisdeliver(Apply(s, GiveUpReply)) <==> s.lost == 0 && !s.streamer.Failed?
  {
    PatientRun(START, steps, s);
    PermitsCounted(steps, s);
    HandshakeIsSafe(steps, s);
    GivingUpExactly(steps, s);
  }

  /** And an acquire can time out while the permit still exists. */
  lemma OverlapHappens(id: Bytes, text: Bytes) returns (steps: seq<Step>, t: Process)
    ensures Runs(START, steps, t) && Overlap(t)
  {
    var e := Event(text, 0);
    steps, t := Extend(START, [], START, Receive([id]));
    steps, t := PutOne(START, steps, t, e);
    steps, t := StartNext(START, steps, t, e);
    steps, t := Extend(START, steps, t, Finish([]));
    RunsThen(START, steps, t, GiveUpReply);
    steps, t := steps + [GiveUpReply], Apply(t, GiveUpReply);
  }
}
