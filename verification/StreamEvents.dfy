/** Streaming from end to end: the events that a worker puts for a batch, the frames
    they become, and the server's loop that hands them to the streams of their tasks
    before it takes the reply. */
module StreamEvents {
  import opened Basics
  import opened Tasks
  import opened Frames
  import opened TaskManagers
  import H = Handshakes
  import K = PythonSocket
  import L = LockDiscipline
  import R = RustWire
  import W = Wire

  // ----- the loop -----

  /** What reading up to a reply comes to: the reply and what follows it, or the end of
      the stream, each with what the streams have become. */
  datatype Reading = Reading(message: Option<Message>, rest: Bytes, streams: Streams)

  function Relayed(b: Bytes, streams: Streams, leaving: set<Id>): Reading
    decreases |b|
  {
    match Decode(b)
    case None => Reading(None, b, streams)
    case Some((m, rest)) =>
      if R.CodeOf(m.flag) == StreamEvent then Relayed(rest, Handed(streams, m, leaving), leaving)
      else Reading(Some(m), rest, streams)
  }

  /** The events of one frame, each sent to the stream of its task. */
  function Handed(streams: Streams, m: Message, leaving: set<Id>): (after: Streams)
    ensures after.Keys == streams.Keys
  {
    Deliver(streams, R.IdsOf(m.items), R.DataOf(m.items), Normal, leaving)
  }

  /** One frame, into emptied vectors. */
  method ReadFrame(stream: R.UnixStream) returns (ok: bool, code: TaskCode, ids: seq<Id>, data: seq<Bytes>)
    modifies stream`input
    ensures ok <==> Decode(old(stream.input)).Some?
    ensures ok ==>
      var (message, rest) := Decode(old(stream.input)).value;
      && stream.input == rest && code == R.CodeOf(message.flag)
      && ids == R.IdsOf(message.items) && data == R.DataOf(message.items)
  {
    var states: seq<U16>;
    ok, code, ids, data, states := R.ReadMessage(stream, [], [], []);
    if ok {
      assert ids == R.IdsOf(Decode(old(stream.input)).value.0.items);
    }
  }

  /** Frames of events are handed on as they are read; the first other frame ends the
      loop, and so does a read that fails. */
  method ReadReply(stream: R.UnixStream, m: TaskManager, leaving: set<Id>, ghost c: L.Course)
    returns (ok: bool, code: TaskCode, ids: seq<Id>, data: seq<Bytes>, ghost found: seq<bool>, ghost d: L.Course)
    requires c.held == {}
    modifies stream`input, m`streams
    ensures var r := Relayed(old(stream.input), old(m.streams), leaving);
      && m.streams == r.streams && (ok <==> r.message.Some?)
      && (ok ==>
            && stream.input == r.rest && code == R.CodeOf(r.message.value.flag)
            && ids == R.IdsOf(r.message.value.items) && data == R.DataOf(r.message.value.items))
    ensures d == c.Then(L.SendStreamEvents(found))
  {
    ghost var whole := Relayed(stream.input, m.streams, leaving);
    ghost var b := stream.input;
    d, found := c, [];
    L.NoEvents(c);
    ok, code, ids, data := ReadFrame(stream);
    while ok && code == StreamEvent
      invariant ok <==> Decode(b).Some?
      invariant whole == Relayed(b, m.streams, leaving)
      invariant ok ==>
        var (message, rest) := Decode(b).value;
        && stream.input == rest && code == R.CodeOf(message.flag)
        && ids == R.IdsOf(message.items) && data == R.DataOf(message.items)
      invariant d == c.Then(L.SendStreamEvents(found))
      decreases |b|
    {
      ghost var here := Found(m.streams, ids);
      L.MoreEvents(c, found, here);
      d := m.SendEvents(Normal, ids, data, leaving, d);
      b, found := stream.input, found + here;
      ok, code, ids, data := ReadFrame(stream);
    }
  }

  // ----- what a stream gets -----

  /** What was sent to a stream: all of it as long as the stream is open, and otherwise a
      beginning; it closes only by its receiver's leaving. */
  predicate Heard(before: Stream, after: Stream, sent: Events, stays: bool) {
    && before.Accepted() <= after.Accepted() <= before.Accepted() + sent
    && (after.open ==> after.Accepted() == before.Accepted() + sent)
    && (!before.open ==> after == before)
    && (stays ==> after.open == before.open)
  }

  lemma HeardNothing(s: Stream, stays: bool)
    ensures Heard(s, s, [], stays)
  {
    assert s.Accepted() + [] == s.Accepted();
  }

  lemma HeardMore(a: Stream, b: Stream, c: Stream, sent: Events, more: Events, stays: bool)
    requires Heard(a, b, sent, stays) && Heard(b, c, more, stays)
    ensures Heard(a, c, sent + more, stays)
  {
    assert a.Accepted() + (sent + more) == a.Accepted() + sent + more;
  }

  lemma SentIsHeard(s: Stream, id: Id, datum: Bytes, leaving: set<Id>)
    ensures Heard(s, s.Sent(id, datum, Normal, leaving), [(datum, Normal)], id !in leaving)
  {
    s.SentAccepts(id, datum, Normal, leaving);
    assert s.Accepted() + [] == s.Accepted();
  }

  /** The events that some items carry for one task, in order. */
  function Under(items: seq<Item>, id: Id): Events {
    if items == [] then []
    else Under(items[..|items| - 1], id) + OneUnder(items[|items| - 1], id)
  }

  function OneUnder(item: Item, id: Id): Events {
    if item.id == id then [(item.data, Normal)] else []
  }

  lemma {:induction false} ItemsHeard(streams: Streams, items: seq<Item>, leaving: set<Id>, id: Id)
    requires id in streams
    ensures var after := Deliver(streams, R.IdsOf(items), R.DataOf(items), Normal, leaving);
      Heard(streams[id], after[id], Under(items, id), id !in leaving)
    decreases |items|
  {
    if items == [] {
      HeardNothing(streams[id], id !in leaving);
    } else {
      var n := |items| - 1;
      var before := Deliver(streams, R.IdsOf(items[..n]), R.DataOf(items[..n]), Normal, leaving);
      assert R.IdsOf(items)[..n] == R.IdsOf(items[..n]);
      DeliverPrefix(streams, R.IdsOf(items[..n]), R.DataOf(items), R.DataOf(items[..n]), leaving);
      ItemsHeard(streams, items[..n], leaving, id);
      if items[n].id == id {
        SentIsHeard(before[id], id, items[n].data, leaving);
      } else {
        HeardNothing(before[id], id !in leaving);
      }
      var after := SendOne(before, items[n].id, items[n].data, Normal, leaving);
      HeardMore(streams[id], before[id], after[id], Under(items[..n], id), OneUnder(items[n], id), id !in leaving);
    }
  }

  lemma {:induction false} DeliverPrefix(streams: Streams, ids: seq<Id>, data: seq<Bytes>, other: seq<Bytes>,
      leaving: set<Id>)
    requires |ids| <= |data| && |ids| <= |other| && data[..|ids|] == other[..|ids|]
    ensures Deliver(streams, ids, data, Normal, leaving) == Deliver(streams, ids, other, Normal, leaving)
    decreases |ids|
  {
    if ids != [] {
      var n := |ids| - 1;
      assert data[..n] == data[..|ids|][..n] && other[..n] == other[..|ids|][..n];
      assert data[n] == data[..|ids|][n] && other[n] == other[..|ids|][n];
      DeliverPrefix(streams, ids[..n], data, other, leaving);
    }
  }

  /** The events that some frames carry for one task, in order. */
  function AllUnder(frames: seq<Message>, id: Id): Events {
    if frames == [] then [] else Under(frames[0].items, id) + AllUnder(frames[1..], id)
  }

  predicate OfEvents(frames: seq<Message>) {
    forall i :: 0 <= i < |frames| ==> Fits(frames[i]) && R.CodeOf(frames[i].flag) == StreamEvent
  }

  /** Frames of events followed by a reply: the loop ends with that reply and nothing
      beyond it read, and by then every stream has been sent exactly the events the
      frames carry for its task, in order. */
  lemma {:induction false} RelayedExactly(frames: seq<Message>, reply: Message, rest: Bytes, streams: Streams,
      leaving: set<Id>)
    requires OfEvents(frames) && Fits(reply) && R.CodeOf(reply.flag) != StreamEvent
    ensures var r := Relayed(EncodeAll(frames) + (Encode(reply) + rest), streams, leaving);
      && r.message == Some(reply) && r.rest == rest && r.streams.Keys == streams.Keys
      && forall id :: id in streams ==> Heard(streams[id], r.streams[id], AllUnder(frames, id), id !in leaving)
    decreases |frames|
  {
    var tail := Encode(reply) + rest;
    if frames == [] {
      assert EncodeAll(frames) + tail == tail;
      RoundTrip(reply, rest);
      forall id | id in streams ensures Heard(streams[id], streams[id], [], id !in leaving) {
        HeardNothing(streams[id], id !in leaving);
      }
    } else {
      var later := EncodeAll(frames[1..]) + tail;
      Joined(Encode(frames[0]), EncodeAll(frames[1..]), tail);
      RoundTrip(frames[0], later);
      var next := Handed(streams, frames[0], leaving);
      RelayedExactly(frames[1..], reply, rest, next, leaving);
      var r := Relayed(later, next, leaving);
      forall id | id in streams ensures Heard(streams[id], r.streams[id], AllUnder(frames, id), id !in leaving) {
        ItemsHeard(streams, frames[0].items, leaving, id);
        HeardMore(streams[id], next[id], r.streams[id], Under(frames[0].items, id), AllUnder(frames[1..], id),
          id !in leaving);
      }
    }
  }

  // ----- from the worker's events -----

  const STREAM_EVENT: U16 := W.FlagOf(W.Status.StreamEvent)

  /** What the streaming thread packs for one event. */
  predicate Packable(f: H.Frame) {
    f.EventFrame? && |f.id| == 4 && |f.text| < U32_SPACE
  }

  function EventMessage(f: H.Frame): (m: Message)
    requires Packable(f)
    ensures Fits(m) && R.CodeOf(m.flag) == StreamEvent
    ensures m.items == [Item(GetU32(f.id), 0, f.text)]
  {
    K.ReplyOf(STREAM_EVENT, [f.id], [0], [f.text])
  }

  function EventMessages(frames: seq<H.Frame>): (ms: seq<Message>)
    requires forall i :: 0 <= i < |frames| ==> Packable(frames[i])
    ensures OfEvents(ms) && |ms| == |frames|
  {
    seq(|frames|, i requires 0 <= i < |frames| => EventMessage(frames[i]))
  }

  /** The bytes that the streaming thread sends for these frames. */
  function SentBytes(frames: seq<H.Frame>): Bytes
    requires forall i :: 0 <= i < |frames| ==> Packable(frames[i])
  {
    if frames == [] then []
    else
      assert Packable(frames[0]);
      K.Packed(STREAM_EVENT, [frames[0].id], [0], [frames[0].text]) + SentBytes(frames[1..])
  }

  lemma {:induction false} SentBytesAre(frames: seq<H.Frame>)
    requires forall i :: 0 <= i < |frames| ==> Packable(frames[i])
    ensures SentBytes(frames) == EncodeAll(EventMessages(frames))
  {
    if frames != [] {
      K.PackedIsFrame(STREAM_EVENT, [frames[0].id], [0], [frames[0].text]);
      SentBytesAre(frames[1..]);
      assert EventMessages(frames)[1..] == EventMessages(frames[1..]);
    }
  }

  /** The texts that were put for one task of a batch, in the order they were put. */
  function PutFor(ids: seq<Bytes>, events: seq<H.Event>, id: Id): Events {
    if events == [] then []
    else PutFor(ids, events[..|events| - 1], id) + OnePutFor(ids, events[|events| - 1], id)
  }

  /** For the task that the index names, counted from the front or, when negative, from
      the end; an index that names none is for nobody. */
  function OnePutFor(ids: seq<Bytes>, e: H.Event, id: Id): Events {
    if 0 <= e.index < |ids| && ids[e.index] == PutU32(id) then [(e.text, Normal)]
    else if -|ids| <= e.index < 0 && ids[|ids| + e.index] == PutU32(id) then [(e.text, Normal)]
    else []
  }

  /** Ids of four bytes, and texts within their length field. */
  predicate Proper(ids: seq<Bytes>, events: seq<H.Event>) {
    && (forall i :: 0 <= i < |ids| ==> |ids[i]| == 4)
    && (forall j :: 0 <= j < |events| ==> |events[j].text| < U32_SPACE)
  }

  lemma {:induction false} ProperFrames(ids: seq<Bytes>, events: seq<H.Event>)
    requires Proper(ids, events)
    ensures forall i :: 0 <= i < |H.EventFrames(ids, events)| ==> Packable(H.EventFrames(ids, events)[i])
    decreases |events|
  {
    if events != [] {
      ProperFrames(ids, events[..|events| - 1]);
    }
  }

  lemma {:induction false} AllUnderAppend(frames: seq<Message>, more: seq<Message>, id: Id)
    ensures AllUnder(frames + more, id) == AllUnder(frames, id) + AllUnder(more, id)
  {
    if frames == [] {
      assert [] + more == more && [] + AllUnder(more, id) == AllUnder(more, id);
    } else {
      assert (frames + more)[1..] == frames[1..] + more;
      AllUnderAppend(frames[1..], more, id);
    }
  }

  lemma UnderOne(f: H.Frame, id: Id)
    requires Packable(f)
    ensures AllUnder([EventMessage(f)], id) == if GetU32(f.id) == id then [(f.text, Normal)] else []
  {
    var items := EventMessage(f).items;
    assert items[..0] == [] && [EventMessage(f)][1..] == [];
    assert Under(items, id) == [] + OneUnder(items[0], id);
  }

  lemma OneMoreCarried(frames: seq<H.Frame>, f: H.Frame, id: Id)
    requires (forall i :: 0 <= i < |frames| ==> Packable(frames[i])) && Packable(f)
    ensures AllUnder(EventMessages(frames + [f]), id)
      == AllUnder(EventMessages(frames), id) + if GetU32(f.id) == id then [(f.text, Normal)] else []
  {
    UnderOne(f, id);
    assert EventMessages(frames + [f]) == EventMessages(frames) + [EventMessage(f)];
    AllUnderAppend(EventMessages(frames), [EventMessage(f)], id);
  }

  lemma FrameCarries(ids: seq<Bytes>, e: H.Event, id: Id)
    requires forall i :: 0 <= i < |ids| ==> |ids[i]| == 4
    ensures var f := H.FrameOf(ids, e);
      OnePutFor(ids, e, id) == if f.EventFrame? && GetU32(f.id) == id then [(f.text, Normal)] else []
  {
    U32RoundTrip(id);
    var f := H.FrameOf(ids, e);
    if f.EventFrame? {
      U32Canonical(f.id);
    }
  }

  /** What the frames of a batch carry for a task is what was put for it. */
  lemma {:induction false} FramesCarry(ids: seq<Bytes>, events: seq<H.Event>, id: Id)
    requires Proper(ids, events)
    requires forall i :: 0 <= i < |H.EventFrames(ids, events)| ==> Packable(H.EventFrames(ids, events)[i])
    ensures AllUnder(EventMessages(H.EventFrames(ids, events)), id) == PutFor(ids, events, id)
    decreases |events|
  {
    if events != [] {
      var n := |events| - 1;
      var before, e := H.EventFrames(ids, events[..n]), events[n];
      ProperFrames(ids, events[..n]);
      FramesCarry(ids, events[..n], id);
      var f := H.FrameOf(ids, e);
      FrameCarries(ids, e, id);
      if f.EventFrame? {
        OneMoreCarried(before, f, id);
      } else {
        assert before + [] == before && PutFor(ids, events[..n], id) + [] == PutFor(ids, events[..n], id);
      }
    }
  }

  /** Streaming, end to end: for every batch of every run of a worker process whose
      acquires time out only harmlessly, the frames on the wire are its own events and its
      reply; and a server that reads the bytes of those events and then any reply has by
      then sent each stream exactly the texts that were put for its task, in order. */
  lemma StreamsGetTheirEvents(steps: seq<H.Step>, p: H.Process, k: nat, reply: Message, rest: Bytes, streams: Streams,
      leaving: set<Id>)
    requires H.Careful(H.START, steps) && H.Runs(H.START, steps, p) && H.BetweenTurns(p.main) && k < |p.turns|
    requires var t := p.turns[k]; Proper(t.ids, t.events)
    requires Fits(reply) && R.CodeOf(reply.flag) != StreamEvent
    ensures var t := p.turns[k];
      var frames := H.EventFrames(t.ids, t.events);
      && OnWire(p, k) && (forall i :: 0 <= i < |frames| ==> Packable(frames[i]))
      && var r := Relayed(SentBytes(frames) + (Encode(reply) + rest), streams, leaving);
      && r.message == Some(reply) && r.rest == rest && r.streams.Keys == streams.Keys
      && forall id :: id in streams ==>
           Heard(streams[id], r.streams[id], PutFor(t.ids, t.events, id), id !in leaving)
  {
    var t := p.turns[k];
    H.HandshakeIsSafe(steps, p);
    var later := TurnOnWire(p.turns, k);
    ProperFrames(t.ids, t.events);
    var ms := EventMessages(H.EventFrames(t.ids, t.events));
    SentBytesAre(H.EventFrames(t.ids, t.events));
    RelayedExactly(ms, reply, rest, streams, leaving);
    forall id | id in streams ensures AllUnder(ms, id) == PutFor(t.ids, t.events, id) {
      FramesCarry(t.ids, t.events, id);
    }
  }

  /** The frames of the `k`-th batch stand on the wire where they belong, together. */
  predicate OnWire(p: H.Process, k: nat)
    requires k < |p.turns|
  {
    var t := p.turns[k];
    t.reply.Some?
    && H.AllFrames(p.turns[..k]) + (H.EventFrames(t.ids, t.events) + [H.ReplyFrame(t.ids, t.reply.value)]) <= p.wire
  }

  lemma LastOnWire(turns: seq<H.Turn>, n: nat)
    requires n + 1 == |turns|
    ensures H.AllFrames(turns) == H.AllFrames(turns[..n]) + H.TurnFrames(turns[n])
  {
  }

  lemma Appended<T>(all: seq<T>, front: seq<T>, a: seq<T>, b: seq<T>, c: seq<T>)
    requires all == front + c && front == a + b
    ensures all == a + (b + c)
  {
  }

  lemma LaterTurn(turns: seq<H.Turn>, k: nat, before: seq<H.Frame>) returns (later: seq<H.Frame>)
    requires k + 1 < |turns|
    requires var front := turns[..|turns| - 1];
      H.AllFrames(front) == H.AllFrames(front[..k]) + H.TurnFrames(front[k]) + before
    ensures H.AllFrames(turns) == H.AllFrames(turns[..k]) + H.TurnFrames(turns[k]) + later
  {
    var n := |turns| - 1;
    assert turns[..n][..k] == turns[..k];
    later := before + H.TurnFrames(turns[n]);
    Appended(H.AllFrames(turns), H.AllFrames(turns[..n]), H.AllFrames(turns[..k]) + H.TurnFrames(turns[k]), before,
      H.TurnFrames(turns[n]));
  }

  lemma {:induction false} TurnOnWire(turns: seq<H.Turn>, k: nat) returns (later: seq<H.Frame>)
    requires k < |turns|
    ensures H.AllFrames(turns) == H.AllFrames(turns[..k]) + H.TurnFrames(turns[k]) + later
    decreases |turns|
  {
    var n := |turns| - 1;
    if k < n {
      var before := TurnOnWire(turns[..n], k);
      later := LaterTurn(turns, k, before);
    } else {
      LastOnWire(turns, k);
      later := [];
      Nothing(H.AllFrames(turns[..k]) + H.TurnFrames(turns[k]));
    }
  }

  lemma Nothing<T>(a: seq<T>)
    ensures a + [] == a
  {
  }
}
