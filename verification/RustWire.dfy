/** The server's end of a worker socket: writing a batch and reading a reply. */
module RustWire {
  import opened Basics
  import opened Frames
  import opened Tasks

  /** A connected socket: what will still arrive before the peer closes, and what
      has been written. */
  class UnixStream {
    var input: Bytes
    var output: Bytes

    constructor (input: Bytes)
      ensures this.input == input && output == []
    {
      this.input, output := input, [];
    }

    /** Fills a buffer of `n` bytes, or fails at the end of the stream. */
    method ReadExact(n: nat) returns (r: Option<Bytes>)
      modifies `input
      ensures if n <= |old(input)| then r == Some(old(input)[..n]) && input == old(input)[n..]
        else r == None && input == []
    {
      if n <= |input| {
        r, input := Some(input[..n]), input[n..];
      } else {
        r, input := None, [];
      }
    }

    method WriteAll(b: Bytes)
      modifies `output
      ensures output == old(output) + b
    {
      output := output + b;
    }
  }

  const BIT_STATUS_OK: nat := 0x1
  const BIT_STATUS_BAD_REQ: nat := 0x2
  const BIT_STATUS_VALIDATION_ERR: nat := 0x4
  const BIT_STATUS_TIMEOUT_ERR: nat := 0x10
  const BIT_STATUS_STREAM_EVENT: nat := 0x8000

  predicate HasBit(flag: nat, bit: nat)
    requires bit > 0
  {
    flag / bit % 2 > 0
  }

  /** The first of these bits that is set decides; no such bit is an internal error. */
  function CodeOf(flag: U16): TaskCode {
    if HasBit(flag, BIT_STATUS_OK) then Normal
    else if HasBit(flag, BIT_STATUS_BAD_REQ) then BadRequestError
    else if HasBit(flag, BIT_STATUS_VALIDATION_ERR) then ValidationError
    else if HasBit(flag, BIT_STATUS_TIMEOUT_ERR) then TimeoutError
    else if HasBit(flag, BIT_STATUS_STREAM_EVENT) then StreamEvent
    else InternalError
  }

  /** Which bits mean what: bit 0 success, else bit 1 a bad request, else bit 2 a validation
      error, else bit 4 a timeout, else bit 15 a stream event, else an internal error. */
  lemma CodeExactly(flag: U16)
    ensures CodeOf(flag) == Normal <==> flag % 2 == 1
    ensures CodeOf(flag) == BadRequestError <==> flag % 4 == 2
    ensures CodeOf(flag) == ValidationError <==> flag % 8 == 4
    ensures CodeOf(flag) == TimeoutError <==> flag % 8 == 0 && flag / 16 % 2 == 1
    ensures CodeOf(flag) == StreamEvent <==> flag % 8 == 0 && flag / 16 % 2 == 0 && flag >= 0x8000
  {
    assert flag % 4 == flag % 2 + 2 * (flag / 2 % 2);
    assert flag % 8 == flag % 4 + 4 * (flag / 4 % 2);
    assert flag / 0x8000 == (if flag >= 0x8000 then 1 else 0);
  }

  // ----- writing -----

  predicate Parallel(ids: seq<Id>, data: seq<Bytes>, states: seq<U16>) {
    |ids| == |data| == |states|
  }

  function MessageOf(flag: U16, ids: seq<Id>, data: seq<Bytes>, states: seq<U16>): (m: Message)
    requires Parallel(ids, data, states)
  {
    Message(flag, seq(|ids|, i requires 0 <= i < |ids| => Item(ids[i], states[i], data[i])))
  }

  /** What the casts to 16 and 32 bits make of the tasks from position `i` on. */
  function SentFrom(ids: seq<Id>, data: seq<Bytes>, states: seq<U16>, i: nat): Bytes
    requires Parallel(ids, data, states) && i <= |ids|
    decreases |ids| - i
  {
    if i == |ids| then []
    else
      PutU32(ids[i]) + PutU16(states[i]) + PutU32(|data[i]| % U32_SPACE) + data[i] + SentFrom(ids, data, states, i + 1)
  }

  function Sent(ids: seq<Id>, data: seq<Bytes>, states: seq<U16>): Bytes
    requires Parallel(ids, data, states)
  {
    PutU16(0) + PutU16(|ids| % U16_SPACE) + SentFrom(ids, data, states, 0)
  }

  method SendMessage(stream: UnixStream, ids: seq<Id>, data: seq<Bytes>, states: seq<U16>)
    requires Parallel(ids, data, states)
    modifies stream`output
    ensures stream.output == old(stream.output) + Sent(ids, data, states)
  {
    var buffer := PutU16(0);
    buffer := buffer + PutU16(|ids| % U16_SPACE);
    for i := 0 to |ids|
      invariant stream.output == old(stream.output)
      invariant buffer + SentFrom(ids, data, states, i) == Sent(ids, data, states)
    {
      ghost var before := buffer;
      buffer := buffer + PutU32(ids[i]);
      buffer := buffer + PutU16(states[i]);
      buffer := buffer + PutU32(|data[i]| % U32_SPACE);
      buffer := buffer + data[i];
      Regroup(before, PutU32(ids[i]), PutU16(states[i]), PutU32(|data[i]| % U32_SPACE), data[i],
        SentFrom(ids, data, states, i + 1));
    }
    assert buffer == Sent(ids, data, states);
    stream.WriteAll(buffer);
  }

  predicate Bounded(ids: seq<Id>, data: seq<Bytes>) {
    |ids| < U16_SPACE && forall i :: 0 <= i < |data| ==> |data[i]| < U32_SPACE
  }

  lemma ItemsFit(ids: seq<Id>, data: seq<Bytes>, states: seq<U16>)
    requires Parallel(ids, data, states) && Bounded(ids, data)
    ensures var items := MessageOf(0, ids, data, states).items;
      forall i :: 0 <= i < |items| ==> ItemFits(items[i])
  {
  }

  lemma {:induction false} SentFromIsItems(ids: seq<Id>, data: seq<Bytes>, states: seq<U16>, items: seq<Item>, i: nat)
    requires Parallel(ids, data, states) && i <= |ids| && Bounded(ids, data)
    requires items == MessageOf(0, ids, data, states).items && forall j :: 0 <= j < |items| ==> ItemFits(items[j])
    ensures SentFrom(ids, data, states, i) == PutItems(items[i..])
    decreases |ids| - i
  {
    if i < |ids| {
      SentFromIsItems(ids, data, states, items, i + 1);
      ItemSent(ids, data, states, i);
      PutsFirst(items, i);
    } else {
      assert items[i..] == [];
    }
  }

  lemma ItemSent(ids: seq<Id>, data: seq<Bytes>, states: seq<U16>, i: nat)
    requires Parallel(ids, data, states) && i < |ids| && |data[i]| < U32_SPACE
    ensures SentFrom(ids, data, states, i) ==
      PutItem(Item(ids[i], states[i], data[i])) + SentFrom(ids, data, states, i + 1)
  {
  }

  lemma PutsFirst(items: seq<Item>, i: nat)
    requires i < |items| && forall j :: 0 <= j < |items| ==> ItemFits(items[j])
    ensures PutItems(items[i..]) == PutItem(items[i]) + PutItems(items[i + 1..])
  {
    var rest := items[i..];
    assert rest[0] == items[i] && rest[1..] == items[i + 1..];
  }

  /** Within bounds the casts do nothing: a batch is sent as the frame of its message. */
  lemma SentIsFrame(ids: seq<Id>, data: seq<Bytes>, states: seq<U16>)
    requires Parallel(ids, data, states) && Bounded(ids, data)
    ensures Fits(MessageOf(0, ids, data, states))
    ensures Sent(ids, data, states) == Encode(MessageOf(0, ids, data, states))
  {
    var items := MessageOf(0, ids, data, states).items;
    ItemsFit(ids, data, states);
    SentFromIsItems(ids, data, states, items, 0);
    assert items[0..] == items;
    var body := SentFrom(ids, data, states, 0);
    assert body == PutItems(items) && |ids| % U16_SPACE == |items|;
    assert PutU16(0) + PutU16(|items|) + body == Encode(MessageOf(0, ids, data, states));
  }

  /** A reader gets the batch that was sent exactly if the count fits 16 bits and
      every length fits 32: beyond that the casts cut them short. */
  lemma ReaderGetsBatch(ids: seq<Id>, data: seq<Bytes>, states: seq<U16>, rest: Bytes)
    requires Parallel(ids, data, states)
    ensures Decode(Sent(ids, data, states) + rest) == Some((MessageOf(0, ids, data, states), rest))
      <==> Bounded(ids, data)
  {
    var m := MessageOf(0, ids, data, states);
    if Bounded(ids, data) {
      SentIsFrame(ids, data, states);
      RoundTrip(m, rest);
    } else {
      OnlyFitsRead(Sent(ids, data, states) + rest);
      assert Fits(m) ==> forall i :: 0 <= i < |data| ==> ItemFits(m.items[i]) && |data[i]| < U32_SPACE;
    }
  }

  lemma OnlyFitsRead(b: Bytes)
    ensures Decode(b).Some? ==> Fits(Decode(b).value.0)
  {
  }

  // ----- reading -----

  function IdsOf(items: seq<Item>): (r: seq<Id>)
    ensures |r| == |items|
  {
    seq(|items|, i requires 0 <= i < |items| => items[i].id)
  }

  function DataOf(items: seq<Item>): (r: seq<Bytes>)
    ensures |r| == |items|
  {
    seq(|items|, i requires 0 <= i < |items| => items[i].data)
  }

  function StatesOf(items: seq<Item>): (r: seq<U16>)
    ensures |r| == |items|
  {
    seq(|items|, i requires 0 <= i < |items| => items[i].state)
  }

  method ReadItem(stream: UnixStream) returns (item: Option<Item>)
    modifies stream`input
    ensures match TakeItem(old(stream.input))
      case Some(r) => item == Some(r.0) && stream.input == r.1
      case None => item == None
  {
    ghost var b := stream.input;
    var idBuf := stream.ReadExact(4);
    if idBuf.None? { return None; }
    var stateBuf := stream.ReadExact(2);
    if stateBuf.None? { return None; }
    var lengthBuf := stream.ReadExact(4);
    if lengthBuf.None? { return None; }
    assert idBuf.value == b[..4] && stateBuf.value == b[4..6] && lengthBuf.value == b[6..10];
    assert stream.input == b[10..];
    var dataBuf := stream.ReadExact(GetU32(lengthBuf.value));
    if dataBuf.None? { return None; }
    return Some(Item(GetU32(idBuf.value), GetU16(stateBuf.value), dataBuf.value));
  }

  /** Reads one reply, appending to the vectors of the connection. */
  method ReadMessage(stream: UnixStream, ids: seq<Id>, data: seq<Bytes>, states: seq<U16>)
    returns (ok: bool, code: TaskCode, newIds: seq<Id>, newData: seq<Bytes>, newStates: seq<U16>)
    modifies stream`input
    ensures ok <==> Decode(old(stream.input)).Some?
    ensures ok ==>
      var (m, rest) := Decode(old(stream.input)).value;
      && stream.input == rest && code == CodeOf(m.flag)
      && newIds == ids + IdsOf(m.items) && newData == data + DataOf(m.items) && newStates == states + StatesOf(m.items)
  {
    ok, code, newIds, newData, newStates := false, InternalError, ids, data, states;
    ghost var b := stream.input;
    var flagBuf := stream.ReadExact(2);
    if flagBuf.None? { return; }
    var numBuf := stream.ReadExact(2);
    if numBuf.None? { return; }
    assert flagBuf.value == b[..2] && numBuf.value == b[2..4] && stream.input == b[4..];
    var flag, num := GetU16(flagBuf.value), GetU16(numBuf.value);
    code := CodeOf(flag);
    ok, newIds, newData, newStates := ReadItems(stream, num, ids, data, states);
  }

  method ReadItems(stream: UnixStream, num: nat, ids: seq<Id>, data: seq<Bytes>, states: seq<U16>)
    returns (ok: bool, newIds: seq<Id>, newData: seq<Bytes>, newStates: seq<U16>)
    modifies stream`input
    ensures ok <==> TakeItems(old(stream.input), num).Some?
    ensures ok ==>
      var (items, rest) := TakeItems(old(stream.input), num).value;
      && stream.input == rest
      && newIds == ids + IdsOf(items) && newData == data + DataOf(items) && newStates == states + StatesOf(items)
  {
    newIds, newData, newStates := ids, data, states;
    ghost var b, got := stream.input, [];
    PrependNothing(TakeItems(b, num));
    for i := 0 to num
      invariant |got| == i
      invariant newIds == ids + IdsOf(got) && newData == data + DataOf(got) && newStates == states + StatesOf(got)
      invariant TakeItems(b, num) == Prepend(got, TakeItems(stream.input, num - i))
    {
      TakesFirst(got, stream.input, num - i);
      var item := ReadItem(stream);
      if item.None? {
        return false, newIds, newData, newStates;
      }
      OneMoreColumn(got, item.value);
      got := got + [item.value];
      newIds, newData, newStates :=
        newIds + [item.value.id], newData + [item.value.data], newStates + [item.value.state];
    }
    return true, newIds, newData, newStates;
  }

  lemma OneMoreColumn(got: seq<Item>, item: Item)
    ensures IdsOf(got + [item]) == IdsOf(got) + [item.id]
    ensures DataOf(got + [item]) == DataOf(got) + [item.data]
    ensures StatesOf(got + [item]) == StatesOf(got) + [item.state]
  {
  }

  lemma PrependNothing(more: Option<(seq<Item>, Bytes)>)
    ensures Prepend([], more) == more
  {
    if more.Some? {
      assert [] + more.value.0 == more.value.0;
    }
  }

  function Prepend(got: seq<Item>, more: Option<(seq<Item>, Bytes)>): Option<(seq<Item>, Bytes)> {
    if more.None? then None else Some((got + more.value.0, more.value.1))
  }

  lemma TakesFirst(got: seq<Item>, b: Bytes, n: nat)
    requires n > 0
    ensures match TakeItem(b)
      case None => Prepend(got, TakeItems(b, n)) == None
      case Some(r) => Prepend(got, TakeItems(b, n)) == Prepend(got + [r.0], TakeItems(r.1, n - 1))
  {
    if TakeItem(b).Some? && TakeItems(TakeItem(b).value.1, n - 1).Some? {
      var others := TakeItems(TakeItem(b).value.1, n - 1).value.0;
      assert got + ([TakeItem(b).value.0] + others) == got + [TakeItem(b).value.0] + others;
    }
  }
}
