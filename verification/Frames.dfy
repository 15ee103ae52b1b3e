/** The frame both ends of a worker socket speak, on values: a flag, a count, and
    for each task its id, its state bits, its length and its bytes, big-endian. */
module Frames {
  import opened Basics

  const U16_SPACE: nat := 0x1_0000
  const U32_SPACE: nat := 0x1_0000_0000

  type U16 = n: nat | n < 0x1_0000

  function PutU16(n: U16): (b: Bytes)
    ensures |b| == 2
  {
    [n / 0x100, n % 0x100]
  }

  function GetU16(b: Bytes): U16
    requires |b| == 2
  {
    var hi: int, lo: int := b[0], b[1];
    hi * 0x100 + lo
  }

  function PutU32(n: Id): (b: Bytes)
    ensures |b| == 4
  {
    PutU16(n / 0x1_0000) + PutU16(n % 0x1_0000)
  }

  function GetU32(b: Bytes): Id
    requires |b| == 4
  {
    GetU16(b[..2]) * 0x1_0000 + GetU16(b[2..])
  }

  lemma U16RoundTrip(n: U16)
    ensures GetU16(PutU16(n)) == n
  {
  }

  lemma U32RoundTrip(n: Id)
    ensures GetU32(PutU32(n)) == n
  {
    assert PutU32(n)[..2] == PutU16(n / 0x1_0000) && PutU32(n)[2..] == PutU16(n % 0x1_0000);
  }

  lemma U16Canonical(b: Bytes)
    requires |b| == 2
    ensures PutU16(GetU16(b)) == b
  {
  }

  lemma U32Canonical(b: Bytes)
    requires |b| == 4
    ensures PutU32(GetU32(b)) == b
  {
    U16Canonical(b[..2]);
    U16Canonical(b[2..]);
    assert GetU32(b) / 0x1_0000 == GetU16(b[..2]) && GetU32(b) % 0x1_0000 == GetU16(b[2..]);
    assert b == b[..2] + b[2..];
  }

  datatype Item = Item(id: Id, state: U16, data: Bytes)

  datatype Message = Message(flag: U16, items: seq<Item>)

  /** The sizes that fit their fields. */
  predicate ItemFits(item: Item) {
    |item.data| < U32_SPACE
  }

  predicate Fits(m: Message) {
    |m.items| < U16_SPACE && forall i :: 0 <= i < |m.items| ==> ItemFits(m.items[i])
  }

  // ----- writing -----

  function PutItem(item: Item): (b: Bytes)
    requires ItemFits(item)
    ensures |b| == 10 + |item.data|
  {
    PutU32(item.id) + PutU16(item.state) + PutU32(|item.data|) + item.data
  }

  function PutItems(items: seq<Item>): Bytes
    requires forall i :: 0 <= i < |items| ==> ItemFits(items[i])
  {
    if items == [] then [] else PutItem(items[0]) + PutItems(items[1..])
  }

  function Encode(m: Message): Bytes
    requires Fits(m)
  {
    PutU16(m.flag) + PutU16(|m.items|) + PutItems(m.items)
  }

  // ----- reading -----

  function TakeItem(b: Bytes): (r: Option<(Item, Bytes)>)
    ensures r.Some? ==> |r.value.1| < |b| && ItemFits(r.value.0)
  {
    if |b| < 10 then None
    else
      var id, state, length, rest := GetU32(b[..4]), GetU16(b[4..6]), GetU32(b[6..10]), b[10..];
      if |rest| < length then None else Some((Item(id, state, rest[..length]), rest[length..]))
  }

  function TakeItems(b: Bytes, n: nat): (r: Option<(seq<Item>, Bytes)>)
    ensures r.Some? ==> |r.value.0| == n && |r.value.1| <= |b| && forall i :: 0 <= i < n ==> ItemFits(r.value.0[i])
    decreases n
  {
    if n == 0 then Some(([], b))
    else
      var first := TakeItem(b);
      if first.None? then None
      else
        var others := TakeItems(first.value.1, n - 1);
        if others.None? then None else Some(([first.value.0] + others.value.0, others.value.1))
  }

  /** One message from the front of a stream of bytes, and what follows it. */
  function Decode(b: Bytes): (r: Option<(Message, Bytes)>)
    ensures r.Some? ==> Fits(r.value.0) && |r.value.1| < |b|
  {
    if |b| < 4 then None
    else
      var flag, count := GetU16(b[..2]), GetU16(b[2..4]);
      var items := TakeItems(b[4..], count);
      if items.None? then None else Some((Message(flag, items.value.0), items.value.1))
  }

  // ----- one inverts the other -----

  lemma ItemRoundTrip(item: Item, rest: Bytes)
    requires ItemFits(item)
    ensures TakeItem(PutItem(item) + rest) == Some((item, rest))
  {
    var b := PutItem(item) + rest;
    U32RoundTrip(item.id);
    U16RoundTrip(item.state);
    U32RoundTrip(|item.data|);
    assert b[..4] == PutU32(item.id) && b[4..6] == PutU16(item.state) && b[6..10] == PutU32(|item.data|);
    assert b[10..] == item.data + rest;
  }

  lemma Joined(a: Bytes, b: Bytes, c: Bytes)
    ensures a + b + c == a + (b + c)
  {
  }

  lemma Regroup(a: Bytes, b: Bytes, c: Bytes, d: Bytes, e: Bytes, f: Bytes)
    ensures a + b + c + d + e + f == a + (b + c + d + e + f)
  {
    Joined(a, b, c);
    Joined(a, b + c, d);
    Joined(a, b + c + d, e);
    Joined(a, b + c + d + e, f);
  }

  lemma TakesOneMore(b: Bytes, item: Item, mid: Bytes, others: seq<Item>, rest: Bytes)
    requires TakeItem(b) == Some((item, mid)) && TakeItems(mid, |others|) == Some((others, rest))
    ensures TakeItems(b, |others| + 1) == Some(([item] + others, rest))
  {
  }

  lemma {:induction false} ItemsRoundTrip(items: seq<Item>, rest: Bytes)
    requires forall i :: 0 <= i < |items| ==> ItemFits(items[i])
    ensures TakeItems(PutItems(items) + rest, |items|) == Some((items, rest))
  {
    if items == [] {
      assert PutItems(items) + rest == rest;
    } else {
      Joined(PutItem(items[0]), PutItems(items[1..]), rest);
      ItemRoundTrip(items[0], PutItems(items[1..]) + rest);
      ItemsRoundTrip(items[1..], rest);
      TakesOneMore(PutItem(items[0]) + (PutItems(items[1..]) + rest), items[0], PutItems(items[1..]) + rest,
        items[1..], rest);
      assert items == [items[0]] + items[1..];
    }
  }

  /** Reading back what was written gives it back and leaves the rest alone. */
  lemma RoundTrip(m: Message, rest: Bytes)
    requires Fits(m)
    ensures Decode(Encode(m) + rest) == Some((m, rest))
  {
    var b := Encode(m) + rest;
    U16RoundTrip(m.flag);
    U16RoundTrip(|m.items|);
    ItemsRoundTrip(m.items, rest);
    Joined(PutU16(m.flag) + PutU16(|m.items|), PutItems(m.items), rest);
    assert b[..2] == PutU16(m.flag) && b[2..4] == PutU16(|m.items|) && b[4..] == PutItems(m.items) + rest;
  }

  lemma ItemCanonical(b: Bytes)
    requires TakeItem(b).Some?
    ensures b == PutItem(TakeItem(b).value.0) + TakeItem(b).value.1
  {
    U32Canonical(b[..4]);
    U16Canonical(b[4..6]);
    U32Canonical(b[6..10]);
    assert b == b[..4] + b[4..6] + b[6..10] + b[10..];
  }

  lemma {:induction false} ItemsCanonical(b: Bytes, n: nat)
    requires TakeItems(b, n).Some?
    ensures b == PutItems(TakeItems(b, n).value.0) + TakeItems(b, n).value.1
    decreases n
  {
    if n > 0 {
      ItemCanonical(b);
      ItemsCanonical(TakeItem(b).value.1, n - 1);
      var items := TakeItems(b, n).value.0;
      assert items[1..] == TakeItems(TakeItem(b).value.1, n - 1).value.0;
    }
  }

  /** Only the encoding of a message reads as that message. */
  lemma Canonical(b: Bytes)
    requires Decode(b).Some?
    ensures b == Encode(Decode(b).value.0) + Decode(b).value.1
  {
    U16Canonical(b[..2]);
    U16Canonical(b[2..4]);
    ItemsCanonical(b[4..], GetU16(b[2..4]));
    assert b == b[..2] + b[2..4] + b[4..];
  }

  // ----- which byte is where -----

  /** The number in two or four bytes from position `i` on, the most significant first. */
  function U16At(b: Bytes, i: nat): nat
    requires i + 2 <= |b|
  {
    var hi: int, lo: int := b[i], b[i + 1];
    hi * 0x100 + lo
  }

  function U32At(b: Bytes, i: nat): nat
    requires i + 4 <= |b|
  {
    U16At(b, i) * 0x1_0000 + U16At(b, i + 2)
  }

  lemma BytesOf16(n: U16, b: Bytes, i: nat)
    requires i + 2 <= |b| && b[i..i + 2] == PutU16(n)
    ensures U16At(b, i) == n
  {
    assert b[i] == b[i..i + 2][0] && b[i + 1] == b[i..i + 2][1];
  }

  lemma BytesOf32(n: Id, b: Bytes, i: nat)
    requires i + 4 <= |b| && b[i..i + 4] == PutU32(n)
    ensures U32At(b, i) == n
  {
    var p, field := PutU32(n), b[i..i + 4];
    assert b[i] == field[0] && b[i + 1] == field[1] && b[i + 2] == field[2] && b[i + 3] == field[3];
    assert U16At(p, 0) == n / 0x1_0000 && U16At(p, 2) == n % 0x1_0000;
  }

  /** A task on the wire: id, state and length, the most significant byte first, and then
      the payload. */
  lemma ItemLayout(item: Item)
    requires ItemFits(item)
    ensures var b := PutItem(item);
      U32At(b, 0) == item.id && U16At(b, 4) == item.state && U32At(b, 6) == |item.data| && b[10..] == item.data
  {
    var b := PutItem(item);
    BytesOf32(item.id, b, 0);
    BytesOf16(item.state, b, 4);
    BytesOf32(|item.data|, b, 6);
  }

  /** A message on the wire: flag and count, and then its tasks one after the other. */
  lemma MessageLayout(m: Message)
    requires Fits(m)
    ensures var b := Encode(m);
      && |b| >= 4 && U16At(b, 0) == m.flag && U16At(b, 2) == |m.items|
      && (m.items == [] ==> |b| == 4)
      && (m.items != [] ==> b[4..] == PutItem(m.items[0]) + PutItems(m.items[1..]))
  {
    var b := Encode(m);
    BytesOf16(m.flag, b, 0);
    BytesOf16(|m.items|, b, 2);
    assert b[4..] == PutItems(m.items);
  }

  // ----- streams of messages -----

  function EncodeAll(ms: seq<Message>): Bytes
    requires forall i :: 0 <= i < |ms| ==> Fits(ms[i])
  {
    if ms == [] then [] else Encode(ms[0]) + EncodeAll(ms[1..])
  }

  function DecodeAll(b: Bytes): (r: Option<seq<Message>>)
    ensures r.Some? ==> forall i :: 0 <= i < |r.value| ==> Fits(r.value[i])
    decreases |b|
  {
    if b == [] then Some([])
    else
      var first := Decode(b);
      if first.None? then None
      else
        var others := DecodeAll(first.value.1);
        if others.None? then None else Some([first.value.0] + others.value)
  }

  lemma DecodesOneMore(b: Bytes, m: Message, rest: Bytes, others: seq<Message>)
    requires Decode(b) == Some((m, rest)) && DecodeAll(rest) == Some(others)
    ensures DecodeAll(b) == Some([m] + others)
  {
  }

  /** A stream of frames, such as events followed by a reply, has one reading. */
  lemma {:induction false} StreamRoundTrip(ms: seq<Message>)
    requires forall i :: 0 <= i < |ms| ==> Fits(ms[i])
    ensures DecodeAll(EncodeAll(ms)) == Some(ms)
  {
    if ms != [] {
      StreamRoundTrip(ms[1..]);
      RoundTrip(ms[0], EncodeAll(ms[1..]));
      DecodesOneMore(EncodeAll(ms), ms[0], EncodeAll(ms[1..]), ms[1..]);
      assert ms == [ms[0]] + ms[1..];
    }
  }

  lemma {:induction false} StreamCanonical(b: Bytes)
    requires DecodeAll(b).Some?
    ensures b == EncodeAll(DecodeAll(b).value)
    decreases |b|
  {
    if b != [] {
      Canonical(b);
      StreamCanonical(Decode(b).value.1);
    }
  }

  /** Bytes read as a stream of frames exactly if they are its encoding: different
      streams are different bytes, and there is one way to take bytes apart. */
  lemma OneReading(b: Bytes, ms: seq<Message>)
    requires forall i :: 0 <= i < |ms| ==> Fits(ms[i])
    ensures DecodeAll(b) == Some(ms) <==> b == EncodeAll(ms)
  {
    StreamRoundTrip(ms);
    if DecodeAll(b).Some? {
      StreamCanonical(b);
    }
  }
}
