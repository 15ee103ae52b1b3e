/** The worker process around a user's worker: receive a batch, decode, compute,
    encode, and send one reply whatever happens. */
module Coordinators {
  import opened Basics
  import opened Wire

  /** What user code can raise: an error that carries a status and a text for the
      client (a timeout of `forward` is one of these), or anything else. */
  datatype Failure = Raised(code: Status, text: Bytes) | Other

  /** What the user of the framework supplies. */
  datatype Worker<!Data> = Worker(
    maxBatchSize: nat,
    deserialize: Bytes -> Result<Data, Failure>,
    deserializeIpc: Bytes -> Result<Data, Failure>,
    serialize: Data -> Result<Bytes, Failure>,
    serializeIpc: Data -> Result<Bytes, Failure>,
    forward: seq<Data> -> Result<seq<Data>, Failure>,
    forwardOne: Data -> Result<Data, Failure>)

  predicate Ingress(state: nat) {
    state % 2 == 1
  }

  predicate Egress(state: nat) {
    state / 2 % 2 == 1
  }

  function Decode<Data>(w: Worker<Data>, payload: Bytes, state: nat): Result<Data, Failure> {
    if Ingress(state) then w.deserialize(payload) else w.deserializeIpc(payload)
  }

  function Encode<Data>(w: Worker<Data>, data: Data, state: nat): Result<Bytes, Failure> {
    if Egress(state) then w.serialize(data) else w.serializeIpc(data)
  }

  /** All payloads decoded, or the first failure. */
  function DecodeAll<Data>(w: Worker<Data>, payloads: seq<Bytes>, states: seq<nat>): (r: Result<seq<Data>, Failure>)
    requires |payloads| == |states|
    ensures r.Ok? ==> |r.value| == |payloads|
    decreases |payloads|
  {
    if payloads == [] then Ok([])
    else
      var n := |payloads| - 1;
      var before := DecodeAll(w, payloads[..n], states[..n]);
      match before
      case Err(_) => before
      case Ok(data) =>
        match Decode(w, payloads[n], states[n])
        case Ok(d) => Ok(data + [d])
        case Err(f) => Err(f)
  }

  function EncodeAll<Data>(w: Worker<Data>, data: seq<Data>, states: seq<nat>): (r: Result<seq<Bytes>, Failure>)
    requires |data| == |states|
    ensures r.Ok? ==> |r.value| == |data|
    decreases |data|
  {
    if data == [] then Ok([])
    else
      var n := |data| - 1;
      var before := EncodeAll(w, data[..n], states[..n]);
      match before
      case Err(_) => before
      case Ok(payloads) =>
        match Encode(w, data[n], states[n])
        case Ok(b) => Ok(payloads + [b])
        case Err(f) => Err(f)
  }

  /** A worker without batching computes on the first item alone. */
  function Compute<Data>(w: Worker<Data>, data: seq<Data>): Result<seq<Data>, Failure> {
    if w.maxBatchSize > 1 then w.forward(data)
    else if data == [] then Err(Other)
    else
      match w.forwardOne(data[0])
      case Ok(d) => Ok([d])
      case Err(f) => Err(f)
  }

  function Attempt<Data>(w: Worker<Data>, payloads: seq<Bytes>, states: seq<nat>): (r: Result<seq<Bytes>, Failure>)
    requires |payloads| == |states|
    ensures r.Ok? ==> |r.value| == |payloads|
  {
    match DecodeAll(w, payloads, states)
    case Err(f) => Err(f)
    case Ok(inputs) =>
      match Compute(w, inputs)
      case Err(f) => Err(f)
      case Ok(outputs) => if |outputs| != |payloads| then Err(Other) else EncodeAll(w, outputs, states)
  }

  /** "inference internal error" */
  const INTERNAL_ERROR_TEXT: Bytes :=
    [105, 110, 102, 101, 114, 101, 110, 99, 101, 32, 105, 110, 116, 101, 114, 110, 97, 108, 32, 101, 114, 114, 111, 114]

  /** The one reply to a batch: its status and its payloads. */
  function Respond<Data>(w: Worker<Data>, payloads: seq<Bytes>, states: seq<nat>): (Status, seq<Bytes>)
    requires |payloads| == |states|
  {
    match Attempt(w, payloads, states)
    case Ok(out) => (Status.Okay, out)
    case Err(Raised(code, text)) => (code, seq(|payloads|, _ => text))
    case Err(Other) => (Status.InternalError, seq(|payloads|, _ => INTERNAL_ERROR_TEXT))
  }

  /** User code raises neither success nor a stream event. */
  ghost predicate Honest<Data(!new)>(w: Worker<Data>) {
    && (forall b :: Earnest(w.deserialize(b)) && Earnest(w.deserializeIpc(b)))
    && (forall d :: Earnest(w.serialize(d)) && Earnest(w.serializeIpc(d)) && Earnest(w.forwardOne(d)))
    && (forall ds :: Earnest(w.forward(ds)))
  }

  predicate Earnest<T>(r: Result<T, Failure>) {
    r.Err? && r.error.Raised? ==> r.error.code != Status.Okay && r.error.code != Status.StreamEvent
  }

  lemma {:induction false} DecodeAllEarnest<Data(!new)>(w: Worker<Data>, payloads: seq<Bytes>, states: seq<nat>)
    requires |payloads| == |states| && Honest(w)
    ensures Earnest(DecodeAll(w, payloads, states))
    decreases |payloads|
  {
    if payloads != [] {
      var n := |payloads| - 1;
      DecodeAllEarnest(w, payloads[..n], states[..n]);
      assert Earnest(Decode(w, payloads[n], states[n]));
    }
  }

  lemma {:induction false} EncodeAllEarnest<Data(!new)>(w: Worker<Data>, data: seq<Data>, states: seq<nat>)
    requires |data| == |states| && Honest(w)
    ensures Earnest(EncodeAll(w, data, states))
    decreases |data|
  {
    if data != [] {
      var n := |data| - 1;
      EncodeAllEarnest(w, data[..n], states[..n]);
      assert Earnest(Encode(w, data[n], states[n]));
    }
  }

  lemma AttemptEarnest<Data(!new)>(w: Worker<Data>, payloads: seq<Bytes>, states: seq<nat>)
    requires |payloads| == |states| && Honest(w)
    ensures Earnest(Attempt(w, payloads, states))
  {
    DecodeAllEarnest(w, payloads, states);
    var inputs := DecodeAll(w, payloads, states);
    if inputs.Ok? {
      var outputs := Compute(w, inputs.value);
      assert Earnest(outputs) by {
        assert Earnest(w.forward(inputs.value));
        if inputs.value != [] { assert Earnest(w.forwardOne(inputs.value[0])); }
      }
      if outputs.Ok? && |outputs.value| == |payloads| {
        EncodeAllEarnest(w, outputs.value, states);
      }
    }
  }

  // ----- what a failure is reported as -----

  ghost predicate FailsFirst<Data>(w: Worker<Data>, payloads: seq<Bytes>, states: seq<nat>, i: nat)
    requires |payloads| == |states|
  {
    && i < |payloads| && Decode(w, payloads[i], states[i]).Err?
    && forall j :: 0 <= j < i ==> Decode(w, payloads[j], states[j]).Ok?
  }

  /** The first payload that cannot be decoded decides, whatever comes after it. */
  lemma {:induction false} FirstUndecodable<Data>(w: Worker<Data>, payloads: seq<Bytes>, states: seq<nat>, i: nat)
    requires |payloads| == |states| && FailsFirst(w, payloads, states, i)
    ensures DecodeAll(w, payloads, states) == Err(Decode(w, payloads[i], states[i]).error)
    decreases |payloads|
  {
    var n := |payloads| - 1;
    if i < n {
      FirstUndecodable(w, payloads[..n], states[..n], i);
    } else {
      AllDecodable(w, payloads[..n], states[..n]);
    }
  }

  lemma {:induction false} AllDecodable<Data>(w: Worker<Data>, payloads: seq<Bytes>, states: seq<nat>)
    requires |payloads| == |states| && forall j :: 0 <= j < |payloads| ==> Decode(w, payloads[j], states[j]).Ok?
    ensures DecodeAll(w, payloads, states).Ok?
    decreases |payloads|
  {
    if payloads != [] {
      var n := |payloads| - 1;
      AllDecodable(w, payloads[..n], states[..n]);
      assert Decode(w, payloads[n], states[n]).Ok?;
    }
  }

  lemma {:induction false} FirstUnencodable<Data>(w: Worker<Data>, data: seq<Data>, states: seq<nat>, i: nat)
    requires |data| == |states| && i < |data| && Encode(w, data[i], states[i]).Err?
    requires forall j :: 0 <= j < i ==> Encode(w, data[j], states[j]).Ok?
    ensures EncodeAll(w, data, states) == Err(Encode(w, data[i], states[i]).error)
    decreases |data|
  {
    var n := |data| - 1;
    if i < n {
      FirstUnencodable(w, data[..n], states[..n], i);
    } else {
      AllEncodable(w, data[..n], states[..n]);
    }
  }

  lemma {:induction false} AllEncodable<Data>(w: Worker<Data>, data: seq<Data>, states: seq<nat>)
    requires |data| == |states| && forall j :: 0 <= j < |data| ==> Encode(w, data[j], states[j]).Ok?
    ensures EncodeAll(w, data, states).Ok?
    decreases |data|
  {
    if data != [] {
      var n := |data| - 1;
      AllEncodable(w, data[..n], states[..n]);
      assert Encode(w, data[n], states[n]).Ok?;
    }
  }

  /** How a failure reaches the clients: the status and text that were raised, or an
      internal error for anything else. */
  predicate Reports(f: Failure, n: nat, reply: (Status, seq<Bytes>)) {
    |reply.1| == n &&
    match f
    case Raised(code, text) => reply.0 == code && forall i :: 0 <= i < n ==> reply.1[i] == text
    case Other => reply.0 == Status.InternalError && forall i :: 0 <= i < n ==> reply.1[i] == INTERNAL_ERROR_TEXT
  }

  lemma {:induction false} DecodedEach<Data>(w: Worker<Data>, payloads: seq<Bytes>, states: seq<nat>, i: nat)
    requires |payloads| == |states| && DecodeAll(w, payloads, states).Ok? && i < |payloads|
    ensures Decode(w, payloads[i], states[i]) == Ok(DecodeAll(w, payloads, states).value[i])
    decreases |payloads|
  {
    var n := |payloads| - 1;
    if i < n {
      DecodedEach(w, payloads[..n], states[..n], i);
    }
  }

  lemma {:induction false} EncodedEach<Data>(w: Worker<Data>, data: seq<Data>, states: seq<nat>, i: nat)
    requires |data| == |states| && EncodeAll(w, data, states).Ok? && i < |data|
    ensures Encode(w, data[i], states[i]) == Ok(EncodeAll(w, data, states).value[i])
    decreases |data|
  {
    var n := |data| - 1;
    if i < n {
      EncodedEach(w, data[..n], states[..n], i);
    }
  }

  // ----- the reply, told by the hooks alone -----

  /** What decoding one payload gives: the client's codec at the first stage, the internal
      one at any other. */
  ghost predicate DecodesTo<Data>(w: Worker<Data>, payload: Bytes, state: nat, r: Result<Data, Failure>) {
    if state % 2 == 1 then w.deserialize(payload) == r else w.deserializeIpc(payload) == r
  }

  /** What encoding one result gives: the client's codec at the last stage. */
  ghost predicate EncodesTo<Data>(w: Worker<Data>, data: Data, state: nat, r: Result<Bytes, Failure>) {
    if state / 2 % 2 == 1 then w.serialize(data) == r else w.serializeIpc(data) == r
  }

  ghost predicate AllDecode<Data>(w: Worker<Data>, payloads: seq<Bytes>, states: seq<nat>, inputs: seq<Data>)
    requires |payloads| == |states|
  {
    && |inputs| == |payloads|
    && forall i :: 0 <= i < |payloads| ==> DecodesTo(w, payloads[i], states[i], Ok(inputs[i]))
  }

  ghost predicate AllEncode<Data>(w: Worker<Data>, outputs: seq<Data>, states: seq<nat>, out: seq<Bytes>)
    requires |outputs| == |states|
  {
    && |out| == |outputs|
    && forall i :: 0 <= i < |outputs| ==> EncodesTo(w, outputs[i], states[i], Ok(out[i]))
  }

  /** What `forward` makes of the inputs: called with the list of them by a worker with
      batching, and with the first of them alone by one without. */
  ghost predicate ForwardsTo<Data>(w: Worker<Data>, inputs: seq<Data>, r: Result<seq<Data>, Failure>) {
    if w.maxBatchSize > 1 then w.forward(inputs) == r
    else if inputs == [] then r == Err(Other)
    else if r.Ok? then |r.value| == 1 && w.forwardOne(inputs[0]) == Ok(r.value[0])
    else w.forwardOne(inputs[0]) == Err(r.error)
  }

  ghost predicate Succeeds<Data(!new)>(w: Worker<Data>, payloads: seq<Bytes>, states: seq<nat>, out: seq<Bytes>)
    requires |payloads| == |states|
  {
    exists inputs, outputs ::
      && AllDecode(w, payloads, states, inputs) && ForwardsTo(w, inputs, Ok(outputs))
      && |outputs| == |payloads| && AllEncode(w, outputs, states, out)
  }

  lemma ComputeIs<Data>(w: Worker<Data>, inputs: seq<Data>, r: Result<seq<Data>, Failure>)
    ensures ForwardsTo(w, inputs, r) <==> Compute(w, inputs) == r
  {
    if r.Ok? && |r.value| == 1 {
      assert r.value == [r.value[0]];
    }
  }

  lemma DecodedExactly<Data>(w: Worker<Data>, payloads: seq<Bytes>, states: seq<nat>, inputs: seq<Data>)
    requires |payloads| == |states|
    ensures AllDecode(w, payloads, states, inputs) <==> DecodeAll(w, payloads, states) == Ok(inputs)
  {
    if AllDecode(w, payloads, states, inputs) {
      forall j | 0 <= j < |payloads| ensures Decode(w, payloads[j], states[j]) == Ok(inputs[j]) {
        assert DecodesTo(w, payloads[j], states[j], Ok(inputs[j]));
      }
      AllDecodable(w, payloads, states);
    }
    if DecodeAll(w, payloads, states).Ok? {
      forall i | 0 <= i < |payloads|
        ensures DecodesTo(w, payloads[i], states[i], Ok(DecodeAll(w, payloads, states).value[i]))
        ensures Decode(w, payloads[i], states[i]) == Ok(DecodeAll(w, payloads, states).value[i])
      {
        DecodedEach(w, payloads, states, i);
      }
    }
    if AllDecode(w, payloads, states, inputs) {
      forall i | 0 <= i < |payloads| ensures DecodeAll(w, payloads, states).value[i] == inputs[i] {
        assert Decode(w, payloads[i], states[i]) == Ok(inputs[i]);
      }
      assert DecodeAll(w, payloads, states).value == inputs;
    }
  }

  lemma EncodedExactly<Data>(w: Worker<Data>, outputs: seq<Data>, states: seq<nat>, out: seq<Bytes>)
    requires |outputs| == |states|
    ensures AllEncode(w, outputs, states, out) <==> EncodeAll(w, outputs, states) == Ok(out)
  {
    if AllEncode(w, outputs, states, out) {
      forall j | 0 <= j < |outputs| ensures Encode(w, outputs[j], states[j]) == Ok(out[j]) {
        assert EncodesTo(w, outputs[j], states[j], Ok(out[j]));
      }
      AllEncodable(w, outputs, states);
    }
    if EncodeAll(w, outputs, states).Ok? {
      forall i | 0 <= i < |outputs|
        ensures EncodesTo(w, outputs[i], states[i], Ok(EncodeAll(w, outputs, states).value[i]))
        ensures Encode(w, outputs[i], states[i]) == Ok(EncodeAll(w, outputs, states).value[i])
      {
        EncodedEach(w, outputs, states, i);
      }
    }
    if AllEncode(w, outputs, states, out) {
      forall i | 0 <= i < |outputs| ensures EncodeAll(w, outputs, states).value[i] == out[i] {
        assert Encode(w, outputs[i], states[i]) == Ok(out[i]);
      }
      assert EncodeAll(w, outputs, states).value == out;
    }
  }

  lemma AttemptExactly<Data(!new)>(w: Worker<Data>, payloads: seq<Bytes>, states: seq<nat>, out: seq<Bytes>)
    requires |payloads| == |states|
    ensures Attempt(w, payloads, states) == Ok(out) <==> Succeeds(w, payloads, states, out)
  {
    if Attempt(w, payloads, states) == Ok(out) {
      var inputs := DecodeAll(w, payloads, states).value;
      var outputs := Compute(w, inputs).value;
      DecodedExactly(w, payloads, states, inputs);
      ComputeIs(w, inputs, Ok(outputs));
      EncodedExactly(w, outputs, states, out);
    }
    if Succeeds(w, payloads, states, out) {
      var inputs, outputs :|
        && AllDecode(w, payloads, states, inputs) && ForwardsTo(w, inputs, Ok(outputs))
        && |outputs| == |payloads| && AllEncode(w, outputs, states, out);
      DecodedExactly(w, payloads, states, inputs);
      ComputeIs(w, inputs, Ok(outputs));
      EncodedExactly(w, outputs, states, out);
    }
  }

  /** Whatever happens there are as many payloads as tasks; a reply that is not a
      success gives every task the same payload; and the reply is a success with these
      payloads exactly if every payload decodes, `forward` makes as many results of
      what was decoded, and these encode to the payloads. */
  lemma OneReplyForEach<Data(!new)>(w: Worker<Data>, payloads: seq<Bytes>, states: seq<nat>)
    requires |payloads| == |states| && Honest(w)
    ensures var (status, out) := Respond(w, payloads, states);
      && |out| == |payloads|
      && status != Status.StreamEvent
      && (status != Status.Okay ==> forall i, j :: 0 <= i < |out| && 0 <= j < |out| ==> out[i] == out[j])
      && (status == Status.Okay ==> Succeeds(w, payloads, states, out))
    ensures forall out :: Succeeds(w, payloads, states, out) ==> Respond(w, payloads, states) == (Status.Okay, out)
  {
    AttemptEarnest(w, payloads, states);
    AttemptExactly(w, payloads, states, Respond(w, payloads, states).1);
    forall out | Succeeds(w, payloads, states, out) ensures Respond(w, payloads, states) == (Status.Okay, out) {
      AttemptExactly(w, payloads, states, out);
    }
  }

  lemma UndecodableReported<Data>(w: Worker<Data>, payloads: seq<Bytes>, states: seq<nat>, i: nat, f: Failure,
      inputs: seq<Data>)
    requires |payloads| == |states| && i < |payloads| && i <= |inputs| && DecodesTo(w, payloads[i], states[i], Err(f))
    requires forall j :: 0 <= j < i ==> DecodesTo(w, payloads[j], states[j], Ok(inputs[j]))
    ensures Reports(f, |payloads|, Respond(w, payloads, states))
  {
    forall j | 0 <= j < i ensures Decode(w, payloads[j], states[j]).Ok? {
      assert DecodesTo(w, payloads[j], states[j], Ok(inputs[j]));
    }
    FirstUndecodable(w, payloads, states, i);
  }

  lemma ForwardReported<Data>(w: Worker<Data>, payloads: seq<Bytes>, states: seq<nat>, f: Failure, inputs: seq<Data>)
    requires |payloads| == |states| && AllDecode(w, payloads, states, inputs) && ForwardsTo(w, inputs, Err(f))
    ensures Reports(f, |payloads|, Respond(w, payloads, states))
  {
    DecodedExactly(w, payloads, states, inputs);
    ComputeIs(w, inputs, Err(f));
  }

  lemma CountReported<Data>(w: Worker<Data>, payloads: seq<Bytes>, states: seq<nat>, inputs: seq<Data>,
      outputs: seq<Data>)
    requires |payloads| == |states| && AllDecode(w, payloads, states, inputs) && ForwardsTo(w, inputs, Ok(outputs))
    requires |outputs| != |payloads|
    ensures Reports(Other, |payloads|, Respond(w, payloads, states))
  {
    DecodedExactly(w, payloads, states, inputs);
    ComputeIs(w, inputs, Ok(outputs));
  }

  lemma UnencodableReported<Data>(w: Worker<Data>, payloads: seq<Bytes>, states: seq<nat>, i: nat, f: Failure,
      inputs: seq<Data>, outputs: seq<Data>, out: seq<Bytes>)
    requires |payloads| == |states| && AllDecode(w, payloads, states, inputs) && ForwardsTo(w, inputs, Ok(outputs))
    requires |outputs| == |payloads| && i < |outputs| && i <= |out| && EncodesTo(w, outputs[i], states[i], Err(f))
    requires forall j :: 0 <= j < i ==> EncodesTo(w, outputs[j], states[j], Ok(out[j]))
    ensures Reports(f, |payloads|, Respond(w, payloads, states))
  {
    DecodedExactly(w, payloads, states, inputs);
    ComputeIs(w, inputs, Ok(outputs));
    forall j | 0 <= j < i ensures Encode(w, outputs[j], states[j]).Ok? {
      assert EncodesTo(w, outputs[j], states[j], Ok(out[j]));
    }
    FirstUnencodable(w, outputs, states, i);
  }

  /** What is reported, in order: the first payload that cannot be decoded, whatever comes
      after it; then a `forward` that fails; then a wrong number of results, as an
      internal error; then the first result that cannot be encoded. */
  lemma FailuresInOrder<Data>(w: Worker<Data>, payloads: seq<Bytes>, states: seq<nat>, i: nat, f: Failure,
      inputs: seq<Data>, outputs: seq<Data>, out: seq<Bytes>)
    requires |payloads| == |states|
    ensures i < |payloads| && i <= |inputs| && DecodesTo(w, payloads[i], states[i], Err(f))
      && (forall j :: 0 <= j < i ==> DecodesTo(w, payloads[j], states[j], Ok(inputs[j])))
      ==> Reports(f, |payloads|, Respond(w, payloads, states))
    ensures AllDecode(w, payloads, states, inputs) && ForwardsTo(w, inputs, Err(f))
      ==> Reports(f, |payloads|, Respond(w, payloads, states))
    ensures AllDecode(w, payloads, states, inputs) && ForwardsTo(w, inputs, Ok(outputs)) && |outputs| != |payloads|
      ==> Reports(Other, |payloads|, Respond(w, payloads, states))
    ensures AllDecode(w, payloads, states, inputs) && ForwardsTo(w, inputs, Ok(outputs)) && |outputs| == |payloads|
      && i < |payloads| && i <= |out| && EncodesTo(w, outputs[i], states[i], Err(f))
      && (forall j :: 0 <= j < i ==> EncodesTo(w, outputs[j], states[j], Ok(out[j])))
      ==> Reports(f, |payloads|, Respond(w, payloads, states))
  {
    if AllDecode(w, payloads, states, inputs) && ForwardsTo(w, inputs, Err(f)) {
      ForwardReported(w, payloads, states, f, inputs);
    }
    if AllDecode(w, payloads, states, inputs) && ForwardsTo(w, inputs, Ok(outputs)) {
      if |outputs| != |payloads| {
        CountReported(w, payloads, states, inputs, outputs);
      } else if i < |payloads| && i <= |out| && EncodesTo(w, outputs[i], states[i], Err(f))
        && forall j :: 0 <= j < i ==> EncodesTo(w, outputs[j], states[j], Ok(out[j])) {
        UnencodableReported(w, payloads, states, i, f, inputs, outputs, out);
      }
    }
    if i < |payloads| && i <= |inputs| && DecodesTo(w, payloads[i], states[i], Err(f))
      && forall j :: 0 <= j < i ==> DecodesTo(w, payloads[j], states[j], Ok(inputs[j])) {
      UndecodableReported(w, payloads, states, i, f, inputs);
    }
  }

  // ----- workers that treat the items of a batch one by one -----

  ghost predicate Pointwise<Data(!new)>(w: Worker<Data>, f: Data -> Data) {
    && (forall ds :: w.forward(ds).Ok? && |w.forward(ds).value| == |ds| ==> EachIs(w.forward(ds).value, ds, f))
    && (forall d :: w.forwardOne(d).Ok? ==> w.forwardOne(d).value == f(d))
  }

  ghost predicate EachIs<Data>(out: seq<Data>, ds: seq<Data>, f: Data -> Data) {
    |out| == |ds| && forall i :: 0 <= i < |ds| ==> out[i] == f(ds[i])
  }

  /** What such a worker makes of one payload, if it makes anything of it. */
  function Work<Data>(w: Worker<Data>, f: Data -> Data, state: nat, payload: Bytes): Option<Bytes> {
    match Decode(w, payload, state)
    case Err(_) => None
    case Ok(d) =>
      match Encode(w, f(d), state)
      case Err(_) => None
      case Ok(b) => Some(b)
  }

  /** A success carries, for each task, what the worker makes of that task's own
      payload: batching changes nothing and nothing is mixed up. */
  lemma EachItsOwn<Data(!new)>(w: Worker<Data>, f: Data -> Data, payloads: seq<Bytes>, states: seq<nat>, i: nat)
    requires |payloads| == |states| && Honest(w) && Pointwise(w, f) && i < |payloads|
    ensures var (status, out) := Respond(w, payloads, states);
      status == Status.Okay ==> |out| == |payloads| && Work(w, f, states[i], payloads[i]) == Some(out[i])
  {
    OneReplyForEach(w, payloads, states);
    var out := Respond(w, payloads, states).1;
    if Respond(w, payloads, states).0 == Status.Okay {
      var inputs, outputs :|
        && AllDecode(w, payloads, states, inputs) && ForwardsTo(w, inputs, Ok(outputs))
        && |outputs| == |payloads| && AllEncode(w, outputs, states, out);
      EachForwarded(w, f, inputs, outputs, i);
      assert DecodesTo(w, payloads[i], states[i], Ok(inputs[i])) && EncodesTo(w, outputs[i], states[i], Ok(out[i]));
    }
  }

  lemma EachForwarded<Data(!new)>(w: Worker<Data>, f: Data -> Data, inputs: seq<Data>, outputs: seq<Data>, i: nat)
    requires Pointwise(w, f) && ForwardsTo(w, inputs, Ok(outputs)) && i < |outputs| == |inputs|
    ensures outputs[i] == f(inputs[i])
  {
    if w.maxBatchSize > 1 {
      assert EachIs(w.forward(inputs).value, inputs, f);
    }
  }
}
