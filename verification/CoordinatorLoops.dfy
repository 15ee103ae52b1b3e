/** One turn of the worker process: receive, work, reply. */
module CoordinatorLoops {
  import opened Basics
  import F = Frames
  import P = PythonWire
  import K = PythonSocket
  import opened Wire
  import opened Coordinators

  class Coordinator<Data> {
    const worker: Worker<Data>
    const socket: K.Socket
    var currentIds: seq<Bytes>   // what stream events refer to

    constructor (worker: Worker<Data>, socket: K.Socket)
      ensures this.worker == worker && this.socket == socket && currentIds == []
    {
      this.worker, this.socket, currentIds := worker, socket, [];
    }

    method DecodeBatch(payloads: seq<Bytes>, states: seq<nat>) returns (r: Result<seq<Data>, Failure>)
      requires |payloads| == |states|
      ensures r == DecodeAll(worker, payloads, states)
    {
      var data := [];
      for i := 0 to |payloads|
        invariant DecodeAll(worker, payloads[..i], states[..i]) == Ok(data)
      {
        assert payloads[..i + 1][..i] == payloads[..i] && states[..i + 1][..i] == states[..i];
        var d := Decode(worker, payloads[i], states[i]);
        if d.Err? {
          DecodeStops(worker, payloads, states, i + 1);
          return Err(d.error);
        }
        data := data + [d.value];
      }
      assert payloads[..|payloads|] == payloads && states[..|payloads|] == states;
      return Ok(data);
    }

    method EncodeBatch(data: seq<Data>, states: seq<nat>) returns (r: Result<seq<Bytes>, Failure>)
      requires |data| == |states|
      ensures r == EncodeAll(worker, data, states)
    {
      var payloads := [];
      for i := 0 to |data|
        invariant EncodeAll(worker, data[..i], states[..i]) == Ok(payloads)
      {
        assert data[..i + 1][..i] == data[..i] && states[..i + 1][..i] == states[..i];
        var b := Encode(worker, data[i], states[i]);
        if b.Err? {
          EncodeStops(worker, data, states, i + 1);
          return Err(b.error);
        }
        payloads := payloads + [b.value];
      }
      assert data[..|data|] == data && states[..|data|] == states;
      return Ok(payloads);
    }

    /** A batch goes to `forward` as a list, or as its first item alone. */
    method Forward(inputs: seq<Data>) returns (r: Result<seq<Data>, Failure>)
      ensures ForwardsTo(worker, inputs, r) && r == Compute(worker, inputs)
    {
      if worker.maxBatchSize > 1 {
        return worker.forward(inputs);
      }
      if inputs == [] {
        return Err(Other);
      }
      var d := worker.forwardOne(inputs[0]);
      return match d case Ok(datum) => Ok([datum]) case Err(f) => Err(f);
    }

    /** The work on one batch, failures included. */
    method Process(payloads: seq<Bytes>, states: seq<nat>) returns (status: Status, out: seq<Bytes>)
      requires |payloads| == |states|
      ensures (status, out) == Respond(worker, payloads, states)
    {
      var length := |payloads|;
      var failure := Other;
      var inputs := DecodeBatch(payloads, states);
      if inputs.Ok? {
        var outputs := Forward(inputs.value);
        if outputs.Ok? && |outputs.value| == length {
          var encoded := EncodeBatch(outputs.value, states);
          if encoded.Ok? {
            return Status.Okay, encoded.value;
          }
          failure := encoded.error;
        } else if outputs.Err? {
          failure := outputs.error;
        }
      } else {
        failure := inputs.error;
      }
      match failure
      case Raised(code, text) => return code, seq(length, _ => text);
      case Other => return Status.InternalError, seq(length, _ => INTERNAL_ERROR_TEXT);
    }

    /** One turn. A batch that arrives is answered by exactly one reply, with its own
        ids and states in order. A timeout only starts the next turn, from wherever it
        left the stream. The loop ends when a field came short or the reply cannot
        be packed, and then nothing is sent. */
    method Turn() returns (end: TurnEnd)
      modifies `currentIds, socket
      ensures var (batch, d) := P.Receive(old(socket.arriving));
        && socket.arriving == d
        && (batch.TimedOut? ==> end == Again)
        && (batch.StructError? ==> end == Stopped)
        && (batch.Starved? ==> end == Hung)
        && (!batch.Got? ==> socket.sent == old(socket.sent) && currentIds == old(currentIds))
        && (batch.Got? ==>
              var ids, states := IdsIn(batch.value.1), StatesIn(batch.value.1);
              var (status, out) := Respond(worker, PayloadsIn(batch.value.1), states);
              && currentIds == ids
              && end == (if K.Sendable(FlagOf(status), ids, states, out) then Again else Stopped)
              && socket.sent == old(socket.sent) + if end == Again then K.Packed(FlagOf(status), ids, states, out)
                else [])
    {
      ghost var batch := P.Receive(socket.arriving).0;
      var r := socket.Receive();
      match r
      case TimedOut => return Again;
      case StructError => return Stopped;
      case Starved => return Hung;
      case Got(b) =>
        assert b.ids == IdsIn(batch.value.1) && b.states == StatesIn(batch.value.1)
          && b.payloads == PayloadsIn(batch.value.1);
        currentIds := b.ids;
        var status, out := Process(b.payloads, b.states);
        var error := socket.Send(FlagOf(status), b.ids, b.states, out);
        return if error.None? then Again else Stopped;
    }
  }

  /** How a turn ends: the loop goes on, the loop ends, or `receive` never returns. */
  datatype TurnEnd = Again | Stopped | Hung

  function IdsIn(jobs: seq<P.Job>): (r: seq<Bytes>)
    ensures |r| == |jobs|
  {
    seq(|jobs|, i requires 0 <= i < |jobs| => jobs[i].id)
  }

  function StatesIn(jobs: seq<P.Job>): (r: seq<nat>)
    ensures |r| == |jobs|
  {
    seq(|jobs|, i requires 0 <= i < |jobs| => jobs[i].state)
  }

  function PayloadsIn(jobs: seq<P.Job>): (r: seq<Bytes>)
    ensures |r| == |jobs|
  {
    seq(|jobs|, i requires 0 <= i < |jobs| => jobs[i].payload)
  }

  lemma {:induction false} DecodeStops<Data>(w: Worker<Data>, payloads: seq<Bytes>, states: seq<nat>, k: nat)
    requires |payloads| == |states| && k <= |payloads| && DecodeAll(w, payloads[..k], states[..k]).Err?
    ensures DecodeAll(w, payloads, states) == DecodeAll(w, payloads[..k], states[..k])
    decreases |payloads|
  {
    var n := |payloads| - 1;
    if k < |payloads| {
      assert payloads[..n][..k] == payloads[..k] && states[..n][..k] == states[..k];
      DecodeStops(w, payloads[..n], states[..n], k);
    } else {
      assert payloads[..k] == payloads && states[..k] == states;
    }
  }

  lemma {:induction false} EncodeStops<Data>(w: Worker<Data>, data: seq<Data>, states: seq<nat>, k: nat)
    requires |data| == |states| && k <= |data| && EncodeAll(w, data[..k], states[..k]).Err?
    ensures EncodeAll(w, data, states) == EncodeAll(w, data[..k], states[..k])
    decreases |data|
  {
    var n := |data| - 1;
    if k < |data| {
      assert data[..n][..k] == data[..k] && states[..n][..k] == states[..k];
      EncodeStops(w, data[..n], states[..n], k);
    } else {
      assert data[..k] == data && states[..k] == states;
    }
  }

  /** With four-byte ids and 16-bit states a reply is always sent, unless a payload
      is too long for its 32-bit length field. */
  lemma RepliesAlways<Data(!new)>(w: Worker<Data>, jobs: seq<P.Job>)
    requires Honest(w) && |jobs| < F.U16_SPACE
    ensures var (status, out) := Respond(w, PayloadsIn(jobs), StatesIn(jobs));
      K.Sendable(FlagOf(status), IdsIn(jobs), StatesIn(jobs), out)
      <==> forall i :: 0 <= i < |out| ==> |out[i]| < F.U32_SPACE
  {
    OneReplyForEach(w, PayloadsIn(jobs), StatesIn(jobs));
  }
}
