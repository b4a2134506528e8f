/** The device (initiator) side of the Anymote protocol: one request per
    `send*` call, a ping counter, and the interpretation of responses as
    callbacks on the application's message receiver. */
module DeviceSide {
  import opened Optional
  import opened ByteStreams
  import opened AnymoteMessages
  import opened ConnectInfoModel

  /** A call the adapter makes on the application's MessageReceiver. */
  datatype DeviceCallback =
    | AckReceived
    | DataReceived(dataType: string, data: string)
    | FlingResultReceived(result: FlingResult, sequenceNumber: Option<Int32>)

  /** The application's receiver; `events` lists the calls made on it. */
  class MessageReceiver {
    var events: seq<DeviceCallback>

    constructor ()
      ensures events == []
    {
      events := [];
    }

    method OnAck()
      modifies this
      ensures events == old(events) + [AckReceived]
    {
      events := events + [AckReceived];
    }

    method OnData(dataType: string, data: string)
      modifies this
      ensures events == old(events) + [DataReceived(dataType, data)]
    {
      events := events + [DataReceived(dataType, data)];
    }

    method OnFlingResult(result: FlingResult, sequenceNumber: Option<Int32>)
      modifies this
      ensures events == old(events) + [FlingResultReceived(result, sequenceNumber)]
    {
      events := events + [FlingResultReceived(result, sequenceNumber)];
    }
  }

  /** The callbacks a response causes: one for its data body, one for its
      fling result (with the sequence number passed on), and an
      acknowledgment only for an empty response that has a sequence number. */
  function ResponseCallbacks(response: ResponseMessage, sequenceNumber: Option<Int32>): (cbs: seq<DeviceCallback>)
    ensures AckReceived in cbs <==>
      response.data.None? && response.flingResult.None? && sequenceNumber.Some?
    ensures AckReceived in cbs ==> cbs == [AckReceived]
    ensures |cbs| == (if response.data.Some? then 1 else 0) + (if response.flingResult.Some? then 1 else 0)
                     + (if AckReceived in cbs then 1 else 0)
    ensures response.data.Some? ==>
      cbs[0] == DataReceived(response.data.value.dataType, response.data.value.data)
    ensures response.flingResult.Some? ==>
      cbs[|cbs| - 1] == FlingResultReceived(response.flingResult.value, sequenceNumber)
    ensures forall i :: 0 <= i < |cbs| && cbs[i].DataReceived? ==>
      response.data == Some(Data(cbs[i].dataType, cbs[i].data))
    ensures forall i :: 0 <= i < |cbs| && cbs[i].FlingResultReceived? ==>
      response.flingResult == Some(cbs[i].result) && cbs[i].sequenceNumber == sequenceNumber
  {
    match (response.data, response.flingResult)
    case (None, None) => if sequenceNumber.Some? then [AckReceived] else []
    case (Some(d), None) => [DataReceived(d.dataType, d.data)]
    case (None, Some(f)) => [FlingResultReceived(f, sequenceNumber)]
    case (Some(d), Some(f)) => [DataReceived(d.dataType, d.data), FlingResultReceived(f, sequenceNumber)]
  }

  /** The callbacks an inbound message causes: none unless it has a response. */
  function MessageCallbacks(m: RemoteMessage): (cbs: seq<DeviceCallback>)
    ensures m.response.None? ==> cbs == []
    ensures m.response.Some? && m.sequenceNumber.None? ==> AckReceived !in cbs
    ensures |cbs| <= 2
  {
    if m.response.Some? then ResponseCallbacks(m.response.value, m.sequenceNumber) else []
  }

  /** `AtomicInteger.incrementAndGet`: one more, modulo 2^32 in two's complement. */
  function Incremented(counter: Int32): (n: Int32)
    ensures (n - counter) % TWO_TO_32 == 1
  {
    if counter == 0x7FFF_FFFF then -0x8000_0000 else counter + 1
  }

  /** The counter after `k` increments from zero. */
  function CounterAfter(k: nat): Int32
  {
    if k == 0 then 0 else Incremented(CounterAfter(k - 1))
  }

  /** Starting from zero, the k-th ping carries sequence number k, for every
      k the counter reaches before it wraps. */
  lemma {:induction false} PingNumbersCountUp(k: nat)
    requires k < 0x8000_0000
    ensures CounterAfter(k) == k
  {
    if k > 0 {
      PingNumbersCountUp(k - 1);
    }
  }

  /** The envelope of a request. */
  function Envelope(request: RequestMessage, sequenceNumber: Option<Int32>): RemoteMessage
  {
    RemoteMessage(sequenceNumber, Some(request), None)
  }

  class DeviceMessageAdapter {
    const wire: WireAdapter
    const receiver: MessageReceiver
    var pingCounter: Int32

    constructor (receiver: MessageReceiver, wire: WireAdapter)
      ensures this.receiver == receiver && this.wire == wire && pingCounter == 0
    {
      this.receiver := receiver;
      this.wire := wire;
      pingCounter := 0;
    }

    /** `onMessage`: interprets the response of an inbound message, if any. */
    method OnMessage(m: RemoteMessage)
      modifies receiver
      ensures receiver.events == old(receiver.events) + MessageCallbacks(m)
    {
      if m.response.Some? {
        InterpretResponse(m.response.value, m.sequenceNumber);
      }
    }

    /** `interpretResponse`. */
    method InterpretResponse(response: ResponseMessage, sequenceNumber: Option<Int32>)
      modifies receiver
      ensures receiver.events == old(receiver.events) + ResponseCallbacks(response, sequenceNumber)
    {
      var isEmpty := true;
      if response.data.Some? {
        isEmpty := false;
        receiver.OnData(response.data.value.dataType, response.data.value.data);
      }
      if response.flingResult.Some? {
        isEmpty := false;
        receiver.OnFlingResult(response.flingResult.value, sequenceNumber);
      }
      if isEmpty && sequenceNumber.Some? {
        receiver.OnAck();
      }
    }

    /** `sendRequest`: one envelope, with the sequence number if there is one. */
    method SendRequest(request: RequestMessage, sequenceNumber: Option<Int32>)
      modifies wire
      ensures wire.sent == old(wire.sent) + [Envelope(request, sequenceNumber)]
    {
      wire.SendRemoteMessage(RemoteMessage(sequenceNumber, Some(request), None));
    }

    /** `sendPing`: an empty request numbered with the incremented counter. */
    method SendPing()
      modifies this, wire
      ensures pingCounter == Incremented(old(pingCounter))
      ensures wire.sent == old(wire.sent) + [Envelope(EMPTY_REQUEST, Some(pingCounter))]
    {
      pingCounter := Incremented(pingCounter);
      SendRequest(EMPTY_REQUEST, Some(pingCounter));
    }

    method SendConnect(info: ConnectInfo)
      modifies wire
      ensures wire.sent == old(wire.sent) + [Envelope(EMPTY_REQUEST.(connect := Some(GetProto(info))), None)]
    {
      SendRequest(EMPTY_REQUEST.(connect := Some(GetProto(info))), None);
    }

    method SendData(dataType: string, data: string)
      modifies wire
      ensures wire.sent == old(wire.sent) + [Envelope(EMPTY_REQUEST.(data := Some(Data(dataType, data))), None)]
    {
      SendRequest(EMPTY_REQUEST.(data := Some(Data(dataType, data))), None);
    }

    method SendKeyEvent(keycode: nat, action: Action)
      modifies wire
      ensures wire.sent == old(wire.sent) + [Envelope(EMPTY_REQUEST.(keyEvent := Some(KeyEvent(keycode, action))), None)]
    {
      SendRequest(EMPTY_REQUEST.(keyEvent := Some(KeyEvent(keycode, action))), None);
    }

    method SendMouseMove(xDelta: Int32, yDelta: Int32)
      modifies wire
      ensures wire.sent == old(wire.sent) + [Envelope(EMPTY_REQUEST.(mouseEvent := Some(MouseEvent(xDelta, yDelta))), None)]
    {
      SendRequest(EMPTY_REQUEST.(mouseEvent := Some(MouseEvent(xDelta, yDelta))), None);
    }

    method SendMouseWheel(xScroll: Int32, yScroll: Int32)
      modifies wire
      ensures wire.sent == old(wire.sent) + [Envelope(EMPTY_REQUEST.(mouseWheel := Some(MouseWheel(xScroll, yScroll))), None)]
    {
      SendRequest(EMPTY_REQUEST.(mouseWheel := Some(MouseWheel(xScroll, yScroll))), None);
    }

    /** `sendFling`: the URI with the caller's sequence number; the ping
        counter is left alone. */
    method SendFling(uri: string, sequenceNumber: Int32)
      modifies wire
      ensures pingCounter == old(pingCounter)
      ensures wire.sent == old(wire.sent) + [Envelope(EMPTY_REQUEST.(fling := Some(Fling(uri))), Some(sequenceNumber))]
    {
      SendRequest(EMPTY_REQUEST.(fling := Some(Fling(uri))), Some(sequenceNumber));
    }
  }
}
