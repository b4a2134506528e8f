/** The Anymote event protocol's messages, as protocol-buffer values with
    optional fields, and the wire adapter seen as a sink that records every
    message sent through it. */
module AnymoteMessages {
  import opened Optional
  import opened ByteStreams

  datatype Action = Up | Down

  /** A key press or release; the key code is the number of the key. */
  datatype KeyEvent = KeyEvent(keycode: nat, action: Action)

  datatype MouseEvent = MouseEvent(xDelta: Int32, yDelta: Int32)

  datatype MouseWheel = MouseWheel(xScroll: Int32, yScroll: Int32)

  datatype Data = Data(dataType: string, data: string)

  /** The connect message; the version field is optional. */
  datatype Connect = Connect(deviceName: string, version: Option<Int32>)

  datatype Fling = Fling(uri: string)

  datatype FlingOutcome = Success | Failure

  datatype FlingResult = FlingResult(result: FlingOutcome)

  /** A request; any number of its fields may be set at once. */
  datatype RequestMessage = RequestMessage(
    keyEvent: Option<KeyEvent>,
    mouseEvent: Option<MouseEvent>,
    mouseWheel: Option<MouseWheel>,
    data: Option<Data>,
    connect: Option<Connect>,
    fling: Option<Fling>)

  /** A response; with neither field set it is an acknowledgment. */
  datatype ResponseMessage = ResponseMessage(data: Option<Data>, flingResult: Option<FlingResult>)

  /** The envelope of every message on the wire. */
  datatype RemoteMessage = RemoteMessage(
    sequenceNumber: Option<Int32>,
    request: Option<RequestMessage>,
    response: Option<ResponseMessage>)

  const EMPTY_REQUEST: RequestMessage := RequestMessage(None, None, None, None, None, None)

  const EMPTY_RESPONSE: ResponseMessage := ResponseMessage(None, None)

  /** The wire adapter's sending side: `sent` lists, in order, every message
      handed to `sendRemoteMessage`. */
  class WireAdapter {
    var sent: seq<RemoteMessage>

    constructor ()
      ensures sent == []
    {
      sent := [];
    }

    method SendRemoteMessage(m: RemoteMessage)
      modifies this
      ensures sent == old(sent) + [m]
    {
      sent := sent + [m];
    }
  }
}
