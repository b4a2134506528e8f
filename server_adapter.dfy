/** The server (responder) side of the Anymote protocol: every field of an
    inbound request is handed to the application's request receiver in a
    fixed order, and at most one response goes back. */
module ServerSide {
  import opened Optional
  import opened ByteStreams
  import opened AnymoteMessages
  import opened ConnectInfoModel

  /** A call the adapter makes on the application's RequestReceiver. */
  datatype ServerEvent =
    | KeyEventHandled(keycode: nat, action: Action)
    | MouseEventHandled(xDelta: Int32, yDelta: Int32)
    | MouseWheelHandled(xScroll: Int32, yScroll: Int32)
    | DataHandled(dataType: string, data: string)
    | ConnectHandled(info: ConnectInfo)
    | FlingHandled(uri: string)

  /** The application's receiver. `events` lists the calls made on it;
      `acceptsFling` is the application's answer to a fling of a URI. */
  class RequestReceiver {
    var events: seq<ServerEvent>
    const acceptsFling: string -> bool

    constructor (acceptsFling: string -> bool)
      ensures events == [] && this.acceptsFling == acceptsFling
    {
      events := [];
      this.acceptsFling := acceptsFling;
    }

    method OnKeyEvent(keycode: nat, action: Action)
      modifies this
      ensures events == old(events) + [KeyEventHandled(keycode, action)]
    {
      events := events + [KeyEventHandled(keycode, action)];
    }

    method OnMouseEvent(xDelta: Int32, yDelta: Int32)
      modifies this
      ensures events == old(events) + [MouseEventHandled(xDelta, yDelta)]
    {
      events := events + [MouseEventHandled(xDelta, yDelta)];
    }

    method OnMouseWheel(xScroll: Int32, yScroll: Int32)
      modifies this
      ensures events == old(events) + [MouseWheelHandled(xScroll, yScroll)]
    {
      events := events + [MouseWheelHandled(xScroll, yScroll)];
    }

    method OnData(dataType: string, data: string)
      modifies this
      ensures events == old(events) + [DataHandled(dataType, data)]
    {
      events := events + [DataHandled(dataType, data)];
    }

    method OnConnect(info: ConnectInfo)
      modifies this
      ensures events == old(events) + [ConnectHandled(info)]
    {
      events := events + [ConnectHandled(info)];
    }

    method OnFling(uri: string) returns (success: bool)
      modifies this
      ensures events == old(events) + [FlingHandled(uri)]
      ensures success == acceptsFling(uri)
    {
      events := events + [FlingHandled(uri)];
      success := acceptsFling(uri);
    }
  }

  /** The position of each kind of request field in the handling order. */
  function Rank(e: ServerEvent): nat
  {
    match e
    case KeyEventHandled(_, _) => 0
    case MouseEventHandled(_, _) => 1
    case MouseWheelHandled(_, _) => 2
    case DataHandled(_, _) => 3
    case ConnectHandled(_) => 4
    case FlingHandled(_) => 5
  }

  /** The handler call field number `k` of a request causes, if that field
      is set; the fields are numbered key, mouse, wheel, data, connect, fling. */
  function FieldEvent(r: RequestMessage, k: nat): (e: Option<ServerEvent>)
    ensures e.Some? ==> Rank(e.value) == k
  {
    match k
    case 0 => if r.keyEvent.Some? then Some(KeyEventHandled(r.keyEvent.value.keycode, r.keyEvent.value.action)) else None
    case 1 => if r.mouseEvent.Some? then Some(MouseEventHandled(r.mouseEvent.value.xDelta, r.mouseEvent.value.yDelta)) else None
    case 2 => if r.mouseWheel.Some? then Some(MouseWheelHandled(r.mouseWheel.value.xScroll, r.mouseWheel.value.yScroll)) else None
    case 3 => if r.data.Some? then Some(DataHandled(r.data.value.dataType, r.data.value.data)) else None
    case 4 => if r.connect.Some? then Some(ConnectHandled(ParseFromProto(r.connect.value))) else None
    case 5 => if r.fling.Some? then Some(FlingHandled(r.fling.value.uri)) else None
    case _ => None
  }

  /** Field number `k` of the request is set. */
  predicate Present(r: RequestMessage, k: nat)
  {
    FieldEvent(r, k).Some?
  }

  /** The receiver's log `log` once field `k` of the request is handled:
      one more call if that field is set, none otherwise. */
  function AfterField(log: seq<ServerEvent>, r: RequestMessage, k: nat): seq<ServerEvent>
  {
    if Present(r, k) then log + [FieldEvent(r, k).value] else log
  }

  /** The receiver's log `log` once fields 0 to `k` - 1 are handled in turn. */
  function Handled(log: seq<ServerEvent>, r: RequestMessage, k: nat): seq<ServerEvent>
  {
    if k == 0 then log else AfterField(Handled(log, r, k - 1), r, k - 1)
  }

  /** Handling fields 0 to `k` - 1 makes exactly the calls of the fields
      among them that are set, each once, in field order. */
  lemma {:induction false} HandledExact(r: RequestMessage, k: nat)
    ensures var evs := Handled([], r, k);
      && (forall i :: 0 <= i < |evs| ==> Rank(evs[i]) < k && FieldEvent(r, Rank(evs[i])) == Some(evs[i]))
      && (forall i, j :: 0 <= i < j < |evs| ==> Rank(evs[i]) < Rank(evs[j]))
      && (forall f: nat {:trigger Present(r, f)} :: f < k && Present(r, f) ==> FieldEvent(r, f).value in evs)
  {
    if k > 0 {
      HandledExact(r, k - 1);
      var prev := Handled([], r, k - 1);
      var evs := Handled([], r, k);
      assert evs == AfterField(prev, r, k - 1);
      forall i | |prev| <= i < |evs|
        ensures Rank(evs[i]) == k - 1 && FieldEvent(r, Rank(evs[i])) == Some(evs[i])
      {
        assert evs[i] == FieldEvent(r, k - 1).value;
      }
      forall f: nat {:trigger Present(r, f)} | f < k && Present(r, f)
        ensures FieldEvent(r, f).value in evs
      {
        if f < k - 1 {
          assert FieldEvent(r, f).value in prev;
        } else {
          assert evs[|evs| - 1] == FieldEvent(r, f).value;
        }
      }
    }
  }

  /** Handling fields in turn only appends to the log already there. */
  lemma {:induction false} HandledAppends(log: seq<ServerEvent>, r: RequestMessage, k: nat)
    ensures Handled(log, r, k) == log + Handled([], r, k)
  {
    if k > 0 {
      HandledAppends(log, r, k - 1);
      var prev := Handled([], r, k - 1);
      if Present(r, k - 1) {
        assert log + prev + [FieldEvent(r, k - 1).value] == log + (prev + [FieldEvent(r, k - 1).value]);
      }
    }
  }

  /** The six handling stages of `interpretRequest`, one field each, add up
      to the request's handler calls. */
  lemma FieldsHandledInTurn(r: RequestMessage, log0: seq<ServerEvent>, log1: seq<ServerEvent>, log2: seq<ServerEvent>,
                            log3: seq<ServerEvent>, log4: seq<ServerEvent>, log5: seq<ServerEvent>, log6: seq<ServerEvent>)
    requires log1 == AfterField(log0, r, 0) && log2 == AfterField(log1, r, 1) && log3 == AfterField(log2, r, 2)
    requires log4 == AfterField(log3, r, 3) && log5 == AfterField(log4, r, 4) && log6 == AfterField(log5, r, 5)
    ensures log6 == log0 + HandlerEvents(r)
  {
    assert Handled(log0, r, 1) == log1;
    assert Handled(log0, r, 2) == log2;
    assert Handled(log0, r, 3) == log3;
    assert Handled(log0, r, 4) == log4;
    assert Handled(log0, r, 5) == log5;
    assert Handled(log0, r, 6) == log6;
    HandledAppends(log0, r, 6);
  }

  /** A request field whose handling never calls for a reply is set. */
  predicate HasNoReplyField(r: RequestMessage)
  {
    r.keyEvent.Some? || r.mouseEvent.Some? || r.mouseWheel.Some? || r.data.Some? || r.connect.Some?
  }

  /** No field at all is set. */
  predicate IsEmptyRequest(r: RequestMessage)
  {
    !HasNoReplyField(r) && r.fling.None?
  }

  /** The handler calls a request causes, in the order key, mouse, wheel,
      data, connect, fling. */
  function HandlerEvents(r: RequestMessage): seq<ServerEvent>
  {
    Handled([], r, 6)
  }

  /** The handler calls of a request are one per field set, carrying that
      field's contents, strictly in field order, and nothing else; a request
      with no field set causes none. */
  lemma HandlerEventsExact(r: RequestMessage)
    ensures var evs := HandlerEvents(r);
      && (forall i, j :: 0 <= i < j < |evs| ==> Rank(evs[i]) < Rank(evs[j]))
      && (forall i :: 0 <= i < |evs| ==> FieldEvent(r, Rank(evs[i])) == Some(evs[i]))
      && (r.keyEvent.Some? ==> KeyEventHandled(r.keyEvent.value.keycode, r.keyEvent.value.action) in evs)
      && (r.mouseEvent.Some? ==> MouseEventHandled(r.mouseEvent.value.xDelta, r.mouseEvent.value.yDelta) in evs)
      && (r.mouseWheel.Some? ==> MouseWheelHandled(r.mouseWheel.value.xScroll, r.mouseWheel.value.yScroll) in evs)
      && (r.data.Some? ==> DataHandled(r.data.value.dataType, r.data.value.data) in evs)
      && (r.connect.Some? ==> ConnectHandled(ParseFromProto(r.connect.value)) in evs)
      && (r.fling.Some? ==> FlingHandled(r.fling.value.uri) in evs)
      && (IsEmptyRequest(r) <==> evs == [])
  {
    HandledExact(r, 6);
    var evs := HandlerEvents(r);
    assert r.keyEvent.Some? ==> Present(r, 0);
    assert r.mouseEvent.Some? ==> Present(r, 1);
    assert r.mouseWheel.Some? ==> Present(r, 2);
    assert r.data.Some? ==> Present(r, 3);
    assert r.connect.Some? ==> Present(r, 4);
    assert r.fling.Some? ==> Present(r, 5);
    if evs != [] {
      assert FieldEvent(r, Rank(evs[0])) == Some(evs[0]);
    }
  }

  /** `onFling`'s result message for the receiver's answer. */
  function FlingResultFor(success: bool): FlingResult
  {
    FlingResult(if success then Success else Failure)
  }

  /** The envelope of a response. */
  function ResponseEnvelope(response: ResponseMessage, sequenceNumber: Option<Int32>): RemoteMessage
  {
    RemoteMessage(sequenceNumber, None, Some(response))
  }

  /** The reply to a request: a fling result whenever a fling is asked for;
      otherwise an acknowledgment when the request is numbered and has no
      field that forbids a reply; otherwise nothing. The reply echoes the
      request's sequence number exactly when it had one. */
  function Reply(r: RequestMessage, sequenceNumber: Option<Int32>, flingAccepted: bool): (reply: Option<RemoteMessage>)
    ensures reply.Some? <==> r.fling.Some? || (sequenceNumber.Some? && !HasNoReplyField(r))
    ensures reply.Some? ==>
      && reply.value.sequenceNumber == sequenceNumber
      && reply.value.request.None?
      && reply.value.response.Some?
      && reply.value.response.value.data.None?
      && (reply.value.response.value.flingResult.Some? <==> r.fling.Some?)
    ensures reply.Some? && r.fling.Some? ==>
      (reply.value.response.value.flingResult.value.result == Success <==> flingAccepted)
    ensures IsEmptyRequest(r) && sequenceNumber.Some? ==>
      reply == Some(ResponseEnvelope(EMPTY_RESPONSE, sequenceNumber))
  {
    if r.fling.Some? then
      Some(ResponseEnvelope(EMPTY_RESPONSE.(flingResult := Some(FlingResultFor(flingAccepted))), sequenceNumber))
    else if sequenceNumber.Some? && !HasNoReplyField(r) then
      Some(ResponseEnvelope(EMPTY_RESPONSE, sequenceNumber))
    else
      None
  }

  /** The messages a reply puts on the wire: zero or one. */
  function Sent(reply: Option<RemoteMessage>): (s: seq<RemoteMessage>)
    ensures |s| <= 1 && (|s| == 1 <==> reply.Some?)
    ensures reply.Some? ==> s[0] == reply.value
  {
    if reply.Some? then [reply.value] else []
  }

  class ServerMessageAdapter {
    const receiver: RequestReceiver
    const wire: WireAdapter

    constructor (receiver: RequestReceiver, wire: WireAdapter)
      ensures this.receiver == receiver && this.wire == wire
    {
      this.receiver := receiver;
      this.wire := wire;
    }

    /** Whether the receiver accepts the request's fling, if it has one. */
    function FlingAccepted(r: RequestMessage): bool
    {
      r.fling.Some? && receiver.acceptsFling(r.fling.value.uri)
    }

    /** `onMessage`: interprets the request of an inbound message, if any;
        a message without one causes nothing. */
    method OnMessage(m: RemoteMessage)
      modifies receiver, wire
      ensures m.request.None? ==> receiver.events == old(receiver.events) && wire.sent == old(wire.sent)
      ensures m.request.Some? ==>
        && receiver.events == old(receiver.events) + HandlerEvents(m.request.value)
        && wire.sent == old(wire.sent) + Sent(Reply(m.request.value, m.sequenceNumber, FlingAccepted(m.request.value)))
    {
      if m.request.Some? {
        InterpretRequest(m.request.value, m.sequenceNumber);
      }
    }

    /** `interpretRequest`: the reply intent starts as "numbered", every
        no-reply field clears it, a fling sets it and fills in the result.
        Each field's block is a method of its own below; `logK` is the
        receiver's log once the first K fields are handled. */
    method InterpretRequest(r: RequestMessage, sequenceNumber: Option<Int32>)
      modifies receiver, wire
      ensures receiver.events == old(receiver.events) + HandlerEvents(r)
      ensures wire.sent == old(wire.sent) + Sent(Reply(r, sequenceNumber, FlingAccepted(r)))
    {
      var builder := EMPTY_RESPONSE;
      var reply := sequenceNumber.Some?;
      ghost var log0 := receiver.events;
      var hasKeyEvent := HandleKeyEvent(r);
      if hasKeyEvent {
        reply := false;
      }
      ghost var log1 := receiver.events;
      var hasMouseEvent := HandleMouseEvent(r);
      if hasMouseEvent {
        reply := false;
      }
      ghost var log2 := receiver.events;
      var hasMouseWheel := HandleMouseWheel(r);
      if hasMouseWheel {
        reply := false;
      }
      ghost var log3 := receiver.events;
      var hasData := HandleData(r);
      if hasData {
        reply := false;
      }
      ghost var log4 := receiver.events;
      var hasConnect := HandleConnect(r);
      if hasConnect {
        reply := false;
      }
      ghost var log5 := receiver.events;
      var success := HandleFling(r);
      if r.fling.Some? {
        reply := true;
        builder := builder.(flingResult := Some(FlingResultFor(success)));
      }
      ghost var log6 := receiver.events;
      FieldsHandledInTurn(r, log0, log1, log2, log3, log4, log5, log6);
      if reply {
        assert Reply(r, sequenceNumber, FlingAccepted(r)) == Some(ResponseEnvelope(builder, sequenceNumber));
        SendResponse(builder, sequenceNumber);
      }
    }

    /** The key-event block of `interpretRequest`, with the private `onKeyEvent` it
        calls: hands a set key event to the receiver and says whether there was one. */
    method HandleKeyEvent(r: RequestMessage) returns (present: bool)
      modifies receiver
      ensures present == r.keyEvent.Some?
      ensures receiver.events == AfterField(old(receiver.events), r, 0)
    {
      present := r.keyEvent.Some?;
      if present {
        receiver.OnKeyEvent(r.keyEvent.value.keycode, r.keyEvent.value.action);
      }
    }

    /** The mouse-event block, with `onMouseEvent`. */
    method HandleMouseEvent(r: RequestMessage) returns (present: bool)
      modifies receiver
      ensures present == r.mouseEvent.Some?
      ensures receiver.events == AfterField(old(receiver.events), r, 1)
    {
      present := r.mouseEvent.Some?;
      if present {
        receiver.OnMouseEvent(r.mouseEvent.value.xDelta, r.mouseEvent.value.yDelta);
      }
    }

    /** The mouse-wheel block, with `onMouseWheel`. */
    method HandleMouseWheel(r: RequestMessage) returns (present: bool)
      modifies receiver
      ensures present == r.mouseWheel.Some?
      ensures receiver.events == AfterField(old(receiver.events), r, 2)
    {
      present := r.mouseWheel.Some?;
      if present {
        receiver.OnMouseWheel(r.mouseWheel.value.xScroll, r.mouseWheel.value.yScroll);
      }
    }

    /** The data block, with `onData`. */
    method HandleData(r: RequestMessage) returns (present: bool)
      modifies receiver
      ensures present == r.data.Some?
      ensures receiver.events == AfterField(old(receiver.events), r, 3)
    {
      present := r.data.Some?;
      if present {
        receiver.OnData(r.data.value.dataType, r.data.value.data);
      }
    }

    /** The connect block, with `onConnect`: the receiver gets the
        parsed connection details. */
    method HandleConnect(r: RequestMessage) returns (present: bool)
      modifies receiver
      ensures present == r.connect.Some?
      ensures receiver.events == AfterField(old(receiver.events), r, 4)
    {
      present := r.connect.Some?;
      if present {
        receiver.OnConnect(ParseFromProto(r.connect.value));
      }
    }

    /** The call half of the fling block, with `onFling`: the receiver
        is asked about a set fling and its answer is returned. */
    method HandleFling(r: RequestMessage) returns (success: bool)
      modifies receiver
      ensures receiver.events == AfterField(old(receiver.events), r, 5)
      ensures r.fling.Some? ==> success == FlingAccepted(r)
    {
      success := false;
      if r.fling.Some? {
        success := receiver.OnFling(r.fling.value.uri);
      }
    }

    /** `sendData`: an unsolicited data response without a sequence number. */
    method SendData(dataType: string, data: string)
      modifies wire
      ensures wire.sent == old(wire.sent) + [ResponseEnvelope(EMPTY_RESPONSE.(data := Some(Data(dataType, data))), None)]
    {
      SendResponse(EMPTY_RESPONSE.(data := Some(Data(dataType, data))), None);
    }

    /** `sendResponse`: one envelope, with the sequence number if there is one. */
    method SendResponse(response: ResponseMessage, sequenceNumber: Option<Int32>)
      modifies wire
      ensures wire.sent == old(wire.sent) + [ResponseEnvelope(response, sequenceNumber)]
    {
      wire.SendRemoteMessage(RemoteMessage(sequenceNumber, None, Some(response)));
    }
  }
}
