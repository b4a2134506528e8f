/** The pairing-channel frame codec (ProtobufWireAdapter): every frame is
    a 4-byte big-endian length followed by that many bytes of a serialised
    outer message, which carries a status, the protocol version, a type tag
    and the serialised inner message. Protocol-buffer serialisation itself
    is opaque: it is the `Codec` the adapter is given. */
module PairingWire {
  import opened Optional
  import opened ByteStreams
  import opened PairingMessages

  /** The version written into every outer message. */
  const PROTOCOL_VERSION: Int32 := 1

  datatype Status = StatusOk | StatusError | StatusBadConfiguration | StatusBadSecret

  /** The type tag of an outer message. */
  datatype MessageType =
    | MessageTypeOptions
    | MessageTypePairingRequest
    | MessageTypePairingRequestAck
    | MessageTypeConfiguration
    | MessageTypeConfigurationAck
    | MessageTypeSecret
    | MessageTypeSecretAck

  /** The outer message. `msgType` is `None` when no tag the reader knows is
      set; `payload` is `None` when no payload is set (it then reads as
      empty). */
  datatype OuterMessage = OuterMessage(
    protocolVersion: Int32,
    status: Status,
    msgType: Option<MessageType>,
    payload: Option<seq<byte>>)

  /** The exceptions the adapter can raise. */
  datatype WireError =
    | StreamClosed          // IOException: end of stream before the bytes asked for
    | NegativeArraySize     // a length prefix of 2^31 or more, cast to a negative int
    | MalformedOuter        // the outer message does not parse
    | ProtocolError         // ProtocolErrorException: the status is not OK
    | UnknownMessageType    // IOException: no known type tag
    | MalformedInner        // the payload does not parse as the tagged message
    | WrongMessageType(wanted: PoloMessageType, got: PoloMessageType)  // PoloException

  /** The kinds of exception `sendErrorMessage` distinguishes. */
  datatype PairingException = NoConfigurationException | BadSecretException | OtherException

  /** The tag `wrapInnerMessage` chooses for an inner message. */
  function TagOf(p: InnerProto): MessageType
  {
    match p
    case OptionsProto(_, _, _) => MessageTypeOptions
    case PairingRequestProto(_, _) => MessageTypePairingRequest
    case PairingRequestAckProto(_) => MessageTypePairingRequestAck
    case ConfigurationProto(_, _) => MessageTypeConfiguration
    case ConfigurationAckProto => MessageTypeConfigurationAck
    case SecretProto(_) => MessageTypeSecret
    case SecretAckProto(_) => MessageTypeSecretAck
  }

  /** Every tag is the tag of some inner message. */
  lemma EveryTagIsUsed(t: MessageType)
    ensures exists p :: TagOf(p) == t
  {
    match t
    case MessageTypeOptions => assert TagOf(OptionsProto(RoleTypeUnknown, [], [])) == t;
    case MessageTypePairingRequest => assert TagOf(PairingRequestProto("", None)) == t;
    case MessageTypePairingRequestAck => assert TagOf(PairingRequestAckProto(None)) == t;
    case MessageTypeConfiguration =>
      assert TagOf(ConfigurationProto(EncodingProto(EncodingTypeUnknown, 0), RoleTypeUnknown)) == t;
    case MessageTypeConfigurationAck => assert TagOf(ConfigurationAckProto) == t;
    case MessageTypeSecret => assert TagOf(SecretProto([])) == t;
    case MessageTypeSecretAck => assert TagOf(SecretAckProto([])) == t;
  }

  /** Two inner messages share a tag exactly when they are of the same kind,
      that is, convert to application messages of the same type. */
  lemma TagIdentifiesKind(p: InnerProto, q: InnerProto)
    ensures TagOf(p) == TagOf(q) <==> FromProto(p).Type() == FromProto(q).Type()
  {
  }

  /** Protocol-buffer serialisation and parsing, as seen by the adapter: the
      outer message's serialiser and parser, the inner messages' serialiser,
      and one `parseFrom` per inner message kind. */
  datatype RawCodec = RawCodec(
    encodeOuter: OuterMessage -> seq<byte>,
    decodeOuter: seq<byte> -> Option<OuterMessage>,
    encodeInner: InnerProto -> seq<byte>,
    parseOptions: seq<byte> -> Option<InnerProto>,
    parsePairingRequest: seq<byte> -> Option<InnerProto>,
    parsePairingRequestAck: seq<byte> -> Option<InnerProto>,
    parseConfiguration: seq<byte> -> Option<InnerProto>,
    parseConfigurationAck: seq<byte> -> Option<InnerProto>,
    parseSecret: seq<byte> -> Option<InnerProto>,
    parseSecretAck: seq<byte> -> Option<InnerProto>)

  /** Each kind's `parseFrom` yields a message of that kind (its static
      return type in the generated code). */
  ghost predicate ParsersReturnOwnKind(c: RawCodec)
  {
    && (forall b :: c.parseOptions(b).Some? ==> c.parseOptions(b).value.OptionsProto?)
    && (forall b :: c.parsePairingRequest(b).Some? ==> c.parsePairingRequest(b).value.PairingRequestProto?)
    && (forall b :: c.parsePairingRequestAck(b).Some? ==> c.parsePairingRequestAck(b).value.PairingRequestAckProto?)
    && (forall b :: c.parseConfiguration(b).Some? ==> c.parseConfiguration(b).value.ConfigurationProto?)
    && (forall b :: c.parseConfigurationAck(b).Some? ==> c.parseConfigurationAck(b).value.ConfigurationAckProto?)
    && (forall b :: c.parseSecret(b).Some? ==> c.parseSecret(b).value.SecretProto?)
    && (forall b :: c.parseSecretAck(b).Some? ==> c.parseSecretAck(b).value.SecretAckProto?)
  }

  /** A serialised message is a Java byte array, shorter than 2^31. */
  ghost predicate FitsJavaArray(c: RawCodec)
  {
    forall m :: |c.encodeOuter(m)| < 0x8000_0000
  }

  type Codec = c: RawCodec | ParsersReturnOwnKind(c) && FitsJavaArray(c)
    witness RawCodec(m => [], b => None, p => [], b => None, b => None, b => None, b => None, b => None, b => None, b => None)

  /** The outer message `m` is parsed back from its serialisation. */
  predicate OuterRoundTrips(c: Codec, m: OuterMessage)
  {
    c.decodeOuter(c.encodeOuter(m)) == Some(m)
  }

  /** The inner message `p` is parsed back from its serialisation by the
      `parseFrom` of its own kind. */
  predicate InnerRoundTrips(c: Codec, p: InnerProto)
  {
    var b := c.encodeInner(p);
    match p
    case OptionsProto(_, _, _) => c.parseOptions(b) == Some(p)
    case PairingRequestProto(_, _) => c.parsePairingRequest(b) == Some(p)
    case PairingRequestAckProto(_) => c.parsePairingRequestAck(b) == Some(p)
    case ConfigurationProto(_, _) => c.parseConfiguration(b) == Some(p)
    case ConfigurationAckProto => c.parseConfigurationAck(b) == Some(p)
    case SecretProto(_) => c.parseSecret(b) == Some(p)
    case SecretAckProto(_) => c.parseSecretAck(b) == Some(p)
  }

  // ---------------------------------------------------------------------
  // What reading does, as a function of the bytes the stream still holds.
  // ---------------------------------------------------------------------

  /** The outcome of a read and the bytes left in the stream after it. */
  datatype Step<T> = Step(result: Result<T, WireError>, rest: seq<byte>)

  /** Java's `(int)` cast of a non-negative long below 2^32. */
  function LongToInt(n: nat): (i: Int32)
    requires n < TWO_TO_32
    ensures i >= 0 <==> n < 0x8000_0000
    ensures i % TWO_TO_32 == n
  {
    if n < 0x8000_0000 then n else n - TWO_TO_32
  }

  /** The bytes `writeMessage` puts on the wire for a serialised message. */
  function Frame(bytes: seq<byte>): (f: seq<byte>)
    requires |bytes| < 0x8000_0000
    ensures |f| == 4 + |bytes| && f[4..] == bytes
    ensures f[..4] == EncodeBigEndian32(|bytes|)
  {
    EncodeBigEndian32(|bytes|) + bytes
  }

  /** `readNextOuterMessage` on the stream holding `bytes`: a length prefix,
      that many bytes, parsed and checked for status OK. */
  function ReadOuter(codec: Codec, bytes: seq<byte>): (s: Step<OuterMessage>)
    ensures s.result.Ok? ==> s.result.value.status == StatusOk
    ensures |s.rest| <= |bytes| && s.rest == bytes[|bytes| - |s.rest|..]
    ensures |bytes| < 4 ==> s == Step(Err(StreamClosed), [])
    ensures s.result.Ok? ==> |bytes| >= 4 && |bytes| - |s.rest| == 4 + DecodeBigEndian32(bytes[..4])
  {
    if |bytes| < 4 then Step(Err(StreamClosed), [])
    else
      var len := LongToInt(DecodeBigEndian32(bytes[..4]));
      var after := bytes[4..];
      if len < 0 then Step(Err(NegativeArraySize), after)
      else if |after| < len then Step(Err(StreamClosed), [])
      else
        match codec.decodeOuter(after[..len])
        case None => Step(Err(MalformedOuter), after[len..])
        case Some(m) =>
          if m.status != StatusOk then Step(Err(ProtocolError), after[len..])
          else Step(Ok(m), after[len..])
  }

  /** The payload of an outer message; an unset payload reads as empty. */
  function Payload(m: OuterMessage): seq<byte>
  {
    if m.payload.Some? then m.payload.value else []
  }

  /** The outcome of one kind's `parseFrom`: a message, or a payload that
      does not parse. */
  function Parsed(p: Option<InnerProto>): (r: Result<InnerProto, WireError>)
    ensures r.Ok? <==> p.Some?
    ensures r.Ok? ==> r.value == p.value
    ensures r.Err? ==> r.error == MalformedInner
  {
    if p.Some? then Ok(p.value) else Err(MalformedInner)
  }

  /** The inner message of an outer one: the tag selects which kind's
      `parseFrom` reads the payload; no known tag is an IOException. */
  function DecodeInner(codec: Codec, m: OuterMessage): (r: Result<InnerProto, WireError>)
    ensures m.msgType.None? <==> r == Err(UnknownMessageType)
    ensures m.msgType.Some? && r.Err? ==> r.error == MalformedInner
    ensures r.Ok? ==> m.msgType == Some(TagOf(r.value))
  {
    var payload := Payload(m);
    match m.msgType
    case None => Err(UnknownMessageType)
    case Some(MessageTypeOptions) => Parsed(codec.parseOptions(payload))
    case Some(MessageTypePairingRequest) => Parsed(codec.parsePairingRequest(payload))
    case Some(MessageTypePairingRequestAck) => Parsed(codec.parsePairingRequestAck(payload))
    case Some(MessageTypeConfiguration) => Parsed(codec.parseConfiguration(payload))
    case Some(MessageTypeConfigurationAck) => Parsed(codec.parseConfigurationAck(payload))
    case Some(MessageTypeSecret) => Parsed(codec.parseSecret(payload))
    case Some(MessageTypeSecretAck) => Parsed(codec.parseSecretAck(payload))
  }

  /** `readNextInnerMessage`. */
  function ReadInner(codec: Codec, bytes: seq<byte>): (s: Step<InnerProto>)
    ensures s.rest == ReadOuter(codec, bytes).rest
    ensures ReadOuter(codec, bytes).result.Err? ==> s.result == Err(ReadOuter(codec, bytes).result.error)
    ensures ReadOuter(codec, bytes).result.Ok? ==> s.result == DecodeInner(codec, ReadOuter(codec, bytes).result.value)
    ensures s.result.Ok? ==>
      (ReadOuter(codec, bytes).result.Ok? &&
       ReadOuter(codec, bytes).result.value.msgType == Some(TagOf(s.result.value)))
  {
    var o := ReadOuter(codec, bytes);
    match o.result
    case Err(e) => Step(Err(e), o.rest)
    case Ok(m) => Step(DecodeInner(codec, m), o.rest)
  }

  /** `getNextMessage()`. */
  function ReadMessage(codec: Codec, bytes: seq<byte>): (s: Step<PoloMessage>)
    ensures s.rest == ReadOuter(codec, bytes).rest
    ensures ReadInner(codec, bytes).result.Ok? ==> s.result == Ok(FromProto(ReadInner(codec, bytes).result.value))
    ensures ReadInner(codec, bytes).result.Err? ==> s.result == Err(ReadInner(codec, bytes).result.error)
  {
    var i := ReadInner(codec, bytes);
    match i.result
    case Err(e) => Step(Err(e), i.rest)
    case Ok(p) => Step(Ok(FromProto(p)), i.rest)
  }

  /** `getNextMessage(type)`: the next message, if it has the type asked for. */
  function ReadMessageOfType(codec: Codec, bytes: seq<byte>, t: PoloMessageType): (s: Step<PoloMessage>)
    ensures s.rest == ReadOuter(codec, bytes).rest
    ensures s.result.Ok? ==> s.result.value.Type() == t && s.result == ReadMessage(codec, bytes).result
    ensures ReadMessage(codec, bytes).result.Ok? && ReadMessage(codec, bytes).result.value.Type() == t ==>
      s == ReadMessage(codec, bytes)
    ensures ReadMessage(codec, bytes).result.Ok? && ReadMessage(codec, bytes).result.value.Type() != t ==>
      s.result == Err(WrongMessageType(t, ReadMessage(codec, bytes).result.value.Type()))
    ensures ReadMessage(codec, bytes).result.Err? ==> s == ReadMessage(codec, bytes)
  {
    var r := ReadMessage(codec, bytes);
    match r.result
    case Err(e) => r
    case Ok(m) => if m.Type() != t then Step(Err(WrongMessageType(t, m.Type())), r.rest) else r
  }

  // ---------------------------------------------------------------------
  // What writing produces.
  // ---------------------------------------------------------------------

  /** `wrapInnerMessage`: the outer message carrying an inner one. */
  function WrapInnerMessage(codec: Codec, p: InnerProto): (m: OuterMessage)
    ensures m.status == StatusOk && m.protocolVersion == PROTOCOL_VERSION
    ensures m.msgType == Some(TagOf(p)) && Payload(m) == codec.encodeInner(p)
  {
    OuterMessage(PROTOCOL_VERSION, StatusOk, Some(TagOf(p)), Some(codec.encodeInner(p)))
  }

  /** The status `sendErrorMessage` reports for an exception. */
  function ErrorStatus(e: PairingException): (s: Status)
    ensures s != StatusOk
    ensures s == StatusBadConfiguration <==> e == NoConfigurationException
    ensures s == StatusBadSecret <==> e == BadSecretException
  {
    match e
    case NoConfigurationException => StatusBadConfiguration
    case BadSecretException => StatusBadSecret
    case OtherException => StatusError
  }

  /** The outer message `sendErrorMessage` writes: version 1, the error
      status, no type and no payload. */
  function ErrorMessage(e: PairingException): (m: OuterMessage)
    ensures m.status != StatusOk && m.protocolVersion == PROTOCOL_VERSION
    ensures m.msgType.None? && m.payload.None?
  {
    OuterMessage(PROTOCOL_VERSION, ErrorStatus(e), None, None)
  }

  // ---------------------------------------------------------------------
  // Round trips.
  // ---------------------------------------------------------------------

  /** A frame read back gives the length it was written with, then the same
      bytes, and leaves what followed it. Whatever the outer message parses
      to, only a status other than OK turns it into a protocol error. */
  lemma ReadFrame(codec: Codec, m: OuterMessage, rest: seq<byte>)
    requires OuterRoundTrips(codec, m)
    ensures var f := Frame(codec.encodeOuter(m));
      DecodeBigEndian32(f[..4]) == |codec.encodeOuter(m)| && f[4..] == codec.encodeOuter(m)
    ensures ReadOuter(codec, Frame(codec.encodeOuter(m)) + rest) ==
      Step(if m.status == StatusOk then Ok(m) else Err(ProtocolError), rest)
  {
    var b := codec.encodeOuter(m);
    var f := Frame(b);
    var bytes := f + rest;
    assert f[..4] == EncodeBigEndian32(|b|);
    DecodeEncodeBigEndian32(|b|);
    assert bytes[..4] == f[..4];
    assert bytes[4..] == b + rest;
    assert (b + rest)[..|b|] == b && (b + rest)[|b|..] == rest;
  }

  /** The tag `wrapInnerMessage` gives an inner message selects, on reading,
      the `parseFrom` of that message's own kind: a wrapped message whose
      serialisation its kind's parser reads back decodes as itself. */
  lemma DecodeWrapped(codec: Codec, p: InnerProto)
    requires InnerRoundTrips(codec, p)
    ensures DecodeInner(codec, WrapInnerMessage(codec, p)) == Ok(p)
  {
  }

  /** An inner message written by `sendMessage`'s wrapping is read back as
      itself, and what followed its frame is left. */
  lemma ReadWrapped(codec: Codec, p: InnerProto, rest: seq<byte>)
    requires OuterRoundTrips(codec, WrapInnerMessage(codec, p))
    requires InnerRoundTrips(codec, p)
    ensures ReadInner(codec, Frame(codec.encodeOuter(WrapInnerMessage(codec, p))) + rest) == Step(Ok(p), rest)
  {
    ReadFrame(codec, WrapInnerMessage(codec, p), rest);
    DecodeWrapped(codec, p);
  }

  /** A message sent and read back is the same message, up to the preferred
      role of an options message, which comes back flipped. */
  lemma SendThenRead(codec: Codec, m: PoloMessage, rest: seq<byte>)
    requires OuterRoundTrips(codec, WrapInnerMessage(codec, ToProto(m)))
    requires InnerRoundTrips(codec, ToProto(m))
    ensures ReadMessage(codec, Frame(codec.encodeOuter(WrapInnerMessage(codec, ToProto(m)))) + rest) ==
      Step(Ok(AfterRoundTrip(m)), rest)
  {
    ReadWrapped(codec, ToProto(m), rest);
    MessageRoundTrip(m);
  }

  /** An error message read back is a protocol error and yields no inner
      message; the frame is consumed. */
  lemma ErrorThenRead(codec: Codec, e: PairingException, rest: seq<byte>)
    requires OuterRoundTrips(codec, ErrorMessage(e))
    ensures ReadOuter(codec, Frame(codec.encodeOuter(ErrorMessage(e))) + rest) == Step(Err(ProtocolError), rest)
    ensures ReadMessage(codec, Frame(codec.encodeOuter(ErrorMessage(e))) + rest) == Step(Err(ProtocolError), rest)
  {
    ReadFrame(codec, ErrorMessage(e), rest);
  }

  /** The premises of the round trips can be met: a codec that serialises
      everything as nothing and parses nothing back as one fixed secret
      acknowledgment satisfies both for that message. */
  lemma RoundTripPremisesSatisfiable()
    ensures exists codec: Codec, m: PoloMessage ::
      OuterRoundTrips(codec, WrapInnerMessage(codec, ToProto(m))) && InnerRoundTrips(codec, ToProto(m))
  {
    var m := SecretAckMessage([]);
    var p := ToProto(m);
    var outer := OuterMessage(PROTOCOL_VERSION, StatusOk, Some(MessageTypeSecretAck), Some([]));
    var raw := RawCodec(o => [], b => Some(outer), q => [], b => None, b => None, b => None, b => None,
                        b => None, b => None, b => Some(p));
    assert ParsersReturnOwnKind(raw) && FitsJavaArray(raw);
    var codec: Codec := raw;
    assert WrapInnerMessage(codec, p) == outer;
    assert OuterRoundTrips(codec, WrapInnerMessage(codec, ToProto(m))) && InnerRoundTrips(codec, ToProto(m));
  }

  // ---------------------------------------------------------------------
  // The adapter.
  // ---------------------------------------------------------------------

  class ProtobufWireAdapter {
    const input: InputStream
    const output: OutputStream
    const codec: Codec

    constructor (input: InputStream, output: OutputStream, codec: Codec)
      ensures this.input == input && this.output == output && this.codec == codec
    {
      this.input := input;
      this.output := output;
      this.codec := codec;
    }

    /** Reads exactly `numBytes` bytes, however the stream splits them into
        reads, zero-length reads included; end-of-stream first is an error. */
    method ReadBytesBlocking(numBytes: int) returns (r: Result<array<byte>, WireError>)
      modifies input
      ensures numBytes < 0 ==> r == Err(NegativeArraySize) && input.Bytes() == old(input.Bytes())
      ensures 0 <= numBytes <= |old(input.Bytes())| ==>
        r.Ok? && fresh(r.value) && r.value[..] == old(input.Bytes())[..numBytes] &&
        input.Bytes() == old(input.Bytes())[numBytes..]
      ensures numBytes > |old(input.Bytes())| ==> r == Err(StreamClosed) && input.Bytes() == []
    {
      if numBytes < 0 {
        return Err(NegativeArraySize);
      }
      var buf := new byte[numBytes];
      var bytesRead := 0;
      ghost var before := input.Bytes();
      while bytesRead < numBytes
        invariant 0 <= bytesRead <= numBytes && bytesRead <= |before|
        invariant buf[..bytesRead] == before[..bytesRead]
        invariant input.Bytes() == before[bytesRead..]
        decreases input.Size()
      {
        var inc := input.Read(buf, bytesRead, numBytes - bytesRead);
        if inc < 0 {
          return Err(StreamClosed);
        }
        assert buf[..bytesRead + inc] == buf[..bytesRead] + buf[bytesRead..bytesRead + inc];
        assert before[..bytesRead + inc] == before[..bytesRead] + before[bytesRead..][..inc];
        bytesRead := bytesRead + inc;
      }
      return Ok(buf);
    }

    /** `readNextOuterMessage`. */
    method ReadNextOuterMessage() returns (r: Result<OuterMessage, WireError>)
      modifies input
      ensures Step(r, input.Bytes()) == ReadOuter(codec, old(input.Bytes()))
    {
      ghost var bytes := input.Bytes();
      var preamble := ReadBytesBlocking(4);
      if preamble.Err? {
        return Err(preamble.error);
      }
      assert preamble.value[..] == bytes[..4];
      var messageLen := LongToInt(DecodeBigEndian32(preamble.value[..]));
      var buffer := ReadBytesBlocking(messageLen);
      if buffer.Err? {
        return Err(buffer.error);
      }
      match codec.decodeOuter(buffer.value[..])
      case None =>
        return Err(MalformedOuter);
      case Some(m) =>
        if m.status != StatusOk {
          return Err(ProtocolError);
        }
        return Ok(m);
    }

    /** `readNextInnerMessage`. */
    method ReadNextInnerMessage() returns (r: Result<InnerProto, WireError>)
      modifies input
      ensures Step(r, input.Bytes()) == ReadInner(codec, old(input.Bytes()))
    {
      var outer := ReadNextOuterMessage();
      if outer.Err? {
        return Err(outer.error);
      }
      r := DecodeInner(codec, outer.value);
    }

    /** `getNextMessage()`. */
    method GetNextMessage() returns (r: Result<PoloMessage, WireError>)
      modifies input
      ensures Step(r, input.Bytes()) == ReadMessage(codec, old(input.Bytes()))
    {
      var inner := ReadNextInnerMessage();
      if inner.Err? {
        return Err(inner.error);
      }
      return Ok(FromProto(inner.value));
    }

    /** `getNextMessage(type)`. */
    method GetNextMessageOfType(t: PoloMessageType) returns (r: Result<PoloMessage, WireError>)
      modifies input
      ensures Step(r, input.Bytes()) == ReadMessageOfType(codec, old(input.Bytes()), t)
    {
      r := GetNextMessage();
      if r.Ok? && r.value.Type() != t {
        r := Err(WrongMessageType(t, r.value.Type()));
      }
    }

    /** `writeMessage`: the length prefix, then the serialised message. */
    method WriteMessage(m: OuterMessage)
      modifies output
      ensures output.written == old(output.written) + Frame(codec.encodeOuter(m))
    {
      var messageBytes := codec.encodeOuter(m);
      output.Write(EncodeBigEndian32(|messageBytes|));
      output.Write(messageBytes);
    }

    /** `sendMessage`. */
    method SendMessage(m: PoloMessage)
      modifies output
      ensures output.written == old(output.written) + Frame(codec.encodeOuter(WrapInnerMessage(codec, ToProto(m))))
    {
      var pb := ToProto(m);
      var outer := WrapInnerMessage(codec, pb);
      WriteMessage(outer);
    }

    /** `sendErrorMessage`. */
    method SendErrorMessage(e: PairingException)
      modifies output
      ensures output.written == old(output.written) + Frame(codec.encodeOuter(ErrorMessage(e)))
    {
      WriteMessage(ErrorMessage(e));
    }
  }
}
