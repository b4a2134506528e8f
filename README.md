# Anymote and Polo message adapters, modelled in Dafny

This project models the message-handling core of the Google TV remote
protocol stack. The stack has two layers:

- **Polo**, the pairing handshake. `ProtobufWireAdapter` frames each pairing
  message on a byte stream. A frame is a 4-byte big-endian length followed by
  a serialised *outer message*. The outer message carries a status, the
  protocol version, a type tag and the serialised *inner message*.
  `ProtobufWireAdapter` also converts the seven pairing messages (options,
  pairing request and its ack, configuration and its ack, secret and its ack)
  to and from their protocol buffers.
- **Anymote**, the remote-control protocol that runs after pairing.
  `DeviceMessageAdapter` runs on the remote. It sends one request envelope per
  user action, numbers pings with a counter, and turns each response into
  callbacks on the application's `MessageReceiver`. `ServerMessageAdapter`
  runs on the TV. It dispatches each field of a request to the
  `RequestReceiver` in a fixed order, then decides whether to reply. It
  replies with an acknowledgment, or with a fling result when the request
  asks to open a URI. `ConnectInfo` is the immutable name and version that a
  device announces when it connects.

Files:

| file | contents |
|---|---|
| `optional.dfy` | `Option` and `Result` |
| `byte_streams.dfy` | bytes and 32-bit integers; the big-endian length prefix; the input stream, which delivers data in chunks of arbitrary size, and the output stream |
| `pairing_messages.dfy` | the pairing messages on both sides, and the field-by-field conversions between them |
| `pairing_wire.dfy` | the frame format as specification functions over the bytes still in the stream, and the `ProtobufWireAdapter` class, whose methods are proved against those functions |
| `anymote_messages.dfy` | the Anymote request, response and envelope messages; the sending side of the wire adapter |
| `connect_info.dfy` | `ConnectInfo` and its conversions to and from the connect message |
| `device_adapter.dfy` | `DeviceMessageAdapter` and the callbacks it makes |
| `server_adapter.dfy` | `ServerMessageAdapter`; the handler calls it makes, and the reply it sends |

Protocol-buffer serialisation is not modelled byte by byte. The adapter is
given a `Codec`: the outer message's serialiser and parser, the inner
messages' serialiser, and one `parseFrom` per inner message kind. The model
assumes only two things about it:

- each kind's `parseFrom` yields a message of that kind, as its static type
  in the generated code guarantees;
- a serialised outer message fits in a Java array.

Which parser reads a payload is decided by the adapter's own dispatch on the
type tag, which is modelled branch by branch. The round-trip lemmas assume,
for the one message they are about, that its serialisation parses back to
it (`OuterRoundTrips`, `InnerRoundTrips`); no more is assumed.

Behaviour of the code worth noting, which the model follows:

- A `ProtocolErrorException` carries no status.
- A response that holds both a data body and a fling result fires both
  callbacks.
- The preferred role of an options message comes back flipped after a round
  trip.
- A length prefix of 2^31 or more becomes a negative array size.

## Model

| member | source | states |
|---|---|---|
| ByteStreams.DecodeEncodeBigEndian32 | src/com/google/polo/wire/protobuf/ProtobufWireAdapter.java:263-269 | the length prefix written for any length below 2^32 reads back as that length |
| ByteStreams.EncodeDecodeBigEndian32 | src/com/google/polo/wire/protobuf/ProtobufWireAdapter.java:136-137 | every 4-byte prefix is the encoding of the length it reads as, so the two conversions are inverse |
| ByteStreams.InputStream.Read | src/com/google/polo/wire/protobuf/ProtobufWireAdapter.java:207-211 | a read returns -1 only at end of stream; otherwise it copies the next `n` bytes, with 0 <= n <= len, into the buffer at the offset and consumes exactly them |
| PairingMessages.EncodingTypeRoundTrip | src/com/google/polo/wire/protobuf/ProtobufWireAdapter.java:398-425 | the encoding-type conversions are inverse in both directions, with 605-627; only the unknown type maps to the unknown wire value |
| PairingMessages.ClientRoleRoundTrip | src/com/google/polo/wire/protobuf/ProtobufWireAdapter.java:431-440 | the client role of a configuration message survives the trip both ways, with 562-576 |
| PairingMessages.PreferredRoleSwapped | src/com/google/polo/wire/protobuf/ProtobufWireAdapter.java:362-369 | with 533-542: each known preferred role of an options message comes back as the opposite role, from either side; an unknown role stays unknown |
| PairingMessages.EncodingsToProto | src/com/google/polo/wire/protobuf/ProtobufWireAdapter.java:371-377 | the wire list holds one converted encoding per encoding of the set, in order |
| PairingMessages.EncodingsFromProto | src/com/google/polo/wire/protobuf/ProtobufWireAdapter.java:544-552 | the options message receives one converted encoding per wire encoding, in order |
| PairingMessages.EncodingsRoundTrip | src/com/google/polo/wire/protobuf/ProtobufWireAdapter.java:371-377 | with 544-552: an encoding list converted to the wire and back is unchanged |
| PairingMessages.EncodingProtosRoundTrip | src/com/google/polo/wire/protobuf/ProtobufWireAdapter.java:544-552 | a wire encoding list converted to the application side and back is unchanged |
| PairingMessages.MessageRoundTrip | src/com/google/polo/wire/protobuf/ProtobufWireAdapter.java:308-325 | with 482-500: a pairing message converted to its protocol buffer and back is itself, except that an options message has its preferred role flipped; the message type is always kept |
| PairingMessages.ProtoRoundTrip | src/com/google/polo/wire/protobuf/ProtobufWireAdapter.java:482-500 | with 308-325: an inner message converted to the application side and back is itself, except that an options buffer has its preferred role flipped |
| PairingWire.EveryTagIsUsed | src/com/google/polo/wire/protobuf/ProtobufWireAdapter.java:170-184 | every type tag the reader accepts belongs to some inner message |
| PairingWire.TagIdentifiesKind | src/com/google/polo/wire/protobuf/ProtobufWireAdapter.java:224-243 | two inner messages get the same tag exactly when they convert to pairing messages of the same type |
| PairingWire.LongToInt | src/com/google/polo/wire/protobuf/ProtobufWireAdapter.java:137 | the `(int)` cast of an unsigned 32-bit length is negative exactly when the length is 2^31 or more, and agrees with it modulo 2^32 |
| PairingWire.Frame | src/com/google/polo/wire/protobuf/ProtobufWireAdapter.java:263-269 | a frame is the 4-byte big-endian encoding of the message length followed by the message's bytes |
| PairingWire.ReadOuter | src/com/google/polo/wire/protobuf/ProtobufWireAdapter.java:133-151 | reading an outer message succeeds only with status OK; a successful read consumes the 4-byte prefix plus the length it states; fewer than 4 bytes is a closed stream; what is left is always a suffix of the stream |
| PairingWire.DecodeInner | src/com/google/polo/wire/protobuf/ProtobufWireAdapter.java:166-186 | an outer message with no known tag, and only such a message, is an IOException; with a tag, the only failure is a payload that does not parse; a decoded inner message is of the kind its tag names |
| PairingWire.DecodeWrapped | src/com/google/polo/wire/protobuf/ProtobufWireAdapter.java:170-184 | with 224-253: the tag given to an inner message selects the parser of its own kind, so a wrapped message whose kind's parser reads back its serialisation decodes as itself |
| PairingWire.ReadInner | src/com/google/polo/wire/protobuf/ProtobufWireAdapter.java:163-187 | reading an inner message fails with the outer read's error when that fails, otherwise decodes the outer message read; it leaves the same bytes, and yields only a message whose tag the outer message holds |
| PairingWire.ReadMessage | src/com/google/polo/wire/protobuf/ProtobufWireAdapter.java:101-103 | the next pairing message is the conversion of the next inner message, and an error reading that passes through unchanged; it consumes the same frame |
| PairingWire.ReadMessageOfType | src/com/google/polo/wire/protobuf/ProtobufWireAdapter.java:116-124 | the next message is returned exactly when it has the requested type; a message of another type fails with both the wanted and the received type; a read error passes through unchanged |
| PairingWire.WrapInnerMessage | src/com/google/polo/wire/protobuf/ProtobufWireAdapter.java:224-253 | the outer message has status OK, version 1, the inner message's tag, and its serialisation as payload |
| PairingWire.ErrorStatus | src/com/google/polo/wire/protobuf/ProtobufWireAdapter.java:288-294 | an error status is never OK; it is bad-configuration exactly for a missing configuration, and bad-secret exactly for a bad secret |
| PairingWire.ErrorMessage | src/com/google/polo/wire/protobuf/ProtobufWireAdapter.java:284-298 | an error message has version 1, a status other than OK, and neither type nor payload |
| PairingWire.ReadFrame | src/com/google/polo/wire/protobuf/ProtobufWireAdapter.java:133-151 | with 263-269: a written frame's prefix reads back as the message length; reading it yields the message when its status is OK and a protocol error otherwise, and leaves exactly what followed it |
| PairingWire.ReadWrapped | src/com/google/polo/wire/protobuf/ProtobufWireAdapter.java:163-187 | with 224-253: a wrapped inner message, written and read back, is itself, and what followed its frame is left; it assumes only that this message's serialisations parse back |
| PairingWire.SendThenRead | src/com/google/polo/wire/protobuf/ProtobufWireAdapter.java:274-279 | with 101-103: a pairing message sent and read back is itself, up to the flipped preferred role of an options message, and what followed it is left; it assumes only that this message's serialisations parse back |
| PairingWire.ErrorThenRead | src/com/google/polo/wire/protobuf/ProtobufWireAdapter.java:284-298 | with 145-148: an error message read back is a protocol error at both the outer and the message level, and its frame is consumed |
| PairingWire.ProtobufWireAdapter.constructor | src/com/google/polo/wire/protobuf/ProtobufWireAdapter.java:81-84 | the adapter keeps the streams it is given, and the serialisation it uses |
| PairingWire.ProtobufWireAdapter.ReadBytesBlocking | src/com/google/polo/wire/protobuf/ProtobufWireAdapter.java:199-214 | a negative count fails as a negative array size; when the stream holds enough bytes, exactly the next `numBytes` bytes are returned in a fresh array and consumed, however the reads split them; otherwise the stream is drained and the read fails as closed |
| PairingWire.ProtobufWireAdapter.ReadNextOuterMessage | src/com/google/polo/wire/protobuf/ProtobufWireAdapter.java:133-151 | the result and the bytes left are those of `ReadOuter` on the stream's contents |
| PairingWire.ProtobufWireAdapter.ReadNextInnerMessage | src/com/google/polo/wire/protobuf/ProtobufWireAdapter.java:163-187 | the result and the bytes left are those of `ReadInner` |
| PairingWire.ProtobufWireAdapter.GetNextMessage | src/com/google/polo/wire/protobuf/ProtobufWireAdapter.java:101-103 | the result and the bytes left are those of `ReadMessage` |
| PairingWire.ProtobufWireAdapter.GetNextMessageOfType | src/com/google/polo/wire/protobuf/ProtobufWireAdapter.java:116-124 | the result and the bytes left are those of `ReadMessageOfType` |
| PairingWire.ProtobufWireAdapter.WriteMessage | src/com/google/polo/wire/protobuf/ProtobufWireAdapter.java:263-269 | the output gains exactly the frame of the serialised message |
| PairingWire.ProtobufWireAdapter.SendMessage | src/com/google/polo/wire/protobuf/ProtobufWireAdapter.java:274-279 | the output gains exactly the frame of the wrapped protocol buffer of the message |
| PairingWire.ProtobufWireAdapter.SendErrorMessage | src/com/google/polo/wire/protobuf/ProtobufWireAdapter.java:284-298 | the output gains exactly the frame of the error message for the exception |
| AnymoteMessages.WireAdapter.SendRemoteMessage | src/com/google/anymote/common/WireAdapter.java:31 | the message is appended to what has been sent |
| ConnectInfoModel.WithoutVersion | src/com/google/anymote/common/ConnectInfo.java:42-45 | a ConnectInfo built from a name alone has that name and no version number |
| ConnectInfoModel.ParseFromProto | src/com/google/anymote/common/ConnectInfo.java:80-89 | the name is copied; a set version is copied, and an unset one leaves no version number |
| ConnectInfoModel.GetProto | src/com/google/anymote/common/ConnectInfo.java:96-103 | the name is copied; the version field is set exactly when the info has a version number, and then holds it |
| ConnectInfoModel.ParseGetProto | src/com/google/anymote/common/ConnectInfo.java:80-103 | every ConnectInfo survives the trip through its connect message |
| ConnectInfoModel.GetParseProto | src/com/google/anymote/common/ConnectInfo.java:83-87 | with 99-101: a connect message survives the trip through ConnectInfo unless its version is -1, which is then dropped |
| DeviceSide.MessageReceiver.OnAck | src/com/google/anymote/device/MessageReceiver.java:28 | the receiver records one acknowledgment |
| DeviceSide.MessageReceiver.OnData | src/com/google/anymote/device/MessageReceiver.java:36 | the receiver records the data it is given |
| DeviceSide.MessageReceiver.OnFlingResult | src/com/google/anymote/device/MessageReceiver.java:44 | the receiver records the fling result with its sequence number |
| DeviceSide.ResponseCallbacks | src/com/google/anymote/device/DeviceMessageAdapter.java:79-93 | an acknowledgment fires exactly for an empty, numbered response, and then alone; otherwise there is one callback per field set, data first and fling result last; each carries its field's contents, and the fling result also carries the sequence number |
| DeviceSide.MessageCallbacks | src/com/google/anymote/device/DeviceMessageAdapter.java:62-68 | a message without a response causes no callback; an unnumbered response is never acknowledged; at most two callbacks fire |
| DeviceSide.Incremented | src/com/google/anymote/device/DeviceMessageAdapter.java:111 | incrementing the 32-bit ping counter adds one modulo 2^32 |
| DeviceSide.PingNumbersCountUp | src/com/google/anymote/device/DeviceMessageAdapter.java:55 | starting from zero, the counter after k pings is k, for every k below 2^31 |
| DeviceSide.DeviceMessageAdapter.constructor | src/com/google/anymote/device/DeviceMessageAdapter.java:55-60 | the adapter keeps its receiver and wire, and the ping counter starts at zero |
| DeviceSide.DeviceMessageAdapter.OnMessage | src/com/google/anymote/device/DeviceMessageAdapter.java:62-68 | the receiver gets exactly the callbacks of the message |
| DeviceSide.DeviceMessageAdapter.InterpretResponse | src/com/google/anymote/device/DeviceMessageAdapter.java:79-93 | the receiver gets exactly the callbacks of the response with its sequence number |
| DeviceSide.DeviceMessageAdapter.SendRequest | src/com/google/anymote/device/DeviceMessageAdapter.java:179-191 | one envelope is sent, holding the request and the sequence number, if there is one |
| DeviceSide.DeviceMessageAdapter.SendPing | src/com/google/anymote/device/DeviceMessageAdapter.java:109-112 | the counter is incremented, and an empty request numbered with the new value is sent |
| DeviceSide.DeviceMessageAdapter.SendConnect | src/com/google/anymote/device/DeviceMessageAdapter.java:114-118 | an unnumbered request holding only the info's connect message is sent |
| DeviceSide.DeviceMessageAdapter.SendData | src/com/google/anymote/device/DeviceMessageAdapter.java:120-127 | an unnumbered request holding only the data is sent |
| DeviceSide.DeviceMessageAdapter.SendKeyEvent | src/com/google/anymote/device/DeviceMessageAdapter.java:129-136 | an unnumbered request holding only the key event is sent |
| DeviceSide.DeviceMessageAdapter.SendMouseMove | src/com/google/anymote/device/DeviceMessageAdapter.java:138-145 | an unnumbered request holding only the mouse movement is sent |
| DeviceSide.DeviceMessageAdapter.SendMouseWheel | src/com/google/anymote/device/DeviceMessageAdapter.java:147-154 | an unnumbered request holding only the wheel movement is sent |
| DeviceSide.DeviceMessageAdapter.SendFling | src/com/google/anymote/device/DeviceMessageAdapter.java:156-162 | a request holding only the URI is sent with the caller's sequence number, and the ping counter is left alone |
| ServerSide.RequestReceiver.OnFling | src/com/google/anymote/server/RequestReceiver.java:74 | the receiver records the URI and answers with its fling decision for it |
| ServerSide.FieldEvent | src/com/google/anymote/server/ServerMessageAdapter.java:91-115 | the handler call for field k, when that field is set, has rank k in the handling order |
| ServerSide.HandledExact | src/com/google/anymote/server/ServerMessageAdapter.java:91-115 | handling the first k fields makes one call per set field among them, carrying its contents, in strictly increasing field order, and no other call |
| ServerSide.HandledAppends | src/com/google/anymote/server/ServerMessageAdapter.java:91-115 | handling the fields only appends to the receiver's earlier calls |
| ServerSide.FieldsHandledInTurn | src/com/google/anymote/server/ServerMessageAdapter.java:91-115 | the six field blocks, run in turn, add exactly the request's handler calls |
| ServerSide.HandlerEventsExact | src/com/google/anymote/server/ServerMessageAdapter.java:91-115 | the request's handler calls are in the order key, mouse, wheel, data, connect, fling; there is one per field set, carrying that field's contents, and nothing else; a request with no field set causes no call |
| ServerSide.Reply | src/com/google/anymote/server/ServerMessageAdapter.java:87-120 | a reply is sent exactly when a fling is requested, or when the request is numbered and sets none of key, mouse, wheel, data or connect. The reply echoes the sequence number, carries no data, and holds a fling result exactly for a fling, which is success exactly when the receiver accepts it. An empty numbered request is acknowledged with an empty response |
| ServerSide.Sent | src/com/google/anymote/server/ServerMessageAdapter.java:117-119 | one message goes out exactly when there is a reply, and it is that reply |
| ServerSide.ServerMessageAdapter.constructor | src/com/google/anymote/server/ServerMessageAdapter.java:65-69 | the adapter keeps its receiver and wire |
| ServerSide.ServerMessageAdapter.OnMessage | src/com/google/anymote/server/ServerMessageAdapter.java:75-80 | a message without a request causes nothing; one with a request causes exactly its handler calls and its reply |
| ServerSide.ServerMessageAdapter.InterpretRequest | src/com/google/anymote/server/ServerMessageAdapter.java:87-120 | the receiver gets exactly the request's handler calls, and the wire gets exactly its reply, if any |
| ServerSide.ServerMessageAdapter.HandleKeyEvent | src/com/google/anymote/server/ServerMessageAdapter.java:91-94 | with 122-126: reports whether the key event is set, and calls the receiver with its key code and action exactly then |
| ServerSide.ServerMessageAdapter.HandleMouseEvent | src/com/google/anymote/server/ServerMessageAdapter.java:95-98 | with 128-132: reports whether the mouse event is set, and passes on its deltas exactly then |
| ServerSide.ServerMessageAdapter.HandleMouseWheel | src/com/google/anymote/server/ServerMessageAdapter.java:99-102 | with 134-138: reports whether the wheel event is set, and passes on its scroll amounts exactly then |
| ServerSide.ServerMessageAdapter.HandleData | src/com/google/anymote/server/ServerMessageAdapter.java:103-106 | with 140-142: reports whether data is set, and passes on its type and data exactly then |
| ServerSide.ServerMessageAdapter.HandleConnect | src/com/google/anymote/server/ServerMessageAdapter.java:107-110 | with 150-152: reports whether a connect message is set, and passes on its parsed ConnectInfo exactly then |
| ServerSide.ServerMessageAdapter.HandleFling | src/com/google/anymote/server/ServerMessageAdapter.java:111-115 | with 144-148: passes on a requested URI, and returns the receiver's decision for it |
| ServerSide.ServerMessageAdapter.SendData | src/com/google/anymote/server/ServerMessageAdapter.java:154-161 | one unnumbered response holding only the data is sent |
| ServerSide.ServerMessageAdapter.SendResponse | src/com/google/anymote/server/ServerMessageAdapter.java:169-177 | one envelope holding the response is sent, with the sequence number if there is one |

## Left out

- Threads, locks and the receive loop of `RemoteWireAdapter`, and the factory that wires the adapters together (`AnymoteFactory`): they are concurrency and setup, not message handling. The Anymote wire adapter is modelled only as a sink that records the messages sent through it.
- `getNextRemoteMessage`, `getWireAdapter` and `stop`: they delegate to the transport and carry no logic of their own.
- Protocol-buffer serialisation: it is an opaque `Codec`, constrained only as stated above. The protocol-buffer rule that an unknown enum value reads as the field's default is therefore not modelled. An outer message whose tag is unset or unknown is modelled as having no tag, so reading it fails as an unknown message type.
- `PoloUtil` is not part of this model. The big-endian conversions it provides are defined directly, with their inverse lemmas.
- `fromContext` and `PairingContext`: they only select the streams of a socket.
- The debug line printed when an options message is read: console output has no effect on the protocol.
- `AckPolicy`: it is never called by the adapter.
- `ConnectInfo.toString`: it is a debug representation only.
- `ProtobufWireAdapter.SendMessage`: `wrapInnerMessage` throws for an unknown inner-message class, and `poloMessageToProto` returns null for an unknown message class. Neither can happen with the closed set of seven messages modelled here.
- PairingMessages.EncodingProtosRoundTrip, PairingMessages.ProtoRoundTrip: encoding sets are modelled as lists in the order the encodings were added. This assumes that the set class, which is not part of this model, iterates in insertion order and holds no duplicates. Without that assumption the Java code keeps a wire list only up to order and duplicates, so these two lemmas claim more than the code guarantees.
- Streams: an input stream is a finite list of chunks followed by end of stream. A stream that blocks forever is not modelled. Writes are modelled as appending to a byte sequence; an I/O error on write is not modelled.
- `ServerSide.RequestReceiver.OnFling`: the receiver's fling decision is a fixed function of the URI, so a receiver whose answer depends on its history is not modelled.
- `DeviceSide.DeviceMessageAdapter.SendPing`: the atomicity of `AtomicInteger` under concurrent pings is not modelled. The wrap-around at 2^31 is modelled.
- `ServerSide.ServerMessageAdapter.InterpretRequest`: each `if` block of `interpretRequest` is a method of its own (`HandleKeyEvent` to `HandleFling`) together with the private helper it calls. The order of the blocks and their effect on the reply flag are unchanged.
- Key codes: a key code is modelled as its number, not as the generated enum.
