/** The seven pairing (Polo) handshake messages, on the application side
    and on the protocol-buffer side, and the field-by-field conversions
    between the two (`toProto` and `fromProto` in ProtobufWireAdapter). */
module PairingMessages {
  import opened Optional
  import opened ByteStreams

  // ---------------------------------------------------------------------
  // Application side: the pairing message classes.
  // ---------------------------------------------------------------------

  datatype ProtocolRole = UnknownRole | InputDevice | DisplayDevice

  datatype EncodingType =
    | EncodingAlphanumeric
    | EncodingHexadecimal
    | EncodingNumeric
    | EncodingQrCode
    | EncodingUnknown

  datatype EncodingOption = EncodingOption(encodingType: EncodingType, symbolLength: Int32)

  /** The type tag every pairing message reports through `getType()`. */
  datatype PoloMessageType =
    | OptionsType
    | PairingRequestType
    | PairingRequestAckType
    | ConfigurationType
    | ConfigurationAckType
    | SecretType
    | SecretAckType

  /** A pairing message. The encoding sets of an options message are kept
      in their iteration order. */
  datatype PoloMessage =
    | OptionsMessage(rolePreference: ProtocolRole,
                     inputEncodings: seq<EncodingOption>,
                     outputEncodings: seq<EncodingOption>)
    | PairingRequestMessage(serviceName: string, clientName: Option<string>)
    | PairingRequestAckMessage(serverName: Option<string>)
    | ConfigurationMessage(encoding: EncodingOption, clientRole: ProtocolRole)
    | ConfigurationAckMessage
    | SecretMessage(secret: seq<byte>)
    | SecretAckMessage(secret: seq<byte>)
  {
    function Type(): PoloMessageType
    {
      match this
      case OptionsMessage(_, _, _) => OptionsType
      case PairingRequestMessage(_, _) => PairingRequestType
      case PairingRequestAckMessage(_) => PairingRequestAckType
      case ConfigurationMessage(_, _) => ConfigurationType
      case ConfigurationAckMessage => ConfigurationAckType
      case SecretMessage(_) => SecretType
      case SecretAckMessage(_) => SecretAckType
    }
  }

  // ---------------------------------------------------------------------
  // Protocol-buffer side: the inner messages of the pairing schema. A field
  // of enum type that is not set reads as its first value (UNKNOWN).
  // ---------------------------------------------------------------------

  datatype RoleType = RoleTypeUnknown | RoleTypeInput | RoleTypeOutput

  datatype EncodingTypeProto =
    | EncodingTypeUnknown
    | EncodingTypeAlphanumeric
    | EncodingTypeHexadecimal
    | EncodingTypeNumeric
    | EncodingTypeQrCode

  datatype EncodingProto = EncodingProto(encodingType: EncodingTypeProto, symbolLength: Int32)

  datatype InnerProto =
    | OptionsProto(preferredRole: RoleType,
                   inputEncodings: seq<EncodingProto>,
                   outputEncodings: seq<EncodingProto>)
    | PairingRequestProto(serviceName: string, clientName: Option<string>)
    | PairingRequestAckProto(serverName: Option<string>)
    | ConfigurationProto(encoding: EncodingProto, clientRole: RoleType)
    | ConfigurationAckProto
    | SecretProto(secret: seq<byte>)
    | SecretAckProto(secret: seq<byte>)

  // ---------------------------------------------------------------------
  // Enum conversions.
  // ---------------------------------------------------------------------

  function EncodingTypeToProto(t: EncodingType): EncodingTypeProto
  {
    match t
    case EncodingAlphanumeric => EncodingTypeAlphanumeric
    case EncodingHexadecimal => EncodingTypeHexadecimal
    case EncodingNumeric => EncodingTypeNumeric
    case EncodingQrCode => EncodingTypeQrCode
    case _ => EncodingTypeUnknown
  }

  function EncodingTypeFromProto(t: EncodingTypeProto): EncodingType
  {
    match t
    case EncodingTypeAlphanumeric => EncodingAlphanumeric
    case EncodingTypeHexadecimal => EncodingHexadecimal
    case EncodingTypeNumeric => EncodingNumeric
    case EncodingTypeQrCode => EncodingQrCode
    case _ => EncodingUnknown
  }

  /** The encoding type conversions are inverse to each other, in both
      directions; only the unknown type maps to the unknown wire value. */
  lemma EncodingTypeRoundTrip(t: EncodingType, p: EncodingTypeProto)
    ensures EncodingTypeFromProto(EncodingTypeToProto(t)) == t
    ensures EncodingTypeToProto(EncodingTypeFromProto(p)) == p
    ensures EncodingTypeToProto(t) == EncodingTypeUnknown <==> t == EncodingUnknown
  {
  }

  /** The client role of a configuration message on the wire. */
  function ClientRoleToProto(role: ProtocolRole): RoleType
  {
    match role
    case DisplayDevice => RoleTypeOutput
    case InputDevice => RoleTypeInput
    case _ => RoleTypeUnknown
  }

  function ClientRoleFromProto(role: RoleType): ProtocolRole
  {
    match role
    case RoleTypeInput => InputDevice
    case RoleTypeOutput => DisplayDevice
    case _ => UnknownRole
  }

  /** The configuration client-role conversions are inverse to each other. */
  lemma ClientRoleRoundTrip(r: ProtocolRole, p: RoleType)
    ensures ClientRoleFromProto(ClientRoleToProto(r)) == r
    ensures ClientRoleToProto(ClientRoleFromProto(p)) == p
  {
  }

  /** The preferred role of an options message on the wire. Note that a
      display device is written as the INPUT role and an input device as the
      OUTPUT role; an unknown role leaves the field unset. */
  function PreferredRoleToProto(role: ProtocolRole): RoleType
  {
    match role
    case DisplayDevice => RoleTypeInput
    case InputDevice => RoleTypeOutput
    case UnknownRole => RoleTypeUnknown
  }

  /** Reading the preferred role back maps INPUT to an input device and
      OUTPUT to a display device; any other value leaves the unknown role
      of a new options message. */
  function PreferredRoleFromProto(role: RoleType): ProtocolRole
  {
    match role
    case RoleTypeInput => InputDevice
    case RoleTypeOutput => DisplayDevice
    case RoleTypeUnknown => UnknownRole
  }

  /** The other of the two known roles. */
  function OppositeRole(role: ProtocolRole): ProtocolRole
  {
    match role
    case InputDevice => DisplayDevice
    case DisplayDevice => InputDevice
    case UnknownRole => UnknownRole
  }

  /** The other of the two known wire roles. */
  function OppositeRoleType(role: RoleType): RoleType
  {
    match role
    case RoleTypeInput => RoleTypeOutput
    case RoleTypeOutput => RoleTypeInput
    case RoleTypeUnknown => RoleTypeUnknown
  }

  /** The preferred role does not survive a round trip: every known role
      comes back as the opposite one, whichever side starts. */
  lemma PreferredRoleSwapped(r: ProtocolRole, p: RoleType)
    ensures PreferredRoleFromProto(PreferredRoleToProto(r)) == OppositeRole(r)
    ensures r != UnknownRole ==> PreferredRoleFromProto(PreferredRoleToProto(r)) != r
    ensures PreferredRoleToProto(PreferredRoleFromProto(p)) == OppositeRoleType(p)
    ensures p != RoleTypeUnknown ==> PreferredRoleToProto(PreferredRoleFromProto(p)) != p
  {
  }

  // ---------------------------------------------------------------------
  // Encoding options and lists of them.
  // ---------------------------------------------------------------------

  function EncodingToProto(e: EncodingOption): EncodingProto
  {
    EncodingProto(EncodingTypeToProto(e.encodingType), e.symbolLength)
  }

  function EncodingFromProto(e: EncodingProto): EncodingOption
  {
    EncodingOption(EncodingTypeFromProto(e.encodingType), e.symbolLength)
  }

  /** The wire list built by adding each encoding of a set in turn. */
  function EncodingsToProto(s: seq<EncodingOption>): (r: seq<EncodingProto>)
    ensures |r| == |s|
    ensures forall i :: 0 <= i < |s| ==> r[i] == EncodingToProto(s[i])
  {
    if s == [] then [] else [EncodingToProto(s[0])] + EncodingsToProto(s[1..])
  }

  /** The encodings added, in wire order, to a new options message. */
  function EncodingsFromProto(s: seq<EncodingProto>): (r: seq<EncodingOption>)
    ensures |r| == |s|
    ensures forall i :: 0 <= i < |s| ==> r[i] == EncodingFromProto(s[i])
  {
    if s == [] then [] else [EncodingFromProto(s[0])] + EncodingsFromProto(s[1..])
  }

  /** Encoding lists survive a round trip from the application side. */
  lemma {:induction false} EncodingsRoundTrip(s: seq<EncodingOption>)
    ensures EncodingsFromProto(EncodingsToProto(s)) == s
  {
    if s != [] {
      EncodingsRoundTrip(s[1..]);
      EncodingTypeRoundTrip(s[0].encodingType, EncodingTypeUnknown);
      assert EncodingsToProto(s) == [EncodingToProto(s[0])] + EncodingsToProto(s[1..]);
    }
  }

  /** Encoding lists survive a round trip from the wire side. */
  lemma {:induction false} EncodingProtosRoundTrip(p: seq<EncodingProto>)
    ensures EncodingsToProto(EncodingsFromProto(p)) == p
  {
    if p != [] {
      EncodingProtosRoundTrip(p[1..]);
      EncodingTypeRoundTrip(EncodingUnknown, p[0].encodingType);
      assert EncodingsFromProto(p) == [EncodingFromProto(p[0])] + EncodingsFromProto(p[1..]);
    }
  }

  // ---------------------------------------------------------------------
  // Whole messages.
  // ---------------------------------------------------------------------

  /** `poloMessageToProto`: the protocol buffer for an application message. */
  function ToProto(m: PoloMessage): InnerProto
  {
    match m
    case OptionsMessage(role, input, output) =>
      OptionsProto(PreferredRoleToProto(role), EncodingsToProto(input), EncodingsToProto(output))
    case PairingRequestMessage(service, client) => PairingRequestProto(service, client)
    case PairingRequestAckMessage(server) => PairingRequestAckProto(server)
    case ConfigurationMessage(enc, role) =>
      ConfigurationProto(EncodingToProto(enc), ClientRoleToProto(role))
    case ConfigurationAckMessage => ConfigurationAckProto
    case SecretMessage(secret) => SecretProto(secret)
    case SecretAckMessage(secret) => SecretAckProto(secret)
  }

  /** `protoToPoloMessage`: the application message for a protocol buffer. */
  function FromProto(p: InnerProto): PoloMessage
  {
    match p
    case OptionsProto(role, input, output) =>
      OptionsMessage(PreferredRoleFromProto(role), EncodingsFromProto(input), EncodingsFromProto(output))
    case PairingRequestProto(service, client) => PairingRequestMessage(service, client)
    case PairingRequestAckProto(server) => PairingRequestAckMessage(server)
    case ConfigurationProto(enc, role) =>
      ConfigurationMessage(EncodingFromProto(enc), ClientRoleFromProto(role))
    case ConfigurationAckProto => ConfigurationAckMessage
    case SecretProto(secret) => SecretMessage(secret)
    case SecretAckProto(secret) => SecretAckMessage(secret)
  }

  /** What an application message becomes after a trip to the wire and back:
      itself, except that an options message has its preferred role flipped. */
  function AfterRoundTrip(m: PoloMessage): PoloMessage
  {
    if m.OptionsMessage? then m.(rolePreference := OppositeRole(m.rolePreference)) else m
  }

  /** Converting to a protocol buffer and back gives the message back, up to
      the flipped preferred role of an options message; the message type is
      always kept. */
  lemma {:induction false} MessageRoundTrip(m: PoloMessage)
    ensures FromProto(ToProto(m)) == AfterRoundTrip(m)
    ensures FromProto(ToProto(m)).Type() == m.Type()
    ensures !m.OptionsMessage? ==> FromProto(ToProto(m)) == m
  {
    match m
    case OptionsMessage(role, input, output) =>
      EncodingsRoundTrip(input);
      EncodingsRoundTrip(output);
      PreferredRoleSwapped(role, RoleTypeUnknown);
    case ConfigurationMessage(enc, role) =>
      EncodingTypeRoundTrip(enc.encodingType, EncodingTypeUnknown);
      ClientRoleRoundTrip(role, RoleTypeUnknown);
    case _ =>
  }

  /** The same from the wire side: converting a protocol buffer to an
      application message and back gives it back, up to the flipped
      preferred role of an options buffer. */
  lemma {:induction false} ProtoRoundTrip(p: InnerProto)
    ensures ToProto(FromProto(p)) ==
      (if p.OptionsProto? then p.(preferredRole := OppositeRoleType(p.preferredRole)) else p)
    ensures !p.OptionsProto? ==> ToProto(FromProto(p)) == p
  {
    match p
    case OptionsProto(role, input, output) =>
      EncodingProtosRoundTrip(input);
      EncodingProtosRoundTrip(output);
      PreferredRoleSwapped(UnknownRole, role);
    case ConfigurationProto(enc, role) =>
      EncodingTypeRoundTrip(EncodingUnknown, enc.encodingType);
      ClientRoleRoundTrip(UnknownRole, role);
    case _ =>
  }
}
