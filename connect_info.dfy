/** ConnectInfo: the immutable name and version a device announces when it
    connects, and its conversion to and from the connect message. */
module ConnectInfoModel {
  import opened Optional
  import opened ByteStreams
  import opened AnymoteMessages

  /** The version of a ConnectInfo built without one. */
  const NOT_SET: Int32 := -1

  /** The getters `getDeviceName` and `getVersionNumber` are the two fields. */
  datatype ConnectInfo = ConnectInfo(deviceName: string, versionNumber: Int32)
  {
    /** `hasVersionNumber`. */
    predicate HasVersionNumber()
    {
      versionNumber != NOT_SET
    }
  }

  /** The one-argument constructor: the name, and no version. */
  function WithoutVersion(deviceName: string): (c: ConnectInfo)
    ensures c.deviceName == deviceName && c.versionNumber == NOT_SET
    ensures !c.HasVersionNumber()
  {
    ConnectInfo(deviceName, NOT_SET)
  }

  /** `parseFromProto`: the version field when it is set, NOT_SET otherwise. */
  function ParseFromProto(m: Connect): (c: ConnectInfo)
    ensures c.deviceName == m.deviceName
    ensures m.version.Some? ==> c.versionNumber == m.version.value
    ensures m.version.None? ==> !c.HasVersionNumber()
  {
    if m.version.Some? then ConnectInfo(m.deviceName, m.version.value)
    else WithoutVersion(m.deviceName)
  }

  /** `getProto`: the device name always, the version only when it is set. */
  function GetProto(c: ConnectInfo): (m: Connect)
    ensures m.deviceName == c.deviceName
    ensures m.version.Some? <==> c.HasVersionNumber()
    ensures m.version.Some? ==> m.version.value == c.versionNumber
  {
    Connect(c.deviceName, if c.versionNumber != -1 then Some(c.versionNumber) else None)
  }

  /** A ConnectInfo survives the trip through its connect message. */
  lemma ParseGetProto(c: ConnectInfo)
    ensures ParseFromProto(GetProto(c)) == c
  {
  }

  /** A connect message survives the trip through ConnectInfo, except that
      an explicit version of -1 is dropped. */
  lemma GetParseProto(m: Connect)
    ensures GetProto(ParseFromProto(m)) == if m.version == Some(NOT_SET) then Connect(m.deviceName, None) else m
    ensures m.version != Some(NOT_SET) ==> GetProto(ParseFromProto(m)) == m
  {
  }
}
