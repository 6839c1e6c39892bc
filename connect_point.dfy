/** Connection points: a network element (device, host or IP element) and a
    port on it, their text forms "deviceUri/port" and "hostId/vlan/port", and
    their ordering. */

module ConnectPoints {
  import opened Wrappers
  import opened JavaStrings
  import opened JavaNumbers

  /** The network element a connection point is on, by kind. Each id is
      kept as its text form: `DeviceId.deviceId(s)` and `HostId.hostId(s)`
      are taken to be the element of that kind whose `toString` is `s`. */
  datatype ElementId = DeviceElement(uri: string) | HostElement(host: string) | IpElement(ip: string)

  function ElementText(e: ElementId): string
  {
    match e
    case DeviceElement(uri) => uri
    case HostElement(host) => host
    case IpElement(ip) => ip
  }

  /** A port number, known by its `toLong()`. */
  datatype PortNumber = PortNumber(number: int)

  /** What `equals` compares: the element and the port. */
  datatype ConnectPoint = ConnectPoint(elementId: ElementId, port: PortNumber)

  /** The `IllegalArgumentException` of a malformed string and the
      `IllegalStateException` of an element of the wrong kind. */
  datatype PointError = BadFormat | NotDevice | NotHost

  /** `deviceId()`. */
  function DeviceId(cp: ConnectPoint): (r: Result<string, PointError>)
    ensures r.Ok? <==> cp.elementId.DeviceElement?
    ensures r.Ok? ==> cp.elementId == DeviceElement(r.value)
    ensures r.Err? ==> r.error == NotDevice
  {
    if cp.elementId.DeviceElement? then Ok(cp.elementId.uri) else Err(NotDevice)
  }

  /** `hostId()`. */
  function HostId(cp: ConnectPoint): (r: Result<string, PointError>)
    ensures r.Ok? <==> cp.elementId.HostElement?
    ensures r.Ok? ==> cp.elementId == HostElement(r.value)
    ensures r.Err? ==> r.error == NotHost
  {
    if cp.elementId.HostElement? then Ok(cp.elementId.host) else Err(NotHost)
  }

  /** `deviceConnectPoint`: exactly two '/'-separated parts, the device and
      the port; `portNumber` is `PortNumber.portNumber(String)`. */
  function DeviceConnectPoint(s: string, portNumber: string -> PortNumber): (r: Result<ConnectPoint, PointError>)
    ensures r.Ok? <==> |Split(s, '/')| == 2
    ensures r.Ok? ==> r.value == ConnectPoint(DeviceElement(Split(s, '/')[0]), portNumber(Split(s, '/')[1]))
    ensures r.Err? ==> r.error == BadFormat
  {
    var parts := Split(s, '/');
    if |parts| != 2 then Err(BadFormat)
    else Ok(ConnectPoint(DeviceElement(parts[0]), portNumber(parts[1])))
  }

  /** `fromString`: the inverse of `toString` for device points; exactly two
      '/'-separated parts, the device and the port, with the port read by
      `PortNumber.fromString`. The parse is the one `deviceConnectPoint`
      does, with that port reader. */
  function FromString(s: string, portFromString: string -> PortNumber): (r: Result<ConnectPoint, PointError>)
    ensures r.Ok? <==> |Split(s, '/')| == 2
    ensures r.Ok? ==> r.value == ConnectPoint(DeviceElement(Split(s, '/')[0]), portFromString(Split(s, '/')[1]))
    ensures r.Err? ==> r.error == BadFormat
  {
    DeviceConnectPoint(s, portFromString)
  }

  /** `hostConnectPoint`: exactly three '/'-separated parts; the host id is
      everything before the last '/', the port everything after it. */
  function HostConnectPoint(s: string, portNumber: string -> PortNumber): (r: Result<ConnectPoint, PointError>)
    ensures r.Ok? <==> |Split(s, '/')| == 3
    ensures r.Ok? ==>
              exists k :: 0 <= k < |s| && s[k] == '/' && '/' !in s[k + 1..] &&
                          r.value == ConnectPoint(HostElement(s[..k]), portNumber(s[k + 1..]))
    ensures r.Err? ==> r.error == BadFormat
  {
    var parts := Split(s, '/');
    if |parts| != 3 then Err(BadFormat)
    else
      SplitHasSeparator(s, '/');
      var lastSlash := LastIndexOf(s, '/');
      Ok(ConnectPoint(HostElement(s[..lastSlash]), portNumber(s[lastSlash + 1..])))
  }

  /** A string that splits into more than one part contains the separator. */
  lemma SplitHasSeparator(s: string, c: char)
    requires |Split(s, c)| > 1
    ensures c in s
  {
  }

  /** `toString`: the element, a '/', and the port; `portText` is the
      port's `toString`. */
  function ToString(cp: ConnectPoint, portText: PortNumber -> string): string
  {
    ElementText(cp.elementId) + "/" + portText(cp.port)
  }

  /** Printing a device point and parsing it back gives the same point, when
      neither the device uri nor the port's text holds a '/', the port's
      text is not empty and `fromString` reads it back. */
  lemma FromStringToString(cp: ConnectPoint, portText: PortNumber -> string, portFromString: string -> PortNumber)
    requires cp.elementId.DeviceElement? && '/' !in cp.elementId.uri
    requires '/' !in portText(cp.port) && portText(cp.port) != ""
    requires portFromString(portText(cp.port)) == cp.port
    ensures FromString(ToString(cp, portText), portFromString) == Ok(cp)
  {
    var s := ToString(cp, portText);
    assert s == cp.elementId.uri + ['/'] + portText(cp.port);
    SplitTwo(cp.elementId.uri, '/', portText(cp.port));
  }

  /** Printing a host point whose host id is "mac/vlan" and parsing it back
      with `hostConnectPoint` gives the same point. */
  lemma HostConnectPointToString(mac: string, vlan: string, port: PortNumber,
                                 portText: PortNumber -> string, portNumber: string -> PortNumber)
    requires '/' !in mac && '/' !in vlan
    requires '/' !in portText(port) && portText(port) != ""
    requires portNumber(portText(port)) == port
    ensures HostConnectPoint(ToString(ConnectPoint(HostElement(mac + "/" + vlan), port), portText), portNumber)
            == Ok(ConnectPoint(HostElement(mac + "/" + vlan), port))
  {
    var t := portText(port);
    var s := ToString(ConnectPoint(HostElement(mac + "/" + vlan), port), portText);
    assert s == mac + ['/'] + vlan + ['/'] + t;
    SplitThree(mac, '/', vlan, t);
    var k := |mac| + 1 + |vlan|;
    assert s[k] == '/' && s[k + 1..] == t;
    assert s[..k] == mac + "/" + vlan;
    LastIndexOfAt(s, '/', k);
  }

  /** The position of a `c` with no `c` after it is `lastIndexOf(c)`. */
  lemma LastIndexOfAt(s: string, c: char, k: nat)
    requires k < |s| && s[k] == c && c !in s[k + 1..]
    ensures LastIndexOf(s, c) == k
  {
  }

  /** A string with no '/', or with one '/' and nothing after it, is not a
      device point. */
  lemma DeviceConnectPointRejects(s: string, portNumber: string -> PortNumber)
    ensures '/' !in s ==> DeviceConnectPoint(s, portNumber) == Err(BadFormat)
    ensures '/' !in s ==> DeviceConnectPoint(s + "/", portNumber) == Err(BadFormat)
  {
    if '/' !in s {
      var u := s + "/";
      assert u == s + ['/'] + [];
      PiecesCons(s, '/', []);
      assert Pieces([], '/') == [""];
      assert Pieces(u, '/') == [s, ""];
      if s == "" {
        assert DropTrailingEmpty(["", ""]) == [];
      } else {
        assert DropTrailingEmpty([s, ""]) == [s];
      }
    }
  }

  /** `Objects.equals` on the two fields. */
  predicate Equals(a: ConnectPoint, b: ConnectPoint)
  {
    a.elementId == b.elementId && a.port == b.port
  }

  /** `hashCode`: `Objects.hash(elementId, portNumber)`, with the hash left
      uninterpreted. */
  function HashCode(cp: ConnectPoint, objectsHash: (ElementId, PortNumber) -> int): int
  {
    objectsHash(cp.elementId, cp.port)
  }

  /** Equality is value equality of the pair, and equal points hash equal. */
  lemma EqualsHashConsistent(a: ConnectPoint, b: ConnectPoint, objectsHash: (ElementId, PortNumber) -> int)
    ensures Equals(a, b) <==> a == b
    ensures Equals(a, b) ==> HashCode(a, objectsHash) == HashCode(b, objectsHash)
  {
  }

  function Sign(x: int): int
  {
    if x == 0 then 0 else if x < 0 then -1 else 1
  }

  /** `compareTo`: both points must be on devices; the device ids' text is
      compared first, and on a tie the sign of the `long` difference of the
      ports decides. */
  function CompareTo(a: ConnectPoint, b: ConnectPoint): (r: Result<int, PointError>)
    ensures r.Ok? <==> a.elementId.DeviceElement? && b.elementId.DeviceElement?
    ensures r.Err? ==> r.error == NotDevice
    ensures r.Ok? && a.elementId != b.elementId ==>
              r.value == JavaStrings.CompareTo(a.elementId.uri, b.elementId.uri) && r.value != 0
    ensures r.Ok? && a.elementId == b.elementId ==> r.value in {-1, 0, 1}
  {
    var da := DeviceId(a);
    if da.Err? then Err(da.error)
    else
      var db := DeviceId(b);
      if db.Err? then Err(db.error)
      else
        var result := JavaStrings.CompareTo(da.value, db.value);
        if result == 0 then Ok(Sign(Wrap64(a.port.number - b.port.number)))
        else Ok(result)
  }

  /** On a device tie the order is the numeric order of the ports, as long
      as their difference fits in a `long` (as it does for any two ports in
      the unsigned 32-bit range). */
  lemma CompareToPorts(a: ConnectPoint, b: ConnectPoint)
    requires a.elementId.DeviceElement? && a.elementId == b.elementId
    requires IsLong(a.port.number - b.port.number)
    ensures CompareTo(a, b) == Ok(Sign(a.port.number - b.port.number))
    ensures CompareTo(a, b) == Ok(0) <==> a == b
  {
    Wrap64Spec(a.port.number - b.port.number);
  }

  /** Swapping the operands negates the comparison, under the same bound. */
  lemma CompareToAntisymmetric(a: ConnectPoint, b: ConnectPoint)
    requires a.elementId.DeviceElement? && b.elementId.DeviceElement?
    requires IsLong(a.port.number - b.port.number) && IsLong(b.port.number - a.port.number)
    ensures CompareTo(a, b).Ok? && CompareTo(b, a).Ok?
    ensures CompareTo(a, b).value == -CompareTo(b, a).value
  {
    JavaStrings.CompareToAntisymmetric(a.elementId.uri, b.elementId.uri);
    Wrap64Spec(a.port.number - b.port.number);
    Wrap64Spec(b.port.number - a.port.number);
  }

  /** Beyond that bound the difference wraps: a port of `Long.MAX_VALUE`
      compares below port -1 on the same device. */
  lemma CompareToOverflow(uri: string)
    ensures CompareTo(ConnectPoint(DeviceElement(uri), PortNumber(LONG_MAX)),
                      ConnectPoint(DeviceElement(uri), PortNumber(-1))) == Ok(-1)
  {
    assert Wrap64(LONG_MAX + 1) == LONG_MIN;
  }

  /** A connection point as a provenance object: the point and the entity
      uuid slot, the only state `ConnectPoint` updates. */
  class ConnectPointEntity {
    const point: ConnectPoint
    var entityUuid: Option<string>

    constructor(point: ConnectPoint)
      ensures this.point == point && entityUuid == None
    {
      this.point := point;
      entityUuid := None;
    }

    /** `getEntityUuid`. */
    function GetEntityUuid(): Option<string>
      reads this
    {
      entityUuid
    }

    /** `setEntityUuid`: the getter then answers `u`, and the point is unchanged. */
    method SetEntityUuid(u: Option<string>)
      modifies this
      ensures GetEntityUuid() == u
    {
      entityUuid := u;
    }
  }
}
