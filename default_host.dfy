/** An end-station host: its identity, addresses and the locations where it
    was seen, its most recent location, and its equality. */

module Hosts {
  import opened Wrappers
  import opened ConnectPoints

  /** A host location: a connection point and the time the host was seen there. */
  datatype HostLocation = HostLocation(point: ConnectPoint, time: int)

  datatype IpAddress = IpAddress(octets: seq<bv8>)

  /** `VlanId.NONE`, the untagged VLAN `(short) 0xFFFF`. */
  const VLAN_NONE: bv16 := 0xFFFF
  /** `EthType.EtherType.UNKNOWN.ethType()`, the ether type 0. */
  const TPID_UNKNOWN: bv16 := 0

  /** Some location of `s` has the greatest time. */
  lemma {:induction false} LatestExists(s: set<HostLocation>)
    requires s != {}
    ensures exists l :: l in s && forall m :: m in s ==> m.time <= l.time
  {
    var x :| x in s;
    if s != {x} {
      var rest := s - {x};
      LatestExists(rest);
      var l :| l in rest && forall m :: m in rest ==> m.time <= l.time;
      if x.time > l.time {
        assert forall m :: m in s ==> m.time <= x.time;
      } else {
        assert forall m :: m in s ==> m.time <= l.time;
      }
    }
  }

  class DefaultHost {
    const providerId: string
    const id: string
    const mac: seq<bv8>
    const vlan: bv16
    const locations: set<HostLocation>
    const ips: set<IpAddress>
    const innerVlan: bv16
    const tpid: bv16
    const configured: bool
    const annotations: map<string, string>
    var entityUuid: Option<string>

    /** The full constructor. The location and address sets are copied:
        they are values here, so the host's sets are the ones given, and
        nothing the caller does later reaches them. */
    constructor Full(providerId: string, id: string, mac: seq<bv8>, vlan: bv16,
                     locations: set<HostLocation>, ips: set<IpAddress>,
                     innerVlan: bv16, tpid: bv16, configured: bool, annotations: map<string, string>)
      ensures this.providerId == providerId && this.id == id && this.mac == mac && this.vlan == vlan
      ensures this.locations == locations && this.ips == ips
      ensures this.innerVlan == innerVlan && this.tpid == tpid && this.configured == configured
      ensures this.annotations == annotations && entityUuid == None
    {
      this.providerId := providerId;
      this.id := id;
      this.mac := mac;
      this.vlan := vlan;
      this.locations := locations;
      this.ips := ips;
      this.innerVlan := innerVlan;
      this.tpid := tpid;
      this.configured := configured;
      this.annotations := annotations;
      entityUuid := None;
    }

    /** A set of locations, with no inner VLAN and an unknown TPID. */
    constructor WithLocations(providerId: string, id: string, mac: seq<bv8>, vlan: bv16,
                              locations: set<HostLocation>, ips: set<IpAddress>,
                              configured: bool, annotations: map<string, string>)
      ensures this.providerId == providerId && this.id == id && this.mac == mac && this.vlan == vlan
      ensures this.locations == locations && this.ips == ips
      ensures innerVlan == VLAN_NONE && tpid == TPID_UNKNOWN && this.configured == configured
      ensures this.annotations == annotations && entityUuid == None
    {
      this.providerId := providerId;
      this.id := id;
      this.mac := mac;
      this.vlan := vlan;
      this.locations := locations;
      this.ips := ips;
      innerVlan := VLAN_NONE;
      tpid := TPID_UNKNOWN;
      this.configured := configured;
      this.annotations := annotations;
      entityUuid := None;
    }

    /** A single location. */
    constructor WithLocation(providerId: string, id: string, mac: seq<bv8>, vlan: bv16,
                             location: HostLocation, ips: set<IpAddress>,
                             configured: bool, annotations: map<string, string>)
      ensures this.providerId == providerId && this.id == id && this.mac == mac && this.vlan == vlan
      ensures locations == {location} && this.ips == ips
      ensures innerVlan == VLAN_NONE && tpid == TPID_UNKNOWN && this.configured == configured
      ensures this.annotations == annotations && entityUuid == None
    {
      this.providerId := providerId;
      this.id := id;
      this.mac := mac;
      this.vlan := vlan;
      locations := {location};
      this.ips := ips;
      innerVlan := VLAN_NONE;
      tpid := TPID_UNKNOWN;
      this.configured := configured;
      this.annotations := annotations;
      entityUuid := None;
    }

    /** A single location, not configured. */
    constructor Basic(providerId: string, id: string, mac: seq<bv8>, vlan: bv16,
                      location: HostLocation, ips: set<IpAddress>, annotations: map<string, string>)
      ensures this.providerId == providerId && this.id == id && this.mac == mac && this.vlan == vlan
      ensures locations == {location} && this.ips == ips
      ensures innerVlan == VLAN_NONE && tpid == TPID_UNKNOWN && !configured
      ensures this.annotations == annotations && entityUuid == None
    {
      this.providerId := providerId;
      this.id := id;
      this.mac := mac;
      this.vlan := vlan;
      locations := {location};
      this.ips := ips;
      innerVlan := VLAN_NONE;
      tpid := TPID_UNKNOWN;
      configured := false;
      this.annotations := annotations;
      entityUuid := None;
    }

    /** `ipAddresses()`: a read-only view with the stored addresses. */
    function IpAddresses(): (r: set<IpAddress>)
      ensures r == ips
    {
      ips
    }

    /** `location()`: a location with the greatest time, or none when the
        host has no location. Among locations seen at the same time the
        one returned is whichever the set's iteration order puts first,
        which the model leaves open. */
    method Location() returns (r: Option<HostLocation>)
      ensures r.None? <==> locations == {}
      ensures r.Some? ==> r.value in locations && forall m :: m in locations ==> m.time <= r.value.time
    {
      if locations == {} {
        return None;
      }
      LatestExists(locations);
      var l :| l in locations && forall m :: m in locations ==> m.time <= l.time;
      r := Some(l);
    }

    /** `equals`: the same object, or the same id, MAC, VLAN, locations,
        addresses, inner VLAN, TPID and annotations (the provider and the
        configured flag are not compared). */
    predicate Equals(that: DefaultHost)
      reads this, that
    {
      this == that ||
      (id == that.id && mac == that.mac && vlan == that.vlan && locations == that.locations &&
       IpAddresses() == that.IpAddresses() && innerVlan == that.innerVlan && tpid == that.tpid &&
       annotations == that.annotations)
    }

    /** `hashCode`: `Objects.hash(id, mac, vlan, locations)`, with the hash
        left uninterpreted. */
    function HashCode(objectsHash: (string, seq<bv8>, bv16, set<HostLocation>) -> int): int
    {
      objectsHash(id, mac, vlan, locations)
    }

    /** `getEntityUuid`. */
    function GetEntityUuid(): Option<string>
      reads this
    {
      entityUuid
    }

    /** `setEntityUuid`: the getter then answers `u`. */
    method SetEntityUuid(u: Option<string>)
      modifies this
      ensures GetEntityUuid() == u
    {
      entityUuid := u;
    }
  }

  /** `equals` is an equivalence. */
  lemma EqualsEquivalence(a: DefaultHost, b: DefaultHost, c: DefaultHost)
    ensures a.Equals(a)
    ensures a.Equals(b) ==> b.Equals(a)
    ensures a.Equals(b) && b.Equals(c) ==> a.Equals(c)
  {
  }

  /** Equal hosts hash equal: the hash reads only fields `equals` compares. */
  lemma EqualsHashConsistent(a: DefaultHost, b: DefaultHost, objectsHash: (string, seq<bv8>, bv16, set<HostLocation>) -> int)
    ensures a.Equals(b) ==> a.HashCode(objectsHash) == b.HashCode(objectsHash)
  {
  }

  /** Two hosts that differ only in their addresses hash equal but are not equal. */
  lemma HashIgnoresAddresses(a: DefaultHost, b: DefaultHost, objectsHash: (string, seq<bv8>, bv16, set<HostLocation>) -> int)
    requires a.id == b.id && a.mac == b.mac && a.vlan == b.vlan && a.locations == b.locations
    requires a.ips != b.ips
    ensures a.HashCode(objectsHash) == b.HashCode(objectsHash)
    ensures !a.Equals(b)
  {
  }
}
