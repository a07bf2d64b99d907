/** The address manager (ipam/driver.go). It keeps no state: a pool is named
    "weave-<subnet>-<range>", so that a later address request can read the
    subnet and the range back from the pool's name. */
module Ipam {
  import opened Common
  import opened Foreign
  import opened Strings

  /** netlabel.Gateway. */
  const GatewayLabel: string := "com.docker.network.gateway"

  /** The pool name old-style requests use. */
  const WeavePool: string := "weavepool"

  datatype AddressSpaces = AddressSpaces(local: string, global: string, err: Option<Error>)

  /** GetDefaultAddressSpaces: always the local "dhcplocal" and the global
      "dhcpglobal" space, without error. */
  function GetDefaultAddressSpaces(): (r: AddressSpaces)
    ensures r.err.None? && r.local == "dhcplocal" && r.global == "dhcpglobal"
  {
    AddressSpaces("dhcplocal", "dhcpglobal", None)
  }

  /** The outcome of RequestPool. When the request names no pool, the source
      leaves the subnet to a call that is commented out, and the model stops there. */
  datatype PoolReply =
    | Pool(poolname: string, subnet: AddrText, data: map<string, string>)
    | PoolFailed(error: Error)
    | NoDefaultSubnet

  /** The pool name RequestPool builds from a subnet and a range. */
  function PoolName(subnet: AddrText, range: AddrText): string
  {
    Join(["weave", subnet, range], '-')
  }

  /** RequestPool: the subnet is the network of `pool` and the range the
      network of `subPool`, or the subnet again when no sub-pool is asked for;
      an unparseable pool or sub-pool is reported as-is. */
  function RequestPool(addressSpace: string, pool: string, subPool: string, options: map<string, string>,
                       v6: bool, cidr: CidrParser): (r: PoolReply)
    ensures pool != "" && cidr(pool).None? ==> r == PoolFailed(Foreign("invalid CIDR address: " + pool))
    ensures pool != "" && cidr(pool).Some? && subPool != "" && cidr(subPool).None? ==>
              r == PoolFailed(Foreign("invalid CIDR address: " + subPool))
    ensures r.Pool? ==>
              pool != "" && cidr(pool).Some? && r.subnet == cidr(pool).value.network &&
              r.poolname == PoolName(r.subnet, if subPool == "" then r.subnet else cidr(subPool).value.network) &&
              r.data == map[GatewayLabel := r.subnet]
    ensures r.Pool? <==> pool != "" && cidr(pool).Some? && (subPool != "" ==> cidr(subPool).Some?)
  {
    if pool == "" then NoDefaultSubnet
    else
      match ParseCIDR(cidr, pool)
      case Err(e) => PoolFailed(e)
      case Ok(p) =>
        var subnet := p.network;
        if subPool == "" then Pool(PoolName(subnet, subnet), subnet, map[GatewayLabel := subnet])
        else
          match ParseCIDR(cidr, subPool)
          case Err(e) => PoolFailed(e)
          case Ok(q) => Pool(PoolName(subnet, q.network), subnet, map[GatewayLabel := subnet])
  }

  /** ReleasePool: nothing to release. */
  function ReleasePool(poolID: string): (r: Option<Error>)
    ensures r.None?
  {
    None
  }

  /** The outcome of RequestAddress. An old-style request returns no address
      and no error; a pool whose name checks out has its subnet and range
      parsed, after which the source allocates through a call that is
      commented out, and the model stops there. */
  datatype AddressReply = NoAddress | AddressFailed(error: Error) | Unallocated(subnet: Cidr, range: Cidr)

  /** The shape RequestAddress demands of a pool name: three pieces around
      dashes, the first "weave". */
  predicate WellFormedPoolID(poolID: string)
  {
    var parts := Split(poolID, '-');
    |parts| == 3 && parts[0] == "weave"
  }

  /** RequestAddress, up to the allocation. */
  function RequestAddress(poolID: string, address: string, options: map<string, string>, cidr: CidrParser)
    : (r: AddressReply)
    ensures poolID == WeavePool ==> r == NoAddress
    ensures poolID != WeavePool && !WellFormedPoolID(poolID) ==>
              r == AddressFailed(Plain("Unrecognized pool ID: " + poolID))
    ensures r.Unallocated? ==>
              WellFormedPoolID(poolID) && cidr(Split(poolID, '-')[1]) == Some(r.subnet) &&
              cidr(Split(poolID, '-')[2]) == Some(r.range)
    ensures r.Unallocated? <==>
              poolID != WeavePool && WellFormedPoolID(poolID) &&
              cidr(Split(poolID, '-')[1]).Some? && cidr(Split(poolID, '-')[2]).Some?
    ensures poolID != WeavePool && WellFormedPoolID(poolID) && cidr(Split(poolID, '-')[1]).None? ==>
              r == AddressFailed(Foreign("invalid CIDR address: " + Split(poolID, '-')[1]))
    ensures poolID != WeavePool && WellFormedPoolID(poolID) && cidr(Split(poolID, '-')[1]).Some? &&
            cidr(Split(poolID, '-')[2]).None? ==>
              r == AddressFailed(Foreign("invalid CIDR address: " + Split(poolID, '-')[2]))
  {
    if poolID == WeavePool then NoAddress
    else
      var parts := Split(poolID, '-');
      if |parts| != 3 || parts[0] != "weave" then AddressFailed(Plain("Unrecognized pool ID: " + poolID))
      else
        match ParseCIDR(cidr, parts[1])
        case Err(e) => AddressFailed(e)
        case Ok(subnet) =>
          match ParseCIDR(cidr, parts[2])
          case Err(e) => AddressFailed(e)
          case Ok(range) => Unallocated(subnet, range)
  }

  /** ReleaseAddress: nothing to release. */
  function ReleaseAddress(poolID: string, address: string): (r: Option<Error>)
    ensures r.None?
  {
    None
  }

  /** A pool name splits back into "weave", the subnet and the range, because
      printed networks hold no dash. */
  lemma PoolNameSplits(subnet: AddrText, range: AddrText)
    ensures Split(PoolName(subnet, range), '-') == ["weave", subnet, range]
  {
    AddrTextHasNoDash(subnet);
    AddrTextHasNoDash(range);
    var parts := ["weave", subnet, range];
    assert forall k :: 0 <= k < |parts| ==> '-' !in parts[k];
    SplitJoin(parts, '-');
  }

  /** Every pool RequestPool hands out passes RequestAddress's check, which then
      parses the printed subnet and range back. */
  lemma PoolPassesRequestAddress(addressSpace: string, pool: string, subPool: string,
                                 options: map<string, string>, v6: bool, cidr: CidrParser,
                                 address: string, aopts: map<string, string>)
    ensures var p := RequestPool(addressSpace, pool, subPool, options, v6, cidr);
      p.Pool? ==>
        var range := if subPool == "" then p.subnet else cidr(subPool).value.network;
        WellFormedPoolID(p.poolname) &&
        (cidr(p.subnet).Some? && cidr(range).Some? ==>
           RequestAddress(p.poolname, address, aopts, cidr) == Unallocated(cidr(p.subnet).value, cidr(range).value))
  {
    var p := RequestPool(addressSpace, pool, subPool, options, v6, cidr);
    if p.Pool? {
      var range := if subPool == "" then p.subnet else cidr(subPool).value.network;
      PoolNameSplits(p.subnet, range);
      assert p.poolname != WeavePool by {
        var parts := ["weave", p.subnet, range];
        assert parts[1..] == [p.subnet, range];
        assert p.poolname == "weave" + ['-'] + Join([p.subnet, range], '-');
        assert p.poolname[5] == '-' != WeavePool[5];
      }
    }
  }
}
