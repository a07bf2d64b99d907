/** The endpoints of one network (net/endpoints.go): a table from endpoint id
    to the sandbox-side link and addresses of the endpoint, and the creation
    and removal of the veth pair behind each endpoint. */
module Endpoints {
  import opened Common
  import opened Foreign
  import opened Netlink
  import opened Config

  /** The prefix and length of generated veth names (net/driver.go). */
  const VethPrefix: string := "veth"
  const VethLen: int := 7

  /** endpoint: the sandbox-side link, the network its IPv4 address lies in, an
      IPv6 network that is never set, and the hardware address if one was asked for. */
  datatype Endpoint = Endpoint(
    ifname: string,
    addr: Option<AddrText>,
    addrv6: Option<AddrText>,
    mac: Option<seq<int>>)

  /** driverapi.EndpointInterface: the addresses Docker asks for. */
  datatype EndpointInterface = EndpointInterface(address: string, addressIPv6: string, macAddress: string)

  /** netutils.GenerateIfaceName, which is not part of this model: a name, or the
      message of the error it returned. */
  datatype NameChoice = Generated(name: string) | NotGenerated(text: string)

  /** The outcome of every external step of create, in the order the steps happen;
      the last two are the deferred deletes of the sandbox and the host end. */
  datatype CreateFaults = CreateFaults(
    hostName: NameChoice,
    sboxName: NameChoice,
    addPair: Fault,
    hostLookup: Fault,
    sboxLookup: Fault,
    hostMtu: Fault,
    sboxMtu: Fault,
    bridgeLookup: Fault,
    setMaster: Fault,
    sboxDown: Fault,
    sboxHardwareAddr: Fault,
    hostUp: Fault,
    delSbox: Fault,
    delHost: Fault)

  /** The links after a step of create, and the endpoint it built or the error it returns. */
  datatype Created = Created(links: LinkState, result: Result<Endpoint>)

  /** The endpoint create records for an interface whose address parsed. */
  function NewEndpoint(sbox: string, info: EndpointInterface, cidr: CidrParser, mac: MacParser): Endpoint
    requires cidr(info.address).Some?
    requires info.macAddress != "" ==> mac(info.macAddress).Some?
  {
    Endpoint(sbox, Some(cidr(info.address).value.network), None,
             if info.macAddress == "" then None else Some(mac(info.macAddress).value))
  }

  /** Everything create needs to succeed once both ends of the pair were found. */
  predicate ConfigureSucceeds(s: LinkState, info: EndpointInterface, config: NetworkConfig, f: CreateFaults,
                              cidr: CidrParser, mac: MacParser)
  {
    (config.mtu != 0 ==> f.hostMtu.None? && f.sboxMtu.None?) &&
    config.bridgeName in s.names && f.bridgeLookup.None? && f.setMaster.None? &&
    cidr(info.address).Some? &&
    (info.macAddress != "" ==> mac(info.macAddress).Some? && f.sboxDown.None? && f.sboxHardwareAddr.None?) &&
    f.hostUp.None? && !config.enableIPv6
  }

  /** The links after one stage of create, and the error that ends create there. */
  datatype Staged = Staged(links: LinkState, err: Option<Error>)

  /** The first stage: both ends take the network's MTU, when it sets one. */
  function SetMtus(s: LinkState, h: string, c: string, mtu: int, f: CreateFaults): (r: Staged)
    ensures r.links.(mtu := s.mtu) == s
    ensures r.err.None? <==> (mtu != 0 ==> f.hostMtu.None? && f.sboxMtu.None?)
    ensures r.err.None? && mtu == 0 ==> r.links == s
    ensures r.err.None? && mtu != 0 ==>
              h in r.links.mtu && r.links.mtu[h] == mtu && c in r.links.mtu && r.links.mtu[c] == mtu
  {
    if mtu == 0 then Staged(s, None)
    else if f.hostMtu.Some? then
      Staged(s, Some(Internal("failed to set MTU on host interface " + h + ": " + f.hostMtu.value)))
    else
      var s1 := WithMtu(s, h, mtu);
      if f.sboxMtu.Some? then
        Staged(s1, Some(Internal("failed to set MTU on sandbox interface " + c + ": " + f.sboxMtu.value)))
      else Staged(WithMtu(s1, c, mtu), None)
  }

  /** The second stage: the bridge is looked up and the host end enslaved to it. */
  function SetBridge(s: LinkState, h: string, b: string, f: CreateFaults): (r: Staged)
    ensures r.err.None? <==> b in s.names && f.bridgeLookup.None? && f.setMaster.None?
    ensures r.err.None? ==> r.links == s.(master := s.master[h := b])
    ensures r.err.Some? ==> r.links == s
  {
    var br := Lookup(s, b, f.bridgeLookup);
    if br.Some? then Staged(s, Some(Internal("failed to find bridge by name " + b + ": " + br.value)))
    else if f.setMaster.Some? then
      Staged(s, Some(Plain("adding interface " + h + " to bridge " + b + " failed: " + f.setMaster.value)))
    else Staged(WithMaster(s, h, b), None)
  }

  /** The third stage: the addresses are parsed and, when one is asked for, the
      sandbox end is brought down and given the hardware address. */
  function SetAddresses(s: LinkState, c: string, info: EndpointInterface, f: CreateFaults,
                        cidr: CidrParser, mac: MacParser): (r: Staged)
    ensures r.links.(up := s.up, hwaddr := s.hwaddr) == s
    ensures r.err.None? <==>
              cidr(info.address).Some? &&
              (info.macAddress != "" ==> mac(info.macAddress).Some? && f.sboxDown.None? && f.sboxHardwareAddr.None?)
    ensures r.err.None? && info.macAddress == "" ==> r.links == s
    ensures r.err.None? && info.macAddress != "" ==>
              c in r.links.hwaddr && r.links.hwaddr[c] == mac(info.macAddress).value
  {
    if cidr(info.address).None? then Staged(s, Some(Plain("ipv4 adress unparseable")))
    else if info.macAddress == "" then Staged(s, None)
    else if mac(info.macAddress).None? then Staged(s, Some(Plain("mac adress unparseable")))
    else if f.sboxDown.Some? then
      Staged(s, Some(Plain("could not set link down for container interface " + c + ": " + f.sboxDown.value)))
    else
      var s1 := WithDown(s, c);
      if f.sboxHardwareAddr.Some? then
        Staged(s1, Some(Plain("could not set mac address for container interface " + c + ": " +
                              f.sboxHardwareAddr.value)))
      else Staged(WithHardwareAddr(s1, c, mac(info.macAddress).value), None)
  }

  /** The last stage: the host end is brought up, and an IPv6 network refused. */
  function BringUp(s: LinkState, h: string, enableIPv6: bool, f: CreateFaults): (r: Staged)
    ensures r.err.None? <==> f.hostUp.None? && !enableIPv6
    ensures r.links == if f.hostUp.None? then s.(up := s.up + {h}) else s
  {
    if f.hostUp.Some? then
      Staged(s, Some(Plain("could not set link up for host interface " + h + ": " + f.hostUp.value)))
    else
      var s1 := WithUp(s, h);
      if enableIPv6 then Staged(s1, Some(Plain("IPV6 is not supported. Go and code it yourself.")))
      else Staged(s1, None)
  }

  /** The part of create after both ends of the pair were found: the four
      stages in turn, the first error ending it. It changes only attributes of
      links, never which links exist. */
  function Configure(s: LinkState, h: string, c: string, info: EndpointInterface, config: NetworkConfig,
                     f: CreateFaults, cidr: CidrParser, mac: MacParser): (r: Created)
    ensures r.links.names == s.names && r.links.peer == s.peer
    ensures config.enableIPv6 ==> r.result.Err?
  {
    var m := SetMtus(s, h, c, config.mtu, f);
    if m.err.Some? then Created(m.links, Err(m.err.value))
    else
      var br := SetBridge(m.links, h, config.bridgeName, f);
      if br.err.Some? then Created(br.links, Err(br.err.value))
      else
        var a := SetAddresses(br.links, c, info, f, cidr, mac);
        if a.err.Some? then Created(a.links, Err(a.err.value))
        else
          var u := BringUp(a.links, h, config.enableIPv6, f);
          if u.err.Some? then Created(u.links, Err(u.err.value))
          else Created(u.links, Ok(NewEndpoint(c, info, cidr, mac)))
  }

  /** The configuring steps succeed exactly when each of them does, and then
      the host end is up and enslaved to the bridge, both ends carry the
      network's MTU (when one is set) and the sandbox end the requested
      hardware address. */
  lemma ConfigureOutcome(s: LinkState, h: string, c: string, info: EndpointInterface, config: NetworkConfig,
                         f: CreateFaults, cidr: CidrParser, mac: MacParser)
    ensures var r := Configure(s, h, c, info, config, f, cidr, mac);
      (r.result.Ok? <==> ConfigureSucceeds(s, info, config, f, cidr, mac)) &&
      (r.result.Ok? ==>
         r.result.value == NewEndpoint(c, info, cidr, mac) &&
         h in r.links.up && h in r.links.master && r.links.master[h] == config.bridgeName &&
         (config.mtu != 0 ==> h in r.links.mtu && r.links.mtu[h] == config.mtu) &&
         (config.mtu != 0 ==> c in r.links.mtu && r.links.mtu[c] == config.mtu) &&
         (info.macAddress != "" ==> c in r.links.hwaddr && r.links.hwaddr[c] == mac(info.macAddress).value))
  {
    var m := SetMtus(s, h, c, config.mtu, f);
    if m.err.None? {
      assert m.links.names == s.names;
      var br := SetBridge(m.links, h, config.bridgeName, f);
      if br.err.None? {
        var a := SetAddresses(br.links, c, info, f, cidr, mac);
        assert a.links.master == br.links.master && a.links.mtu == m.links.mtu;
      }
    }
  }

  /** The deferred clean-up of create once both ends were found: the sandbox end
      is deleted first (it was deferred last), then the host end. */
  function RollBack(s: LinkState, h: string, c: string, f: CreateFaults): LinkState
  {
    var s1 := Step(s, f.delSbox, WithoutLink(s, c));
    Step(s1, f.delHost, WithoutLink(s1, h))
  }

  /** create, as a function of the links before it and the outcome of every step. */
  function CreateSpec(s: LinkState, info: EndpointInterface, config: NetworkConfig, f: CreateFaults,
                      cidr: CidrParser, mac: MacParser): (r: Created)
    ensures config.enableIPv6 ==> r.result.Err?
    ensures r.result.Ok? ==>
              f.hostName.Generated? && f.sboxName.Generated? &&
              r.result.value.ifname == f.sboxName.name &&
              {f.hostName.name, f.sboxName.name} <= r.links.names
  {
    if f.hostName.NotGenerated? then Created(s, Err(Foreign(f.hostName.text)))
    else if f.sboxName.NotGenerated? then Created(s, Err(Foreign(f.sboxName.text)))
    else
      var h, c := f.hostName.name, f.sboxName.name;
      if f.addPair.Some? then
        Created(s, Err(Internal("failed to add the host (" + h + ") <=> sandbox (" + c +
                                ") pair interfaces: " + f.addPair.value)))
      else
        var s1 := WithPair(s, h, c);
        var hl := Lookup(s1, h, f.hostLookup);
        if hl.Some? then Created(s1, Err(Internal("failed to find host side interface " + h + ": " + hl.value)))
        else
          var sl := Lookup(s1, c, f.sboxLookup);
          if sl.Some? then
            Created(Step(s1, f.delHost, WithoutLink(s1, h)),
                    Err(Internal("failed to find sandbox side interface " + c + ": " + sl.value)))
          else
            var o := Configure(s1, h, c, info, config, f, cidr, mac);
            if o.result.Ok? then o else Created(RollBack(o.links, h, c, f), o.result)
  }

  /** Everything create needs to succeed, step by step. */
  predicate CreateSucceeds(s: LinkState, info: EndpointInterface, config: NetworkConfig, f: CreateFaults,
                           cidr: CidrParser, mac: MacParser)
  {
    f.hostName.Generated? && f.sboxName.Generated? && f.addPair.None? &&
    f.hostLookup.None? && f.sboxLookup.None? &&
    ConfigureSucceeds(WithPair(s, f.hostName.name, f.sboxName.name), info, config, f, cidr, mac)
  }

  /** create succeeds exactly when every step does, and then the endpoint it
      records is the sandbox end with the network of the requested address, and
      the host end is up and enslaved to the network's bridge. */
  lemma CreateOutcome(s: LinkState, info: EndpointInterface, config: NetworkConfig, f: CreateFaults,
                      cidr: CidrParser, mac: MacParser)
    ensures var r := CreateSpec(s, info, config, f, cidr, mac);
      (r.result.Ok? <==> CreateSucceeds(s, info, config, f, cidr, mac)) &&
      (r.result.Ok? ==>
         var h, c := f.hostName.name, f.sboxName.name;
         r.result.value == NewEndpoint(c, info, cidr, mac) &&
         r.links.names == s.names + {h, c} &&
         h in r.links.peer && r.links.peer[h] == c &&
         h in r.links.up && h in r.links.master && r.links.master[h] == config.bridgeName)
  {
    if f.hostName.Generated? && f.sboxName.Generated? && f.addPair.None? {
      var h, c := f.hostName.name, f.sboxName.name;
      var s1 := WithPair(s, h, c);
      if f.hostLookup.None? && f.sboxLookup.None? {
        ConfigureOutcome(s1, h, c, info, config, f, cidr, mac);
        var o := Configure(s1, h, c, info, config, f, cidr, mac);
        assert o.result.Ok? ==> CreateSpec(s, info, config, f, cidr, mac) == o;
        assert o.result.Err? ==> CreateSpec(s, info, config, f, cidr, mac).result.Err?;
      }
    }
  }

  /** Once both ends of the pair were found, a failing create removes the pair
      again, even when one of the two deferred deletes fails: deleting either
      end of a veth pair removes both. */
  lemma CreateRollsBack(s: LinkState, info: EndpointInterface, config: NetworkConfig, f: CreateFaults,
                        cidr: CidrParser, mac: MacParser)
    requires f.hostName.Generated? && f.sboxName.Generated? && f.hostName.name != f.sboxName.name
    requires f.addPair.None? && f.hostLookup.None? && f.sboxLookup.None?
    requires f.delSbox.None? || f.delHost.None?
    ensures var r := CreateSpec(s, info, config, f, cidr, mac);
      r.result.Err? ==>
        r.links.names == s.names - {f.hostName.name, f.sboxName.name}
  {
    var h, c := f.hostName.name, f.sboxName.name;
    var s1 := WithPair(s, h, c);
    var o := Configure(s1, h, c, info, config, f, cidr, mac);
    if o.result.Err? {
      assert o.links.peer[c] == h && o.links.peer[h] == c;
      assert Gone(o.links, c) == {c, h};
      assert Gone(o.links, h) == {h, c};
      var t := Step(o.links, f.delSbox, WithoutLink(o.links, c));
      assert t.names == s1.names - {h, c} || t.names == s1.names;
    }
  }

  /** With fresh names for the pair, a create that fails once both ends were
      found leaves exactly the links it found. */
  lemma CreateRollsBackFresh(s: LinkState, info: EndpointInterface, config: NetworkConfig, f: CreateFaults,
                             cidr: CidrParser, mac: MacParser)
    requires f.hostName.Generated? && f.sboxName.Generated? && f.hostName.name != f.sboxName.name
    requires f.hostName.name !in s.names && f.sboxName.name !in s.names
    requires f.addPair.None? && f.hostLookup.None? && f.sboxLookup.None?
    requires f.delSbox.None? || f.delHost.None?
    ensures var r := CreateSpec(s, info, config, f, cidr, mac);
      r.result.Err? ==> r.links.names == s.names
  {
    CreateRollsBack(s, info, config, f, cidr, mac);
  }

  /** A create whose lookup of the host end fails returns before either deferred
      delete is registered, so the pair it added stays behind. */
  lemma CreateKeepsPairOnHostLookupError(s: LinkState, info: EndpointInterface, config: NetworkConfig,
                                         f: CreateFaults, cidr: CidrParser, mac: MacParser)
    requires f.hostName.Generated? && f.sboxName.Generated? && f.addPair.None? && f.hostLookup.Some?
    ensures var r := CreateSpec(s, info, config, f, cidr, mac);
      r.result.Err? && f.hostName.name in r.links.names && f.sboxName.name in r.links.names
  {
  }

  /** The per-step outcomes of delete: the lookup of the sandbox end and its delete. */
  datatype DeleteFaults = DeleteFaults(lookup: Fault, del: Fault)

  /** The table and the links after delete, and the error it returns. */
  datatype Deleted = Deleted(table: map<string, Endpoint>, links: LinkState, err: Option<Error>)

  /** delete, as a function of the table and the links before it. */
  function DeleteSpec(table: map<string, Endpoint>, s: LinkState, eid: string, f: DeleteFaults): (r: Deleted)
    ensures eid !in table ==> r == Deleted(table, s, Some(NoEndpoint(eid)))
    ensures r.err.Some? ==> r.table == table && r.links == s
    ensures r.err.None? ==> eid in table && r.table == table - {eid}
    ensures r.err.None? && f.lookup.None? ==> table[eid].ifname !in r.links.names
  {
    if eid !in table then Deleted(table, s, Some(NoEndpoint(eid)))
    else
      var ep := table[eid];
      var removed := table - {eid};
      if Lookup(s, ep.ifname, f.lookup).Some? then Deleted(removed, s, None)
      else if f.del.Some? then Deleted(removed[eid := ep], s, Some(Foreign(f.del.value)))
      else Deleted(removed, WithoutLink(s, ep.ifname), None)
  }

  /** endpoints: the endpoints of one network, by endpoint id. */
  class Endpoints {
    var table: map<string, Endpoint>

    /** endpointsNew. */
    constructor ()
      ensures table == map[]
    {
      table := map[];
    }

    /** vacant: None exactly when no endpoint has the id. */
    function Vacant(eid: string): (r: Option<Error>)
      reads this
      ensures r.None? <==> eid !in table
      ensures r.Some? ==> r.value == EndpointExists(eid)
    {
      if eid in table then Some(EndpointExists(eid)) else None
    }

    /** get: the endpoint with the id, which exists exactly when the id is not vacant. */
    function Get(eid: string): (r: Result<Endpoint>)
      reads this
      ensures r.Ok? <==> Vacant(eid).Some?
      ensures r.Ok? ==> r.value == table[eid]
      ensures r.Err? ==> r.error == NoEndpoint(eid)
    {
      if eid in table then Ok(table[eid]) else Err(NoEndpoint(eid))
    }

    /** The number of endpoints; length() is not defined in net/endpoints.go and
        is taken to be the size of the table. */
    function Length(): (r: nat)
      reads this
      ensures r == 0 <==> table == map[]
    {
      |table|
    }

    method Add(eid: string, ep: Endpoint)
      modifies this
      ensures table == old(table)[eid := ep]
    {
      table := table[eid := ep];
    }

    method Rm(eid: string)
      modifies this
      ensures table == old(table) - {eid}
    {
      table := table - {eid};
    }

    /** The first stage of create on the host's links. */
    method SetMtusLinks(h: string, c: string, mtu: int, host: Host, f: CreateFaults) returns (err: Option<Error>)
      modifies host
      ensures var o := SetMtus(old(host.links), h, c, mtu, f);
        host.links == o.links && err == o.err
    {
      if mtu != 0 {
        var e := host.LinkSetMTU(h, mtu, f.hostMtu);
        if e.Some? {
          return Some(Internal("failed to set MTU on host interface " + h + ": " + e.value));
        }
        e := host.LinkSetMTU(c, mtu, f.sboxMtu);
        if e.Some? {
          return Some(Internal("failed to set MTU on sandbox interface " + c + ": " + e.value));
        }
      }
      err := None;
    }

    /** The second stage of create on the host's links. */
    method SetBridgeLinks(h: string, b: string, host: Host, f: CreateFaults) returns (err: Option<Error>)
      modifies host
      ensures var o := SetBridge(old(host.links), h, b, f);
        host.links == o.links && err == o.err
    {
      var e := host.LinkByName(b, f.bridgeLookup);
      if e.Some? {
        return Some(Internal("failed to find bridge by name " + b + ": " + e.value));
      }
      e := host.LinkSetMaster(h, b, f.setMaster);
      if e.Some? {
        return Some(Plain("adding interface " + h + " to bridge " + b + " failed: " + e.value));
      }
      err := None;
    }

    /** The third stage of create on the host's links. */
    method SetAddressesLinks(c: string, info: EndpointInterface, host: Host, f: CreateFaults,
                             cidr: CidrParser, mac: MacParser) returns (err: Option<Error>)
      modifies host
      ensures var o := SetAddresses(old(host.links), c, info, f, cidr, mac);
        host.links == o.links && err == o.err
    {
      var addr := cidr(info.address);
      if addr.None? {
        return Some(Plain("ipv4 adress unparseable"));
      }
      if info.macAddress != "" {
        var hw := mac(info.macAddress);
        if hw.None? {
          return Some(Plain("mac adress unparseable"));
        }
        var e := host.LinkSetDown(c, f.sboxDown);
        if e.Some? {
          return Some(Plain("could not set link down for container interface " + c + ": " + e.value));
        }
        e := host.LinkSetHardwareAddr(c, hw.value, f.sboxHardwareAddr);
        if e.Some? {
          return Some(Plain("could not set mac address for container interface " + c + ": " + e.value));
        }
      }
      err := None;
    }

    /** The last stage of create on the host's links. */
    method BringUpLinks(h: string, enableIPv6: bool, host: Host, f: CreateFaults) returns (err: Option<Error>)
      modifies host
      ensures var o := BringUp(old(host.links), h, enableIPv6, f);
        host.links == o.links && err == o.err
    {
      var e := host.LinkSetUp(h, f.hostUp);
      if e.Some? {
        return Some(Plain("could not set link up for host interface " + h + ": " + e.value));
      }
      if enableIPv6 {
        return Some(Plain("IPV6 is not supported. Go and code it yourself."));
      }
      err := None;
    }

    /** The steps of create after both ends were found, on the host's links. */
    method ConfigureLinks(h: string, c: string, info: EndpointInterface, config: NetworkConfig, host: Host,
                          f: CreateFaults, cidr: CidrParser, mac: MacParser) returns (r: Result<Endpoint>)
      modifies host
      ensures var o := Configure(old(host.links), h, c, info, config, f, cidr, mac);
        host.links == o.links && r == o.result
    {
      var e := SetMtusLinks(h, c, config.mtu, host, f);
      if e.Some? {
        return Err(e.value);
      }
      e := SetBridgeLinks(h, config.bridgeName, host, f);
      if e.Some? {
        return Err(e.value);
      }
      e := SetAddressesLinks(c, info, host, f, cidr, mac);
      if e.Some? {
        return Err(e.value);
      }
      e := BringUpLinks(h, config.enableIPv6, host, f);
      if e.Some? {
        return Err(e.value);
      }
      r := Ok(NewEndpoint(c, info, cidr, mac));
    }

    /** create: builds the veth pair of a new endpoint, attaches its host end to
        the network's bridge and records the endpoint; on failure the table is
        unchanged. */
    method Create(eid: string, info: EndpointInterface, config: NetworkConfig, host: Host, f: CreateFaults,
                  cidr: CidrParser, mac: MacParser) returns (err: Option<Error>)
      modifies this, host
      ensures var o := CreateSpec(old(host.links), info, config, f, cidr, mac);
        host.links == o.links &&
        (o.result.Ok? ==> err.None? && table == old(table)[eid := o.result.value]) &&
        (o.result.Err? ==> err == Some(o.result.error) && table == old(table))
    {
      if f.hostName.NotGenerated? {
        return Some(Foreign(f.hostName.text));
      }
      if f.sboxName.NotGenerated? {
        return Some(Foreign(f.sboxName.text));
      }
      var h, c := f.hostName.name, f.sboxName.name;
      var e := host.LinkAddPair(h, c, f.addPair);
      if e.Some? {
        return Some(Internal("failed to add the host (" + h + ") <=> sandbox (" + c +
                             ") pair interfaces: " + e.value));
      }
      e := host.LinkByName(h, f.hostLookup);
      if e.Some? {
        return Some(Internal("failed to find host side interface " + h + ": " + e.value));
      }
      e := host.LinkByName(c, f.sboxLookup);
      if e.Some? {
        var ignored := host.LinkDel(h, f.delHost);
        return Some(Internal("failed to find sandbox side interface " + c + ": " + e.value));
      }
      var r := ConfigureLinks(h, c, info, config, host, f, cidr, mac);
      if r.Err? {
        var ignored := host.LinkDel(c, f.delSbox);
        ignored := host.LinkDel(h, f.delHost);
        return Some(r.error);
      }
      Add(eid, r.value);
      err := None;
    }

    /** delete: removes the endpoint and deletes its sandbox end; if that delete
        fails the endpoint is put back. A sandbox end that is gone already is
        not an error. */
    method Delete(eid: string, host: Host, f: DeleteFaults) returns (err: Option<Error>)
      modifies this, host
      ensures var o := DeleteSpec(old(table), old(host.links), eid, f);
        table == o.table && host.links == o.links && err == o.err
    {
      var got := Get(eid);
      if got.Err? {
        return Some(got.error);
      }
      var ep := got.value;
      Rm(eid);
      var e := host.LinkByName(ep.ifname, f.lookup);
      if e.None? {
        e := host.LinkDel(ep.ifname, f.del);
        if e.Some? {
          err := Some(Foreign(e.value));
          if Vacant(eid).None? {
            Add(eid, ep);
          }
          return;
        }
      }
      err := None;
    }
  }
}
