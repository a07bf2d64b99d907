/** The network driver (net/driver.go): the requests Docker sends to create
    and delete networks and endpoints and to join and leave them. */
module Driver {
  import opened Common
  import opened Foreign
  import opened Strconv
  import opened Config
  import opened Netlink
  import Endpoints
  import Networks

  /** The name prefix Docker gives the sandbox end inside the container. */
  const ContainerVethPrefix: string := "eth"

  /** The MTU a new network starts with. */
  const DefaultMtu: int := 1500

  /** driverapi.CreateNetworkRequest. */
  datatype CreateNetworkRequest = CreateNetworkRequest(
    networkID: string,
    options: map<string, Value>,
    ipv4Data: seq<IpamData>,
    ipv6Data: seq<IpamData>)

  /** driverapi.CreateEndpointRequest; a nil Interface is None. */
  datatype CreateEndpointRequest = CreateEndpointRequest(
    networkID: string,
    endpointID: string,
    iface: Option<Endpoints.EndpointInterface>)

  /** driverapi.InterfaceName. */
  datatype InterfaceName = InterfaceName(srcName: string, dstPrefix: string)

  /** driverapi.JoinResponse, with the fields the driver fills in. */
  datatype JoinResponse = JoinResponse(gateway: string, interfaceName: InterfaceName)

  /** The generic option map, if the request carries one. */
  function Labels(rq: CreateNetworkRequest): (r: Option<map<string, Value>>)
    ensures r.Some? <==> GenericData in rq.options && rq.options[GenericData].Obj?
    ensures r.Some? ==> r.value == rq.options[GenericData].fields
  {
    if GenericData in rq.options && rq.options[GenericData].Obj? then Some(rq.options[GenericData].fields)
    else None
  }

  /** A string label as the `v, ok := labels[k].(string)` form reads it: "" when
      it is missing or not a string. */
  function StringLabel(labels: map<string, Value>, name: string): (r: string)
    ensures r != "" ==> name in labels && labels[name] == Str(r)
    ensures name in labels && labels[name].Str? ==> r == labels[name].s
  {
    if name in labels && labels[name].Str? then labels[name].s else ""
  }

  /** `order` lists exactly the labels, as one iteration of the Go map would. */
  predicate Enumerates(order: seq<string>, labels: map<string, Value>)
  {
    (forall k :: 0 <= k < |order| ==> order[k] in labels) && (forall l :: l in labels ==> l in order)
  }

  /** The configuration a network starts from before the address manager's
      data and the labels are read: the interface and bridge names default to
      "vlan" and "bran" followed by the VLAN id. */
  function Initial(labels: map<string, Value>, number: int): (r: NetworkConfig)
    ensures r.vlan == number && r.mtu == DefaultMtu && !r.enableIPv6
    ensures r.gatewayIPv4.None? && r.gatewayIPv6.None?
    ensures StringLabel(labels, "iface") != "" ==> r.linkName == StringLabel(labels, "iface")
    ensures StringLabel(labels, "iface") == "" ==>
              |r.linkName| >= 4 && r.linkName[..4] == "vlan" && r.linkName[4..] == Itoa(number)
    ensures StringLabel(labels, "bridge") != "" ==> r.bridgeName == StringLabel(labels, "bridge")
    ensures StringLabel(labels, "bridge") == "" ==>
              |r.bridgeName| >= 4 && r.bridgeName[..4] == "bran" && r.bridgeName[4..] == Itoa(number)
  {
    var iface := StringLabel(labels, "iface");
    var bridge := StringLabel(labels, "bridge");
    NetworkConfig(
      if iface == "" then "vlan" + Itoa(number) else iface,
      if bridge == "" then "bran" + Itoa(number) else bridge,
      number, DefaultMtu, false, None, None)
  }

  /** The option parsing of CreateNetwork, up to the point where the network is created. */
  function ParseOptions(rq: CreateNetworkRequest, order: seq<string>, cidr: CidrParser): (r: Result<NetworkConfig>)
    requires Labels(rq).Some? ==> Enumerates(order, Labels(rq).value)
    ensures Labels(rq).None? ==> r == Err(MissingParameterMap)
    ensures Labels(rq).Some? && StringLabel(Labels(rq).value, "vlan") == "" ==> r == Err(MissingParam("vlan"))
    ensures r.Ok? ==> Labels(rq).Some? && Atoi(StringLabel(Labels(rq).value, "vlan")) == Ok(r.value.vlan)
    ensures Labels(rq).Some? ==>
              var v := StringLabel(Labels(rq).value, "vlan");
              v != "" && Atoi(v).Err? ==>
                r == Err(Plain("could not parse " + v + " as an integer (" + Atoi(v).error.text + ")"))
    ensures Labels(rq).Some? ==>
              var labels := Labels(rq).value;
              var v := StringLabel(labels, "vlan");
              v != "" && Atoi(v).Ok? &&
              ParseIPAM(Initial(labels, Atoi(v).value), rq.networkID, rq.ipv4Data, rq.ipv6Data, cidr).Err? ==>
                r == Err(ParseIPAM(Initial(labels, Atoi(v).value), rq.networkID, rq.ipv4Data, rq.ipv6Data, cidr).error)
  {
    match Labels(rq)
    case None => Err(MissingParameterMap)
    case Some(labels) =>
      var vlan := StringLabel(labels, "vlan");
      if vlan == "" then Err(MissingParam("vlan"))
      else
        match Atoi(vlan)
        case Err(e) => Err(Plain("could not parse " + vlan + " as an integer (" + e.text + ")"))
        case Ok(number) =>
          match ParseIPAM(Initial(labels, number), rq.networkID, rq.ipv4Data, rq.ipv6Data, cidr)
          case Err(e) => Err(e)
          case Ok(c) => ParseLabels(c, labels, order)
  }

  /** The default names of a network tell its interface from its bridge, and
      the VLAN id can be read back from either of them. */
  lemma DefaultNames(labels: map<string, Value>, number: int)
    requires MinInt64 <= number <= MaxInt64
    requires StringLabel(labels, "iface") == "" && StringLabel(labels, "bridge") == ""
    ensures var c := Initial(labels, number);
      c.linkName != c.bridgeName && Atoi(c.linkName[4..]) == Ok(number) && Atoi(c.bridgeName[4..]) == Ok(number)
  {
    var c := Initial(labels, number);
    assert c.linkName[0] == 'v' != 'b' == c.bridgeName[0];
    AtoiItoa(number);
  }

  /** A network that CreateNetwork accepts has the VLAN id of its "vlan" label,
      the default names unless "iface" and "bridge" are given, the gateway of
      its only IPv4 pool, and the MTU and IPv6 flag of its labels (1500 and
      false when they are absent), whatever the order the labels are read in. */
  lemma ParseOptionsMeaning(rq: CreateNetworkRequest, order: seq<string>, cidr: CidrParser)
    requires Labels(rq).Some? ==> Enumerates(order, Labels(rq).value)
    ensures var r := ParseOptions(rq, order, cidr);
      r.Ok? ==>
        var labels := Labels(rq).value;
        var gw := rq.ipv4Data[0].gateway;
        |rq.ipv4Data| == 1 && cidr(gw).Some? &&
        r.value == Applied(Initial(labels, r.value.vlan).(gatewayIPv4 := Some(cidr(gw).value.ip)), labels, labels.Keys)
  {
    var r := ParseOptions(rq, order, cidr);
    if r.Ok? {
      var labels := Labels(rq).value;
      var number := Atoi(StringLabel(labels, "vlan")).value;
      var c := ParseIPAM(Initial(labels, number), rq.networkID, rq.ipv4Data, rq.ipv6Data, cidr).value;
      ParseLabelsMeaning(c, labels, order);
      assert (set l | l in order) == labels.Keys;
    }
  }

  /** The request of the network "n1" with only the label vlan=42 and the
      gateway 10.0.0.1/24 gives the VLAN interface vlan42 under the bridge bran42. */
  lemma ParseOptionsExample(cidr: CidrParser)
    requires cidr("10.0.0.1/24") == Some(Cidr("10.0.0.1", "10.0.0.0/24"))
    ensures var rq := CreateNetworkRequest(
              "n1", map[GenericData := Obj(map["vlan" := Str("42")])],
              [IpamData("default", "10.0.0.0/24", "10.0.0.1/24")], []);
      ParseOptions(rq, ["vlan"], cidr) ==
        Ok(NetworkConfig("vlan42", "bran42", 42, 1500, false, Some("10.0.0.1"), None))
  {
    var labels := map["vlan" := Str("42")];
    assert ScanDigits("42", 0) == Value(42) by {
      assert "42"[1..] == "2";
      assert ScanDigits("2", 4) == Value(42) by {
        assert "2"[1..] == "";
      }
    }
    assert Atoi("42") == Ok(42);
    assert Itoa(42) == "42" by {
      assert Decimal(42) == Decimal(4) + ['2'];
    }
    var rq := CreateNetworkRequest(
      "n1", map[GenericData := Obj(labels)], [IpamData("default", "10.0.0.0/24", "10.0.0.1/24")], []);
    assert Labels(rq) == Some(labels);
    assert StringLabel(labels, "vlan") == "42";
    var c0 := Initial(labels, 42);
    assert c0 == NetworkConfig("vlan42", "bran42", 42, 1500, false, None, None);
    var c := c0.(gatewayIPv4 := Some("10.0.0.1"));
    assert ParseIPAM(c0, "n1", rq.ipv4Data, rq.ipv6Data, cidr) == Ok(c);
    assert ["vlan"][1..] == [];
    assert ParseLabels(c, labels, ["vlan"]) == ParseLabels(c, labels, []);
  }

  /** driver. */
  class Driver {
    const scope: string
    const networks: Networks.Networks

    constructor (scope: string, networks: Networks.Networks)
      ensures this.scope == scope && this.networks == networks
    {
      this.scope := scope;
      this.networks := networks;
    }

    /** CreateNetwork: parses the options, then creates the network. */
    method CreateNetwork(rq: CreateNetworkRequest, order: seq<string>, cidr: CidrParser, f: Networks.KvFaults)
      returns (err: Option<Error>)
      requires Labels(rq).Some? ==> Enumerates(order, Labels(rq).value)
      requires networks.Valid()
      modifies networks
      ensures networks.Valid()
      ensures var p := ParseOptions(rq, order, cidr);
        (p.Err? ==> err == Some(p.error) && networks.store == old(networks.store) &&
                    networks.shared == old(networks.shared)) &&
        (p.Ok? ==> var o := Networks.CreateSpec(old(networks.View()), rq.networkID, p.value, f);
                   networks.View() == o.registry && err == o.err)
    {
      var p := ParseOptions(rq, order, cidr);
      if p.Err? {
        return Some(p.error);
      }
      err := networks.Create(rq.networkID, p.value, f);
    }

    /** DeleteNetwork. */
    method DeleteNetwork(nid: string, f: Networks.KvFaults, lf: Networks.DeleteLinkFaults)
      returns (err: Option<Error>)
      requires networks.Valid()
      modifies networks, networks.host
      ensures networks.Valid()
      ensures var o := Networks.DeleteSpec(old(networks.View()), old(networks.host.links), nid, f, lf);
        networks.View() == o.registry && networks.host.links == o.links && err == o.err
    {
      err := networks.Delete(nid, f, lf);
    }

    /** CreateEndpoint: finds the network, refuses an endpoint id in use, makes
        sure the network's links exist, and creates the endpoint. No other
        network's endpoints change. */
    method CreateEndpoint(rq: CreateEndpointRequest, getFault: Fault, lf: Networks.CreateLinkFaults,
                          ef: Endpoints.CreateFaults, cidr: CidrParser, mac: MacParser)
      returns (err: Option<Error>)
      requires networks.Valid()
      modifies networks, networks.host, networks.Tables()
      ensures networks.Valid()
      ensures forall n :: n in old(networks.store) && n != rq.networkID ==>
                n in networks.store && networks.store[n] == old(networks.store[n]) &&
                networks.store[n].endpoints.table == old(networks.store[n].endpoints.table)
      ensures rq.iface.None? ==>
                err == Some(Plain("invalid interface info passed")) && networks.store == old(networks.store) &&
                networks.View() == old(networks.View()) && networks.host.links == old(networks.host.links)
      ensures rq.iface.Some? ==>
        var nid, eid := rq.networkID, rq.endpointID;
        var g := Networks.GetSpec(old(networks.View()), nid, getFault);
        networks.View() == g.registry &&
        (g.result.Err? ==> err == Some(g.result.error) && networks.host.links == old(networks.host.links)) &&
        (g.result.Ok? ==>
           nid in networks.store &&
           var t := networks.store[nid].endpoints;
           var before := if nid in old(networks.store) then old(networks.store[nid].endpoints.table) else map[];
           var cl := Networks.CreateLinkSpec(old(networks.host.links), g.result.value, lf);
           var o := Endpoints.CreateSpec(cl.links, rq.iface.value, g.result.value, ef, cidr, mac);
           (eid in before ==>
              err == Some(EndpointExists(eid)) && t.table == before && networks.host.links == old(networks.host.links)) &&
           (eid !in before && cl.err.Some? ==>
              err == cl.err && t.table == before && networks.host.links == cl.links) &&
           (eid !in before && cl.err.None? ==>
              networks.host.links == o.links &&
              (o.result.Ok? ==> err.None? && t.table == before[eid := o.result.value]) &&
              (o.result.Err? ==> err == Some(o.result.error) && t.table == before)))
    {
      if rq.iface.None? {
        return Some(Plain("invalid interface info passed"));
      }
      var got := networks.Get(rq.networkID, getFault);
      if got.Err? {
        return Some(got.error);
      }
      var ni := got.value;
      assert forall n :: n in networks.store && n != rq.networkID ==> networks.store[n].endpoints != ni.endpoints;
      assert ni.endpoints.table ==
        if rq.networkID in old(networks.store) then old(networks.store[rq.networkID].endpoints.table) else map[];
      err := CreateInNetwork(ni, rq.endpointID, rq.iface.value, lf, ef, cidr, mac);
    }

    /** The part of CreateEndpoint once the network was found: it changes only
        the network's own endpoint table and the host's links. */
    method CreateInNetwork(ni: Networks.Network, eid: string, iface: Endpoints.EndpointInterface,
                           lf: Networks.CreateLinkFaults, ef: Endpoints.CreateFaults,
                           cidr: CidrParser, mac: MacParser) returns (err: Option<Error>)
      modifies networks.host, ni.endpoints
      ensures var before := old(ni.endpoints.table);
        var cl := Networks.CreateLinkSpec(old(networks.host.links), ni.config, lf);
        var o := Endpoints.CreateSpec(cl.links, iface, ni.config, ef, cidr, mac);
        (eid in before ==>
           err == Some(EndpointExists(eid)) && ni.endpoints.table == before &&
           networks.host.links == old(networks.host.links)) &&
        (eid !in before && cl.err.Some? ==>
           err == cl.err && ni.endpoints.table == before && networks.host.links == cl.links) &&
        (eid !in before && cl.err.None? ==>
           networks.host.links == o.links &&
           (o.result.Ok? ==> err.None? && ni.endpoints.table == before[eid := o.result.value]) &&
           (o.result.Err? ==> err == Some(o.result.error) && ni.endpoints.table == before))
    {
      var vacant := ni.endpoints.Vacant(eid);
      if vacant.Some? {
        return vacant;
      }
      err := networks.CreateLink(ni.config, lf);
      if err.Some? {
        return;
      }
      err := ni.endpoints.Create(eid, iface, ni.config, networks.host, ef, cidr, mac);
    }

    /** DeleteEndpoint: deletes the endpoint and, when it was the network's
        last one, the network's links. No other network's endpoints change. */
    method DeleteEndpoint(nid: string, eid: string, getFault: Fault, df: Endpoints.DeleteFaults,
                          lf: Networks.DeleteLinkFaults) returns (err: Option<Error>)
      requires networks.Valid()
      modifies networks, networks.host, networks.Tables()
      ensures networks.Valid()
      ensures forall n :: n in old(networks.store) && n != nid ==>
                n in networks.store && networks.store[n] == old(networks.store[n]) &&
                networks.store[n].endpoints.table == old(networks.store[n].endpoints.table)
      ensures var g := Networks.GetSpec(old(networks.View()), nid, getFault);
        networks.View() == g.registry &&
        (g.result.Err? ==> err == Some(g.result.error) && networks.host.links == old(networks.host.links)) &&
        (g.result.Ok? ==>
           nid in networks.store &&
           var t := networks.store[nid].endpoints;
           var before := if nid in old(networks.store) then old(networks.store[nid].endpoints.table) else map[];
           var d := Endpoints.DeleteSpec(before, old(networks.host.links), eid, df);
           var last := d.err.None? && |d.table| == 0;
           var dl := Networks.DeleteLinkSpec(d.links, g.result.value, lf);
           t.table == d.table &&
           (last ==> networks.host.links == dl.links && err == dl.err) &&
           (!last ==> networks.host.links == d.links && err == d.err))
    {
      var got := networks.Get(nid, getFault);
      if got.Err? {
        return Some(got.error);
      }
      var ni := got.value;
      assert forall n :: n in networks.store && n != nid ==> networks.store[n].endpoints != ni.endpoints;
      assert ni.endpoints.table == if nid in old(networks.store) then old(networks.store[nid].endpoints.table) else map[];
      err := DeleteInNetwork(ni, eid, df, lf);
    }

    /** The part of DeleteEndpoint once the network was found: it changes only
        the network's own endpoint table and the host's links. */
    method DeleteInNetwork(ni: Networks.Network, eid: string, df: Endpoints.DeleteFaults,
                           lf: Networks.DeleteLinkFaults) returns (err: Option<Error>)
      modifies networks.host, ni.endpoints
      ensures var d := Endpoints.DeleteSpec(old(ni.endpoints.table), old(networks.host.links), eid, df);
        var last := d.err.None? && |d.table| == 0;
        var dl := Networks.DeleteLinkSpec(d.links, ni.config, lf);
        ni.endpoints.table == d.table &&
        (last ==> networks.host.links == dl.links && err == dl.err) &&
        (!last ==> networks.host.links == d.links && err == d.err)
    {
      err := ni.endpoints.Delete(eid, networks.host, df);
      if err.None? && ni.endpoints.Length() == 0 {
        err := networks.DeleteLink(ni.config, lf);
      }
    }

    /** Join: the network's gateway ("<nil>" when it has none) and the sandbox
        end of the endpoint, to be renamed with the prefix "eth". */
    method Join(nid: string, eid: string, getFault: Fault) returns (res: Option<JoinResponse>, err: Option<Error>)
      requires networks.Valid()
      modifies networks
      ensures networks.Valid()
      ensures var g := Networks.GetSpec(old(networks.View()), nid, getFault);
        networks.View() == g.registry &&
        (g.result.Err? ==> res.None? && err == Some(g.result.error)) &&
        (g.result.Ok? ==>
           var before := if nid in old(networks.store) then old(networks.store[nid].endpoints.table) else map[];
           (eid in before ==>
              err.None? &&
              res == Some(JoinResponse(IPString(g.result.value.gatewayIPv4),
                                       InterfaceName(before[eid].ifname, ContainerVethPrefix)))) &&
           (eid !in before ==> res.None? && err == Some(NoEndpoint(eid))))
    {
      var got := networks.Get(nid, getFault);
      if got.Err? {
        return None, Some(got.error);
      }
      var ni := got.value;
      var ep := ni.endpoints.Get(eid);
      if ep.Err? {
        return None, Some(ep.error);
      }
      res := Some(JoinResponse(IPString(ni.config.gatewayIPv4), InterfaceName(ep.value.ifname, ContainerVethPrefix)));
      err := None;
    }

    /** Leave: nothing to undo. */
    method Leave(nid: string, eid: string) returns (err: Option<Error>)
      ensures err.None?
    {
      err := None;
    }
  }
}
