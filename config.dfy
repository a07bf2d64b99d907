/** The configuration of a network (networkConfig in net/networks.go) and the
    two parsers that fill it in: parseIPAM reads the gateway handed over by
    the address manager, parseLabels reads the driver options. */
module Config {
  import opened Common
  import opened Foreign
  import opened Strconv

  /** Option and label names of Docker's netlabel package. */
  const GenericData: string := "com.docker.network.generic"
  const DriverMTU: string := "com.docker.network.driver.mtu"
  const EnableIPv6: string := "com.docker.network.enable_ipv6"

  /** A value of a Go map[string]interface{} as Docker fills it: a string, a
      nested map, or a value of some other Go type, kept by its type's name. */
  datatype Value = Str(s: string) | Obj(fields: map<string, Value>) | Other(goType: string)

  /** networkConfig. A nil gateway is None. */
  datatype NetworkConfig = NetworkConfig(
    linkName: string,
    bridgeName: string,
    vlan: int,
    mtu: int,
    enableIPv6: bool,
    gatewayIPv4: Option<AddrText>,
    gatewayIPv6: Option<AddrText>)

  /** driverapi.IPAMData, without the auxiliary addresses, which the core never reads. */
  datatype IpamData = IpamData(addressSpace: string, pool: string, gateway: string)

  /** parseIPAM: exactly one IPv4 pool, at most one IPv6 pool, and an IPv4
      gateway in CIDR form, whose address becomes the network's gateway. */
  function ParseIPAM(c: NetworkConfig, id: string, v4: seq<IpamData>, v6: seq<IpamData>, cidr: CidrParser)
    : (r: Result<NetworkConfig>)
    ensures r.Ok? <==> |v4| == 1 && |v6| <= 1 && v4[0].gateway != "" && cidr(v4[0].gateway).Some?
    ensures r.Ok? ==> r.value == c.(gatewayIPv4 := Some(cidr(v4[0].gateway).value.ip))
    ensures |v4| > 1 || |v6| > 1 ==>
              r == Err(Forbidden("bridge driver doesni't support multiple subnets"))
    ensures |v4| == 0 && |v6| <= 1 ==>
              r == Err(BadRequest("bridge network " + id + " requires ipv4 configuration"))
    ensures |v4| == 1 && |v6| <= 1 && v4[0].gateway == "" ==>
              r == Err(BadRequest("bridge network " + id + " requires ipv4 gateway from IPAM"))
    ensures |v4| == 1 && |v6| <= 1 && v4[0].gateway != "" && cidr(v4[0].gateway).None? ==>
              r == Err(Foreign("invalid CIDR address: " + v4[0].gateway))
  {
    if |v4| > 1 || |v6| > 1 then Err(Forbidden("bridge driver doesni't support multiple subnets"))
    else if |v4| == 0 then Err(BadRequest("bridge network " + id + " requires ipv4 configuration"))
    else if v4[0].gateway == "" then Err(BadRequest("bridge network " + id + " requires ipv4 gateway from IPAM"))
    else
      match ParseCIDR(cidr, v4[0].gateway)
      case Err(e) => Err(e)
      case Ok(gw) => Ok(c.(gatewayIPv4 := Some(gw.ip)))
  }

  /** parseErr. */
  function ParseErr(key: string, value: string, errString: string): (r: Error)
    ensures r.BadRequest? && |r.text| == 27 + |key| + |value| + |errString|
    ensures r.text[..16] == "failed to parse " && r.text[16..16 + |key|] == key
    ensures r.text[16 + |key|..24 + |key|] == " value: " && r.text[24 + |key|..24 + |key| + |value|] == value
    ensures r.text[|r.text| - 1 - |errString|..|r.text| - 1] == errString && r.text[|r.text| - 1] == ')'
  {
    BadRequest("failed to parse " + key + " value: " + value + " (" + errString + ")")
  }

  /** The name Go prints for the dynamic type of a non-string value. */
  function GoType(v: Value): string
  {
    match v
    case Str(_) => "string"
    case Obj(_) => "map[string]interface {}"
    case Other(t) => t
  }

  /** A label value that parseLabels lets through: a string, which must be an
      integer for the MTU label and a boolean for the IPv6 label. */
  predicate Acceptable(key: string, v: Value)
  {
    v.Str? && (key == DriverMTU ==> Atoi(v.s).Ok?) && (key == EnableIPv6 ==> ParseBool(v.s).Ok?)
  }

  /** What parseLabels does with a label it does not let through: the type
      assertion panics on a non-string, a value that does not parse is a bad request. */
  function Rejection(key: string, v: Value): Error
    requires !Acceptable(key, v)
  {
    if !v.Str? then Panic("interface conversion: interface {} is " + GoType(v) + ", not string")
    else if key == DriverMTU then ParseErr(key, v.s, Atoi(v.s).error.text)
    else ParseErr(key, v.s, ParseBool(v.s).error.text)
  }

  /** parseLabels, visiting the labels in `order`, the order in which Go's map
      iteration happens to yield them. Only the MTU and the IPv6 flag change. */
  function ParseLabels(c: NetworkConfig, labels: map<string, Value>, order: seq<string>)
    : (r: Result<NetworkConfig>)
    requires forall k :: 0 <= k < |order| ==> order[k] in labels
    ensures r.Ok? ==> r.value == c.(mtu := r.value.mtu, enableIPv6 := r.value.enableIPv6)
    decreases |order|
  {
    if |order| == 0 then Ok(c)
    else
      var key := order[0];
      var v := labels[key];
      if !v.Str? then Err(Panic("interface conversion: interface {} is " + GoType(v) + ", not string"))
      else if key == DriverMTU then
        match Atoi(v.s)
        case Err(e) => Err(ParseErr(key, v.s, e.text))
        case Ok(n) => ParseLabels(c.(mtu := n), labels, order[1..])
      else if key == EnableIPv6 then
        match ParseBool(v.s)
        case Err(e) => Err(ParseErr(key, v.s, e.text))
        case Ok(b) => ParseLabels(c.(enableIPv6 := b), labels, order[1..])
      else ParseLabels(c, labels, order[1..])
  }

  /** The configuration after all labels in `keys` have been applied, in any order. */
  function Applied(c: NetworkConfig, labels: map<string, Value>, keys: set<string>): NetworkConfig
  {
    var c1 := if DriverMTU in keys && DriverMTU in labels && Acceptable(DriverMTU, labels[DriverMTU])
              then c.(mtu := Atoi(labels[DriverMTU].s).value) else c;
    if EnableIPv6 in keys && EnableIPv6 in labels && Acceptable(EnableIPv6, labels[EnableIPv6])
    then c1.(enableIPv6 := ParseBool(labels[EnableIPv6].s).value) else c1
  }

  /** The change one acceptable label makes to the configuration. */
  function Apply(c: NetworkConfig, key: string, v: Value): NetworkConfig
    requires Acceptable(key, v)
  {
    if key == DriverMTU then c.(mtu := Atoi(v.s).value)
    else if key == EnableIPv6 then c.(enableIPv6 := ParseBool(v.s).value)
    else c
  }

  /** Applying one label and then a set of them is applying the set with that label added. */
  lemma AppliedStep(c: NetworkConfig, labels: map<string, Value>, key: string, keys: set<string>)
    requires key in labels && Acceptable(key, labels[key])
    ensures Applied(Apply(c, key, labels[key]), labels, keys) == Applied(c, labels, {key} + keys)
  {
  }

  /** parseLabels succeeds exactly when every label is acceptable, and then its
      result does not depend on the order; otherwise it reports the first
      label in the order that is not. */
  lemma {:induction false} ParseLabelsMeaning(c: NetworkConfig, labels: map<string, Value>, order: seq<string>)
    requires forall k :: 0 <= k < |order| ==> order[k] in labels
    ensures var r := ParseLabels(c, labels, order);
      (r.Ok? <==> forall k :: 0 <= k < |order| ==> Acceptable(order[k], labels[order[k]])) &&
      (r.Ok? ==> r.value == Applied(c, labels, set l | l in order)) &&
      (r.Err? ==> exists k :: 0 <= k < |order| && !Acceptable(order[k], labels[order[k]]) &&
                    (forall j :: 0 <= j < k ==> Acceptable(order[j], labels[order[j]])) &&
                    r.error == Rejection(order[k], labels[order[k]]))
    decreases |order|
  {
    if |order| > 0 {
      var key := order[0];
      var v := labels[key];
      var rest := order[1..];
      assert forall k :: 1 <= k < |order| ==> order[k] == rest[k - 1];
      assert (set l | l in order) == {key} + (set l | l in rest);
      if Acceptable(key, v) {
        var c' := Apply(c, key, v);
        ParseLabelsMeaning(c', labels, rest);
        AppliedStep(c, labels, key, set l | l in rest);
        assert ParseLabels(c, labels, order) == ParseLabels(c', labels, rest);
        var r := ParseLabels(c, labels, order);
        if r.Err? {
          var k :| 0 <= k < |rest| && !Acceptable(rest[k], labels[rest[k]]) &&
                   (forall j :: 0 <= j < k ==> Acceptable(rest[j], labels[rest[j]])) &&
                   r.error == Rejection(rest[k], labels[rest[k]]);
          assert order[k + 1] == rest[k];
          forall j | 0 <= j < k + 1
            ensures Acceptable(order[j], labels[order[j]])
          {
            if j > 0 {
              assert order[j] == rest[j - 1];
            }
          }
        }
      } else {
        assert !Acceptable(order[0], labels[order[0]]);
      }
    }
  }

  /** Every label of `o2` is acceptable when every label of `o1` is and `o1` holds all of `o2`. */
  lemma AcceptableAcross(labels: map<string, Value>, o1: seq<string>, o2: seq<string>)
    requires forall k :: 0 <= k < |o1| ==> o1[k] in labels
    requires forall k :: 0 <= k < |o2| ==> o2[k] in labels
    requires forall l :: l in o2 ==> l in o1
    requires forall k :: 0 <= k < |o1| ==> Acceptable(o1[k], labels[o1[k]])
    ensures forall k :: 0 <= k < |o2| ==> Acceptable(o2[k], labels[o2[k]])
  {
    forall k | 0 <= k < |o2|
      ensures Acceptable(o2[k], labels[o2[k]])
    {
      assert o2[k] in o1;
      var j :| 0 <= j < |o1| && o1[j] == o2[k];
    }
  }

  /** Two orders of the same labels either both succeed, with the same
      configuration, or both fail (possibly naming different labels). */
  lemma ParseLabelsOrderFree(c: NetworkConfig, labels: map<string, Value>, o1: seq<string>, o2: seq<string>)
    requires forall k :: 0 <= k < |o1| ==> o1[k] in labels
    requires forall k :: 0 <= k < |o2| ==> o2[k] in labels
    requires forall l :: l in o1 <==> l in o2
    ensures ParseLabels(c, labels, o1).Ok? <==> ParseLabels(c, labels, o2).Ok?
    ensures ParseLabels(c, labels, o1).Ok? ==> ParseLabels(c, labels, o1) == ParseLabels(c, labels, o2)
  {
    ParseLabelsMeaning(c, labels, o1);
    ParseLabelsMeaning(c, labels, o2);
    if ParseLabels(c, labels, o1).Ok? {
      AcceptableAcross(labels, o1, o2);
    }
    if ParseLabels(c, labels, o2).Ok? {
      AcceptableAcross(labels, o2, o1);
    }
    assert (set l | l in o1) == (set l | l in o2);
  }
}
