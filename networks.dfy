/** The networks of the plugin (net/networks.go): a local cache of network
    records, each with its table of endpoints, backed by a shared key-value
    store through which hosts exchange network configurations; and the VLAN
    interface and bridge that carry a network on the host. */
module Networks {
  import opened Common
  import opened Foreign
  import opened Netlink
  import opened Config
  import Endpoints

  const KeyPrefix: string := "deecper/network/"

  /** The message of libkv's store.ErrKeyNotFound. */
  const KeyNotFound: string := "Key not found in store"

  /** _network: the key of a network's configuration in the shared store; the
      network id can be read back from it. */
  function Key(nid: string): (k: string)
    ensures |k| == |KeyPrefix| + |nid| && k[..|KeyPrefix|] == KeyPrefix && k[|KeyPrefix|..] == nid
  {
    KeyPrefix + nid
  }

  /** Distinct networks are stored under distinct keys. */
  lemma KeyInjective(a: string, b: string)
    ensures Key(a) == Key(b) <==> a == b
  {
  }

  /** A value of the shared store: the JSON encoding of a configuration, or bytes
      that do not decode into one, kept by the decoder's message. */
  datatype Document = Encoded(config: NetworkConfig) | Undecodable(reason: string)

  /** json.Unmarshal into a networkConfig; it reads back what json.Marshal wrote. */
  function Decode(d: Document): (r: Result<NetworkConfig>)
    ensures d.Encoded? ==> r == Ok(d.config)
    ensures d.Undecodable? ==> r == Err(Foreign(d.reason))
  {
    match d
    case Encoded(c) => Ok(c)
    case Undecodable(reason) => Err(Foreign(reason))
  }

  /** The outcome of each store request of one operation. */
  datatype KvFaults = KvFaults(exist: Fault, get: Fault, put: Fault, delete: Fault)

  /** existGlobal: whether the shared store holds the network; a failing Exists
      request counts as absent. */
  function InShared(shared: map<string, Document>, nid: string, f: Fault): (r: bool)
    ensures r <==> f.None? && Key(nid) in shared
  {
    if f.Some? then false else Key(nid) in shared
  }

  /** The configuration getGlobal reads from the shared store. */
  function FromShared(shared: map<string, Document>, nid: string, f: Fault): (r: Result<NetworkConfig>)
    ensures r.Ok? <==> f.None? && Key(nid) in shared && shared[Key(nid)].Encoded?
    ensures r.Ok? ==> r.value == shared[Key(nid)].config
    ensures f.None? && Key(nid) !in shared ==> r == Err(Foreign(KeyNotFound))
  {
    if f.Some? then Err(Foreign(f.value))
    else if Key(nid) !in shared then Err(Foreign(KeyNotFound))
    else Decode(shared[Key(nid)])
  }

  /** What the operations on networks see and change: the configurations in the
      local cache and the documents of the shared store. */
  datatype Registry = Registry(cache: map<string, NetworkConfig>, shared: map<string, Document>)

  datatype Registered = Registered(registry: Registry, err: Option<Error>)

  /** create: refuses a network present locally or in the shared store, writes
      the configuration to the shared store, then caches it. */
  function CreateSpec(r: Registry, nid: string, config: NetworkConfig, f: KvFaults): (o: Registered)
    ensures o.err.Some? ==> o.registry == r
    ensures o.err.None? ==> nid in o.registry.cache && o.registry.cache[nid] == config &&
                            Key(nid) in o.registry.shared && o.registry.shared[Key(nid)] == Encoded(config)
    ensures o.err.None? ==> nid !in r.cache && r.cache.Keys <= o.registry.cache.Keys
  {
    if nid in r.cache || InShared(r.shared, nid, f.exist) then
      Registered(r, Some(Plain("should not re-create existing network")))
    else if f.put.Some? then
      Registered(r, Some(Plain("could not write key " + nid + ", " + f.put.value)))
    else
      Registered(Registry(r.cache[nid := config], r.shared[Key(nid) := Encoded(config)]), None)
  }

  datatype Fetched = Fetched(registry: Registry, result: Result<NetworkConfig>)

  /** get: the cached configuration, or the stored one, which is then cached. */
  function GetSpec(r: Registry, nid: string, f: Fault): (o: Fetched)
    ensures o.registry.shared == r.shared
    ensures o.result.Ok? <==> nid in r.cache || FromShared(r.shared, nid, f).Ok?
    ensures o.result.Ok? ==> nid in o.registry.cache && o.registry.cache[nid] == o.result.value
    ensures o.result.Err? ==> o.registry == r
  {
    if nid in r.cache then Fetched(r, Ok(r.cache[nid]))
    else
      match FromShared(r.shared, nid, f)
      case Ok(c) => Fetched(r.(cache := r.cache[nid := c]), Ok(c))
      case Err(e) => Fetched(r, Err(e))
  }

  /** The outcome of each netlink call of createLink, in the order they happen;
      bridgeDel is the delete that undoes a bridge that cannot be attached. */
  datatype CreateLinkFaults = CreateLinkFaults(
    vlanLookup: Fault,
    vlanAdd: Fault,
    vlanUp: Fault,
    bridgeLookup: Fault,
    bridgeAdd: Fault,
    ifaceLookup: Fault,
    setMaster: Fault,
    bridgeDel: Fault,
    bridgeUp: Fault)

  /** The links after an operation and the error it returns. */
  datatype LinkChange = LinkChange(links: LinkState, err: Option<Error>)

  /** createLink: makes the VLAN interface and brings it up unless a link of its
      name is found; then, unless a link of the bridge's name is found, makes
      the bridge, enslaves the VLAN interface to it (deleting the bridge again
      if that fails) and brings the bridge up. */
  function CreateLinkSpec(s: LinkState, config: NetworkConfig, f: CreateLinkFaults): (o: LinkChange)
    ensures o.err.None? ==> config.linkName in o.links.names && config.bridgeName in o.links.names
    ensures o.err.Some? ==> o.err.value.NetlinkError?
  {
    var v, b := config.linkName, config.bridgeName;
    var makeVlan := Lookup(s, v, f.vlanLookup).Some?;
    if makeVlan && f.vlanAdd.Some? then
      LinkChange(s, Some(NetlinkError("create vlan iface", Foreign(f.vlanAdd.value))))
    else
      var s1 := if makeVlan then WithLink(s, v) else s;
      if makeVlan && f.vlanUp.Some? then
        LinkChange(s1, Some(NetlinkError("bring vlan iface up", Foreign(f.vlanUp.value))))
      else
        var s2 := if makeVlan then WithUp(s1, v) else s1;
        if Lookup(s2, b, f.bridgeLookup).None? then LinkChange(s2, None)
        else if f.bridgeAdd.Some? then
          LinkChange(s2, Some(NetlinkError("create bridge", Foreign(f.bridgeAdd.value))))
        else
          var s3 := WithLink(s2, b);
          var li := Lookup(s3, v, f.ifaceLookup);
          if li.Some? then
            LinkChange(Step(s3, f.bridgeDel, WithoutLink(s3, b)),
                       Some(NetlinkError("find iface by name (" + v + ")", Foreign(li.value))))
          else if f.setMaster.Some? then
            LinkChange(Step(s3, f.bridgeDel, WithoutLink(s3, b)),
                       Some(NetlinkError("set bridge master", Foreign(f.setMaster.value))))
          else
            var s4 := WithMaster(s3, v, b);
            if f.bridgeUp.Some? then
              LinkChange(s4, Some(NetlinkError("bring bridge up", Foreign(f.bridgeUp.value))))
            else LinkChange(WithUp(s4, b), None)
  }

  /** The outcome of each netlink call of deleteLink. */
  datatype DeleteLinkFaults = DeleteLinkFaults(
    bridgeLookup: Fault,
    bridgeDown: Fault,
    bridgeDel: Fault,
    vlanLookup: Fault,
    vlanDown: Fault,
    vlanDel: Fault)

  /** No netlink call fails of its own accord. */
  const NoDeleteLinkFaults := DeleteLinkFaults(None, None, None, None, None, None)

  /** Brings a link down and deletes it, if a link of that name is found. */
  function TakeDown(s: LinkState, name: string, lookup: Fault, down: Fault, del: Fault,
                    downAction: string, delAction: string): (o: LinkChange)
    ensures o.err.None? && lookup.None? ==> name !in o.links.names
    ensures o.err.Some? ==> o.err.value.NetlinkError? && o.links.names == s.names
  {
    if Lookup(s, name, lookup).Some? then LinkChange(s, None)
    else if down.Some? then LinkChange(s, Some(NetlinkError(downAction, Foreign(down.value))))
    else
      var s1 := WithDown(s, name);
      if del.Some? then LinkChange(s1, Some(NetlinkError(delAction, Foreign(del.value))))
      else LinkChange(WithoutLink(s1, name), None)
  }

  /** deleteLink: takes down the bridge, then the VLAN interface. */
  function DeleteLinkSpec(s: LinkState, config: NetworkConfig, f: DeleteLinkFaults): (o: LinkChange)
    ensures o.err.None? && f.bridgeLookup.None? && f.vlanLookup.None? ==>
              config.bridgeName !in o.links.names && config.linkName !in o.links.names
    ensures o.links.names <= s.names
  {
    var o := TakeDown(s, config.bridgeName, f.bridgeLookup, f.bridgeDown, f.bridgeDel,
                      "bring bridge down", "delete bridge");
    if o.err.Some? then o
    else TakeDown(o.links, config.linkName, f.vlanLookup, f.vlanDown, f.vlanDel, "bring vlan down", "delete vlan")
  }

  datatype Removed = Removed(registry: Registry, links: LinkState, err: Option<Error>)

  /** delete: tears down the links of a cached network (ignoring any error) and
      drops it from the cache, then deletes the stored configuration if Exists
      reports it. */
  function DeleteSpec(r: Registry, s: LinkState, nid: string, f: KvFaults, lf: DeleteLinkFaults): (o: Removed)
    ensures o.registry.cache == r.cache - {nid}
    ensures !InShared(r.shared, nid, f.exist) ==> o.err.None? && o.registry.shared == r.shared
    ensures InShared(r.shared, nid, f.exist) && f.delete.None? ==> o.err.None? && o.registry.shared == r.shared - {Key(nid)}
    ensures nid !in r.cache ==> o.links == s
  {
    var s1 := if nid in r.cache then DeleteLinkSpec(s, r.cache[nid], lf).links else s;
    var cache := r.cache - {nid};
    if !InShared(r.shared, nid, f.exist) then Removed(Registry(cache, r.shared), s1, None)
    else if f.delete.Some? then
      Removed(Registry(cache, r.shared), s1, Some(Plain("could not delete key " + nid + ", " + f.delete.value)))
    else Removed(Registry(cache, r.shared - {Key(nid)}), s1, None)
  }

  /** create refuses a network that is cached or that the store reports, and
      then changes nothing. */
  lemma CreateRefusesExisting(r: Registry, nid: string, config: NetworkConfig, f: KvFaults)
    requires nid in r.cache || (f.exist.None? && Key(nid) in r.shared)
    ensures CreateSpec(r, nid, config, f) == Registered(r, Some(Plain("should not re-create existing network")))
  {
  }

  /** A network that create accepts is cached and stored under its key, and
      nothing else changes; a failed write changes nothing. */
  lemma CreateStores(r: Registry, nid: string, config: NetworkConfig, f: KvFaults)
    requires nid !in r.cache && !InShared(r.shared, nid, f.exist)
    ensures var o := CreateSpec(r, nid, config, f);
      (o.err.None? <==> f.put.None?) &&
      (o.err.None? ==> o.registry.cache == r.cache[nid := config] &&
                       o.registry.shared == r.shared[Key(nid) := Encoded(config)]) &&
      (o.err.Some? ==> o.registry == r)
  {
  }

  /** After a successful create, get finds the network's configuration on this
      host without a store request, and on any other host whose cache lacks it
      through the shared store. */
  lemma CreateThenGet(r: Registry, nid: string, config: NetworkConfig, f: KvFaults,
                      other: map<string, NetworkConfig>, g: Fault)
    requires CreateSpec(r, nid, config, f).err.None?
    requires nid !in other
    ensures var r1 := CreateSpec(r, nid, config, f).registry;
      GetSpec(r1, nid, g) == Fetched(r1, Ok(config)) &&
      (g.None? ==> GetSpec(Registry(other, r1.shared), nid, g).result == Ok(config))
  {
  }

  /** get caches what it reads: a second get returns the same configuration and
      changes nothing, whatever the store does. */
  lemma GetCaches(r: Registry, nid: string, f: Fault, g: Fault)
    requires GetSpec(r, nid, f).result.Ok?
    ensures var o := GetSpec(r, nid, f);
      nid in o.registry.cache && o.registry.shared == r.shared &&
      GetSpec(o.registry, nid, g) == o
  {
  }

  /** After a delete during which every request succeeds, get reports the
      network missing: the store no longer holds it. */
  lemma DeleteThenGet(r: Registry, s: LinkState, nid: string, lf: DeleteLinkFaults)
    ensures var o := DeleteSpec(r, s, nid, KvFaults(None, None, None, None), lf);
      o.err.None? && nid !in o.registry.cache &&
      GetSpec(o.registry, nid, None) == Fetched(o.registry, Err(Foreign(KeyNotFound)))
  {
  }

  /** A delete whose Exists request fails leaves the stored configuration in
      place, so the next get brings the network back from the store. */
  lemma DeleteUnderExistsError(r: Registry, s: LinkState, nid: string, e: string, lf: DeleteLinkFaults)
    requires Key(nid) in r.shared && r.shared[Key(nid)].Encoded?
    ensures var o := DeleteSpec(r, s, nid, KvFaults(Some(e), None, None, None), lf);
      o.err.None? && GetSpec(o.registry, nid, None).result == Ok(r.shared[Key(nid)].config)
  {
  }

  /** On a host where links of both names exist, createLink whose lookups
      succeed creates nothing and changes nothing, whoever made the links. */
  lemma CreateLinkNoOp(s: LinkState, config: NetworkConfig, g: CreateLinkFaults)
    requires config.linkName in s.names && config.bridgeName in s.names
    requires g.vlanLookup.None? && g.bridgeLookup.None?
    ensures CreateLinkSpec(s, config, g) == LinkChange(s, None)
  {
  }

  /** createLink succeeds only with both links present, and then a second
      createLink whose lookups succeed changes nothing. */
  lemma {:induction false} CreateLinkIdempotent(s: LinkState, config: NetworkConfig, f: CreateLinkFaults,
                                                  g: CreateLinkFaults)
    requires g.vlanLookup.None? && g.bridgeLookup.None?
    ensures var o := CreateLinkSpec(s, config, f);
      o.err.None? ==>
        config.linkName in o.links.names && config.bridgeName in o.links.names &&
        CreateLinkSpec(o.links, config, g) == LinkChange(o.links, None)
  {
    var o := CreateLinkSpec(s, config, f);
    if o.err.None? {
      CreateLinkNoOp(o.links, config, g);
    }
  }

  /** When createLink makes the bridge and succeeds, the bridge is up and the
      VLAN interface is enslaved to it. */
  lemma CreateLinkAttaches(s: LinkState, config: NetworkConfig, f: CreateLinkFaults)
    ensures var o := CreateLinkSpec(s, config, f);
      var v, b := config.linkName, config.bridgeName;
      o.err.None? && Lookup(WithLink(s, v), b, f.bridgeLookup).Some? && v != b ==>
        b in o.links.up && v in o.links.master && o.links.master[v] == b
  {
  }

  /** A bridge that cannot be attached to the VLAN interface is deleted again. */
  lemma CreateLinkRollsBack(s: LinkState, config: NetworkConfig, f: CreateLinkFaults)
    requires f.bridgeAdd.None? && f.bridgeDel.None?
    requires Lookup(s, config.linkName, f.vlanLookup).Some? ==> f.vlanAdd.None? && f.vlanUp.None?
    ensures var v, b := config.linkName, config.bridgeName;
      var made := if Lookup(s, v, f.vlanLookup).Some? then WithUp(WithLink(s, v), v) else s;
      var o := CreateLinkSpec(s, config, f);
      Lookup(made, b, f.bridgeLookup).Some? &&
      (Lookup(WithLink(made, b), v, f.ifaceLookup).Some? || f.setMaster.Some?) ==>
        b !in o.links.names && o.err.Some? && o.err.value.NetlinkError?
  {
  }

  /** A bridge that cannot be created leaves behind the VLAN interface that the
      same createLink has just made. */
  lemma CreateLinkKeepsVlanOnBridgeError(s: LinkState, config: NetworkConfig, f: CreateLinkFaults)
    requires config.linkName !in s.names && config.bridgeName !in s.names && config.linkName != config.bridgeName
    requires f.vlanAdd.None? && f.vlanUp.None? && f.bridgeAdd.Some?
    ensures var o := CreateLinkSpec(s, config, f);
      o.err == Some(NetlinkError("create bridge", Foreign(f.bridgeAdd.value))) &&
      config.linkName in o.links.names && config.linkName in o.links.up
  {
  }

  /** deleteLink with every call accepted removes both links, and links that are
      not there are not an error. */
  lemma DeleteLinkRemoves(s: LinkState, config: NetworkConfig)
    ensures var o := DeleteLinkSpec(s, config, NoDeleteLinkFaults);
      o.err.None? && config.bridgeName !in o.links.names && config.linkName !in o.links.names
  {
  }

  /** deleteLink leaves a host without either link unchanged. */
  lemma DeleteLinkAbsent(s: LinkState, config: NetworkConfig, f: DeleteLinkFaults)
    requires config.bridgeName !in s.names && config.linkName !in s.names
    ensures DeleteLinkSpec(s, config, f) == LinkChange(s, None)
  {
  }

  /** network: a network's endpoints and configuration. Copies of a network
      share its endpoint table, as copies of a Go struct share its map. */
  datatype Network = Network(endpoints: Endpoints.Endpoints, config: NetworkConfig)

  /** networks: the local cache, the shared store and the host's links. */
  class Networks {
    var store: map<string, Network>
    var shared: map<string, Document>
    const host: Host

    /** networksNew. */
    constructor (host: Host, shared: map<string, Document>)
      ensures this.host == host && this.shared == shared && store == map[]
      ensures Valid()
    {
      this.host := host;
      this.shared := shared;
      store := map[];
    }

    /** The configurations of the cached networks. */
    function Cache(): map<string, NetworkConfig>
      reads this
    {
      map nid | nid in store :: store[nid].config
    }

    function View(): Registry
      reads this
    {
      Registry(Cache(), shared)
    }

    /** The endpoint tables of the cached networks. */
    function Tables(): set<Endpoints.Endpoints>
      reads this
    {
      set nid | nid in store :: store[nid].endpoints
    }

    /** Distinct cached networks have distinct endpoint tables. */
    ghost predicate Valid()
      reads this
    {
      forall a, b :: a in store && b in store && a != b ==> store[a].endpoints != store[b].endpoints
    }

    /** existLocal. */
    function ExistLocal(nid: string): (r: bool)
      reads this
      ensures r <==> nid in Cache()
    {
      nid in store
    }

    /** getLocal. */
    function GetLocal(nid: string): (r: Result<Network>)
      reads this
      ensures r.Ok? <==> ExistLocal(nid)
      ensures r.Ok? ==> r.value == store[nid] && r.value.config == Cache()[nid]
      ensures r.Err? ==> r.error == NoNetwork(nid)
    {
      if nid in store then Ok(store[nid]) else Err(NoNetwork(nid))
    }

    /** addGlobal: writes the configuration under the network's key. */
    method AddGlobal(nid: string, config: NetworkConfig, f: Fault) returns (err: Option<Error>)
      modifies this
      ensures store == old(store)
      ensures f.None? ==> err.None? && shared == old(shared)[Key(nid) := Encoded(config)]
      ensures f.Some? ==> err == Some(Plain("could not write key " + nid + ", " + f.value)) && shared == old(shared)
    {
      if f.Some? {
        return Some(Plain("could not write key " + nid + ", " + f.value));
      }
      shared := shared[Key(nid) := Encoded(config)];
      err := None;
    }

    /** addLocal, without the watcher it starts. */
    method AddLocal(nid: string, n: Network)
      modifies this
      ensures store == old(store)[nid := n] && shared == old(shared)
    {
      store := store[nid := n];
    }

    /** getGlobal: a new network record, with an empty endpoint table, for the stored configuration. */
    method GetGlobal(nid: string, f: Fault) returns (r: Result<Network>)
      ensures r.Ok? <==> FromShared(shared, nid, f).Ok?
      ensures r.Ok? ==> r.value.config == FromShared(shared, nid, f).value &&
                        fresh(r.value.endpoints) && r.value.endpoints.table == map[]
      ensures r.Err? ==> r.error == FromShared(shared, nid, f).error
    {
      var c := FromShared(shared, nid, f);
      if c.Err? {
        return Err(c.error);
      }
      var e := new Endpoints.Endpoints();
      r := Ok(Network(e, c.value));
    }

    /** rmGlobal. */
    method RmGlobal(nid: string, f: Fault) returns (err: Option<Error>)
      modifies this
      ensures store == old(store)
      ensures f.None? ==> err.None? && shared == old(shared) - {Key(nid)}
      ensures f.Some? ==> err == Some(Plain("could not delete key " + nid + ", " + f.value)) && shared == old(shared)
    {
      if f.Some? {
        return Some(Plain("could not delete key " + nid + ", " + f.value));
      }
      shared := shared - {Key(nid)};
      err := None;
    }

    /** rmLocal. */
    method RmLocal(nid: string)
      modifies this
      ensures store == old(store) - {nid} && shared == old(shared)
    {
      store := store - {nid};
    }

    /** createLink, on the host's links. */
    method CreateLink(config: NetworkConfig, f: CreateLinkFaults) returns (err: Option<Error>)
      modifies host
      ensures LinkChange(host.links, err) == CreateLinkSpec(old(host.links), config, f)
    {
      var v, b := config.linkName, config.bridgeName;
      var e := host.LinkByName(v, f.vlanLookup);
      if e.Some? {
        e := host.LinkAdd(v, f.vlanAdd);
        if e.Some? {
          return Some(NetlinkError("create vlan iface", Foreign(e.value)));
        }
        e := host.LinkSetUp(v, f.vlanUp);
        if e.Some? {
          return Some(NetlinkError("bring vlan iface up", Foreign(e.value)));
        }
      }
      e := host.LinkByName(b, f.bridgeLookup);
      if e.Some? {
        e := host.LinkAdd(b, f.bridgeAdd);
        if e.Some? {
          return Some(NetlinkError("create bridge", Foreign(e.value)));
        }
        e := host.LinkByName(v, f.ifaceLookup);
        if e.Some? {
          var ignored := host.LinkDel(b, f.bridgeDel);
          return Some(NetlinkError("find iface by name (" + v + ")", Foreign(e.value)));
        }
        e := host.LinkSetMaster(v, b, f.setMaster);
        if e.Some? {
          var ignored := host.LinkDel(b, f.bridgeDel);
          return Some(NetlinkError("set bridge master", Foreign(e.value)));
        }
        e := host.LinkSetUp(b, f.bridgeUp);
        if e.Some? {
          return Some(NetlinkError("bring bridge up", Foreign(e.value)));
        }
      }
      err := None;
    }

    /** Brings a link down and deletes it, if a link of that name is found. */
    method TakeDownLink(name: string, lookup: Fault, down: Fault, del: Fault, downAction: string,
                        delAction: string) returns (err: Option<Error>)
      modifies host
      ensures LinkChange(host.links, err) == TakeDown(old(host.links), name, lookup, down, del, downAction, delAction)
    {
      var e := host.LinkByName(name, lookup);
      if e.None? {
        e := host.LinkSetDown(name, down);
        if e.Some? {
          return Some(NetlinkError(downAction, Foreign(e.value)));
        }
        e := host.LinkDel(name, del);
        if e.Some? {
          return Some(NetlinkError(delAction, Foreign(e.value)));
        }
      }
      err := None;
    }

    /** deleteLink, on the host's links. */
    method DeleteLink(config: NetworkConfig, f: DeleteLinkFaults) returns (err: Option<Error>)
      modifies host
      ensures LinkChange(host.links, err) == DeleteLinkSpec(old(host.links), config, f)
    {
      err := TakeDownLink(config.bridgeName, f.bridgeLookup, f.bridgeDown, f.bridgeDel,
                          "bring bridge down", "delete bridge");
      if err.Some? {
        return;
      }
      err := TakeDownLink(config.linkName, f.vlanLookup, f.vlanDown, f.vlanDel, "bring vlan down", "delete vlan");
    }

    /** create: refuses an existing network, stores its configuration and caches
        a new record for it with an empty endpoint table. */
    method Create(nid: string, config: NetworkConfig, f: KvFaults) returns (err: Option<Error>)
      requires Valid()
      modifies this
      ensures Valid()
      ensures var o := CreateSpec(old(View()), nid, config, f);
        View() == o.registry && err == o.err
      ensures err.None? ==> nid in store && fresh(store[nid].endpoints) &&
                            store[nid].endpoints.table == map[] && store == old(store)[nid := store[nid]]
      ensures err.Some? ==> store == old(store)
    {
      if ExistLocal(nid) || InShared(shared, nid, f.exist) {
        return Some(Plain("should not re-create existing network"));
      }
      err := AddGlobal(nid, config, f.put);
      if err.Some? {
        return;
      }
      var e := new Endpoints.Endpoints();
      AddLocal(nid, Network(e, config));
      assert Cache() == old(Cache())[nid := config];
    }

    /** get: the cached record, or a new record for the stored configuration,
        which is then cached. */
    method Get(nid: string, f: Fault) returns (r: Result<Network>)
      requires Valid()
      modifies this
      ensures Valid()
      ensures var o := GetSpec(old(View()), nid, f);
        View() == o.registry && (r.Ok? <==> o.result.Ok?) &&
        (r.Ok? ==> r.value.config == o.result.value) && (r.Err? ==> r.error == o.result.error)
      ensures nid in old(store) ==> r == Ok(old(store)[nid]) && store == old(store)
      ensures nid !in old(store) && r.Ok? ==>
                fresh(r.value.endpoints) && r.value.endpoints.table == map[] && store == old(store)[nid := r.value]
      ensures r.Err? ==> store == old(store)
      ensures forall n :: n in old(store) ==> n in store && store[n] == old(store[n])
    {
      if ExistLocal(nid) {
        return GetLocal(nid);
      }
      r := GetGlobal(nid, f);
      if r.Ok? {
        AddLocal(nid, r.value);
        assert Cache() == old(Cache())[nid := r.value.config];
      }
    }

    /** delete: tears down the links of a cached network, forgets it, and
        deletes its stored configuration if the store reports one. */
    method Delete(nid: string, f: KvFaults, lf: DeleteLinkFaults) returns (err: Option<Error>)
      requires Valid()
      modifies this, host
      ensures Valid()
      ensures var o := DeleteSpec(old(View()), old(host.links), nid, f, lf);
        View() == o.registry && host.links == o.links && err == o.err
      ensures store == old(store) - {nid}
    {
      if ExistLocal(nid) {
        var n := GetLocal(nid);
        var ignored := DeleteLink(n.value.config, lf);
        RmLocal(nid);
      }
      assert Cache() == old(Cache()) - {nid};
      if InShared(shared, nid, f.exist) {
        err := RmGlobal(nid, f.delete);
        return;
      }
      err := None;
    }
  }
}
