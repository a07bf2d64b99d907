/** The host's network interfaces as the netlink calls of the core see and
    change them. Each call takes the Fault that says whether the kernel
    accepts it; a lookup also fails when no link has the name. */
module Netlink {
  import opened Common
  import opened Foreign

  /** The links of the host: their names, which are up, the bridge each one
      is enslaved to, the MTU and hardware address set on them, and the other
      end of each veth pair. */
  datatype LinkState = LinkState(
    names: set<string>,
    up: set<string>,
    master: map<string, string>,
    mtu: map<string, int>,
    hwaddr: map<string, seq<int>>,
    peer: map<string, string>)

  /** netlink.LinkByName: None when the link is found. */
  function Lookup(s: LinkState, name: string, f: Fault): (r: Fault)
    ensures r.None? <==> name in s.names && f.None?
    ensures name !in s.names ==> r == Some("Link " + name + " not found")
  {
    if name !in s.names then Some("Link " + name + " not found") else f
  }

  /** The state after a call: its effect when the kernel accepts it, no change otherwise. */
  function Step(s: LinkState, f: Fault, effect: LinkState): (r: LinkState)
    ensures f.None? ==> r == effect
    ensures f.Some? ==> r == s
  {
    if f.None? then effect else s
  }

  function WithLink(s: LinkState, name: string): LinkState
  {
    s.(names := s.names + {name})
  }

  /** A veth pair: two links, each the peer of the other. */
  function WithPair(s: LinkState, name: string, peer: string): LinkState
  {
    s.(names := s.names + {name, peer}, peer := s.peer[name := peer][peer := name])
  }

  /** The links a delete removes: the link and, for a veth end, its peer. */
  function Gone(s: LinkState, name: string): set<string>
  {
    {name} + (if name in s.peer then {s.peer[name]} else {})
  }

  /** netlink.LinkDel: the link (with its veth peer) disappears, and so does every
      enslavement to it. */
  function WithoutLink(s: LinkState, name: string): (r: LinkState)
    ensures var g := Gone(s, name);
      r.names == s.names - g && r.up == s.up - g && r.mtu == s.mtu - g && r.hwaddr == s.hwaddr - g &&
      (forall k :: k in r.master <==> k in s.master && k !in g && s.master[k] !in g) &&
      (forall k :: k in r.master ==> r.master[k] == s.master[k]) &&
      (forall k :: k in r.peer <==> k in s.peer && k !in g && s.peer[k] !in g) &&
      (forall k :: k in r.peer ==> r.peer[k] == s.peer[k])
  {
    var g := Gone(s, name);
    LinkState(
      s.names - g,
      s.up - g,
      map k | k in s.master && k !in g && s.master[k] !in g :: s.master[k],
      s.mtu - g,
      s.hwaddr - g,
      map k | k in s.peer && k !in g && s.peer[k] !in g :: s.peer[k])
  }

  function WithUp(s: LinkState, name: string): LinkState
  {
    s.(up := s.up + {name})
  }

  function WithDown(s: LinkState, name: string): LinkState
  {
    s.(up := s.up - {name})
  }

  function WithMaster(s: LinkState, name: string, bridge: string): LinkState
  {
    s.(master := s.master[name := bridge])
  }

  function WithMtu(s: LinkState, name: string, mtu: int): LinkState
  {
    s.(mtu := s.mtu[name := mtu])
  }

  function WithHardwareAddr(s: LinkState, name: string, mac: seq<int>): LinkState
  {
    s.(hwaddr := s.hwaddr[name := mac])
  }

  /** The host's links, changed in place by the netlink calls. */
  class Host {
    var links: LinkState

    constructor (initial: LinkState)
      ensures links == initial
    {
      links := initial;
    }

    method LinkByName(name: string, f: Fault) returns (err: Fault)
      ensures err == Lookup(links, name, f)
    {
      if name !in links.names {
        err := Some("Link " + name + " not found");
      } else {
        err := f;
      }
    }

    /** netlink.LinkAdd of a single link (a VLAN interface or a bridge). */
    method LinkAdd(name: string, f: Fault) returns (err: Fault)
      modifies this
      ensures err == f && links == Step(old(links), f, WithLink(old(links), name))
    {
      err := f;
      if f.None? {
        links := WithLink(links, name);
      }
    }

    /** netlink.LinkAdd of a veth pair: both ends appear together. */
    method LinkAddPair(name: string, peer: string, f: Fault) returns (err: Fault)
      modifies this
      ensures err == f && links == Step(old(links), f, WithPair(old(links), name, peer))
    {
      err := f;
      if f.None? {
        links := WithPair(links, name, peer);
      }
    }

    method LinkDel(name: string, f: Fault) returns (err: Fault)
      modifies this
      ensures err == f && links == Step(old(links), f, WithoutLink(old(links), name))
    {
      err := f;
      if f.None? {
        links := WithoutLink(links, name);
      }
    }

    method LinkSetUp(name: string, f: Fault) returns (err: Fault)
      modifies this
      ensures err == f && links == Step(old(links), f, WithUp(old(links), name))
    {
      err := f;
      if f.None? {
        links := WithUp(links, name);
      }
    }

    method LinkSetDown(name: string, f: Fault) returns (err: Fault)
      modifies this
      ensures err == f && links == Step(old(links), f, WithDown(old(links), name))
    {
      err := f;
      if f.None? {
        links := WithDown(links, name);
      }
    }

    method LinkSetMaster(name: string, bridge: string, f: Fault) returns (err: Fault)
      modifies this
      ensures err == f && links == Step(old(links), f, WithMaster(old(links), name, bridge))
    {
      err := f;
      if f.None? {
        links := WithMaster(links, name, bridge);
      }
    }

    method LinkSetMTU(name: string, mtu: int, f: Fault) returns (err: Fault)
      modifies this
      ensures err == f && links == Step(old(links), f, WithMtu(old(links), name, mtu))
    {
      err := f;
      if f.None? {
        links := WithMtu(links, name, mtu);
      }
    }

    method LinkSetHardwareAddr(name: string, mac: seq<int>, f: Fault) returns (err: Fault)
      modifies this
      ensures err == f && links == Step(old(links), f, WithHardwareAddr(old(links), name, mac))
    {
      err := f;
      if f.None? {
        links := WithHardwareAddr(links, name, mac);
      }
    }
  }
}
