# deecper in Dafny

deecper is a Docker network plugin. It puts containers on VLANs.
Each Docker network is a VLAN interface on a base interface of the host, enslaved to a bridge.
Each endpoint is a veth pair: its host end is attached to the bridge and its sandbox end is moved into the container.
Network configurations are kept in a shared key-value store under `deecper/network/<id>`.
Every host of a cluster can therefore pick up a network that another host created.
A companion address manager hands out pools whose names encode their subnet and range.
A vendored Ethernet codec marshals and unmarshals IEEE 802.3 frames with IEEE 802.1Q VLAN tags.

The model is one module per concern:

- `Common` (common.dfy): the plugin's error values and their messages.
- `Strings` and `Strconv` (strings.dfy, strconv.dfy): the parts of Go's `strings` and `strconv` packages that the core relies on. They are modelled so that the messages and numbers come out as Go computes them.
- `Foreign` (foreign.dfy): the failure outcome of an external call (`Fault`), and the address parsers of Go's `net` package, passed in as functions.
- `Netlink` (netlink.dfy): the host's links as a value (`LinkState`) and a `Host` object whose methods are the netlink calls. Each call fails exactly when its `Fault` argument says so. A lookup also fails when no link has the name. Deleting one end of a veth pair removes both ends.
- `Config` (config.dfy): the network configuration and its two parsers, `parseIPAM` and `parseLabels`.
- `Endpoints` (endpoints.dfy): the endpoint table of a network as a class, with veth creation and its deferred roll-back, and deletion.
- `Networks` (networks.dfy): the local cache of networks and the shared store as a class. It also holds the creation and removal of the VLAN interface and bridge.
- `Driver` (driver.dfy): the driver's request handlers.
- `Ipam` (ipam.dfy): the address manager.
- `Store` (store.dfy): the reading of the store address.
- `Ethernet` (ethernet.dfy): the frame codec, with `Frame` as a class that is marshalled into an array and unmarshalled in place.

Each state-changing method takes the outcomes of its external calls as parameters.
It is proved equal to a pure function of the old state, its inputs and those outcomes, for example `Endpoints.CreateSpec` or `Networks.CreateLinkSpec`.
The properties the code promises are proved as lemmas about those functions.

Two roll-backs in the code are incomplete, and the model keeps them as the code is written:

- When createLink has just made the VLAN interface and then cannot create the bridge, it returns without deleting the VLAN interface (net/networks.go:80-82; `Networks.CreateLinkKeepsVlanOnBridgeError`).
- When endpoints.create cannot look up the host end of the new veth pair, it returns before either deferred delete is registered, so the pair stays (net/endpoints.go:56-59; `Endpoints.CreateKeepsPairOnHostLookupError`).

## Model

| member | source | states |
|---|---|---|
| Common.Text | common/error.go:5-24 | ErrMissingParameterMap's message is always "parameter map not passed from engine"; a message exists for every error except the three typed errors declared elsewhere and netlink errors wrapping them |
| Common.MissingParamTextShape | common/error.go:5-9 | ErrMissingParam's message is "param " then the parameter then " not given" |
| Common.MissingParamTextInjective | common/error.go:5-9 | two ErrMissingParam messages are equal exactly when the parameters are |
| Common.NetlinkErrorText | common/error.go:17-24 | ErrNetlinkError keeps the action and the cause, and its message is "netlink: <action> error: <cause's message>" |
| Common.NetlinkErrorTextInjective | common/error.go:17-24 | for one cause, two netlink messages are equal exactly when the actions are |
| Strings.Index | store.go:20 | the position is the first occurrence of the separator, or -1 when it does not occur |
| Strings.Split | store.go:24 | splitting always gives at least one piece |
| Strings.JoinSplit | store.go:24-26 | joining the pieces of a split with the separator gives the text back |
| Strings.SplitPiecesFree | store.go:24-26 | no piece of a split contains the separator |
| Strings.SplitJoin | ipam/driver.go:47-68 | splitting a join of separator-free pieces gives the pieces back |
| Strings.Join | ipam/driver.go:47 | the join starts with the first piece, followed by the separator when there is a second |
| Strconv.Atoi | net/driver.go:64 | a parsed value lies in the 64-bit range; an error is a library error |
| Strconv.ParseBool | net/networks.go:303 | an error is a library error |
| Strconv.ScanDigitsValue | net/driver.go:64 | the digit loop yields the decimal value of the digits whenever that value fits 64 bits |
| Strconv.DecimalValue | net/driver.go:69 | the digits printed for a natural number have that number as their value |
| Strconv.AtoiItoa | net/driver.go:64-72 | Atoi reads back every 64-bit integer that Itoa prints |
| Strconv.Itoa | net/driver.go:69-72 | the text is digits, with a leading minus exactly for a negative number |
| Foreign.ParseCIDR | net/networks.go:283-288 | a text parses exactly when the parser accepts it; otherwise the error is "invalid CIDR address: <text>" |
| Netlink.Lookup | net/networks.go:62 | a lookup succeeds exactly when a link has the name and the call does not fail; an absent name gives "Link <name> not found" |
| Netlink.WithoutLink | net/endpoints.go:60-75 | deleting a link removes it and its veth peer, drops their attributes and enslavements, and keeps every other link |
| Netlink.Host.constructor | net/driver.go:29 | the host whose links the netlink calls read and change starts with the given links |
| Netlink.Host.LinkByName | net/networks.go:62 | the lookup result, with the links unchanged |
| Netlink.Host.LinkAdd | net/networks.go:68 | on success a link of the name exists; on failure the links are unchanged |
| Netlink.Host.LinkAddPair | net/endpoints.go:47-53 | on success both ends exist and are each other's peer; on failure the links are unchanged |
| Netlink.Host.LinkDel | net/networks.go:86 | on success the link and its peer are gone; on failure the links are unchanged |
| Netlink.Host.LinkSetUp | net/networks.go:71 | on success the link is up; on failure the links are unchanged |
| Netlink.Host.LinkSetDown | net/networks.go:102 | on success the link is down; on failure the links are unchanged |
| Netlink.Host.LinkSetMaster | net/networks.go:88 | on success the link's master is the bridge; on failure the links are unchanged |
| Netlink.Host.LinkSetMTU | net/endpoints.go:79 | on success the link has the MTU; on failure the links are unchanged |
| Netlink.Host.LinkSetHardwareAddr | net/endpoints.go:121 | on success the link has the hardware address; on failure the links are unchanged |
| Config.ParseIPAM | net/networks.go:271-291 | it succeeds exactly with one IPv4 pool, at most one IPv6 pool and a parseable gateway, and then only the IPv4 gateway changes; each failure has its own message |
| Config.ParseLabels | net/networks.go:293-310 | a parsed configuration differs from the input only in the MTU and the IPv6 flag |
| Config.ParseLabelsMeaning | net/networks.go:293-314 | parsing succeeds exactly when every label is a string and the MTU and IPv6 labels parse; then every such label is applied; otherwise the error is for the first bad label in iteration order: a panic for a non-string, a bad request for a value that does not parse |
| Config.ParseLabelsOrderFree | net/networks.go:295 | two iteration orders of the same labels both succeed with the same configuration, or both fail |
| Config.ParseErr | net/networks.go:312-314 | a bad request whose message is "failed to parse ", the label, " value: ", the value, and the library's message in parentheses |
| Endpoints.SetMtus | net/endpoints.go:77-87 | both ends take the network's MTU exactly when it sets one and neither call fails; no other attribute changes |
| Endpoints.SetBridge | net/endpoints.go:89-96 | success exactly when the bridge exists, its lookup and the set-master call succeed, and then only the host end's master changes, to the bridge |
| Endpoints.SetAddresses | net/endpoints.go:98-124 | success exactly when the address parses and, when a hardware address is asked for, it parses and both calls succeed; then the sandbox end carries it; only the up flags and hardware addresses change |
| Endpoints.BringUp | net/endpoints.go:126-133 | success exactly when the host end comes up and IPv6 is off; the host end is up whenever its call succeeded |
| Endpoints.Configure | net/endpoints.go:77-133 | the configuring steps never add or remove a link, and a network with IPv6 enabled always fails |
| Endpoints.ConfigureOutcome | net/endpoints.go:77-133 | the configuring steps succeed exactly when each does; then the host end is up and enslaved to the bridge, both ends carry the MTU, and the sandbox end carries the hardware address |
| Endpoints.CreateSpec | net/endpoints.go:32-138 | a created endpoint is named by the generated sandbox name, and both ends exist afterwards; IPv6 always fails |
| Endpoints.CreateOutcome | net/endpoints.go:32-138 | create succeeds exactly when every step does; then exactly the two new ends are added, they are peers, and the host end is up and on the bridge |
| Endpoints.CreateRollsBack | net/endpoints.go:56-75 | once both ends were found, a failure removes the pair again, even when one of the two deferred deletes fails |
| Endpoints.CreateRollsBackFresh | net/endpoints.go:56-75 | with freshly generated names, a create that fails after both ends were found leaves the host's links as they were |
| Endpoints.CreateKeepsPairOnHostLookupError | net/endpoints.go:51-64 | a failed lookup of the host end returns before any deferred delete is registered, so the new pair stays |
| Endpoints.DeleteSpec | net/endpoints.go:140-162 | an unknown id gives ErrNoEndpoint and changes nothing; a failed link delete puts the entry back and changes nothing; success removes the entry, and the sandbox end when it was found |
| Endpoints.Endpoints.constructor | net/endpoints.go:26-30 | the table starts empty |
| Endpoints.Endpoints.Vacant | net/endpoints.go:170-178 | no error exactly when the id is free; otherwise ErrEndpointExists |
| Endpoints.Endpoints.Get | net/endpoints.go:180-188 | the entry exactly when the id is taken; otherwise ErrNoEndpoint |
| Endpoints.Endpoints.Add | net/endpoints.go:164-168 | the table maps the id to the endpoint and is otherwise unchanged |
| Endpoints.Endpoints.Rm | net/endpoints.go:190-194 | the table loses the id and is otherwise unchanged |
| Endpoints.Endpoints.Length | net/driver.go:127 | the count is zero exactly when the table is empty |
| Endpoints.Endpoints.SetMtusLinks | net/endpoints.go:77-87 | the links and the error are those of SetMtus |
| Endpoints.Endpoints.SetBridgeLinks | net/endpoints.go:89-96 | the links and the error are those of SetBridge |
| Endpoints.Endpoints.SetAddressesLinks | net/endpoints.go:98-124 | the links and the error are those of SetAddresses |
| Endpoints.Endpoints.BringUpLinks | net/endpoints.go:126-133 | the links and the error are those of BringUp |
| Endpoints.Endpoints.ConfigureLinks | net/endpoints.go:77-133 | the links and the result are those of Configure |
| Endpoints.Endpoints.Create | net/endpoints.go:32-138 | the links are those of CreateSpec; the endpoint is recorded on success, and on failure the table is unchanged |
| Endpoints.Endpoints.Delete | net/endpoints.go:140-162 | the table, the links and the error are those of DeleteSpec |
| Networks.Key | net/networks.go:17-19 | the key is the prefix followed by the network id, so the id can be read back |
| Networks.KeyInjective | net/networks.go:17-19 | distinct networks have distinct keys |
| Networks.Decode | net/networks.go:247-251 | decoding reads back an encoded configuration, and reports the decoder's message otherwise |
| Networks.InShared | net/networks.go:226-232 | the store holds the network exactly when Exists succeeds and the key is present |
| Networks.FromShared | net/networks.go:245-256 | a configuration is read exactly when Get succeeds on a decodable document; a missing key gives the store's "Key not found in store" |
| Networks.CreateSpec | net/networks.go:120-144 | a failed create changes nothing; a successful one caches a network that was not cached and stores its encoded configuration under its key |
| Networks.GetSpec | net/networks.go:208-219 | get never changes the store; it succeeds exactly when the network is cached or readable from the store, and then the cache holds what it returns; a failed get changes nothing |
| Networks.CreateLinkSpec | net/networks.go:60-98 | on success both the VLAN interface and the bridge exist; every error is a netlink error |
| Networks.TakeDown | net/networks.go:101-116 | a link that could be looked up is gone after success; a failure is a netlink error that removes no link |
| Networks.DeleteLinkSpec | net/networks.go:100-118 | no link is added; with both lookups answered, success leaves neither the bridge nor the VLAN interface |
| Networks.DeleteSpec | net/networks.go:146-161 | the network always leaves the cache; the store record is kept when Exists does not report it and removed when the delete succeeds; the links change only for a cached network |
| Networks.CreateRefusesExisting | net/networks.go:120-124 | a network that is cached or reported by the store is refused and nothing changes |
| Networks.CreateStores | net/networks.go:120-144 | an accepted network is stored under its key and cached when the write succeeds; a failed write changes nothing |
| Networks.CreateThenGet | net/networks.go:208-219 | after create, get finds the network locally, and any other host finds it through the store |
| Networks.GetCaches | net/networks.go:208-219 | get caches what it reads, and a second get returns the same and changes nothing |
| Networks.DeleteThenGet | net/networks.go:146-161 | after a delete whose requests succeed, the network is neither cached nor stored |
| Networks.DeleteUnderExistsError | net/networks.go:155-159 | a delete whose Exists request fails keeps the stored configuration, so get brings the network back |
| Networks.CreateLinkNoOp | net/networks.go:60-98 | on any host where links named like the VLAN interface and the bridge already exist, createLink whose lookups succeed creates nothing, changes nothing and returns no error |
| Networks.CreateLinkIdempotent | net/networks.go:60-98 | after a successful createLink both links exist, so by CreateLinkNoOp a second createLink changes nothing |
| Networks.CreateLinkAttaches | net/networks.go:76-95 | when createLink makes the bridge, the bridge is up and the VLAN interface is its slave |
| Networks.CreateLinkRollsBack | net/networks.go:84-91 | a bridge that cannot be attached to the VLAN interface is deleted again, and a netlink error is returned |
| Networks.CreateLinkKeepsVlanOnBridgeError | net/networks.go:62-83 | a bridge that cannot be created leaves behind, up, the VLAN interface the same call has just made |
| Networks.DeleteLinkRemoves | net/networks.go:100-118 | with every call accepted, neither link is left and there is no error |
| Networks.DeleteLinkAbsent | net/networks.go:100-118 | a host with neither link is left unchanged, without error |
| Networks.Networks.constructor | net/networks.go:45-51 | the cache starts empty over the given store and host |
| Networks.Networks.ExistLocal | net/networks.go:221-224 | true exactly when the network is cached |
| Networks.Networks.GetLocal | net/networks.go:234-243 | the cached record exactly when the network is cached; otherwise ErrNoNetwork |
| Networks.Networks.AddGlobal | net/networks.go:163-173 | the configuration is written under the network's key, or the store is unchanged and the error names the network id |
| Networks.Networks.AddLocal | net/networks.go:175-206 | the record is cached and the store is unchanged |
| Networks.Networks.GetGlobal | net/networks.go:245-256 | a new record with an empty endpoint table for the stored configuration, or the store's error |
| Networks.Networks.RmGlobal | net/networks.go:258-263 | the key is deleted, or the store is unchanged and the error names the network id |
| Networks.Networks.RmLocal | net/networks.go:265-269 | the record is dropped from the cache and the store is unchanged |
| Networks.Networks.CreateLink | net/networks.go:60-98 | the links and the error are those of CreateLinkSpec |
| Networks.Networks.TakeDownLink | net/networks.go:101-108 | a found link is brought down and deleted, with a netlink error for the step that fails |
| Networks.Networks.DeleteLink | net/networks.go:100-118 | the links and the error are those of DeleteLinkSpec |
| Networks.Networks.Create | net/networks.go:120-144 | the cache, the store and the error are those of CreateSpec; a created network has a fresh empty endpoint table |
| Networks.Networks.Get | net/networks.go:208-219 | the cache and the result are those of GetSpec; a cached record is returned as it is, and a stored one gets a fresh empty endpoint table |
| Networks.Networks.Delete | net/networks.go:146-161 | the cache, the store, the links and the error are those of DeleteSpec |
| Driver.Labels | net/driver.go:59-61 | the generic option map exactly when the request carries one that is a map |
| Driver.StringLabel | net/driver.go:62-74 | a label read as a string: its text when it is a string, and empty when it is missing or of another type |
| Driver.Initial | net/driver.go:68-80 | the VLAN id, MTU 1500, IPv6 off and no gateways; the given interface and bridge names, or "vlan" and "bran" followed by the printed VLAN id |
| Driver.DefaultNames | net/driver.go:68-74 | the default interface and bridge names differ, and the VLAN id reads back from each |
| Driver.ParseOptions | net/driver.go:59-86 | no generic options give ErrMissingParameterMap, a missing or empty vlan gives ErrMissingParam("vlan"), a vlan that Atoi rejects gives "could not parse <v> as an integer (<Atoi's message>)", a failing parseIPAM returns its error whatever the labels hold, and a parsed network has the vlan label's number |
| Driver.ParseOptionsMeaning | net/driver.go:59-86 | an accepted network has its single gateway, the default or given names, and every label applied, in any iteration order |
| Driver.ParseOptionsExample | net/driver.go:68-80 | vlan=42 gives the interface vlan42, the bridge bran42, the VLAN id 42, the MTU 1500 and IPv6 off |
| Driver.Driver.constructor | net/driver.go:28-40 | the driver keeps its scope and its networks |
| Driver.Driver.CreateNetwork | net/driver.go:49-91 | a parse error is returned with nothing changed; otherwise the outcome is that of networks.create |
| Driver.Driver.DeleteNetwork | net/driver.go:93-96 | the outcome is that of networks.delete |
| Driver.Driver.CreateEndpoint | net/driver.go:98-117 | a nil interface is refused; then the network is fetched, a taken id is refused, the links are made and the endpoint is created, and no other network's endpoints change |
| Driver.Driver.CreateInNetwork | net/driver.go:109-116 | for a found network: a taken id is refused with nothing changed, a failing createLink is returned with its links, and otherwise links and table are those of endpoints.create |
| Driver.Driver.DeleteInNetwork | net/driver.go:126-131 | for a found network: the table is that of endpoints.delete, and the network's links are deleted exactly when that succeeded and left the table empty |
| Driver.Driver.DeleteEndpoint | net/driver.go:119-132 | the endpoint is deleted, and when it was the network's last one the network's links are deleted too; no other network's endpoints change |
| Driver.Driver.Join | net/driver.go:139-159 | the response holds the network's gateway and the endpoint's sandbox end with the prefix "eth"; an unknown network or endpoint gives its error |
| Driver.Driver.Leave | net/driver.go:161-165 | never an error |
| Ipam.GetDefaultAddressSpaces | ipam/driver.go:24-27 | always "dhcplocal" and "dhcpglobal", without error |
| Ipam.RequestPool | ipam/driver.go:29-52 | a pool is given exactly when the pool and any sub-pool parse; it is named after the subnet and the range and has the subnet as its gateway; a parse failure is returned as it is |
| Ipam.ReleasePool | ipam/driver.go:54-57 | never an error |
| Ipam.RequestAddress | ipam/driver.go:59-86 | the old-style pool gives nothing, a badly formed pool id gives "Unrecognized pool ID: <id>", an unparseable subnet part and then an unparseable range part give net.ParseCIDR's error for that part, and the request reaches the allocation exactly when the id is well formed and both parts parse, with the parsed subnet and range |
| Ipam.ReleaseAddress | ipam/driver.go:88-92 | never an error |
| Ipam.PoolNameSplits | ipam/driver.go:47-68 | a pool name splits back into "weave", its subnet and its range |
| Ipam.PoolPassesRequestAddress | ipam/driver.go:29-86 | every pool that RequestPool hands out passes RequestAddress's check, which then reads back its subnet and range |
| Store.ParseStoreUrl | store.go:19-27 | there is always at least one address; joining the addresses gives back the input without a scheme, or the text after the first "://"; no address holds a comma |
| Store.FirstSchemeSeparates | store.go:20 | the backend never contains "://" |
| Store.DefaultSchemeExplicit | store.go:22-24 | an address without a scheme reads as the same addresses given with the "nodes://" scheme |
| Ethernet.FirstInvalid | vendor/github.com/mdlayher/ethernet/ethernet.go:123-130 | the first tag that cannot be marshalled, after only valid ones |
| Ethernet.Be32BytesInverse | vendor/github.com/mdlayher/ethernet/ethernet.go:110 | the big-endian bytes of a checksum read back as that checksum |
| Ethernet.TagRoundTrip | vendor/github.com/mdlayher/ethernet/ethernet.go:123-130 | a valid tag's two bytes read back as that tag |
| Ethernet.TagBytesRoundTrip | vendor/github.com/mdlayher/ethernet/ethernet.go:167-172 | two bytes that read as a tag are that tag's encoding |
| Ethernet.EncodeTag | vendor/github.com/mdlayher/ethernet/ethernet.go:127-130 | a valid tag's body is two bytes, which TagRoundTrip reads back |
| Ethernet.DecodeTag | vendor/github.com/mdlayher/ethernet/ethernet.go:167-172 | a tag that reads back is valid |
| Ethernet.Rejected | vendor/github.com/mdlayher/ethernet/ethernet.go:123-130 | the buffer keeps its size when read stops at an invalid tag |
| Ethernet.Encode | vendor/github.com/mdlayher/ethernet/ethernet.go:84-88 | the marshalled frame has length() bytes |
| Ethernet.EncodeFCS | vendor/github.com/mdlayher/ethernet/ethernet.go:101-112 | the frame with a checksum has length()+4 bytes, the plain frame in front and the big-endian checksum of it in the last four |
| Ethernet.EncodeIsWire | vendor/github.com/mdlayher/ethernet/ethernet.go:116-140 | the marshalled bytes are the addresses fitted to six bytes, each tag as 0x8100 and its body, the EtherType, and the payload zero-padded to 46 bytes |
| Ethernet.MarshalledPrefix | vendor/github.com/mdlayher/ethernet/ethernet.go:101-110 | in MarshalFCS's longer buffer the payload never reaches the last four bytes |
| Ethernet.ScanTags | vendor/github.com/mdlayher/ethernet/ethernet.go:158-176 | a scan without error ends inside the buffer at a non-VLAN EtherType, with valid tags |
| Ethernet.Decode | vendor/github.com/mdlayher/ethernet/ethernet.go:149-196 | fewer than 14 bytes give ErrUnexpectedEOF; a decoded frame has six-byte addresses, valid tags and a non-VLAN EtherType |
| Ethernet.DecodeFCS | vendor/github.com/mdlayher/ethernet/ethernet.go:214-228 | fewer than 4 bytes give ErrUnexpectedEOF, a wrong checksum gives ErrInvalidFCS, and otherwise the frame is read from all but the last four bytes |
| Ethernet.ScanWire | vendor/github.com/mdlayher/ethernet/ethernet.go:158-176 | the scan over laid-out tags reads exactly those tags and the EtherType after them |
| Ethernet.ScanSplits | vendor/github.com/mdlayher/ethernet/ethernet.go:158-176 | bytes that scan without error are laid out as the tags and the EtherType found, followed by the rest |
| Ethernet.WireRoundTrip | vendor/github.com/mdlayher/ethernet/ethernet.go:149-196 | six-byte addresses, valid tags, a non-VLAN EtherType and any payload, laid out, read back unchanged |
| Ethernet.DecodeRoundTrip | vendor/github.com/mdlayher/ethernet/ethernet.go:149-196 | bytes that read without error are exactly the layout of what they read as |
| Ethernet.MarshalRoundTrip | vendor/github.com/mdlayher/ethernet/ethernet.go:116-196 | a marshalled frame with valid tags and a non-VLAN EtherType unmarshals to the same tags and EtherType, its addresses fitted to six bytes, and its payload zero-padded to 46 bytes |
| Ethernet.MarshalFCSRoundTrip | vendor/github.com/mdlayher/ethernet/ethernet.go:101-228 | a frame marshalled with a checksum passes the check and unmarshals as the plain frame does |
| Ethernet.Frame.constructor | vendor/github.com/mdlayher/ethernet/ethernet.go:51-77 | a new frame has empty fields |
| Ethernet.Frame.Length | vendor/github.com/mdlayher/ethernet/ethernet.go:231-245 | length() is 14 + 4 per tag + the payload length, at least 46 |
| Ethernet.Frame.Read | vendor/github.com/mdlayher/ethernet/ethernet.go:116-140 | with every tag valid, the buffer holds the marshalled frame and its length is returned; otherwise the error is ErrInvalidVLAN, 0 is returned, and the buffer is filled up to the first invalid tag's 0x8100 |
| Ethernet.Frame.MarshalBinary | vendor/github.com/mdlayher/ethernet/ethernet.go:84-88 | exactly length() bytes; the frame's encoding when every tag is valid, and ErrInvalidVLAN otherwise |
| Ethernet.Frame.MarshalFCS | vendor/github.com/mdlayher/ethernet/ethernet.go:101-112 | the encoding with its checksum when every tag is valid; nothing and ErrInvalidVLAN otherwise |
| Ethernet.Frame.UnmarshalBinary | vendor/github.com/mdlayher/ethernet/ethernet.go:149-196 | the tags read are appended to the frame's own, also up to an error; the other fields are set to the decoded ones on success and are untouched on error |
| Ethernet.Frame.UnmarshalFCS | vendor/github.com/mdlayher/ethernet/ethernet.go:214-228 | a short buffer or wrong checksum leaves the frame as it was; otherwise it is UnmarshalBinary of all but the last four bytes |

## Left out

- The watcher goroutine that `addLocal` starts (net/networks.go:176-200) is not modelled, because it exists for concurrency and KV watch channels. `addLocal` is a plain insert. Nothing ever signals a network's watcher channel, and `delete` does not either.
- All `sync.RWMutex` locking is left out. The code is modelled as sequential.
- `GetCapabilities` and `EndpointInfo` (net/driver.go:42-47, 134-137) are not modelled: they only return fixed data. Of `NewDriver` (net/driver.go:28-40) only the stored scope and networks are modelled (`Driver.Driver.constructor`); the lookup of the base interface is I/O. `networkNew` is inlined where the code calls it.
- The kernel behind netlink is an abstract set of link names with up, master, MTU and hardware-address attributes and veth peers. Link kinds, the VLAN's parent interface and its VLAN id are not tracked. The set-calls (`Netlink.Host.LinkSetUp`, `LinkSetDown`, `LinkSetMaster`, `LinkSetMTU`, `LinkSetHardwareAddr`) do not check that the link exists, so on an absent name they succeed and can record an attribute for a name that is not a link; the kernel would refuse them. Every call site in the model comes after a successful lookup or add of that name, so no proved property depends on this.
- `json.Marshal` and `json.Unmarshal` of a configuration are taken to be inverse: a stored document is either an encoded configuration or undecodable bytes.
- `netutils.GenerateIfaceName`, `net.ParseCIDR`, `net.ParseMAC`, the store's requests and CRC-32 are parameters of the operations that call them. Each netlink call's failure is a `Fault` parameter. MAC addresses are sequences of integers.
- Strconv.Quote: escapes only quotes and backslashes, which covers the messages the core builds from well-formed text.
- Endpoints.Endpoints.Create: the type assertion `br.(*netlink.Bridge)` (net/endpoints.go:94) panics when the bridge's name belongs to some other kind of link. The model does not track link kinds, so it omits that panic.
- Endpoints.DeleteSpec: a lookup of the sandbox end that fails for a reason other than absence counts as success without deleting, as the code does. The contract that the sandbox end is gone is therefore stated only when the lookup had no fault.
- `endpoints.length()` is called at net/driver.go:127 but is not defined in the shown files. It is taken to be the number of entries in the table (`Endpoints.Endpoints.Length`).
- Ipam.RequestPool: a request without a pool reaches a commented-out call for the default subnet (ipam/driver.go:32-33). The model returns the `NoDefaultSubnet` outcome for it.
- Ipam.RequestAddress: after both parses the code allocates through a commented-out call and then dereferences a nil address (ipam/driver.go:81-84). The model returns the `Unallocated` outcome with the parsed subnet and range.
- Partial values that Go returns alongside an error are not modelled, for example the half-filled endpoint or the partially updated configuration. Only the error is returned.
- The import paths of the `net` package do not agree (`github.com/xytis/deecper/common` and `github.com/xytis/polyp/common`). They are taken to name the same package.
- `skel/listener.go` (HTTP and JSON plumbing), `main.go`, `NewStore` and the ARP client are I/O and are not part of this model.
- The VLAN tag body codec lives in a `vlan.go` that is not part of this model. It is modelled by the tag control information layout of section 9.6 of IEEE 802.1Q: 3 bits of priority, 1 drop eligible bit, 12 bits of VLAN ID. Marshalling refuses a priority above 7 or an ID above 4094, and unmarshalling refuses the ID 0xfff, as the doc comments of ethernet.go state. A VLAN tag held as a nil pointer, which panics in Go, cannot occur in the model.
- Ethernet.Frame.Read: requires a buffer of at least length() bytes. Go's read panics only below 14 + 4 bytes per tag; between that and length() it silently truncates the payload or its padding and still returns the buffer's length without error. The model does not capture that truncation; read is unexported, and its two callers allocate length() and length() + 4 bytes.
