/** What the core receives from code it calls but that is not part of this
    model: the outcome of an external step, and the results of Go's net
    package parsers. */
module Foreign {
  import opened Common

  /** The outcome of one external step (a netlink call, a store request):
      None when it succeeds, Some(message) when it fails with that message. */
  type Fault = Option<string>

  /** A character of the printed form of an IP address or network: hexadecimal
      digits, dots, colons and the prefix slash. */
  predicate AddressChar(c: char)
  {
    ('0' <= c <= '9') || ('a' <= c <= 'f') || ('A' <= c <= 'F') || c == '.' || c == ':' || c == '/'
  }

  /** The text net.IP.String and net.IPNet.String print for a non-nil value. */
  type AddrText = s: string | forall i :: 0 <= i < |s| ==> AddressChar(s[i]) witness ""

  /** The two results of net.ParseCIDR: the address and the network it lies in. */
  datatype Cidr = Cidr(ip: AddrText, network: AddrText)

  /** net.ParseCIDR, which is not part of this model: a text is accepted (Some) or not. */
  type CidrParser = string -> Option<Cidr>

  /** net.ParseMAC, which is not part of this model. */
  type MacParser = string -> Option<seq<int>>

  /** net.ParseCIDR with the message of the *net.ParseError it returns. */
  function ParseCIDR(parse: CidrParser, s: string): (r: Result<Cidr>)
    ensures r.Ok? <==> parse(s).Some?
    ensures r.Ok? ==> r.value == parse(s).value
    ensures r.Err? ==> r.error == Foreign("invalid CIDR address: " + s)
  {
    match parse(s)
    case Some(c) => Ok(c)
    case None => Err(Foreign("invalid CIDR address: " + s))
  }

  /** net.IP.String of an address that may be nil. */
  function IPString(ip: Option<AddrText>): string
  {
    match ip
    case Some(a) => a
    case None => "<nil>"
  }

  /** The printed form of an address or network never holds a dash. */
  lemma AddrTextHasNoDash(a: AddrText)
    ensures '-' !in a
  {
  }
}
