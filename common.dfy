/** Error values of the plugin (common/error.go) together with the typed errors
    that the network driver returns, and the Option/Result wrappers the rest of
    the model uses for Go's (value, error) pairs. */
module Common {

  datatype Option<+T> = None | Some(value: T)

  datatype Result<+T> = Ok(value: T) | Err(error: Error)

  /** Every error value the modelled code can return. */
  datatype Error =
    /** ErrMissingParam: a required option is missing. */
    | MissingParam(param: string)
    /** ErrMissingParameterMap: the generic option map is missing. */
    | MissingParameterMap
    /** ErrNetlinkError: the action that was attempted and the error it met. */
    | NetlinkError(action: string, cause: Error)
    /** ErrNoNetwork, ErrNoEndpoint, ErrEndpointExists: typed errors of the common
        package whose message formats are declared outside common/error.go. */
    | NoNetwork(nid: string)
    | NoEndpoint(eid: string)
    | EndpointExists(eid: string)
    /** types.ForbiddenErrorf, types.BadRequestErrorf, types.InternalErrorf. */
    | Forbidden(text: string)
    | BadRequest(text: string)
    | Internal(text: string)
    /** errors.New and fmt.Errorf. */
    | Plain(text: string)
    /** An error produced by a library or by the kernel, kept as its message. */
    | Foreign(text: string)
    /** A Go run-time panic (a failed type assertion); the source does not return it. */
    | Panic(text: string)

  /** The message Error() returns; None for the three errors whose formats are
      not part of this model. */
  function Text(e: Error): (r: Option<string>)
    ensures e.MissingParameterMap? ==> r == Some("parameter map not passed from engine")
    ensures r.None? <==> e.NoNetwork? || e.NoEndpoint? || e.EndpointExists? ||
                         (e.NetlinkError? && Text(e.cause).None?)
  {
    match e
    case MissingParam(p) => Some("param " + p + " not given")
    case MissingParameterMap => Some("parameter map not passed from engine")
    case NetlinkError(a, cause) =>
      (match Text(cause)
       case Some(t) => Some("netlink: " + a + " error: " + t)
       case None => None)
    case NoNetwork(_) => None
    case NoEndpoint(_) => None
    case EndpointExists(_) => None
    case Forbidden(t) => Some(t)
    case BadRequest(t) => Some(t)
    case Internal(t) => Some(t)
    case Plain(t) => Some(t)
    case Foreign(t) => Some(t)
    case Panic(t) => Some(t)
  }

  /** The parameter name can be read back from an ErrMissingParam message, so
      distinct names give distinct messages. */
  lemma MissingParamTextInjective(p: string, q: string)
    ensures Text(MissingParam(p)) == Text(MissingParam(q)) <==> p == q
  {
    if Text(MissingParam(p)) == Text(MissingParam(q)) {
      var s, t := "param " + p + " not given", "param " + q + " not given";
      assert s == t;
      assert |p| == |q|;
      assert p == s[6..6 + |p|];
      assert q == t[6..6 + |q|];
    }
  }

  /** The message of ErrMissingParam starts with "param " and ends with " not given". */
  lemma MissingParamTextShape(p: string)
    ensures Text(MissingParam(p)).Some?
    ensures var m := Text(MissingParam(p)).value;
      |m| == |p| + 16 && m[..6] == "param " && m[6..6 + |p|] == p && m[6 + |p|..] == " not given"
  {
  }

  /** ErrNetlinkError's message is the action and the cause's message in a fixed frame,
      and the error keeps both unchanged as fields. */
  lemma NetlinkErrorText(action: string, cause: Error)
    ensures var e := NetlinkError(action, cause);
      e.action == action && e.cause == cause &&
      (Text(e).Some? <==> Text(cause).Some?) &&
      (Text(cause).Some? ==> Text(e) == Some("netlink: " + action + " error: " + Text(cause).value))
  {
  }

  /** Two netlink errors about the same cause have the same message only when
      their actions are the same. */
  lemma NetlinkErrorTextInjective(a: string, b: string, cause: Error)
    requires Text(cause).Some?
    ensures Text(NetlinkError(a, cause)) == Text(NetlinkError(b, cause)) <==> a == b
  {
    var t := Text(cause).value;
    if Text(NetlinkError(a, cause)) == Text(NetlinkError(b, cause)) {
      var s, u := "netlink: " + a + " error: " + t, "netlink: " + b + " error: " + t;
      assert s == u;
      assert |a| == |b|;
      assert a == s[9..9 + |a|];
      assert b == u[9..9 + |b|];
    }
  }
}
