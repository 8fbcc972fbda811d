/** `getSocketUrl`: the merge of the script/query URL with the page location
    under fixed precedence rules. */
module Merge {
  import opened Wrappers
  import opened Url

  /** The IPv4 all-interfaces address. */
  const AnyAddressV4 := "0.0.0.0"
  /** The IPv6 all-interfaces address. */
  const AnyAddressV6 := "::"
  /** The loopback address that keeps its own protocol. */
  const Loopback := "127.0.0.1"
  /** The page protocol that forces a matching socket protocol. */
  const SecureProtocol := "https:"
  /** The prefix a page protocol needs for the all-interfaces rewrite. */
  const HttpPrefix := "http"
  /** The pathname used when `sockPath` is not given. */
  const DefaultSockPath := "/sockjs-node"

  /** The exception the merge can raise: `loc.protocol.startsWith` on a
      location without a protocol is a TypeError. */
  datatype MergeError = LocationProtocolMissing

  predicate IsAnyAddress(hostname: Option<string>) {
    hostname == Some(AnyAddressV4) || hostname == Some(AnyAddressV6)
  }

  /** The port before query overrides: the script's own port unless it is
      absent, empty or "0". */
  function MergedPort(parts: UrlParts, loc: UrlParts): Option<string> {
    if !Truthy(parts.port) || parts.port == Some("0") then loc.port else parts.port
  }

  /** The hostname before query overrides: an all-interfaces hostname is
      replaced by the page's hostname on an http(s) page. */
  function RewrittenHostname(parts: UrlParts, loc: UrlParts): Result<Option<string>, MergeError> {
    if IsAnyAddress(parts.hostname) && Truthy(loc.hostname) then
      if loc.protocol.None? then Err(LocationProtocolMissing)
      else if HttpPrefix <= loc.protocol.value then Ok(loc.hostname)
      else Ok(parts.hostname)
    else Ok(parts.hostname)
  }

  /** The protocol: the page's, for a non-empty, non-loopback hostname on a
      secure page or when the script named the IPv4 all-interfaces address
      (that last condition looks at the hostname as the script gave it). */
  function ChosenProtocol(parts: UrlParts, loc: UrlParts, hostname: Option<string>): Option<string> {
    if && Truthy(hostname)
       && hostname != Some(Loopback)
       && (loc.protocol == Some(SecureProtocol) || parts.hostname == Some(AnyAddressV4))
    then loc.protocol
    else parts.protocol
  }

  /** The socket URL record for the script/query URL `parts` and the page
      location `loc`. */
  function GetSocketUrl(parts: UrlParts, loc: UrlParts): (r: Result<SocketUrl, MergeError>)
    ensures r.Err? <==> IsAnyAddress(parts.hostname) && Truthy(loc.hostname) && loc.protocol.None?
    ensures r.Ok? ==> r.value.auth == parts.auth
    ensures r.Ok? ==> r.value.pathname != []
    ensures r.Ok? ==>
      r.value.pathname == DefaultSockPath || Some(r.value.pathname) == QueryParam(parts.query, "sockPath")
  {
    var port := MergedPort(parts, loc);
    match RewrittenHostname(parts, loc)
    case Err(e) => Err(e)
    case Ok(hostname) =>
      var protocol := ChosenProtocol(parts, loc, hostname);
      Ok(SocketUrl(
        protocol,
        parts.auth,
        Or(QueryParam(parts.query, "sockHost"), hostname),
        Or(QueryParam(parts.query, "sockPort"), port),
        OrElse(QueryParam(parts.query, "sockPath"), DefaultSockPath)))
  }

  /** Whether the all-interfaces rewrite of the hostname takes place. */
  predicate HostnameRewritten(parts: UrlParts, loc: UrlParts) {
    && IsAnyAddress(parts.hostname)
    && Truthy(loc.hostname)
    && loc.protocol.Some?
    && HttpPrefix <= loc.protocol.value
  }

  /** Port fallback: without a `sockPort` override the socket port is the
      script's port, unless that is absent, empty or "0", in which case it is
      the page's port; a non-empty `sockPort` always wins. */
  lemma PortPrecedence(parts: UrlParts, loc: UrlParts)
    requires GetSocketUrl(parts, loc).Ok?
    ensures var sockPort := QueryParam(parts.query, "sockPort");
      var out := GetSocketUrl(parts, loc).value;
      var unusable := parts.port.None? || parts.port == Some("") || parts.port == Some("0");
      && (Truthy(sockPort) ==> out.port == sockPort)
      && (!Truthy(sockPort) && unusable ==> out.port == loc.port)
      && (!Truthy(sockPort) && !unusable ==> out.port == parts.port)
  {
  }

  /** Hostname rewrite: without a `sockHost` override the socket hostname is
      the page's hostname exactly when the script named an all-interfaces
      address, the page has a hostname and the page protocol starts with
      "http"; otherwise it is the script's hostname unchanged. */
  lemma HostnamePrecedence(parts: UrlParts, loc: UrlParts)
    requires GetSocketUrl(parts, loc).Ok?
    ensures var sockHost := QueryParam(parts.query, "sockHost");
      var out := GetSocketUrl(parts, loc).value;
      && (Truthy(sockHost) ==> out.hostname == sockHost)
      && (!Truthy(sockHost) && HostnameRewritten(parts, loc) ==> out.hostname == loc.hostname)
      && (!Truthy(sockHost) && !HostnameRewritten(parts, loc) ==> out.hostname == parts.hostname)
  {
  }

  /** Protocol adoption, stated on the inputs: the page protocol is taken
      exactly when the hostname after the rewrite is non-empty and not
      127.0.0.1, and either the page is https or the script's own hostname
      was 0.0.0.0. */
  lemma ProtocolPrecedence(parts: UrlParts, loc: UrlParts)
    requires GetSocketUrl(parts, loc).Ok?
    ensures var host := if HostnameRewritten(parts, loc) then loc.hostname else parts.hostname;
      var adopt := && Truthy(host)
                   && host != Some(Loopback)
                   && (loc.protocol == Some(SecureProtocol) || parts.hostname == Some(AnyAddressV4));
      var out := GetSocketUrl(parts, loc).value;
      && (adopt ==> out.protocol == loc.protocol)
      && (!adopt ==> out.protocol == parts.protocol)
  {
  }

  /** A script hostname of 127.0.0.1 keeps the script's protocol, even on a
      secure page. */
  lemma LoopbackKeepsProtocol(parts: UrlParts, loc: UrlParts)
    requires parts.hostname == Some(Loopback)
    ensures GetSocketUrl(parts, loc).Ok?
    ensures GetSocketUrl(parts, loc).value.protocol == parts.protocol
  {
  }

  /** When the hostname that reaches the protocol rule is empty, absent or
      127.0.0.1 (seen in the output when `sockHost` does not override it),
      the script's protocol is kept. */
  lemma EmptyOrLoopbackHostKeepsProtocol(parts: UrlParts, loc: UrlParts)
    requires GetSocketUrl(parts, loc).Ok?
    requires !Truthy(QueryParam(parts.query, "sockHost"))
    requires var out := GetSocketUrl(parts, loc).value;
      !Truthy(out.hostname) || out.hostname == Some(Loopback)
    ensures GetSocketUrl(parts, loc).value.protocol == parts.protocol
  {
  }

  /** The IPv6 all-interfaces address on a page that is not https keeps the
      script's protocol, even though its hostname may be rewritten. */
  lemma Ipv6AnyAddressOnPlainPageKeepsProtocol(parts: UrlParts, loc: UrlParts)
    requires parts.hostname == Some(AnyAddressV6)
    requires loc.protocol != Some(SecureProtocol)
    requires GetSocketUrl(parts, loc).Ok?
    ensures GetSocketUrl(parts, loc).value.protocol == parts.protocol
  {
  }

  /** Path override: a non-empty `sockPath` is the pathname, otherwise the
      pathname is "/sockjs-node". */
  lemma PathPrecedence(parts: UrlParts, loc: UrlParts)
    requires GetSocketUrl(parts, loc).Ok?
    ensures var sockPath := QueryParam(parts.query, "sockPath");
      var out := GetSocketUrl(parts, loc).value;
      && (Truthy(sockPath) ==> out.pathname == sockPath.value)
      && (!Truthy(sockPath) ==> out.pathname == DefaultSockPath)
  {
  }

  /** The socket URL record itself used as a page location: its protocol,
      hostname and port. The feedback lemmas below pass this record back as
      `loc`; they do not go through `url.format` and `url.parse`, which keep
      these fields only when the output has both a hostname and a protocol. */
  function AsLocation(out: SocketUrl): UrlParts {
    UrlParts(out.protocol, None, out.hostname, out.port, map[])
  }

  /** Passing the socket URL record back in as the page location reproduces it when
      the script hostname is not an all-interfaces address, whatever the
      query overrides. */
  lemma FeedbackIsFixpoint(parts: UrlParts, loc: UrlParts)
    requires !IsAnyAddress(parts.hostname)
    ensures GetSocketUrl(parts, loc).Ok?
    ensures GetSocketUrl(parts, AsLocation(GetSocketUrl(parts, loc).value)) == GetSocketUrl(parts, loc)
  {
  }

  /** Passing the socket URL record back in as the page location also reproduces it
      for an all-interfaces script hostname, provided the script protocol
      starts with "http", the page has a protocol and `sockHost` does not
      override the hostname. */
  lemma AnyAddressFeedbackIsFixpoint(parts: UrlParts, loc: UrlParts)
    requires IsAnyAddress(parts.hostname)
    requires parts.protocol.Some? && HttpPrefix <= parts.protocol.value
    requires loc.protocol.Some?
    requires !Truthy(QueryParam(parts.query, "sockHost"))
    ensures GetSocketUrl(parts, loc).Ok?
    ensures GetSocketUrl(parts, AsLocation(GetSocketUrl(parts, loc).value)) == GetSocketUrl(parts, loc)
  {
  }

  /** With a `sockHost` override the record-level feedback property can fail: the script
      `http://0.0.0.0` with `sockHost=127.0.0.1` on the page
      `https://example.com` takes `https:` from the page, but fed back the
      override becomes the rewritten hostname, whose loopback exemption keeps
      `http:`. */
  lemma FeedbackNotFixpointForLoopbackOverride()
    ensures var parts := UrlParts(Some("http:"), None, Some(AnyAddressV4), None, map["sockHost" := Loopback]);
      var loc := UrlParts(Some(SecureProtocol), None, Some("example.com"), None, map[]);
      && GetSocketUrl(parts, loc).Ok?
      && GetSocketUrl(parts, loc).value.protocol == Some(SecureProtocol)
      && GetSocketUrl(parts, AsLocation(GetSocketUrl(parts, loc).value)) != GetSocketUrl(parts, loc)
  {
  }

  /** Without a page protocol the record-level feedback fails: the script
      `http://0.0.0.0:8080` on a page with neither protocol nor hostname
      keeps the hostname `0.0.0.0` and takes the absent page protocol, and
      that output record, used as `loc`, reaches the `startsWith` TypeError.
      Formatted and parsed again it would read as a path with no hostname
      instead. */
  lemma FeedbackFailsWithoutPageProtocol()
    ensures var parts := UrlParts(Some("http:"), None, Some(AnyAddressV4), Some("8080"), map[]);
      var loc := UrlParts(None, None, None, None, map[]);
      && GetSocketUrl(parts, loc).Ok?
      && GetSocketUrl(parts, AsLocation(GetSocketUrl(parts, loc).value)).Err?
  {
  }

  /** Without an http(s) script protocol the record-level feedback property fails: the
      script `ws://[::]` on the page `http://example.com` first has its
      hostname rewritten and keeps `ws:`, and the result fed back is no
      longer an http page, so `::` stays. */
  lemma FeedbackNotFixpointForIpv6AnyAddress()
    ensures var parts := UrlParts(Some("ws:"), None, Some(AnyAddressV6), None, map[]);
      var loc := UrlParts(Some("http:"), None, Some("example.com"), None, map[]);
      && GetSocketUrl(parts, loc).Ok?
      && GetSocketUrl(parts, loc).value.hostname == Some("example.com")
      && GetSocketUrl(parts, AsLocation(GetSocketUrl(parts, loc).value)) != GetSocketUrl(parts, loc)
  {
    var parts := UrlParts(Some("ws:"), None, Some(AnyAddressV6), None, map[]);
    var loc := UrlParts(Some("http:"), None, Some("example.com"), None, map[]);
    assert !(HttpPrefix <= "ws:");
    assert GetSocketUrl(parts, AsLocation(GetSocketUrl(parts, loc).value)).value.hostname == Some(AnyAddressV6);
  }

  /** The script `http://0.0.0.0:8096?sockPort=8097&sockHost=localhost` on
      the page `https://example.com:443/` gives
      `https://localhost:8097/sockjs-node`. */
  lemma AnyAddressBehindSecurePage()
    ensures GetSocketUrl(
      UrlParts(Some("http:"), None, Some("0.0.0.0"), Some("8096"),
               map["sockPort" := "8097", "sockHost" := "localhost"]),
      UrlParts(Some("https:"), None, Some("example.com"), Some("443"), map[]))
      == Ok(SocketUrl(Some("https:"), None, Some("localhost"), Some("8097"), "/sockjs-node"))
  {
  }
}
