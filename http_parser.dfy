/**
 * `DefaultHttpParser` (src/http.parser.ts): the `http` block of a segment,
 * present when any of 24 HTTP, network or URL attributes is present, with a
 * request (method, client address, user agent, forwarding flag, URL) and a
 * response (status, content length).
 */
module HttpParser {
  import opened Wrappers
  import opened Js
  import opened Foreign
  import opened SemConv
  import opened Spans
  import opened Util
  import opened Document

  /** The attributes whose presence turns the block on. */
  const TRIGGER_KEYS: seq<string> := [
    HTTP_METHOD, HTTP_REQUEST_METHOD, HTTP_CLIENT_IP, HTTP_USER_AGENT, USER_AGENT_ORIGINAL,
    HTTP_STATUS_CODE, HTTP_RESPONSE_STATUS_CODE, HTTP_URL, URL_FULL, HTTP_SCHEME, URL_SCHEME,
    HTTP_HOST, HTTP_TARGET, HTTP_SERVER_NAME, NET_HOST_PORT, HOST_NAME, SERVER_ADDRESS, SERVER_PORT,
    NET_PEER_NAME, NET_PEER_PORT, NET_PEER_IP, NETWORK_PEER_ADDRESS, CLIENT_ADDRESS, URL_PATH
  ]

  /** The attributes whose presence turns the request URL on. */
  const URL_KEYS: seq<string> := [
    HTTP_URL, URL_FULL, HTTP_HOST, HTTP_SERVER_NAME, NET_HOST_NAME, HOST_NAME, SERVER_ADDRESS
  ]

  /** `keys.some((key) => attributes[key] !== undefined)`. */
  predicate AnyPresent(attrs: Attributes, keys: seq<string>) {
    exists i :: 0 <= i < |keys| && Present(attrs, keys[i])
  }

  // ---------------------------------------------------------------------------
  // The request URL.

  /** The pieces `toURL` assembles. */
  datatype UrlParts = UrlParts(scheme: string, host: string, port: Option<string>, path: string)

  /** `${scheme}://${host}${port ? `:${port}` : ''}${path}`. */
  function UrlText(u: UrlParts): (r: string)
    ensures NonEmpty(u.port) ==> r == u.scheme + "://" + u.host + ":" + u.port.value + u.path
    ensures !NonEmpty(u.port) ==> r == u.scheme + "://" + u.host + u.path
  {
    u.scheme + "://" + u.host + (if NonEmpty(u.port) then ":" + u.port.value else "") + u.path
  }

  /** `toURL(u)`: the text normalised by `new URL(...)`, which throws on text it cannot parse. */
  function ToUrl(rt: Runtime, u: UrlParts): (r: Result<string>)
    ensures r.Ok? <==> rt.parseUrl(UrlText(u)).Some?
    ensures r.Ok? ==> r.value == rt.parseUrl(UrlText(u)).value.href
  {
    match rt.parseUrl(UrlText(u))
    case Some(url) => Ok(url.href)
    case None => Throws("Invalid URL")
  }

  /** `str(a || b) || dflt`. */
  function StrOr(v: Value, dflt: string): (r: string)
    ensures Truthy(v) && ToString(v) != "" ==> r == ToString(v)
    ensures !Truthy(v) || ToString(v) == "" ==> r == dflt
  {
    FirstNonEmpty([Str(v)], dflt)
  }

  /** The pieces of a server span's URL: the local host and port. */
  function ServerParts(attrs: Attributes): UrlParts {
    UrlParts(
      StrOr(Or(Get(attrs, HTTP_SCHEME), Get(attrs, URL_SCHEME)), "http"),
      StrOr(OrChain([Get(attrs, HTTP_HOST), Get(attrs, HTTP_SERVER_NAME), Get(attrs, NET_HOST_NAME),
                     Get(attrs, HOST_NAME)], Get(attrs, SERVER_ADDRESS)), "host"),
      Str(Or(Get(attrs, NET_HOST_PORT), Get(attrs, SERVER_PORT))),
      StrOr(Or(Get(attrs, HTTP_TARGET), Get(attrs, URL_PATH)), "/"))
  }

  /** The pieces of any other span's URL: the peer host and port. */
  function ClientParts(attrs: Attributes): UrlParts {
    UrlParts(
      StrOr(Or(Get(attrs, HTTP_SCHEME), Get(attrs, URL_SCHEME)), "http"),
      StrOr(OrChain([Get(attrs, HTTP_HOST), Get(attrs, NET_PEER_NAME)], Get(attrs, NET_PEER_IP)), "host"),
      Str(Get(attrs, NET_PEER_PORT)),
      StrOr(Get(attrs, HTTP_TARGET), "/"))
  }

  /** The full URL as recorded, `str(http.url || url.full)`. */
  function FullUrl(attrs: Attributes): Option<string> {
    Str(Or(Get(attrs, HTTP_URL), Get(attrs, URL_FULL)))
  }

  /**
   * The request URL: absent unless a URL or host attribute is present; then
   * the recorded full URL when there is one, else the URL assembled from the
   * parts the span kind selects.
   */
  function RequestUrl(rt: Runtime, attrs: Attributes, kind: SpanKind): (r: Result<Option<string>>)
    ensures !AnyPresent(attrs, URL_KEYS) ==> r == Ok(None)
    ensures AnyPresent(attrs, URL_KEYS) && NonEmpty(FullUrl(attrs)) ==> r == Ok(FullUrl(attrs))
    ensures AnyPresent(attrs, URL_KEYS) && !NonEmpty(FullUrl(attrs)) ==>
              r == (match ToUrl(rt, if kind == SERVER then ServerParts(attrs) else ClientParts(attrs))
                    case Ok(h) => Ok(Some(h))
                    case Throws(e) => Throws(e))
  {
    if !AnyPresent(attrs, URL_KEYS) then Ok(None)
    else if NonEmpty(FullUrl(attrs)) then Ok(FullUrl(attrs))
    else
      var parts := if kind == SERVER then ServerParts(attrs) else ClientParts(attrs);
      match ToUrl(rt, parts)
      case Ok(h) => Ok(Some(h))
      case Throws(e) => Throws(e)
  }

  /** With no scheme, host, port or path attribute the assembled URL is `http://host/`. */
  lemma DefaultUrlText(attrs: Attributes, kind: SpanKind)
    requires forall k :: k in URL_PART_KEYS ==> k !in attrs
    ensures UrlText(if kind == SERVER then ServerParts(attrs) else ClientParts(attrs)) == "http://host/"
  {
    var u := Undefined;
    assert Get(attrs, HTTP_SCHEME) == Get(attrs, URL_SCHEME) == Get(attrs, HTTP_HOST) == u;
    assert Get(attrs, HTTP_SERVER_NAME) == Get(attrs, NET_HOST_NAME) == Get(attrs, HOST_NAME) == u;
    assert Get(attrs, SERVER_ADDRESS) == Get(attrs, NET_HOST_PORT) == Get(attrs, SERVER_PORT) == u;
    assert Get(attrs, HTTP_TARGET) == Get(attrs, URL_PATH) == Get(attrs, NET_PEER_NAME) == u;
    assert Get(attrs, NET_PEER_IP) == Get(attrs, NET_PEER_PORT) == u;
    OrChainFirstTruthy([u, u, u, u], u);
    OrChainFirstTruthy([u, u], u);
    assert ServerParts(attrs) == UrlParts("http", "host", None, "/");
    assert ClientParts(attrs) == UrlParts("http", "host", None, "/");
  }

  /** The attributes the assembled URL reads. */
  const URL_PART_KEYS: set<string> := {
    HTTP_SCHEME, URL_SCHEME, HTTP_HOST, HTTP_SERVER_NAME, NET_HOST_NAME, HOST_NAME, SERVER_ADDRESS,
    NET_HOST_PORT, SERVER_PORT, HTTP_TARGET, URL_PATH, NET_PEER_NAME, NET_PEER_IP, NET_PEER_PORT
  }

  // ---------------------------------------------------------------------------
  // The other request fields.

  /** `str(http.method || http.request.method)`. */
  function Method(attrs: Attributes): (r: Option<string>)
    ensures Truthy(Get(attrs, HTTP_METHOD)) ==> r == Some(ToString(Get(attrs, HTTP_METHOD)))
    ensures !Truthy(Get(attrs, HTTP_METHOD)) ==> r == Str(Get(attrs, HTTP_REQUEST_METHOD))
  {
    Str(Or(Get(attrs, HTTP_METHOD), Get(attrs, HTTP_REQUEST_METHOD)))
  }

  /** The four sources of the client address, in the order they are tried. */
  function AddressCandidates(attrs: Attributes): seq<Option<string>> {
    [Str(Get(attrs, HTTP_CLIENT_IP)), Str(Get(attrs, NET_PEER_IP)),
     Str(Get(attrs, NETWORK_PEER_ADDRESS)), Str(Get(attrs, CLIENT_ADDRESS))]
  }

  /** A candidate `net.isIP` accepts. */
  predicate ValidIp(rt: Runtime, c: Option<string>) {
    c.Some? && rt.isIP(c.value)
  }

  /** `str(ip(a) || ip(b) || ip(c) || ip(d))`. */
  function ClientIp(rt: Runtime, attrs: Attributes): (r: Option<string>)
  {
    var cs := AddressCandidates(attrs);
    Str(OptValue(OrOpt(Ip(rt, cs[0]), OrOpt(Ip(rt, cs[1]), OrOpt(Ip(rt, cs[2]), Ip(rt, cs[3]))))))
  }

  /** `a || b` over strings-or-undefined. */
  function OrOpt(a: Option<string>, b: Option<string>): (r: Option<string>)
    ensures NonEmpty(a) ==> r == a
    ensures !NonEmpty(a) ==> r == b
  {
    if NonEmpty(a) then a else b
  }

  /**
   * The client address is the first candidate that is a valid IP address, and
   * absent when none is.
   */
  lemma ClientIpFirstValid(rt: Runtime, attrs: Attributes)
    ensures var cs := AddressCandidates(attrs);
      && (forall k :: 0 <= k < 4 && ValidIp(rt, cs[k]) && (forall j :: 0 <= j < k ==> !ValidIp(rt, cs[j]))
            ==> ClientIp(rt, attrs) == cs[k])
      && ((forall k :: 0 <= k < 4 ==> !ValidIp(rt, cs[k])) ==> ClientIp(rt, attrs).None?)
  {
    var cs := AddressCandidates(attrs);
    forall k | 0 <= k < 4 ensures NonEmpty(Ip(rt, cs[k])) <==> ValidIp(rt, cs[k]) {
      if ValidIp(rt, cs[k]) {
        assert cs[k].value != "";
      }
    }
  }

  /** `str(http.user_agent || user_agent.original)`. */
  function UserAgent(attrs: Attributes): (r: Option<string>)
    ensures Truthy(Get(attrs, HTTP_USER_AGENT)) ==> r == Some(ToString(Get(attrs, HTTP_USER_AGENT)))
    ensures !Truthy(Get(attrs, HTTP_USER_AGENT)) ==> r == Str(Get(attrs, USER_AGENT_ORIGINAL))
  {
    Str(Or(Get(attrs, HTTP_USER_AGENT), Get(attrs, USER_AGENT_ORIGINAL)))
  }

  /** `true` when the address came from the peer rather than the client header; never `false`. */
  function XForwardedFor(attrs: Attributes): (r: Option<bool>)
    ensures r != Some(false)
    ensures r == Some(true) <==> !Truthy(Get(attrs, HTTP_CLIENT_IP)) && Truthy(Get(attrs, NET_PEER_IP))
  {
    if !Truthy(Get(attrs, HTTP_CLIENT_IP)) && Truthy(Get(attrs, NET_PEER_IP)) then Some(true) else None
  }

  // ---------------------------------------------------------------------------
  // The response.

  /** `Number(http.status_code)` when that is truthy, else `Number(http.response.status_code)`. */
  function Status(attrs: Attributes): (r: Number)
    ensures Truthy(Get(attrs, HTTP_STATUS_CODE)) ==> r == ToNumber(Get(attrs, HTTP_STATUS_CODE))
    ensures !Truthy(Get(attrs, HTTP_STATUS_CODE)) ==> r == ToNumber(Get(attrs, HTTP_RESPONSE_STATUS_CODE))
    ensures HTTP_STATUS_CODE !in attrs && HTTP_RESPONSE_STATUS_CODE !in attrs ==> r.NaN?
  {
    if Truthy(Get(attrs, HTTP_STATUS_CODE)) then ToNumber(Get(attrs, HTTP_STATUS_CODE))
    else ToNumber(Get(attrs, HTTP_RESPONSE_STATUS_CODE))
  }

  /** The payload size of a received message, 0 for anything else. */
  function ContentLength(attrs: Attributes): (r: Number)
    ensures Get(attrs, MESSAGE_TYPE) != Text(MESSAGE_TYPE_RECEIVED) ==> r == Finite(0.0)
    ensures Get(attrs, MESSAGE_TYPE) == Text(MESSAGE_TYPE_RECEIVED) ==>
              r == ToNumber(Get(attrs, MESSAGING_MESSAGE_PAYLOAD_SIZE_BYTES))
  {
    if Get(attrs, MESSAGE_TYPE) == Text(MESSAGE_TYPE_RECEIVED)
    then ToNumber(Get(attrs, MESSAGING_MESSAGE_PAYLOAD_SIZE_BYTES))
    else Finite(0.0)
  }

  // ---------------------------------------------------------------------------
  // The block.

  /**
   * `parseHttp(span)`: no block when none of the 24 keys is present; otherwise
   * the request and the response, or the error `new URL` throws while
   * assembling the URL.
   */
  function ParseHttp(rt: Runtime, span: ReadableSpan): (r: Result<Option<Http>>)
    ensures r == Ok(None) <==> !AnyPresent(span.attributes, TRIGGER_KEYS)
    ensures r.Throws? <==> AnyPresent(span.attributes, TRIGGER_KEYS) && RequestUrl(rt, span.attributes, span.kind).Throws?
    ensures r.Ok? && r.value.Some? ==>
              var attrs := span.attributes;
              r.value.value == Http(
                Some(Request(RequestUrl(rt, attrs, span.kind).value, Method(attrs), UserAgent(attrs),
                             ClientIp(rt, attrs), XForwardedFor(attrs))),
                Some(Response(Status(attrs), ContentLength(attrs))))
  {
    var attrs := span.attributes;
    if !AnyPresent(attrs, TRIGGER_KEYS) then Ok(None)
    else
      match RequestUrl(rt, attrs, span.kind)
      case Throws(e) => Throws(e)
      case Ok(url) =>
        Ok(Some(Http(
          Some(Request(url, Method(attrs), UserAgent(attrs), ClientIp(rt, attrs), XForwardedFor(attrs))),
          Some(Response(Status(attrs), ContentLength(attrs))))))
  }

  /**
   * `net.host.name` turns the URL on but is not among the keys that turn the
   * block on: a span carrying only that attribute gets no `http` block.
   */
  lemma NetHostNameAlone(rt: Runtime, span: ReadableSpan)
    requires span.attributes.Keys == {NET_HOST_NAME} && Present(span.attributes, NET_HOST_NAME)
    ensures AnyPresent(span.attributes, URL_KEYS)
    ensures ParseHttp(rt, span) == Ok(None)
  {
    assert Present(span.attributes, URL_KEYS[4]);
    assert forall i :: 0 <= i < |TRIGGER_KEYS| ==> TRIGGER_KEYS[i] != NET_HOST_NAME;
  }
}
