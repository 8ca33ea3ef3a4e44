/**
 * `EnhancedReadableSpan` (src/super.span.ts): the getters that derive the
 * segment's namespace, flags, service, origin, type, links, user, sql block,
 * aws block and trace id from one span. The wrapped span never changes, so
 * every getter is a function of it.
 */
module SuperSpan {
  import opened Wrappers
  import opened Strings
  import opened Js
  import opened SemConv
  import opened Spans
  import opened Util
  import opened Document
  import OriginParser
  import IdParser

  // ---------------------------------------------------------------------------
  // Namespace and flags.

  /** `str(rpc.system) === 'aws-api'`: the span is an AWS SDK call. */
  predicate IsAwsSdk(span: ReadableSpan) {
    Str(Get(span.attributes, RPC_SYSTEM)) == Some(RPC_SYSTEM_AWS_API)
  }

  /** `getNamespace()`: `aws` for AWS calls, `remote` for other client spans, otherwise absent. */
  function GetNamespace(span: ReadableSpan): (r: Option<string>)
    ensures r == Some("aws") <==> IsAwsSdk(span) || Truthy(Get(span.attributes, AWS_SERVICE))
    ensures r == Some("remote") <==> !IsAwsSdk(span) && !Truthy(Get(span.attributes, AWS_SERVICE)) && span.kind == CLIENT
    ensures r.None? || r == Some("aws") || r == Some("remote")
  {
    if IsAwsSdk(span) then Some("aws")
    else if Truthy(Get(span.attributes, AWS_SERVICE)) then Some("aws")
    else if span.kind == CLIENT then Some("remote")
    else None
  }

  /** `Number(http.status_code || 0)`. */
  function StatusOrZero(span: ReadableSpan): Number {
    ToNumber(Or(Get(span.attributes, HTTP_STATUS_CODE), Num(Finite(0.0))))
  }

  /** A number that compares `>= lo` and `<= hi`; NaN compares false with everything. */
  predicate Between(n: Number, lo: int, hi: int) {
    n.Finite? && lo as real <= n.r <= hi as real
  }

  /** `n >= lo ? (n <= hi || undefined) : undefined`, the shape of both flag getters. */
  function Flag(n: Number, lo: int, hi: int): (r: Option<bool>)
    ensures r == Some(true) <==> Between(n, lo, hi)
    ensures r != Some(false)
  {
    var atLeast := match n
      case NaN => false
      case Infinity(neg) => !neg
      case Finite(x) => x >= lo as real;
    var atMost := match n
      case NaN => false
      case Infinity(neg) => neg
      case Finite(x) => x <= hi as real;
    if atLeast then (if atMost then Some(true) else None) else None
  }

  /** `isThrottled()`: true exactly when `Number(http.status_code)` is 429, never false. */
  function IsThrottled(span: ReadableSpan): (r: Option<bool>)
    ensures r == Some(true) <==> ToNumber(Get(span.attributes, HTTP_STATUS_CODE)) == Finite(429.0)
    ensures r != Some(false)
  {
    if ToNumber(Get(span.attributes, HTTP_STATUS_CODE)) == Finite(429.0) then Some(true) else None
  }

  /**
   * `isFault()`: true for a status in 400-499, else absent. The code's tests
   * expect the reverse assignment (error for 4xx, fault for 5xx); this is
   * the code's.
   */
  function IsFault(span: ReadableSpan): (r: Option<bool>)
    ensures r == Some(true) <==> Between(StatusOrZero(span), 400, 499)
    ensures r != Some(false)
  {
    Flag(StatusOrZero(span), 400, 499)
  }

  /** `isError()`: true for a status in 500-599, else absent. */
  function IsError(span: ReadableSpan): (r: Option<bool>)
    ensures r == Some(true) <==> Between(StatusOrZero(span), 500, 599)
    ensures r != Some(false)
  {
    Flag(StatusOrZero(span), 500, 599)
  }

  /** No status sets both flags, and a status without a code sets neither. */
  lemma FaultErrorExclusive(span: ReadableSpan)
    ensures !(IsFault(span) == Some(true) && IsError(span) == Some(true))
    ensures !Truthy(Get(span.attributes, HTTP_STATUS_CODE)) ==> IsFault(span).None? && IsError(span).None?
  {
  }

  /** As coded, a 429 is throttled and a fault, and a 503 is an error: the swap the tests do not expect. */
  lemma FlagsAsCoded(span: ReadableSpan)
    ensures Get(span.attributes, HTTP_STATUS_CODE) == Num(Finite(429.0)) ==>
      IsThrottled(span) == Some(true) && IsFault(span) == Some(true) && IsError(span).None?
    ensures Get(span.attributes, HTTP_STATUS_CODE) == Text("503") ==>
      IsFault(span).None? && IsError(span) == Some(true)
  {
    if Get(span.attributes, HTTP_STATUS_CODE) == Text("503") {
      NumberOfDigits("503");
      assert DecimalValue("503") == 503 by {
        assert "503"[..2] == "50" && "50"[..1] == "5" && "5"[..0] == "";
      }
    }
  }

  // ---------------------------------------------------------------------------
  // Service, origin, type, user.

  /** `getService()`: each field is the first non-empty candidate, else `unknown`. */
  function GetService(span: ReadableSpan): (r: Service)
    ensures r.version != "" && r.runtime != "" && r.runtime_version != "" && r.name != ""
    ensures r.version == FirstNonEmpty(
      [Str(Get(span.resource, SERVICE_VERSION)), Str(Get(span.resource, CONTAINER_IMAGE_TAG))], "unknown")
    ensures r.runtime == FirstNonEmpty([Str(Get(span.resource, PROCESS_RUNTIME_NAME))], "unknown")
    ensures r.runtime_version == FirstNonEmpty([Str(Get(span.resource, PROCESS_RUNTIME_VERSION))], "unknown")
    ensures r.name == FirstNonEmpty([Str(Get(span.resource, SERVICE_NAME))], "unknown")
  {
    var res := span.resource;
    Service(
      FirstNonEmpty([Str(Get(res, SERVICE_VERSION)), Str(Get(res, CONTAINER_IMAGE_TAG))], "unknown"),
      FirstNonEmpty([Str(Get(res, PROCESS_RUNTIME_NAME))], "unknown"),
      FirstNonEmpty([Str(Get(res, PROCESS_RUNTIME_VERSION))], "unknown"),
      FirstNonEmpty([Str(Get(res, SERVICE_NAME))], "unknown"))
  }

  /** The version prefers `service.version`, then `container.image.tag`, then `unknown`. */
  lemma {:induction false} ServiceVersionOrder(span: ReadableSpan)
    ensures var v := Get(span.resource, SERVICE_VERSION);
      var tag := Get(span.resource, CONTAINER_IMAGE_TAG);
      && (v.Text? && v.s != "" ==> GetService(span).version == v.s)
      && (!Truthy(v) && tag.Text? && tag.s != "" ==> GetService(span).version == tag.s)
      && (!Truthy(v) && !Truthy(tag) ==> GetService(span).version == "unknown")
  {
    var cs := [Str(Get(span.resource, SERVICE_VERSION)), Str(Get(span.resource, CONTAINER_IMAGE_TAG))];
    if !Truthy(Get(span.resource, SERVICE_VERSION)) {
      assert !NonEmpty(cs[0]);
      var tag := Get(span.resource, CONTAINER_IMAGE_TAG);
      if tag.Text? && tag.s != "" {
        assert cs[1] == Some(tag.s) && NonEmpty(cs[1]);
        assert FirstNonEmpty(cs, "unknown") == tag.s;
      }
    }
  }

  /** The ECS branch of `getOrigin()`, a `switch` on the launch type after a truthiness test. */
  function EcsOriginOf(launchType: Value): string {
    if !Truthy(launchType) then "AWS::ECS::Container"
    else match launchType
      case Text(t) =>
        if t == PLATFORM_AWS_EC2 then "AWS::ECS::EC2"
        else if t == LAUNCH_TYPE_FARGATE then "AWS::ECS::Fargate"
        else "AWS::ECS::Container"
      case _ => "AWS::ECS::Container"
  }

  /** `getOrigin()`, the second copy of the origin table kept on the enriched span. */
  function GetOrigin(span: ReadableSpan): (r: Option<string>)
    ensures r.Some? ==> r.value in OriginParser.ORIGINS
  {
    var res := span.resource;
    if Get(res, CLOUD_PROVIDER) != Text(PROVIDER_AWS) then None
    else match Get(res, CLOUD_PLATFORM)
      case Text(p) =>
        if p == PLATFORM_AWS_APP_RUNNER then Some("AWS::AppRunner::Service")
        else if p == PLATFORM_AWS_EKS then Some("AWS::EKS::Container")
        else if p == PLATFORM_AWS_ELASTIC_BEANSTALK then Some("AWS::ElasticBeanstalk::Environment")
        else if p == PLATFORM_AWS_ECS then Some(EcsOriginOf(Get(res, AWS_ECS_LAUNCHTYPE)))
        else if p == PLATFORM_AWS_EC2 then Some("AWS::EC2::Instance")
        else None
      case _ => None
  }

  /** The two copies of the origin table agree on every span. */
  lemma OriginsAgree(span: ReadableSpan)
    ensures GetOrigin(span) == OriginParser.GetOrigin(span)
  {
  }

  /** `getType()`: a subsegment exactly when the span is not a server span and has a parent. */
  function GetType(span: ReadableSpan): (r: Option<string>)
    ensures r == Some("subsegment") <==> span.kind != SERVER && span.parentSpanId.Some?
    ensures r.None? <==> !(span.kind != SERVER && span.parentSpanId.Some?)
  {
    if span.kind != SERVER && span.parentSpanId.Some? then Some("subsegment") else None
  }

  /** `getUser()`: the end-user id when truthy. */
  function GetUser(span: ReadableSpan): (r: Option<string>)
    ensures r.None? <==> !Truthy(Get(span.attributes, ENDUSER_ID))
    ensures r.Some? ==> r.value == ToString(Get(span.attributes, ENDUSER_ID))
  {
    Str(Get(span.attributes, ENDUSER_ID))
  }

  // ---------------------------------------------------------------------------
  // Links.

  /** The attributes whose value is not `undefined`, with their values. */
  function DefinedAttributes(attrs: Attributes): (r: Attributes)
    ensures forall k :: k in r <==> k in attrs && attrs[k] != Undefined
    ensures forall k :: k in r ==> r[k] == attrs[k]
  {
    map k | k in attrs && attrs[k] != Undefined :: attrs[k]
  }

  /** One link of `getLinks`: its span id, its converted trace id, its defined attributes. */
  function LinkOf(l: SpanLink, p: IdParser.DefaultIdParser, nowMillis: int): (r: Result<Link>)
    ensures r.Ok? <==> IdParser.ParseId(p, l.traceId, nowMillis).Ok?
    ensures r.Ok? ==> r.value == Link(l.spanId, IdParser.ParseId(p, l.traceId, nowMillis).value, DefinedAttributes(l.attributes))
    ensures r.Throws? ==> r.error == IdParser.ParseId(p, l.traceId, nowMillis).error
  {
    match IdParser.ParseId(p, l.traceId, nowMillis)
    case Ok(traceId) => Ok(Link(l.spanId, traceId, DefinedAttributes(l.attributes)))
    case Throws(e) => Throws(e)
  }

  /** `links.map(...)`: every link converted in order, or the first conversion's error. */
  function Links(links: seq<SpanLink>, p: IdParser.DefaultIdParser, nowMillis: int): (r: Result<seq<Link>>)
    ensures r.Ok? <==> forall i :: 0 <= i < |links| ==> LinkOf(links[i], p, nowMillis).Ok?
    ensures r.Ok? ==> (|r.value| == |links|
      && forall i :: 0 <= i < |links| ==> r.value[i] == LinkOf(links[i], p, nowMillis).value)
  {
    if links == [] then Ok([])
    else
      match LinkOf(links[0], p, nowMillis)
      case Throws(e) => Throws(e)
      case Ok(head) =>
        var rest := Links(links[1..], p, nowMillis);
        assert forall i :: 1 <= i < |links| ==> links[1..][i - 1] == links[i];
        match rest
        case Throws(e) => Throws(e)
        case Ok(tail) => Ok([head] + tail)
  }

  /** When the `i`-th link is the first that fails to convert, the conversion of the links throws its error. */
  lemma {:induction false} LinksFirstError(links: seq<SpanLink>, p: IdParser.DefaultIdParser, nowMillis: int, i: nat)
    requires i < |links| && LinkOf(links[i], p, nowMillis).Throws?
    requires forall j :: 0 <= j < i ==> LinkOf(links[j], p, nowMillis).Ok?
    ensures Links(links, p, nowMillis) == Throws(LinkOf(links[i], p, nowMillis).error)
  {
    if i > 0 {
      var tail := links[1..];
      assert forall j :: 0 <= j < i - 1 ==> tail[j] == links[j + 1];
      assert tail[i - 1] == links[i];
      LinksFirstError(tail, p, nowMillis, i - 1);
      assert LinkOf(links[0], p, nowMillis).Ok?;
    }
  }

  /** `getLinks(idParser)`: absent for a span without links. */
  function GetLinks(span: ReadableSpan, p: IdParser.DefaultIdParser, nowMillis: int): (r: Result<Option<seq<Link>>>)
    ensures span.links == [] ==> r == Ok(None)
    ensures r.Ok? <==> Links(span.links, p, nowMillis).Ok?
    ensures r.Ok? && span.links != [] ==> r.value == Some(Links(span.links, p, nowMillis).value)
    ensures r.Throws? ==> r.error == Links(span.links, p, nowMillis).error
  {
    match Links(span.links, p, nowMillis)
    case Ok(ls) => Ok(Undef(ls))
    case Throws(e) => Throws(e)
  }

  /** One entry per link, in order, carrying that link's span id and converted trace id. */
  lemma LinksInOrder(span: ReadableSpan, p: IdParser.DefaultIdParser, nowMillis: int)
    requires GetLinks(span, p, nowMillis).Ok? && span.links != []
    ensures var ls := GetLinks(span, p, nowMillis).value.value;
      |ls| == |span.links|
      && forall i :: 0 <= i < |ls| ==>
        ls[i].span_id == span.links[i].spanId
        && ls[i].trace_id == "1-" + IdParser.Prefix(span.links[i].traceId, 8) + "-" + IdParser.Suffix(span.links[i].traceId, 8)
        && ls[i].attributes.Keys <= span.links[i].attributes.Keys
  {
  }

  // ---------------------------------------------------------------------------
  // SQL.

  /** The database systems that get an `sql` block. */
  const DBS: seq<string> := [
    "db2", "derby", "hive", "mariadb", "mssql", "mysql", "oracle", "postgresql", "sqlite", "teradata", "other_sql"
  ]

  /** `DBS.includes(str(db.system) || '')`. */
  predicate IsSqlSystem(span: ReadableSpan) {
    FirstNonEmpty([Str(Get(span.attributes, DB_SYSTEM))], "") in DBS
  }

  /** `` `${conn || 'localhost'}/${db.name || ''}` ``. */
  function ConnectionString(attrs: Attributes): string {
    ToString(Or(Get(attrs, DB_CONNECTION_STRING), Text("localhost"))) + "/" + ToString(Or(Get(attrs, DB_NAME), Text("")))
  }

  /** `getSql()`: a block for a listed database system, with the span name as its url. */
  function GetSql(span: ReadableSpan): (r: Option<Sql>)
    ensures r.Some? <==> Str(Get(span.attributes, DB_SYSTEM)).Some? && Str(Get(span.attributes, DB_SYSTEM)).value in DBS
    ensures r.Some? ==> (r.value.url == span.name
      && r.value.connection_string == ConnectionString(span.attributes)
      && r.value.database_type == Str(Get(span.attributes, DB_SYSTEM))
      && r.value.user == Str(Get(span.attributes, DB_USER))
      && r.value.sanitized_query == Str(Get(span.attributes, DB_STATEMENT)))
  {
    if IsSqlSystem(span) then
      var attrs := span.attributes;
      Some(Sql(span.name, ConnectionString(attrs), Str(Get(attrs, DB_SYSTEM)), Str(Get(attrs, DB_USER)), Str(Get(attrs, DB_STATEMENT))))
    else None
  }

  /** The connection string joins a non-empty connection and database name with `/`, with `localhost` and `` for missing ones. */
  lemma ConnectionStringParts(attrs: Attributes, conn: string, db: string)
    ensures Get(attrs, DB_CONNECTION_STRING) == Text(conn) && Get(attrs, DB_NAME) == Text(db) && conn != "" && db != "" ==>
      ConnectionString(attrs) == conn + "/" + db
    ensures !Truthy(Get(attrs, DB_CONNECTION_STRING)) && !Truthy(Get(attrs, DB_NAME)) ==>
      ConnectionString(attrs) == "localhost/"
  {
  }

  // ---------------------------------------------------------------------------
  // The aws block.

  /** `str(lang || '?') + '/' + str(version)`: an absent part prints as `undefined`. */
  function SdkText(res: Attributes): string {
    Show(Str(Or(Get(res, TELEMETRY_SDK_LANGUAGE), Text("?")))) + "/" + Show(Str(Get(res, TELEMETRY_SDK_VERSION)))
  }

  /** The resource's platform is exactly `platform` (`===` on the attribute). */
  predicate OnPlatform(res: Attributes, platform: string) {
    Get(res, CLOUD_PLATFORM) == Text(platform)
  }

  /** `getAWS()`: always a block; each platform sub-block on its own condition, not exclusive. */
  function GetAws(span: ReadableSpan): (r: Aws)
    ensures r.operation == Str(Or(Get(span.attributes, AWS_OPERATION), Get(span.attributes, RPC_METHOD)))
    ensures r.xray.sdk == SdkText(span.resource)
    ensures r.xray.sdk_version == Str(Get(span.resource, TELEMETRY_SDK_VERSION))
    ensures r.xray.auto_instrumentation <==> Present(span.resource, TELEMETRY_AUTO_VERSION)
    ensures r.eks.Some? <==> OnPlatform(span.resource, PLATFORM_AWS_EKS)
    ensures r.ebs.Some? <==> OnPlatform(span.resource, PLATFORM_AWS_ELASTIC_BEANSTALK) || Present(span.resource, SERVICE_INSTANCE_ID)
    ensures r.ebs.Some? ==> r.ebs.value.deployment_id == ToNumber(Or(Get(span.resource, SERVICE_INSTANCE_ID), Text("0")))
    ensures r.ecs.Some? <==> OnPlatform(span.resource, PLATFORM_AWS_ECS)
    ensures r.ec2.Some? <==> OnPlatform(span.resource, PLATFORM_AWS_EC2) || Present(span.resource, HOST_ID)
    ensures r.ec2.Some? ==> r.ec2.value.instance_id == Str(Get(span.resource, HOST_ID))
  {
    var attrs, res := span.attributes, span.resource;
    Aws(
      Str(Get(attrs, AWS_ACCOUNT)),
      Str(Or(Get(attrs, AWS_OPERATION), Get(attrs, RPC_METHOD))),
      Str(Get(attrs, AWS_REGION)),
      Str(Get(attrs, AWS_REQUEST_ID)),
      Str(Get(attrs, AWS_REQUEST_ID_2)),
      XRay(SdkText(res), Str(Get(res, TELEMETRY_SDK_VERSION)), Present(res, TELEMETRY_AUTO_VERSION)),
      if OnPlatform(res, PLATFORM_AWS_EKS) then
        Some(Eks(Str(Get(res, CONTAINER_ID)), Str(Get(res, K8S_CLUSTER_NAME)), Str(Get(res, K8S_POD_NAME))))
      else None,
      if OnPlatform(res, PLATFORM_AWS_ELASTIC_BEANSTALK) || Present(res, SERVICE_INSTANCE_ID) then
        Some(Ebs(Str(Get(res, DEPLOYMENT_ENVIRONMENT)), ToNumber(Or(Get(res, SERVICE_INSTANCE_ID), Text("0"))),
          Str(Get(res, SERVICE_VERSION))))
      else None,
      if OnPlatform(res, PLATFORM_AWS_ECS) then
        Some(Ecs(Str(Get(res, CONTAINER_NAME)), Str(Get(res, CONTAINER_ID)), Str(Get(res, CLOUD_AVAILABILITY_ZONE)),
          Str(Get(res, AWS_ECS_CONTAINER_ARN)), Str(Get(res, AWS_ECS_CLUSTER_ARN)), Str(Get(res, AWS_ECS_TASK_ARN)),
          Str(Get(res, AWS_ECS_TASK_FAMILY)), Str(Get(res, AWS_ECS_LAUNCHTYPE))))
      else None,
      if OnPlatform(res, PLATFORM_AWS_EC2) || Present(res, HOST_ID) then
        Some(Ec2(Str(Get(res, HOST_ID)), Str(Get(res, CLOUD_AVAILABILITY_ZONE)), Str(Get(res, HOST_TYPE)),
          Str(Get(res, HOST_IMAGE_ID))))
      else None)
  }

  /** The sdk string: `?` stands in for a missing language and `undefined` for a missing version. */
  lemma SdkTextCases(res: Attributes, lang: string, version: string)
    ensures !Truthy(Get(res, TELEMETRY_SDK_LANGUAGE)) && !Truthy(Get(res, TELEMETRY_SDK_VERSION)) ==>
      SdkText(res) == "?/undefined"
    ensures (Get(res, TELEMETRY_SDK_LANGUAGE) == Text(lang) && Get(res, TELEMETRY_SDK_VERSION) == Text(version)
      && lang != "" && version != "") ==> SdkText(res) == lang + "/" + version
  {
  }

  /** The platform blocks are not exclusive: an EKS resource with a `host.id` gets both `eks` and `ec2`. */
  lemma PlatformBlocksOverlap(span: ReadableSpan)
    requires OnPlatform(span.resource, PLATFORM_AWS_EKS) && Present(span.resource, HOST_ID)
    ensures GetAws(span).eks.Some? && GetAws(span).ec2.Some?
  {
  }

  /** `getTraceId(idParser)`: the span's trace id in X-Ray form, or the parser's error. */
  function GetTraceId(span: ReadableSpan, p: IdParser.DefaultIdParser, nowMillis: int): (r: Result<string>)
    ensures r.Ok? <==> IdParser.InWindow(p, IdParser.Epoch(span.traceId), nowMillis)
    ensures r.Ok? ==> r.value == "1-" + IdParser.Prefix(span.traceId, 8) + "-" + IdParser.Suffix(span.traceId, 8)
    ensures r.Throws? ==> r.error == "Invalid X-Ray trace ID: " + span.traceId
  {
    IdParser.ParseId(p, span.traceId, nowMillis)
  }
}
