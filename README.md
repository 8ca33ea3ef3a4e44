# X-Ray span exporter — a Dafny model

This project models the translation layer of `exporter-xray`. The exporter is an
OpenTelemetry `SpanExporter` that turns finished spans into AWS X-Ray segment
documents and hands them to a segment emitter. The model covers these parts:

- **Helpers.** `str`, `ip` and `undef`, under JavaScript's truthiness rules: `undefined`, `""`, `0`,
  `false` and NaN count as absent (modules `Util` and `Js`).
- **Trace ids.** The trace-id conversion `1-<8 hex epoch>-<24 hex>` with its inclusive age/skew window
  (`IdParser`).
- **Origins.** The cloud-origin decision table (`OriginParser`).
- **Segment names.** The name fallback chain, the character filter and the 200-unit truncation
  (`NameParser`).
- **HTTP block.** The request and response fields and the URL synthesis (`HttpParser`).
- **Exceptions.** Exception extraction from span events. It includes a matcher for the V8
  stack-frame regular expression and the injected exception-id generator (`CauseParser`).
- **Span enricher.** `EnhancedReadableSpan`: namespace, throttle/fault/error flags, service block, origin,
  type, user, links, sql, aws block and trace id (`SuperSpan`).
- **Trace filter.** The user-agent filter (`TraceFilter`).
- **Exporter.** Per-span document assembly, `export`, `shutdown` and `forceFlush` over an abstract emitter
  (`XrayExporter`).
- **UDP emitter.** The daemon emitter: the `AWS_XRAY_DAEMON_ADDRESS` parser, the datagram framing and the
  sequential send loop (`UdpEmitter`).

Supporting modules:

- **`Wrappers`:** `Option`/`Result`.
- **`Strings`:** split, join, indexOf, includes, trim and decimal digits.
- **`Js`:** JavaScript values, `||`, `Number()`, `parseInt` and template-literal printing.
- **`Foreign`:** the runtime's foreign functions.
- **`SemConv`:** the semantic-convention keys and values.
- **`Spans`:** the span record.
- **`Document`:** the segment-document shapes.

Attribute values are `Js.Value`: undefined, null, string, number, boolean or array. A missing key reads
as `undefined`. Two notions are kept apart:

- *truthiness*, used by `str(...)` and `a || b`;
- *presence*, used by `!== undefined`. It is written `Present` or `Get(..) != Undefined`.

`Number(...)` can give NaN. Numbers are `NaN | Infinity | Finite(real)`.

State lives in two classes:

- `XrayExporter.XraySpanExporter` records the results handed to the export callback. It also counts the
  exception ids drawn from the generator.
- `UdpEmitter.UdpDaemonSegmentEmitter` holds the daemon configuration, which `processAddress` overwrites
  in place. It also records every datagram given to the socket and whether the socket is closed.

Its send loop is a `while` loop. It is proved against the function `SendAll`, and three lemmas state
what `SendAll` means.

Behaviour that depends on the outside world is passed in as a parameter:

- `Date.now()` becomes `nowMillis`.
- The exception-id generator becomes `ids: nat -> string`, the id of the `n`-th call.
- The outcome of the `n`-th emit or socket send is a function `outcome`/`failure`.
- `JSON.stringify` becomes `serialize`.
- `net.isIP`, WHATWG URL parsing and the Unicode letter class outside ASCII are fields of
  `Foreign.Runtime`.

Where the code and its tests or declared types disagree, the model follows the code:

- **Fault and error.** `isFault` is true for statuses 400–499 and `isError` for 500–599
  (src/super.span.ts:121-147). The project's tests expect the opposite. `SuperSpan.FlagsAsCoded` states
  the coded behaviour: 429 is throttled and a fault, and 503 is an error.
- **Annotations and metadata.** The exporter calls `getAnnotations`/`getMetadata`
  (src/xray.exporter.ts:52-53), but the enricher defines neither. Both fields are always absent.
- **Origin.** The exporter passes an origin parser to `getOrigin()` (src/xray.exporter.ts:45), which
  ignores its argument. The enricher's own table is used, and `SuperSpan.OriginsAgree` proves it equal to
  `DefaultOriginParser.getOrigin`.
- **No filtering or pruning.** `export` applies no trace filter and prunes no empty fields. The model does
  neither.
- **The `ebs` key.** `getAWS` writes the key `ebs` (src/super.span.ts:348), while the declared type says
  `elastic_beanstalk`. The model's field is named `ebs`.
- **Link ids.** Links carry `span_id`, as the code writes them.
- **Platform blocks overlap.** A `host.id` alone adds an `ec2` block next to, for example, an `eks` block
  (`SuperSpan.PlatformBlocksOverlap`).
- **Empty names.** Sanitising runs after the fallback choice, so a segment name can be empty
  (`NameParser.EmptyNamePossible`).
- **Exception ids.** The exporter draws exception ids for every span it maps. When an `export` throws, the
  ids already drawn for the spans before the throwing one, and for that span's cause when the throw comes
  later than the trace id, stay drawn.

## Model

| member | source | states |
|---|---|---|
| Util.Str | src/util.ts:18-20 | `str(v)` is absent exactly when `v` is falsy; otherwise it is `v`'s string form, and a non-empty string maps to itself |
| Util.StrIdempotent | src/util.ts:18-20 | `str` applied to its own output gives the same value whenever that output is not `""`; an empty array is the one case where it does not |
| Util.Ip | src/util.ts:28-30 | `ip(s)` is exactly `s` when `s` is a valid IP, and absent otherwise; absent or empty input gives absent |
| Util.Undef | src/util.ts:37-39 | `undef(a)` is absent iff `a` is empty, and otherwise `a` unchanged |
| Util.FirstNonEmpty | src/super.span.ts:160-173 | an `a \|\| b \|\| 'default'` chain over optional strings yields the first non-empty one, or the default when there is none |
| Js.OrChainFirstTruthy | src/http.parser.ts:113-119 | a `\|\|` chain over values yields the first truthy one, or the last operand when none is truthy |
| IdParser.ParseId | src/id.parser.ts:41-57 | succeeds iff the hex epoch of the first 8 characters lies in `[now - maxAge, now + maxSkew]`; then the result is `"1-" + id[0..8] + "-" + id[8..]`, and otherwise it throws `Invalid X-Ray trace ID: <id>` |
| IdParser.ParseIntHexDigits | src/id.parser.ts:44 | `parseInt(s, 16)` of a run of hex digits is its radix-16 value |
| IdParser.WindowInclusive | src/id.parser.ts:47-51 | for 8 hex digits, success iff `now - maxAge <= epoch <= now + maxSkew`, so both ends are accepted |
| IdParser.NoLeadingHexDigit | src/id.parser.ts:44-52 | an id whose first character is not a hex digit is rejected with the trace-id error |
| IdParser.ConvertedShape | src/id.parser.ts:56 | a 32-character id that converts gives 35 characters, `1` then `-` at index 1 and `-` at index 10, and the inverse conversion restores the id |
| OriginParser.EcsOrigin | src/origin.parser.ts:41-52 | ECS launch type: falsy gives `AWS::ECS::Container`, `aws_ec2` gives `AWS::ECS::EC2`, `fargate` gives `AWS::ECS::Fargate`, anything else `AWS::ECS::Container` |
| OriginParser.GetOrigin | src/origin.parser.ts:24-60 | absent unless `cloud.provider` is `aws`; when defined, always one of the seven origin strings |
| OriginParser.PlatformTable | src/origin.parser.ts:34-56 | the platform-to-origin mappings for App Runner, EKS, Elastic Beanstalk, ECS and EC2 |
| OriginParser.OriginDefinedIff | src/origin.parser.ts:29-56 | the origin is defined iff the provider is `aws` and the platform is one of the five known platforms |
| NameParser.LocalServiceName | src/name.parser.ts:38-49 | used only for SERVER/INTERNAL spans whose `aws.span.kind` is `local_root`, and then it is `str(aws.local.service)` |
| NameParser.RemoteServiceName | src/name.parser.ts:51-69 | used only for CLIENT/PRODUCER/CONSUMER spans with a non-empty remote service; `AWS.SDK.` is dropped only when `rpc.system` is `aws-api` |
| NameParser.DatabaseName | src/name.parser.ts:79-96 | absent iff `db.name` is; it starts with the name, and gains `@host` exactly when the name and the connection string are non-empty and the connection string, without `jdbc:`, parses with a non-empty host |
| NameParser.ResourceServiceName | src/name.parser.ts:98-105 | defined only for SERVER spans, as `str(service.name)` of the resource |
| NameParser.Strip | src/name.parser.ts:34 | the filter keeps only allowed characters and never lengthens the name |
| NameParser.StripAllowed | src/name.parser.ts:34 | the filter leaves a name made only of allowed characters unchanged |
| NameParser.StripDistributes | src/name.parser.ts:34 | the filter works character by character: filtering a concatenation is concatenating the filtered parts |
| NameParser.SliceAsWritten | src/name.parser.ts:35 | `slice(0, 200)` as written: the prefix of exactly min(200, length) UTF-16 code units of the name |
| NameParser.SliceSplitsPair | src/name.parser.ts:35 | 199 letters followed by one astral letter are cut inside its surrogate pair, leaving a code-unit sequence no string encodes |
| NameParser.Truncate | src/name.parser.ts:35 | the corrected truncation: the longest prefix of whole characters fitting in 200 code units |
| NameParser.TruncateFits | src/name.parser.ts:35 | a name that already fits is left unchanged |
| NameParser.TruncateAgreesOnBmp | src/name.parser.ts:35 | on names without astral characters the corrected truncation equals the slice as written |
| NameParser.TruncateBmpLength | src/name.parser.ts:35 | on such names the result has `min(length, 200)` characters |
| NameParser.TruncateKeepsPairs | src/name.parser.ts:35 | the corrected truncation never splits a character: the name's code units are the kept part's followed by the rest's |
| NameParser.Sanitize | src/name.parser.ts:34-35 | filtering then truncating gives only allowed characters in at most 200 code units |
| NameParser.ParseName | src/name.parser.ts:20-36 | every segment name holds only allowed characters and fits in 200 UTF-16 code units |
| NameParser.SanitizeIdempotent | src/name.parser.ts:34-35 | sanitising a sanitised name changes nothing |
| NameParser.SpanNameFirst | src/name.parser.ts:20-36 | a non-empty span name wins, whatever the attributes: the result is the sanitised span name |
| NameParser.FallbackName | src/name.parser.ts:20-33 | when every source is absent or empty the name is `span` |
| NameParser.EmptyNamePossible | src/name.parser.ts:20-36 | a span name made only of disallowed characters gives the empty name |
| HttpParser.UrlText | src/http.parser.ts:40-41 | the synthesised URL text is `scheme://host[:port]path`, with `:port` only for a truthy port |
| HttpParser.ToUrl | src/http.parser.ts:34-43 | `toURL` throws exactly when the URL text does not parse, and otherwise gives the parsed URL's text |
| HttpParser.StrOr | src/http.parser.ts:107-128 | `str(v) \|\| default` is `v`'s text when that is non-empty, and the default otherwise |
| HttpParser.RequestUrl | src/http.parser.ts:93-148 | the url is absent unless one of the seven url/host keys is present; then a truthy `http.url`/`url.full` is used as is, or else the URL is synthesised from the server or client parts |
| HttpParser.DefaultUrlText | src/http.parser.ts:105-147 | with no scheme, host, port or path attributes, the synthesised text is `http://host/` |
| HttpParser.Method | src/http.parser.ts:74-77 | `method` is the first truthy of `http.method` and `http.request.method` |
| HttpParser.ClientIpFirstValid | src/http.parser.ts:78-83 | `client_ip` is the first valid IP among `http.client_ip`, `net.peer.ip`, `network.peer.address` and `client.address`, or absent when none is valid |
| HttpParser.UserAgent | src/http.parser.ts:84-87 | `user_agent` is the first truthy of `http.user_agent` and `user_agent.original` |
| HttpParser.XForwardedFor | src/http.parser.ts:88-92 | `x_forwarded_for` is true iff `http.client_ip` is falsy and `net.peer.ip` truthy, and is never false |
| HttpParser.Status | src/http.parser.ts:151-153 | `status` is `Number(http.status_code)` when that is truthy, else `Number(http.response.status_code)`, which is NaN when both are missing |
| HttpParser.ContentLength | src/http.parser.ts:154-159 | `content_length` is 0 unless `message.type` is `RECEIVED`, and then `Number` of the payload size |
| HttpParser.ParseHttp | src/http.parser.ts:45-163 | the http block is absent iff none of the 24 trigger keys is present; it throws only when URL synthesis throws; otherwise its fields are the ones above |
| HttpParser.NetHostNameAlone | src/http.parser.ts:46-101 | `net.host.name` enables the url but is not a trigger key, so alone it gives no http block |
| CauseParser.Location | src/cause.parser.ts:18 | a matched location has a non-empty path without `:` and a non-empty line of decimal digits |
| CauseParser.Labelled | src/cause.parser.ts:18 | the labelled alternative captures a non-empty label without parentheses and a path without `:` |
| CauseParser.Bare | src/cause.parser.ts:18 | the bare alternative captures no label and a path without `:` |
| CauseParser.MatchedFrameShape | src/cause.parser.ts:17-18 | every match of the expression captures a path without `:`, and any label is non-empty and free of parentheses |
| CauseParser.LabelledFrame | src/cause.parser.ts:17-18 | `at name (path:L:C)` captures `name`, the path and `L`, and gives a frame labelled `name` with that path and line `L` as a decimal number |
| CauseParser.BareFrame | src/cause.parser.ts:17-18 | `at path:L:C` captures no label, the path and `L`, and gives an unlabelled frame with that path and line `L` |
| CauseParser.FramesAppend | src/cause.parser.ts:78-89 | frames are taken line by line: the frames of two blocks of lines are the frames of each, in order |
| CauseParser.FramesOfLine | src/cause.parser.ts:80-81 | a line gives its match as one frame, and a non-matching line is dropped |
| CauseParser.ExceptionEvents | src/cause.parser.ts:68-69 | the kept events are the span's events named `exception`, none of them when no event has that name |
| CauseParser.ExceptionEventsAppend | src/cause.parser.ts:68-69 | the filter works event by event: the events kept from two runs are those of each, in order |
| CauseParser.ExceptionEventsOfOne | src/cause.parser.ts:68-69 | a single event is kept exactly when it is named `exception` |
| CauseParser.AllExceptionEventsKept | src/cause.parser.ts:68-69 | events all named `exception` are all kept, in their order |
| CauseParser.Stack | src/cause.parser.ts:78-89 | `stack` is absent iff the stacktrace attribute is falsy, and otherwise the frames of its lines |
| CauseParser.ExceptionOf | src/cause.parser.ts:70-90 | an exception carries the drawn id, an empty `cause`, `type` and `message` via `str`, the stack, and `remote` iff the span is PRODUCER or CLIENT |
| CauseParser.Exceptions | src/cause.parser.ts:68-90 | one exception per kept event, in order, the `k`-th with the generator's `next + k`-th id |
| CauseParser.GetCause | src/cause.parser.ts:64-94 | the cause is absent iff no event is named `exception`; otherwise its exceptions are built from the exception events, one per event in event order (the filter being pinned event by event by the three lemmas above), and exactly one id is drawn per exception event |
| CauseParser.CauseNonEmpty | src/cause.parser.ts:65-91 | a defined cause always holds a non-empty exception list, as long as the filtered list of exception events |
| CauseParser.DefaultId | src/cause.parser.ts:21 | the default id generator's ids are 16 lowercase hex characters |
| CauseParser.HexRoundTrip | src/cause.parser.ts:21 | hex encoding of the random bytes loses nothing: decoding gives the bytes back |
| SuperSpan.GetNamespace | src/super.span.ts:90-100 | `aws` iff `rpc.system` is `aws-api` or `aws.service` is truthy; otherwise `remote` iff CLIENT; otherwise absent |
| SuperSpan.Flag | src/super.span.ts:121-147 | a status flag is true iff the status lies in its inclusive range, and is never false |
| SuperSpan.IsThrottled | src/super.span.ts:107-113 | true iff `Number(http.status_code)` is 429, never false |
| SuperSpan.IsFault | src/super.span.ts:121-130 | true iff the status (0 when falsy) is in 400–499, never false |
| SuperSpan.IsError | src/super.span.ts:138-147 | true iff the status (0 when falsy) is in 500–599, never false |
| SuperSpan.FaultErrorExclusive | src/super.span.ts:121-147 | fault and error are never both true, and both are absent without a status |
| SuperSpan.FlagsAsCoded | src/super.span.ts:107-147 | a numeric 429 is throttled and a fault but not an error; a textual `503` is an error and not a fault |
| SuperSpan.GetService | src/super.span.ts:158-175 | every service field is non-empty: the first non-empty of its sources, or `unknown` |
| SuperSpan.ServiceVersionOrder | src/super.span.ts:160-163 | version prefers `service.version`, then `container.image.tag`, then `unknown` |
| SuperSpan.GetOrigin | src/super.span.ts:183-223 | the enricher's origin is absent or one of the seven origin strings |
| SuperSpan.OriginsAgree | src/super.span.ts:183-223 | the enricher's origin table agrees with `DefaultOriginParser.getOrigin` on every span |
| SuperSpan.GetType | src/super.span.ts:249-258 | `subsegment` iff the kind is not SERVER and a parent id is defined, and otherwise absent |
| SuperSpan.GetUser | src/super.span.ts:278-280 | `user` is absent iff `enduser.id` is falsy, and otherwise its text |
| SuperSpan.DefinedAttributes | src/super.span.ts:266-272 | a link's attributes keep exactly the keys whose value is not `undefined`, with their values |
| SuperSpan.LinkOf | src/super.span.ts:263-273 | a link converts iff its trace id does; it carries the span id, the converted trace id and the defined attributes, or the id error |
| SuperSpan.Links | src/super.span.ts:262-274 | the links convert iff each does; then one entry per link, in order |
| SuperSpan.LinksFirstError | src/super.span.ts:262-274 | when some link fails, the conversion throws the error of the first link that fails |
| SuperSpan.GetLinks | src/super.span.ts:260-276 | no links gives absent; otherwise the converted list, or the first conversion error |
| SuperSpan.LinksInOrder | src/super.span.ts:260-276 | converted links are one per link, in order, with the link's span id, `1-<8>-<rest>` trace id and only defined attributes |
| SuperSpan.GetSql | src/super.span.ts:291-305 | the sql block is defined iff `str(db.system)` is one of the 11 listed systems; its url is the span name |
| SuperSpan.ConnectionStringParts | src/super.span.ts:297 | `connection_string` is `conn + "/" + db`, and `localhost/` when both are falsy |
| SuperSpan.GetAws | src/super.span.ts:307-425 | the aws block always exists: operation is `aws.operation` or else `rpc.method`, `auto_instrumentation` iff the auto version is present, and each platform block exists iff its condition holds |
| SuperSpan.SdkTextCases | src/super.span.ts:321-327 | `xray.sdk` is `language/version`, and `?/undefined` when both are missing |
| SuperSpan.PlatformBlocksOverlap | src/super.span.ts:335-423 | on EKS with a `host.id`, the aws block carries both an `eks` and an `ec2` block |
| SuperSpan.GetTraceId | src/super.span.ts:427-429 | the span's trace id converted by the id parser, with the same window and error |
| TraceFilter.DoFilter | src/trace.filter.ts:8-10 | a segment is dropped iff its request's user agent exists and contains `aws-sdk-js` |
| TraceFilter.KeptWithoutAgent | src/trace.filter.ts:9 | a segment without http, request or user agent is kept |
| TraceFilter.OnlyUserAgent | src/trace.filter.ts:8-10 | two segments with the same user agent get the same verdict |
| TraceFilter.DroppedAnywhere | src/trace.filter.ts:9 | `aws-sdk-js` at the start, middle or end of the user agent drops the segment |
| XrayExporter.MakeDocument | src/xray.exporter.ts:34-56 | a span's document exists iff its trace id and links convert and its http block does not throw; a trace id that throws draws no exception id; otherwise the span's exception events draw one id each |
| XrayExporter.MakeDocumentDescribes | src/xray.exporter.ts:34-56 | a document that can be built carries the span's id, trace id, name, times, parent, flags, origin, namespace, user, http, aws, service, sql, type and links, and the cause numbered from the next id |
| XrayExporter.BuildCounts | src/xray.exporter.ts:34-56 | the map's callback succeeds exactly on the spans whose derivations succeed, whatever the next id, and then draws one id per exception event |
| XrayExporter.BuildDescribes | src/xray.exporter.ts:34-56 | every document the map's callback builds describes its span and carries the cause numbered from the id it was given |
| XrayExporter.DocumentsOkIff | src/xray.exporter.ts:31-57 | the documents are built iff every span's document can be built |
| XrayExporter.DocumentsDrawAllIds | src/xray.exporter.ts:31-57 | building all documents draws, in total, the ids each span's builder draws |
| XrayExporter.DocumentsEach | src/xray.exporter.ts:31-57 | one document per span, in input order: what the builder promises of each document holds of the `i`-th one, built from the ids left by the spans before it |
| XrayExporter.DocumentsInOrder | src/xray.exporter.ts:31-57 | the `i`-th document describes the `i`-th span, and its cause uses the ids following those drawn for the spans before it |
| XrayExporter.BadTraceIdThrows | src/xray.exporter.ts:36 | one span whose trace id fails to convert makes the whole document map throw |
| XrayExporter.SegmentEmitter.Emit | src/xray.exporter.ts:59-60 | the emitter records the batch it is given and answers with its outcome for that call |
| XrayExporter.XraySpanExporter.Export | src/xray.exporter.ts:30-68 | on a throw nothing is emitted and the callback is not called; otherwise all documents go to one `emit` call and the callback fires once, with SUCCESS or FAILED carrying the error |
| XrayExporter.XraySpanExporter.Shutdown | src/xray.exporter.ts:75-79 | shuts the emitter down exactly once and emits nothing |
| XrayExporter.XraySpanExporter.ForceFlush | src/xray.exporter.ts:86-89 | changes nothing |
| UdpEmitter.ProcessAddress | src/emitter/udp.emitter.ts:75-99 | an address without `:` throws the IP-and-port error; three or more space-separated tokens leave the configuration as it was |
| UdpEmitter.OneToken | src/emitter/udp.emitter.ts:83-89 | one token `host:port` sets the ip to `host` and the port to `parseInt(port)` |
| UdpEmitter.EmptyHost | src/emitter/udp.emitter.ts:85-87 | one token with nothing before its colon throws the IP error |
| UdpEmitter.TwoTokens | src/emitter/udp.emitter.ts:90-97 | of two tokens, the one starting with `udp` supplies the ip and port, whichever comes first |
| UdpEmitter.SecondUdpWins | src/emitter/udp.emitter.ts:94-97 | when both tokens start with `udp`, the second one wins |
| UdpEmitter.NoUdpToken | src/emitter/udp.emitter.ts:90-97 | two tokens, neither starting with `udp`, make the lookup throw |
| UdpEmitter.FrameRoundTrip | src/emitter/udp.emitter.ts:44-47 | a datagram is the JSON header line followed by the document, which can be read back unchanged |
| UdpEmitter.Datagrams | src/emitter/udp.emitter.ts:44-47 | one framed datagram per segment, in order, addressed to the configured ip and port |
| UdpEmitter.SendAllSpec | src/emitter/udp.emitter.ts:49-67 | sending succeeds iff every send does; otherwise the error is that of the last send made, and all earlier sends succeeded |
| UdpEmitter.AllSentWithoutFailure | src/emitter/udp.emitter.ts:49-67 | when no send fails, every datagram is sent and the emit succeeds |
| UdpEmitter.StopsAtFirstFailure | src/emitter/udp.emitter.ts:49-67 | the first failing send ends the emit with its error, and nothing after it is sent |
| UdpEmitter.UdpDaemonSegmentEmitter.Create | src/emitter/udp.emitter.ts:21-33 | the configuration is 127.0.0.1:2000 unless a truthy daemon address is set; then it is processed, and its error is thrown by the constructor |
| UdpEmitter.UdpDaemonSegmentEmitter.SetAddress | src/emitter/udp.emitter.ts:75-99 | the configuration becomes the processed address, or is left unchanged when processing throws |
| UdpEmitter.UdpDaemonSegmentEmitter.Emit | src/emitter/udp.emitter.ts:43-68 | the datagrams are sent one at a time, in order, up to and including the first failing send, whose error rejects the emit |
| UdpEmitter.UdpDaemonSegmentEmitter.Shutdown | src/emitter/udp.emitter.ts:35-37 | closes the socket and sends nothing |

## Findings

| source | as written | input that shows it | evidently intended | confidence | as-written member | corrected member |
|---|---|---|---|---|---|---|
| src/name.parser.ts:34-35 | the name is filtered with a Unicode-aware (`/u`) character class and then cut with `slice(0, 200)`, which counts UTF-16 code units | a span name of 199 ASCII letters followed by U+1D400 (a letter, so the filter keeps it): the slice ends with the pair's high surrogate | a name of at most 200 code units that holds only whole characters | not executed | NameParser.SliceSplitsPair | NameParser.Truncate |

The segment document uses `NameParser.Truncate`. `NameParser.TruncateAgreesOnBmp` shows that it agrees
with the slice as written whenever the name has no astral characters.

## Left out

- `hrt`, `getStartTime`, `getEndTime`: floating-point division of the span's high-resolution times. The document's `start_time`/`end_time` are `Spans.Hrt` over exact reals, with no IEEE rounding.
- Numbers are exact rationals. `Number()` and `parseInt` are written out for the string forms that occur. Number-to-string prints integers exactly and fractions only approximately (no shortest round-trip and no exponent form).
- `net.isIP`, WHATWG URL parsing and normalisation (`toURL`, `getDatabaseName`) and the Unicode letter class outside ASCII are foreign functions, passed in through `Foreign.Runtime`.
- `randomBytes` is a parameter. `CauseParser.DefaultId` is the hex text of given bytes, and the exporter takes any id generator `ids`.
- `Date.now()` is the parameter `nowMillis`, read once per `export`.
- `JSON.stringify` is the parameter `serialize` of the UDP emitter.
- Sockets are not modelled. `socket.send`/`close` become a recorded list of datagrams and a closed flag, and the `n`-th send's error is given by `failure`. A send after `shutdown` is not distinguished.
- The console and AWS-SDK emitters are not part of this model. Neither is the default emitter choice on `AWS_LAMBDA_FUNCTION_NAME` (src/xray.exporter.ts:17-20): the exporter takes any `SegmentEmitter`, whose per-call outcome is given.
- Promises, asynchronous scheduling and `diag` logging are left out. `export` runs the emit and records the one callback result synchronously.
- `getAnnotations`/`getMetadata`: they are called by the exporter but defined nowhere, so both are absent in every document.
- The `!resource?.attributes` guard of both origin tables is left out: a span always has a resource with an attribute map.
- Input strings are sequences of Unicode scalar values, so lone surrogates in span names cannot be expressed.
- Util.StrIdempotent: holds only when `str(v)` is not `""`. `str([])` is `""`, and `str("")` is absent.
- UdpEmitter.ProcessAddress: the error for two tokens without `udp` is V8's message for reading `[1]` of `undefined`. A token named `__proto__` in the address map is not modelled specially.
