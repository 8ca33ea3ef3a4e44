/** The finished span the exporter receives, as the OpenTelemetry SDK hands it over. */
module Spans {
  import opened Wrappers
  import opened Js

  datatype SpanKind = INTERNAL | SERVER | CLIENT | PRODUCER | CONSUMER

  /** A high-resolution time: whole seconds and nanoseconds. */
  datatype HrTime = HrTime(seconds: int, nanos: int)

  /** A timed event; a missing attribute map reads as an empty one. */
  datatype SpanEvent = SpanEvent(name: string, attributes: Attributes)

  /** A link to another span; a missing attribute map reads as an empty one. */
  datatype SpanLink = SpanLink(traceId: string, spanId: string, attributes: Attributes)

  datatype ReadableSpan = ReadableSpan(
    name: string,
    kind: SpanKind,
    traceId: string,
    spanId: string,
    parentSpanId: Option<string>,
    startTime: HrTime,
    endTime: HrTime,
    attributes: Attributes,
    resource: Attributes,
    events: seq<SpanEvent>,
    links: seq<SpanLink>)

  /** `hrt`: seconds as a real, with no floating-point rounding. */
  function Hrt(t: HrTime): real {
    t.seconds as real + t.nanos as real / 1000000000.0
  }
}
