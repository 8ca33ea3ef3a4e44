/**
 * `XraySpanExporter` (src/xray.exporter.ts): one segment document per span,
 * all of them handed to the segment emitter in one call, and the export
 * callback told once whether that call succeeded.
 */
module XrayExporter {
  import opened Wrappers
  import opened Js
  import opened Foreign
  import opened Spans
  import opened Document
  import IdParser
  import NameParser
  import HttpParser
  import CauseParser
  import OriginParser
  import opened SuperSpan

  /** The collaborators the exporter is built with. */
  datatype Config = Config(idParser: IdParser.DefaultIdParser, rt: Runtime, ids: CauseParser.IdSource)

  /** What the export callback receives. */
  datatype ExportResult = SUCCESS | FAILED(error: string)

  // ---------------------------------------------------------------------------
  // Document assembly.

  /** The three derivations that can throw all succeed for `span`. */
  predicate DocumentOk(c: Config, span: ReadableSpan, nowMillis: int) {
    GetTraceId(span, c.idParser, nowMillis).Ok?
    && HttpParser.ParseHttp(c.rt, span).Ok?
    && GetLinks(span, c.idParser, nowMillis).Ok?
  }

  /** `seg` holds, field by field, what the enricher and the parsers derive from `span` (the cause aside). */
  predicate Describes(c: Config, span: ReadableSpan, seg: Segment, nowMillis: int) {
    DocumentOk(c, span, nowMillis)
    && seg.id == span.spanId
    && seg.trace_id == GetTraceId(span, c.idParser, nowMillis).value
    && seg.name == NameParser.ParseName(c.rt, span)
    && seg.start_time == Hrt(span.startTime) && seg.end_time == Hrt(span.endTime)
    && seg.parent_id == span.parentSpanId
    && seg.fault == IsFault(span) && seg.error == IsError(span) && seg.throttle == IsThrottled(span)
    && seg.origin == OriginParser.GetOrigin(span)
    && seg.namespace == GetNamespace(span)
    && seg.user == GetUser(span)
    && seg.http == HttpParser.ParseHttp(c.rt, span).value
    && seg.aws == GetAws(span)
    && seg.service == GetService(span)
    && seg.sql == GetSql(span)
    && seg.segment_type == GetType(span)
    && seg.links == GetLinks(span, c.idParser, nowMillis).value
  }

  /**
   * The document of one span, built in the order of the object literal: the
   * trace id, then the cause (which draws ids from `next` on), then http,
   * then links. The result also gives the number of the next id to draw.
   * `origin` is the enricher's own table, the one that runs.
   */
  function MakeDocument(c: Config, span: ReadableSpan, next: nat, nowMillis: int): (r: (Result<Segment>, nat))
    ensures r.0.Ok? <==> DocumentOk(c, span, nowMillis)
    ensures GetTraceId(span, c.idParser, nowMillis).Throws? ==>
      r == (Throws(GetTraceId(span, c.idParser, nowMillis).error), next)
    ensures GetTraceId(span, c.idParser, nowMillis).Ok? ==> r.1 == next + |CauseParser.ExceptionEvents(span.events)|
  {
    match GetTraceId(span, c.idParser, nowMillis)
    case Throws(e) => (Throws(e), next)
    case Ok(traceId) =>
      var (cause, after) := CauseParser.GetCause(span, c.ids, next);
      match HttpParser.ParseHttp(c.rt, span)
      case Throws(e) => (Throws(e), after)
      case Ok(http) =>
        match GetLinks(span, c.idParser, nowMillis)
        case Throws(e) => (Throws(e), after)
        case Ok(links) =>
          OriginsAgree(span);
          var seg := Segment(
            span.spanId, traceId, NameParser.ParseName(c.rt, span), Hrt(span.startTime), Hrt(span.endTime),
            span.parentSpanId, IsFault(span), IsError(span), IsThrottled(span), cause, GetOrigin(span),
            GetNamespace(span), GetUser(span), http, GetAws(span), GetService(span), GetSql(span),
            GetType(span), links);
          (Ok(seg), after)
  }

  /** A span's document, when it can be built, holds what the enricher and the parsers derive, and its cause. */
  lemma MakeDocumentDescribes(c: Config, span: ReadableSpan, next: nat, nowMillis: int)
    requires DocumentOk(c, span, nowMillis)
    ensures var d := MakeDocument(c, span, next, nowMillis).0;
      d.Ok? && Describes(c, span, d.value, nowMillis) && d.value.cause == CauseParser.GetCause(span, c.ids, next).0
  {
    OriginsAgree(span);
  }

  // ---------------------------------------------------------------------------
  // The map over the batch.

  /** The callback of `spans.map(...)`: one span's document from the number of the next exception id, and the next id after it. */
  type Builder = (ReadableSpan, nat) -> (Result<Segment>, nat)

  /** The exporter's callback at the clock reading `nowMillis`. */
  function Build(c: Config, nowMillis: int): Builder {
    (span, next) => MakeDocument(c, span, next, nowMillis)
  }

  /** Whether the exporter's callback can build a span's document at the clock reading `nowMillis`. */
  function Buildable(c: Config, nowMillis: int): ReadableSpan -> bool {
    span => DocumentOk(c, span, nowMillis)
  }

  /** The number of exception ids one span's document draws. */
  function Drawn(span: ReadableSpan): nat {
    |CauseParser.ExceptionEvents(span.events)|
  }

  /**
   * What a builder must do for the lemmas below: whether a span's document
   * can be built is `ok(span)`, whatever the id number, and building it draws
   * `count(span)` ids.
   */
  ghost predicate Counts(make: Builder, ok: ReadableSpan -> bool, count: ReadableSpan -> nat) {
    forall span, next: nat :: (make(span, next).0.Ok? <==> ok(span)) && (make(span, next).0.Ok? ==> make(span, next).1 == next + count(span))
  }

  /** The exporter's callback succeeds exactly on the spans whose derivations all succeed, and draws one id per exception event. */
  lemma BuildCounts(c: Config, nowMillis: int)
    ensures Counts(Build(c, nowMillis), Buildable(c, nowMillis), Drawn)
  {
  }

  /** The ids the spans before the `i`-th one draw. */
  function Before(count: ReadableSpan -> nat, spans: seq<ReadableSpan>, i: nat): nat
    requires i <= |spans|
  {
    if i == 0 then 0 else count(spans[0]) + Before(count, spans[1..], i - 1)
  }

  /** `spans.map(make)`: the documents in span order, or the first span's error; and the next id to draw. */
  function Documents(make: Builder, spans: seq<ReadableSpan>, next: nat): (r: (Result<seq<Segment>>, nat))
    ensures r.0.Ok? ==> |r.0.value| == |spans|
  {
    if spans == [] then (Ok([]), next)
    else
      var (d, after) := make(spans[0], next);
      match d
      case Throws(e) => (Throws(e), after)
      case Ok(seg) =>
        var (rest, last) := Documents(make, spans[1..], after);
        match rest
        case Throws(e) => (Throws(e), last)
        case Ok(segs) => (Ok([seg] + segs), last)
  }

  /** The map succeeds exactly when every span's document can be built. */
  lemma {:induction false} DocumentsOkIff(make: Builder, ok: ReadableSpan -> bool, count: ReadableSpan -> nat,
                                          spans: seq<ReadableSpan>, next: nat)
    requires Counts(make, ok, count)
    ensures Documents(make, spans, next).0.Ok? <==> forall i :: 0 <= i < |spans| ==> ok(spans[i])
  {
    if spans != [] {
      var tail := spans[1..];
      DocumentsOkIff(make, ok, count, tail, make(spans[0], next).1);
      assert forall i :: 1 <= i < |spans| ==> spans[i] == tail[i - 1];
    }
  }

  /** On success every span has drawn its ids: the next id is `next` plus all of them. */
  lemma {:induction false} DocumentsDrawAllIds(make: Builder, ok: ReadableSpan -> bool, count: ReadableSpan -> nat,
                                               spans: seq<ReadableSpan>, next: nat)
    requires Counts(make, ok, count) && Documents(make, spans, next).0.Ok?
    ensures Documents(make, spans, next).1 == next + Before(count, spans, |spans|)
  {
    if spans != [] {
      DocumentsDrawAllIds(make, ok, count, spans[1..], next + count(spans[0]));
    }
  }

  /** Every document `make` builds satisfies `holds` for its span and first id. */
  ghost predicate Builds(make: Builder, holds: (ReadableSpan, nat, Segment) -> bool) {
    forall span, next: nat :: make(span, next).0.Ok? ==> holds(span, next, make(span, next).0.value)
  }

  /**
   * On success the `i`-th document is one the builder makes for the `i`-th
   * span, with the ids after those the spans before it drew: whatever the
   * builder promises of each document holds of the map's documents, one per
   * span, in order.
   */
  lemma {:induction false} DocumentsEach(make: Builder, ok: ReadableSpan -> bool, count: ReadableSpan -> nat,
                                         holds: (ReadableSpan, nat, Segment) -> bool,
                                         spans: seq<ReadableSpan>, next: nat, i: nat)
    requires Counts(make, ok, count) && Builds(make, holds)
    requires Documents(make, spans, next).0.Ok? && i < |spans|
    ensures holds(spans[i], next + Before(count, spans, i), Documents(make, spans, next).0.value[i])
    decreases i
  {
    var after := next + count(spans[0]);
    assert make(spans[0], next).1 == after;
    if i > 0 {
      DocumentsEach(make, ok, count, holds, spans[1..], after, i - 1);
    }
  }

  /** `doc` describes `span`, with the cause whose exception ids start at `next`. */
  predicate DescribesFrom(c: Config, span: ReadableSpan, next: nat, doc: Segment, nowMillis: int) {
    Describes(c, span, doc, nowMillis) && doc.cause == CauseParser.GetCause(span, c.ids, next).0
  }

  /** What the exporter's document for a span, built from the id `next` on, holds. */
  function Described(c: Config, nowMillis: int): (ReadableSpan, nat, Segment) -> bool {
    (span: ReadableSpan, next: nat, doc: Segment) => DescribesFrom(c, span, next, doc, nowMillis)
  }

  /** Every document the exporter's callback builds describes its span. */
  lemma BuildDescribes(c: Config, nowMillis: int)
    ensures Builds(Build(c, nowMillis), Described(c, nowMillis))
  {
    forall span, next: nat | Build(c, nowMillis)(span, next).0.Ok?
      ensures Described(c, nowMillis)(span, next, Build(c, nowMillis)(span, next).0.value)
    {
      MakeDocumentDescribes(c, span, next, nowMillis);
    }
  }

  /**
   * On success the `i`-th document holds what the enricher and the parsers
   * derive from the `i`-th span, and the cause whose exception ids follow
   * those of the spans before it.
   */
  lemma DocumentsInOrder(c: Config, spans: seq<ReadableSpan>, next: nat, nowMillis: int, i: nat)
    requires Documents(Build(c, nowMillis), spans, next).0.Ok? && i < |spans|
    ensures Described(c, nowMillis)(spans[i], next + Before(Drawn, spans, i), Documents(Build(c, nowMillis), spans, next).0.value[i])
  {
    BuildCounts(c, nowMillis);
    BuildDescribes(c, nowMillis);
    DocumentsEach(Build(c, nowMillis), Buildable(c, nowMillis), Drawn, Described(c, nowMillis), spans, next, i);
  }

  /** A trace id outside the window anywhere in the batch makes the whole map throw. */
  lemma BadTraceIdThrows(c: Config, spans: seq<ReadableSpan>, next: nat, nowMillis: int, i: nat)
    requires i < |spans| && GetTraceId(spans[i], c.idParser, nowMillis).Throws?
    ensures Documents(Build(c, nowMillis), spans, next).0.Throws?
  {
    BuildCounts(c, nowMillis);
    DocumentsOkIff(Build(c, nowMillis), Buildable(c, nowMillis), Drawn, spans, next);
    assert !DocumentOk(c, spans[i], nowMillis);
  }

  // ---------------------------------------------------------------------------
  // The emitter and the exporter.

  /**
   * The segment emitter the exporter talks to, as an abstract sink: it
   * records each batch it is given and each shutdown, and whether its `n`-th
   * `emit` rejects, and with what error, is fixed by `outcome`.
   */
  class SegmentEmitter {
    var batches: seq<seq<Segment>>
    var shutdowns: nat
    const outcome: nat -> Option<string>

    constructor(outcome: nat -> Option<string>)
      ensures batches == [] && shutdowns == 0 && this.outcome == outcome
    {
      batches := [];
      shutdowns := 0;
      this.outcome := outcome;
    }

    /** `emit(trace)`: the batch is handed over; the result is the rejection, if any. */
    method Emit(trace: seq<Segment>) returns (err: Option<string>)
      modifies this
      ensures batches == old(batches) + [trace] && shutdowns == old(shutdowns)
      ensures err == outcome(|old(batches)|)
    {
      err := outcome(|batches|);
      batches := batches + [trace];
    }

    method Shutdown()
      modifies this
      ensures shutdowns == old(shutdowns) + 1 && batches == old(batches)
    {
      shutdowns := shutdowns + 1;
    }
  }

  class XraySpanExporter {
    const emitter: SegmentEmitter
    const config: Config
    /** The number of ids the cause parser's generator has handed out. */
    var drawn: nat
    /** Every result passed to an export callback, in order. */
    var results: seq<ExportResult>

    constructor(emitter: SegmentEmitter, config: Config)
      ensures this.emitter == emitter && this.config == config && drawn == 0 && results == []
    {
      this.emitter := emitter;
      this.config := config;
      drawn := 0;
      results := [];
    }

    /**
     * `export(spans, cb)` at the clock reading `nowMillis`. When assembly
     * throws, the error escapes (`thrown`), nothing is emitted and the
     * callback never fires. Otherwise the documents go to the emitter in one
     * call and the callback fires once, with SUCCESS or with the rejection.
     */
    method Export(spans: seq<ReadableSpan>, nowMillis: int) returns (thrown: Option<string>)
      modifies this, emitter
      ensures var docs := Documents(Build(config, nowMillis), spans, old(drawn));
        && drawn == docs.1
        && emitter.shutdowns == old(emitter.shutdowns)
        && (docs.0.Throws? ==>
              thrown == Some(docs.0.error) && emitter.batches == old(emitter.batches) && results == old(results))
        && (docs.0.Ok? ==>
              && thrown.None?
              && emitter.batches == old(emitter.batches) + [docs.0.value]
              && var err := emitter.outcome(|old(emitter.batches)|);
                 results == old(results) + [if err.None? then SUCCESS else FAILED(err.value)])
    {
      var docs := Documents(Build(config, nowMillis), spans, drawn);
      drawn := docs.1;
      if docs.0.Throws? {
        return Some(docs.0.error);
      }
      var err := emitter.Emit(docs.0.value);
      if err.None? {
        results := results + [SUCCESS];
      } else {
        results := results + [FAILED(err.value)];
      }
      thrown := None;
    }

    /** `shutdown()`: shuts the emitter down once. */
    method Shutdown()
      modifies emitter
      ensures emitter.shutdowns == old(emitter.shutdowns) + 1 && emitter.batches == old(emitter.batches)
    {
      emitter.Shutdown();
    }

    /** `forceFlush()`: nothing to flush. */
    method ForceFlush()
      ensures unchanged(this) && unchanged(emitter)
    {
    }
  }
}
