/**
 * `DefaultNameParser` (src/name.parser.ts): the segment name is the first
 * non-empty of ten candidate sources, falling back to `span`; the choice is
 * then stripped of disallowed characters and cut to 200 UTF-16 code units.
 *
 * The cut as written can split a surrogate pair (see `SliceAsWritten` and
 * `SliceSplitsPair`); the name the model uses is cut at a character boundary
 * instead (`Truncate`).
 */
module NameParser {
  import opened Wrappers
  import opened Strings
  import opened Js
  import opened Foreign
  import opened SemConv
  import opened Spans
  import opened Util

  /** The most UTF-16 code units a segment name may hold. */
  const MAX_NAME_UNITS := 200

  // ---------------------------------------------------------------------------
  // The candidate sources, in the order `parseName` tries them.

  /** The span's own name. */
  function SpanName(span: ReadableSpan): string {
    span.name
  }

  /** The local service, for a SERVER or INTERNAL span marked as a local root. */
  function LocalServiceName(span: ReadableSpan): (r: Option<string>)
    ensures r.Some? ==> span.kind in {SERVER, INTERNAL} && Str(Get(span.attributes, AWS_SPAN_KIND)) == Some(LOCAL_ROOT)
    ensures (span.kind in {SERVER, INTERNAL} && Str(Get(span.attributes, AWS_SPAN_KIND)) == Some(LOCAL_ROOT))
              ==> r == Str(Get(span.attributes, AWS_LOCAL_SERVICE))
  {
    if span.kind in {SERVER, INTERNAL} && Str(Get(span.attributes, AWS_SPAN_KIND)) == Some(LOCAL_ROOT)
    then Str(Get(span.attributes, AWS_LOCAL_SERVICE))
    else None
  }

  /**
   * The remote service, for a CLIENT, PRODUCER or CONSUMER span; an AWS SDK
   * call drops the `AWS.SDK.` prefix.
   */
  function RemoteServiceName(span: ReadableSpan): (r: Option<string>)
    ensures r.Some? ==> span.kind in {CLIENT, PRODUCER, CONSUMER}
    ensures r.Some? ==> NonEmpty(Str(Get(span.attributes, AWS_REMOTE_SERVICE)))
    ensures span.kind in {CLIENT, PRODUCER, CONSUMER} && NonEmpty(Str(Get(span.attributes, AWS_REMOTE_SERVICE))) ==>
              var name := Str(Get(span.attributes, AWS_REMOTE_SERVICE)).value;
              r == Some(if Str(Get(span.attributes, RPC_SYSTEM)) == Some(RPC_SYSTEM_AWS_API) && StartsWith(name, AWS_SDK_PREFIX)
                        then name[|AWS_SDK_PREFIX|..] else name)
  {
    if span.kind in {CLIENT, PRODUCER, CONSUMER} then
      var name := Str(Get(span.attributes, AWS_REMOTE_SERVICE));
      if NonEmpty(name) then
        if Str(Get(span.attributes, RPC_SYSTEM)) == Some(RPC_SYSTEM_AWS_API) && StartsWith(name.value, "AWS.SDK.")
        then Some(name.value[8..])
        else name
      else None
    else None
  }

  function PeerService(span: ReadableSpan): Option<string> {
    Str(Get(span.attributes, PEER_SERVICE))
  }

  function AwsService(span: ReadableSpan): Option<string> {
    Str(Get(span.attributes, AWS_SERVICE))
  }

  /**
   * The database name, with `@<host>` appended when the connection string
   * (less a `jdbc:` prefix) parses as a URL with a non-empty host name; a
   * connection string that does not parse leaves the bare name.
   */
  function DatabaseName(rt: Runtime, span: ReadableSpan): (r: Option<string>)
    ensures r.None? <==> Str(Get(span.attributes, DB_NAME)).None?
    ensures r.Some? ==> StartsWith(r.value, Str(Get(span.attributes, DB_NAME)).value)
    ensures r.Some? && r != Str(Get(span.attributes, DB_NAME)) ==>
              var name := Str(Get(span.attributes, DB_NAME)).value;
              var conn := Str(Get(span.attributes, DB_CONNECTION_STRING));
              && name != "" && NonEmpty(conn)
              && var text := if StartsWith(conn.value, "jdbc:") then conn.value[5..] else conn.value;
                 && rt.parseUrl(text).Some? && rt.parseUrl(text).value.hostname != ""
                 && r.value == name + "@" + rt.parseUrl(text).value.hostname
    ensures var name := Str(Get(span.attributes, DB_NAME));
      var conn := Str(Get(span.attributes, DB_CONNECTION_STRING));
      NonEmpty(name) && NonEmpty(conn) ==>
        var text := if StartsWith(conn.value, "jdbc:") then conn.value[5..] else conn.value;
        rt.parseUrl(text).Some? && rt.parseUrl(text).value.hostname != "" ==>
          r == Some(name.value + "@" + rt.parseUrl(text).value.hostname)
  {
    var name := Str(Get(span.attributes, DB_NAME));
    if NonEmpty(name) then
      var dbUrl := Str(Get(span.attributes, DB_CONNECTION_STRING));
      if NonEmpty(dbUrl) then
        var text := if StartsWith(dbUrl.value, "jdbc:") then dbUrl.value[5..] else dbUrl.value;
        match rt.parseUrl(text)
        case Some(url) => if url.hostname != "" then Some(name.value + "@" + url.hostname) else name
        case None => name
      else name
    else name
  }

  /** The resource's service name, for SERVER spans only. */
  function ResourceServiceName(span: ReadableSpan): (r: Option<string>)
    ensures r.Some? ==> span.kind == SERVER
    ensures span.kind == SERVER ==> r == Str(Get(span.resource, SERVICE_NAME))
  {
    if span.kind == SERVER then Str(Get(span.resource, SERVICE_NAME)) else None
  }

  function RpcService(span: ReadableSpan): Option<string> {
    Str(Get(span.attributes, RPC_SERVICE))
  }

  function HttpHost(span: ReadableSpan): Option<string> {
    Str(Get(span.attributes, HTTP_HOST))
  }

  function NetPeerName(span: ReadableSpan): Option<string> {
    Str(Get(span.attributes, NET_PEER_NAME))
  }

  /** The candidates of the `||` chain, in order. */
  function Candidates(rt: Runtime, span: ReadableSpan): seq<Option<string>> {
    [Some(SpanName(span)), LocalServiceName(span), RemoteServiceName(span), PeerService(span),
     AwsService(span), DatabaseName(rt, span), ResourceServiceName(span), RpcService(span),
     HttpHost(span), NetPeerName(span)]
  }

  /** The name before sanitising: the first non-empty candidate, or `span`. */
  function Chosen(rt: Runtime, span: ReadableSpan): string {
    FirstNonEmpty(Candidates(rt, span), "span")
  }

  // ---------------------------------------------------------------------------
  // The character filter `/[^ 0-9\p{L}N_.:/%&#=+\-@]/gu`.

  /**
   * The characters the filter keeps: space, ASCII digits, letters, and
   * `N _ . : / % & # = + - @` (the `N` is a literal letter, not the number
   * category).
   */
  predicate Allowed(rt: Runtime, c: char) {
    c == ' ' || IsDigit(c) || IsLetter(rt, c)
    || c in {'N', '_', '.', ':', '/', '%', '&', '#', '=', '+', '-', '@'}
  }

  predicate AllAllowed(rt: Runtime, s: string) {
    forall i :: 0 <= i < |s| ==> Allowed(rt, s[i])
  }

  /** `replace(..., '')`: every disallowed character removed, the rest kept in order. */
  function Strip(rt: Runtime, s: string): (r: string)
    ensures AllAllowed(rt, r)
    ensures |r| <= |s|
  {
    if s == [] then []
    else if Allowed(rt, s[0]) then [s[0]] + Strip(rt, s[1..])
    else Strip(rt, s[1..])
  }

  /** A string with nothing to remove passes the filter unchanged. */
  lemma {:induction false} StripAllowed(rt: Runtime, s: string)
    requires AllAllowed(rt, s)
    ensures Strip(rt, s) == s
  {
    if s != [] {
      assert Allowed(rt, s[0]);
      assert AllAllowed(rt, s[1..]) by {
        forall i | 0 <= i < |s| - 1 ensures Allowed(rt, s[1..][i]) { assert s[1..][i] == s[i + 1]; }
      }
      StripAllowed(rt, s[1..]);
    }
  }

  /** The filter works one character at a time, so it distributes over concatenation. */
  lemma {:induction false} StripDistributes(rt: Runtime, a: string, b: string)
    ensures Strip(rt, a + b) == Strip(rt, a) + Strip(rt, b)
  {
    if a != [] {
      assert (a + b)[1..] == a[1..] + b;
      StripDistributes(rt, a[1..], b);
    } else {
      assert a + b == b;
    }
  }

  // ---------------------------------------------------------------------------
  // UTF-16 code units.

  /** The number of UTF-16 code units a character takes. */
  function Width(c: char): nat {
    if c as int < 0x10000 then 1 else 2
  }

  /** The code units of a character. */
  function Units(c: char): (u: seq<int>)
    ensures |u| == Width(c)
  {
    if c as int < 0x10000 then [c as int]
    else
      var v := c as int - 0x10000;
      [0xD800 + v / 0x400, 0xDC00 + v % 0x400]
  }

  /** The UTF-16 encoding of a string, the sequence JavaScript indexes. */
  function Utf16(s: string): (u: seq<int>)
    ensures |u| == Utf16Length(s)
  {
    if s == [] then [] else Units(s[0]) + Utf16(s[1..])
  }

  /** `s.length` in JavaScript. */
  function Utf16Length(s: string): nat {
    if s == [] then 0 else Width(s[0]) + Utf16Length(s[1..])
  }

  predicate IsHighSurrogate(u: int) {
    0xD800 <= u <= 0xDBFF
  }

  lemma {:induction false} Utf16Append(a: string, b: string)
    ensures Utf16(a + b) == Utf16(a) + Utf16(b)
  {
    if a != [] {
      assert (a + b)[1..] == a[1..] + b;
      Utf16Append(a[1..], b);
    } else {
      assert a + b == b;
    }
  }

  /** The encoding of a string never ends in a high surrogate: pairs are always complete. */
  lemma {:induction false} Utf16EndsComplete(s: string)
    ensures Utf16(s) != [] ==> !IsHighSurrogate(Utf16(s)[|Utf16(s)| - 1])
  {
    if s != [] {
      Utf16EndsComplete(s[1..]);
      var c := s[0];
      if Utf16(s[1..]) == [] {
        assert Utf16(s) == Units(c);
        if c as int >= 0x10000 {
          var v := c as int - 0x10000;
          assert Units(c)[1] == 0xDC00 + v % 0x400;
        } else {
          assert !(0xD800 <= c as int <= 0xDFFF);
        }
      } else {
        assert Utf16(s)[|Utf16(s)| - 1] == Utf16(s[1..])[|Utf16(s[1..])| - 1];
      }
    }
  }

  /** A string of characters from the Basic Multilingual Plane encodes as one unit per character. */
  lemma {:induction false} Utf16Bmp(s: string)
    requires forall i :: 0 <= i < |s| ==> s[i] as int < 0x10000
    ensures Utf16(s) == seq(|s|, i requires 0 <= i < |s| => s[i] as int)
  {
    if s != [] {
      Utf16Bmp(s[1..]);
    }
  }

  // ---------------------------------------------------------------------------
  // Truncation.

  /** `.slice(0, n)` as written: the first `n` UTF-16 code units, whatever they split. */
  function SliceAsWritten(s: string, n: nat): (u: seq<int>)
    ensures |u| == if |Utf16(s)| <= n then |Utf16(s)| else n
    ensures u == Utf16(s)[..|u|]
  {
    var units := Utf16(s);
    if |units| <= n then units else units[..n]
  }

  /**
   * The cut as intended: the longest prefix that fits in `n` code units
   * without splitting a character.
   */
  function Truncate(s: string, n: nat): (r: string)
    ensures |r| <= |s| && r == s[..|r|]
    ensures Utf16Length(r) <= n
    ensures r == s || Utf16Length(r) + Width(s[|r|]) > n
  {
    if s == [] || Width(s[0]) > n then []
    else
      var rest := Truncate(s[1..], n - Width(s[0]));
      assert [s[0]] + rest == s[..|rest| + 1];
      [s[0]] + rest
  }

  /** A string that already fits is left whole. */
  lemma {:induction false} TruncateFits(s: string, n: nat)
    requires Utf16Length(s) <= n
    ensures Truncate(s, n) == s
  {
    if s != [] {
      TruncateFits(s[1..], n - Width(s[0]));
    }
  }

  /** On text without astral characters the intended cut and the written one agree. */
  lemma {:induction false} TruncateAgreesOnBmp(s: string, n: nat)
    requires forall i :: 0 <= i < |s| ==> s[i] as int < 0x10000
    ensures Utf16(Truncate(s, n)) == SliceAsWritten(s, n)
  {
    var r := Truncate(s, n);
    assert forall i :: 0 <= i < |r| ==> r[i] as int < 0x10000;
    Utf16Bmp(s);
    Utf16Bmp(r);
    TruncateBmpLength(s, n);
  }

  lemma {:induction false} TruncateBmpLength(s: string, n: nat)
    requires forall i :: 0 <= i < |s| ==> s[i] as int < 0x10000
    ensures |Truncate(s, n)| == if |s| < n then |s| else n
  {
    if s != [] && n > 0 {
      TruncateBmpLength(s[1..], n - 1);
    }
  }

  /**
   * The written cut splits a surrogate pair: 199 ASCII letters followed by
   * U+1D400 (a letter, so the filter keeps it) cut at 200 units ends in a lone
   * high surrogate, which no string encodes to.
   */
  lemma SliceSplitsPair()
    ensures var s := seq(199, _ => 'a') + ['\U{1D400}'];
      && Utf16Length(s) == 201
      && IsHighSurrogate(SliceAsWritten(s, MAX_NAME_UNITS)[199])
      && |SliceAsWritten(s, MAX_NAME_UNITS)| == 200
      && forall t :: Utf16(t) != SliceAsWritten(s, MAX_NAME_UNITS)
  {
    var a := seq(199, _ => 'a');
    var c := '\U{1D400}';
    var s := a + [c];
    Utf16Append(a, [c]);
    Utf16Bmp(a);
    assert Utf16([c]) == Units(c);
    assert Units(c) == [0xD835, 0xDC00];
    var u := SliceAsWritten(s, MAX_NAME_UNITS);
    assert u == Utf16(a) + [0xD835];
    forall t ensures Utf16(t) != u {
      Utf16EndsComplete(t);
    }
  }

  /** The cut as intended never produces half a pair: its encoding is that of a string. */
  lemma TruncateKeepsPairs(s: string, n: nat)
    ensures Utf16(s) == Utf16(Truncate(s, n)) + Utf16(s[|Truncate(s, n)|..])
  {
    var r := Truncate(s, n);
    assert s == r + s[|r|..];
    Utf16Append(r, s[|r|..]);
  }

  // ---------------------------------------------------------------------------
  // The name.

  /** Strip, then cut to 200 code units at a character boundary. */
  function Sanitize(rt: Runtime, s: string): (r: string)
    ensures AllAllowed(rt, r) && Utf16Length(r) <= MAX_NAME_UNITS
  {
    var t := Strip(rt, s);
    var r := Truncate(t, MAX_NAME_UNITS);
    assert forall i :: 0 <= i < |r| ==> r[i] == t[i];
    r
  }

  /** `parseName(span)`, with the cut made at a character boundary. */
  function ParseName(rt: Runtime, span: ReadableSpan): (r: string)
    ensures AllAllowed(rt, r) && Utf16Length(r) <= MAX_NAME_UNITS
  {
    Sanitize(rt, Chosen(rt, span))
  }

  /** Sanitising a sanitised name changes nothing. */
  lemma SanitizeIdempotent(rt: Runtime, s: string)
    ensures Sanitize(rt, Sanitize(rt, s)) == Sanitize(rt, s)
  {
    var r := Sanitize(rt, s);
    StripAllowed(rt, r);
    TruncateFits(r, MAX_NAME_UNITS);
  }

  /** A non-empty span name wins over every attribute. */
  lemma SpanNameFirst(rt: Runtime, span: ReadableSpan)
    requires span.name != ""
    ensures ParseName(rt, span) == Sanitize(rt, span.name)
  {
    assert NonEmpty(Candidates(rt, span)[0]);
  }

  /** With every source absent or empty the name is `span`. */
  lemma FallbackName(rt: Runtime, span: ReadableSpan)
    requires forall k :: 0 <= k < |Candidates(rt, span)| ==> !NonEmpty(Candidates(rt, span)[k])
    ensures ParseName(rt, span) == "span"
  {
    assert AllAllowed(rt, "span") by {
      assert forall i :: 0 <= i < 4 ==> IsLetter(rt, "span"[i]);
    }
    StripAllowed(rt, "span");
    TruncateFits("span", MAX_NAME_UNITS);
  }

  /**
   * Sanitising happens after the choice, so a span name made only of
   * disallowed characters gives an empty segment name.
   */
  lemma EmptyNamePossible(rt: Runtime, span: ReadableSpan)
    requires span.name == "()"
    ensures ParseName(rt, span) == ""
  {
    assert NonEmpty(Candidates(rt, span)[0]);
    assert !Allowed(rt, '(') && !Allowed(rt, ')');
    assert Strip(rt, "()") == Strip(rt, ")") == Strip(rt, "") == "";
  }
}
