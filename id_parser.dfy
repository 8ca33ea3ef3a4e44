/**
 * `DefaultIdParser` (src/id.parser.ts): an OpenTelemetry trace id, 32 hex
 * digits whose first 8 the X-Ray convention reads as the epoch second of the
 * request, becomes an X-Ray trace id `1-<8 hex>-<24 hex>`, provided that
 * epoch lies in a window around the current time.
 */
module IdParser {
  import opened Wrappers
  import opened Strings
  import opened Js

  /** The oldest and the most future-dated epoch accepted, in seconds from now. */
  datatype DefaultIdParser = DefaultIdParser(maxAge: int, maxSkew: int)

  /** The constructor's defaults: 28 days of age, 5 minutes of skew. */
  const DEFAULT_ID_PARSER := DefaultIdParser(60 * 60 * 24 * 28, 60 * 5)

  /** `s.substring(0, n)` for `n >= 0`: clamped to the string. */
  function Prefix(s: string, n: nat): (r: string)
    ensures |r| == if |s| < n then |s| else n
    ensures r == s[..|r|]
  {
    if |s| < n then s else s[..n]
  }

  /** `s.substring(n)` for `n >= 0`: clamped to the string. */
  function Suffix(s: string, n: nat): (r: string)
    ensures Prefix(s, n) + r == s
  {
    if |s| < n then [] else s[n..]
  }

  /** `Math.floor(nowMillis / 1000)`. */
  function EpochSeconds(nowMillis: int): int {
    nowMillis / 1000
  }

  /** The epoch `parseInt(id.substring(0, 8), 16)` reads from a trace id. */
  function Epoch(id: string): Number {
    ParseInt(Prefix(id, 8), 16)
  }

  /** The epochs the window admits, both ends included. */
  predicate InWindow(p: DefaultIdParser, epoch: Number, nowMillis: int) {
    !epoch.NaN? && epoch.Finite?
    && (EpochSeconds(nowMillis) - p.maxAge) as real <= epoch.r <= (EpochSeconds(nowMillis) + p.maxSkew) as real
  }

  /** `parseId(id)` at the clock reading `nowMillis` (milliseconds, as `Date.now()` gives them). */
  function ParseId(p: DefaultIdParser, id: string, nowMillis: int): (r: Result<string>)
    ensures r.Ok? <==> InWindow(p, Epoch(id), nowMillis)
    ensures r.Ok? ==> r.value == "1-" + Prefix(id, 8) + "-" + Suffix(id, 8)
    ensures r.Throws? ==> r.error == "Invalid X-Ray trace ID: " + id
  {
    var epochNow := EpochSeconds(nowMillis);
    var epoch := Epoch(id);
    if epoch.NaN? || (epoch.Finite? && epoch.r < (epochNow - p.maxAge) as real)
       || (epoch.Finite? && epoch.r > (epochNow + p.maxSkew) as real)
    then Throws("Invalid X-Ray trace ID: " + id)
    else Ok("1-" + Prefix(id, 8) + "-" + Suffix(id, 8))
  }

  /** The inverse of the conversion: drop the version and the dashes. */
  function ToOtelId(x: string): string {
    if |x| < 11 then x else x[2..10] + x[11..]
  }

  /** `parseInt(s, 16)` of a string of hex digits is the value of those digits. */
  lemma {:induction false} ParseIntHexDigits(s: string)
    requires s != [] && AllRadixDigits(s, 16)
    ensures ParseInt(s, 16) == Finite(RadixValue(s, 16) as real)
  {
    assert !IsJsSpace(s[0]) by { assert IsRadixDigit(s[0], 16); }
    assert LeadingSpace(s) == 0;
    assert TrimStart(s) == s;
    assert s[0] != '-' && s[0] != '+' by { assert IsRadixDigit(s[0], 16); }
    if |s| >= 2 {
      assert s[1] !in {'x', 'X'} by { assert IsRadixDigit(s[1], 16); }
    }
    DigitRunAll(s, 16);
    assert s[..|s|] == s;
  }

  /** Over a string made only of digits, the digit run is the whole string. */
  lemma {:induction false} DigitRunAll(s: string, radix: nat)
    requires AllRadixDigits(s, radix)
    ensures DigitRun(s, radix) == |s|
  {
    if s != [] {
      assert AllRadixDigits(s[1..], radix) by {
        forall i | 0 <= i < |s| - 1 ensures IsRadixDigit(s[1..][i], radix) { assert s[1..][i] == s[i + 1]; }
      }
      DigitRunAll(s[1..], radix);
    }
  }

  /**
   * For a trace id that starts with 8 hex digits, the conversion succeeds
   * exactly when their value lies in `[now - maxAge, now + maxSkew]`, both ends
   * included.
   */
  lemma WindowInclusive(p: DefaultIdParser, id: string, nowMillis: int)
    requires |id| >= 8 && AllRadixDigits(id[..8], 16)
    ensures ParseId(p, id, nowMillis).Ok?
      <==> EpochSeconds(nowMillis) - p.maxAge <= RadixValue(id[..8], 16) <= EpochSeconds(nowMillis) + p.maxSkew
  {
    ParseIntHexDigits(id[..8]);
  }

  /** An id whose first character cannot start a hex number (after blanks and a sign) is refused. */
  lemma NoLeadingHexDigit(p: DefaultIdParser, id: string, nowMillis: int)
    requires id == [] || (!IsRadixDigit(id[0], 16) && !IsJsSpace(id[0]) && id[0] != '+' && id[0] != '-')
    ensures ParseId(p, id, nowMillis) == Throws("Invalid X-Ray trace ID: " + id)
  {
    var t := Prefix(id, 8);
    if id != [] {
      assert t[0] == id[0];
      assert LeadingSpace(t) == 0;
      assert TrimStart(t) == t;
    }
  }

  /**
   * A 32-character id converts to 35 characters with `-` at positions 1 and
   * 10, and dropping the version and the dashes gives the id back.
   */
  lemma ConvertedShape(p: DefaultIdParser, id: string, nowMillis: int)
    requires |id| == 32 && ParseId(p, id, nowMillis).Ok?
    ensures var x := ParseId(p, id, nowMillis).value;
      |x| == 35 && x[0] == '1' && x[1] == '-' && x[10] == '-' && ToOtelId(x) == id
  {
    Dashed(id);
  }

  /** The dashed form of a 32-character id, as `ParseId` builds it. */
  lemma Dashed(id: string)
    requires |id| == 32
    ensures var x := "1-" + Prefix(id, 8) + "-" + Suffix(id, 8);
      |x| == 35 && x[0] == '1' && x[1] == '-' && x[10] == '-' && ToOtelId(x) == id
  {
    var x := "1-" + Prefix(id, 8) + "-" + Suffix(id, 8);
    assert x == "1-" + id[..8] + "-" + id[8..];
    assert x[2..10] == id[..8];
    assert x[11..] == id[8..];
    assert id[..8] + id[8..] == id;
  }
}
