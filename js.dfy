/**
 * The slice of JavaScript's value semantics the exporter leans on: attribute
 * values, truthiness as `||` and `?:` see it, presence as `!== undefined` sees
 * it, `toString`, `Number(...)` and `parseInt(...)`.
 *
 * Numbers are exact: `Finite` carries a real, so there is no IEEE rounding and
 * no negative zero.
 */
module Js {
  import opened Wrappers
  import opened Strings

  /** A JavaScript number. */
  datatype Number = NaN | Infinity(negative: bool) | Finite(r: real)
  {
    predicate IsInteger() {
      Finite? && r.Floor as real == r
    }
  }

  /** An attribute value as OpenTelemetry hands it over (strings, numbers, booleans, arrays of those). */
  datatype Value = Undefined | Null | Text(s: string) | Num(n: Number) | Bool(b: bool) | Arr(items: seq<Value>)

  /** An attribute map; reading a key that is not there gives `undefined`. */
  type Attributes = map<string, Value>

  function Get(attrs: Attributes, key: string): (v: Value)
    ensures key !in attrs ==> v == Undefined
    ensures key in attrs ==> v == attrs[key]
  {
    if key in attrs then attrs[key] else Undefined
  }

  /** `attrs[key] !== undefined`: presence, which counts `""`, `0` and `false` as present. */
  predicate Present(attrs: Attributes, key: string) {
    Get(attrs, key) != Undefined
  }

  /** Number truthiness: everything but zero and NaN. */
  predicate NumberTruthy(n: Number) {
    match n
    case NaN => false
    case Infinity(_) => true
    case Finite(r) => r != 0.0
  }

  /** Truthiness as `if`, `?:`, `||` and `!` see it. */
  predicate Truthy(v: Value) {
    match v
    case Undefined => false
    case Null => false
    case Text(s) => s != ""
    case Num(n) => NumberTruthy(n)
    case Bool(b) => b
    case Arr(_) => true
  }

  /** `a || b`. */
  function Or(a: Value, b: Value): (r: Value)
    ensures Truthy(a) ==> r == a
    ensures !Truthy(a) ==> r == b
  {
    if Truthy(a) then a else b
  }

  /** `vs[0] || vs[1] || ... || last`. */
  function OrChain(vs: seq<Value>, last: Value): Value {
    if vs == [] then last else Or(vs[0], OrChain(vs[1..], last))
  }

  /** A chain of `||` gives the first truthy operand, or its last operand when none is truthy. */
  lemma {:induction false} OrChainFirstTruthy(vs: seq<Value>, last: Value)
    ensures forall k :: 0 <= k < |vs| && Truthy(vs[k]) && (forall j :: 0 <= j < k ==> !Truthy(vs[j]))
              ==> OrChain(vs, last) == vs[k]
    ensures (forall j :: 0 <= j < |vs| ==> !Truthy(vs[j])) ==> OrChain(vs, last) == last
  {
    if vs != [] {
      OrChainFirstTruthy(vs[1..], last);
      forall k | 0 <= k < |vs| && Truthy(vs[k]) && (forall j :: 0 <= j < k ==> !Truthy(vs[j]))
        ensures OrChain(vs, last) == vs[k]
      {
        if k > 0 {
          assert !Truthy(vs[0]);
          assert vs[1..][k - 1] == vs[k];
          forall j | 0 <= j < k - 1 ensures !Truthy(vs[1..][j]) {
            assert vs[1..][j] == vs[j + 1];
          }
        }
      }
      if forall j :: 0 <= j < |vs| ==> !Truthy(vs[j]) {
        forall j | 0 <= j < |vs| - 1 ensures !Truthy(vs[1..][j]) {
          assert vs[1..][j] == vs[j + 1];
        }
      }
    }
  }

  // ---------------------------------------------------------------------------
  // Number to string

  /** The decimal text of an integer, with a leading `-` when negative. */
  function IntToDecimal(i: int): (s: string)
    ensures s != []
  {
    if i < 0 then "-" + NatToDecimal(-i) else NatToDecimal(i)
  }

  /** The first `k` decimal digits of a fraction `0 <= f < 1`. */
  function FractionDigits(f: real, k: nat): string
    requires 0.0 <= f < 1.0
    decreases k
  {
    if k == 0 || f == 0.0 then ""
    else
      var d := (f * 10.0).Floor;
      [DigitChar(d)] + FractionDigits(f * 10.0 - d as real, k - 1)
  }

  /**
   * `String(n)`: integers exactly; other finite values as the integer part, a
   * point and the fraction's decimal digits (at most 20).
   */
  function NumberToString(n: Number): string {
    match n
    case NaN => "NaN"
    case Infinity(neg) => if neg then "-Infinity" else "Infinity"
    case Finite(r) =>
      if r.Floor as real == r then IntToDecimal(r.Floor)
      else
        var a := if r < 0.0 then -r else r;
        (if r < 0.0 then "-" else "") + NatToDecimal(a.Floor) + "." + FractionDigits(a - a.Floor as real, 20)
  }

  /** `v.toString()`: arrays join their elements with `,`, printing `null` and `undefined` elements as nothing. */
  function ToString(v: Value): string {
    match v
    case Undefined => "undefined"
    case Null => "null"
    case Text(s) => s
    case Num(n) => NumberToString(n)
    case Bool(b) => if b then "true" else "false"
    case Arr(items) => JoinElements(items)
  }

  function JoinElements(items: seq<Value>): string
    decreases items
  {
    if items == [] then ""
    else
      var first := if items[0].Undefined? || items[0].Null? then "" else ToString(items[0]);
      if |items| == 1 then first else first + "," + JoinElements(items[1..])
  }

  // ---------------------------------------------------------------------------
  // String to number

  function Pow(base: nat, e: nat): (p: nat)
    ensures base > 0 ==> p > 0
  {
    if e == 0 then 1 else base * Pow(base, e - 1)
  }

  /** The value of a digit string in a radix; the empty string is worth 0. */
  function DigitsValue(s: string, radix: nat): nat
    requires AllRadixDigits(s, radix)
  {
    RadixValue(s, radix)
  }

  /** An optionally signed decimal integer, the exponent of a numeric literal. */
  function SignedDigits(s: string): Option<int> {
    var (neg, u) := if s != [] && (s[0] == '+' || s[0] == '-') then (s[0] == '-', s[1..]) else (false, s);
    if u != [] && AllDigits(u) then
      var v: int := DecimalValue(u);
      Some(if neg then -v else v)
    else None
  }

  /** `digits [. digits]` or `. digits`: the mantissa of a decimal literal. */
  function Mantissa(s: string): Option<real> {
    var dot := IndexOf(s, '.');
    var whole := if dot < 0 then s else s[..dot];
    var frac := if dot < 0 then "" else s[dot + 1..];
    if (whole == [] && frac == []) || !AllDigits(whole) || !AllDigits(frac) then None
    else Some(DecimalValue(whole) as real + DecimalValue(frac) as real / Pow(10, |frac|) as real)
  }

  /** An unsigned decimal literal with optional fraction and exponent, as `Number(...)` accepts it. */
  function UnsignedDecimal(s: string): Option<real> {
    var e := IndexOfAny(s, {'e', 'E'});
    var m := Mantissa(if e < 0 then s else s[..e]);
    var x := if e < 0 then Some(0) else SignedDigits(s[e + 1..]);
    if m.None? || x.None? then None
    else if x.value >= 0 then Some(m.value * Pow(10, x.value) as real)
    else Some(m.value / Pow(10, -x.value) as real)
  }

  /** `0x`, `0o` and `0b` literals, as `Number(...)` accepts them (no sign). */
  function PrefixedLiteral(t: string): Option<Number>
  {
    if |t| > 2 && t[0] == '0' then
      var radix := if t[1] in {'x', 'X'} then 16 else if t[1] in {'o', 'O'} then 8 else if t[1] in {'b', 'B'} then 2 else 0;
      if radix == 0 then None
      else if AllRadixDigits(t[2..], radix) then Some(Finite(DigitsValue(t[2..], radix) as real))
      else Some(NaN)
    else None
  }

  /** `Number(s)` for a string: white space around is ignored and the empty string is 0. */
  function StringToNumber(s: string): Number {
    var t := Trim(s);
    if t == "" then Finite(0.0)
    else if PrefixedLiteral(t).Some? then PrefixedLiteral(t).value
    else
      var neg := t[0] == '-';
      var u := if t[0] == '+' || t[0] == '-' then t[1..] else t;
      if u == "Infinity" then Infinity(neg)
      else match UnsignedDecimal(u)
        case None => NaN
        case Some(x) => Finite(if neg then -x else x)
  }

  /** `Number(v)`. */
  function ToNumber(v: Value): Number {
    match v
    case Undefined => NaN
    case Null => Finite(0.0)
    case Bool(b) => Finite(if b then 1.0 else 0.0)
    case Num(n) => n
    case Text(s) => StringToNumber(s)
    case Arr(_) => StringToNumber(ToString(v))
  }

  /** A string made of decimal digits only holds no white space. */
  lemma DigitsAreNotSpace(s: string)
    requires AllDigits(s)
    ensures LeadingSpace(s) == 0 && TrimEnd(s) == s
  {
    if s != [] {
      assert IsDigit(s[0]) && IsDigit(s[|s| - 1]);
    }
  }

  /** `Number` reads a string of decimal digits as its decimal value. */
  lemma NumberOfDigits(s: string)
    requires s != [] && AllDigits(s)
    ensures StringToNumber(s) == Finite(DecimalValue(s) as real)
  {
    DigitsAreNotSpace(s);
    assert Trim(s) == s;
    assert IsDigit(s[0]);
    if |s| > 2 {
      assert IsDigit(s[1]);
    }
    assert PrefixedLiteral(s).None?;
    assert IndexOfAny(s, {'e', 'E'}) == -1 by {
      forall j | 0 <= j < |s| ensures s[j] !in {'e', 'E'} { assert IsDigit(s[j]); }
    }
    assert IndexOf(s, '.') == -1 by {
      forall j | 0 <= j < |s| ensures s[j] != '.' { assert IsDigit(s[j]); }
    }
    assert s != "Infinity" by { assert IsDigit(s[0]); }
    assert AllDigits("") && DecimalValue("") == 0;
  }

  /** Printing an integer and reading it back with `Number` gives the integer. */
  lemma NumberRoundTrip(n: nat)
    ensures StringToNumber(NumberToString(Finite(n as real))) == Finite(n as real)
  {
    assert (n as real).Floor == n;
    DecimalRoundTrip(n);
    NumberOfDigits(NatToDecimal(n));
  }

  // ---------------------------------------------------------------------------
  // parseInt

  /** The length of the longest prefix of `s` made of digits of `radix`. */
  function DigitRun(s: string, radix: nat): (n: nat)
    ensures n <= |s| && AllRadixDigits(s[..n], radix)
    ensures n < |s| ==> !IsRadixDigit(s[n], radix)
  {
    if s != [] && IsRadixDigit(s[0], radix) then
      var k := DigitRun(s[1..], radix);
      assert s[..k + 1] == [s[0]] + s[1..][..k];
      1 + k
    else 0
  }

  /**
   * `parseInt(s, radix)`, with `radix == 0` standing for an absent radix:
   * leading white space and one sign are skipped, a `0x` prefix is dropped (and
   * selects radix 16) when the radix is absent or 16, and the longest run of
   * digits that follows is read; no digit at all gives NaN.
   */
  function ParseInt(s: string, radix: nat): (n: Number)
    ensures n.NaN? || n.IsInteger()
  {
    var t := TrimStart(s);
    var neg := t != [] && t[0] == '-';
    var u := if t != [] && (t[0] == '+' || t[0] == '-') then t[1..] else t;
    if radix != 0 && (radix < 2 || radix > 36) then NaN
    else
      var hex := (radix == 0 || radix == 16) && |u| >= 2 && u[0] == '0' && u[1] in {'x', 'X'};
      var r := if hex then 16 else if radix == 0 then 10 else radix;
      var body := if hex then u[2..] else u;
      var k := DigitRun(body, r);
      if k == 0 then NaN else Integer(neg, DigitsValue(body[..k], r))
  }

  /** The number `v` or `-v`. */
  function Integer(neg: bool, v: nat): (n: Number)
    ensures n.IsInteger() && n.r == (if neg then 0 - v else v) as real
  {
    var i: int := if neg then 0 - v else v;
    assert (i as real).Floor == i;
    Finite(i as real)
  }
}
