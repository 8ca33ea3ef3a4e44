/** The helpers of src/util.ts. */
module Util {
  import opened Wrappers
  import opened Js
  import opened Foreign

  /** `str(v)`: the text of a truthy value, `undefined` for a falsy one. */
  function Str(v: Value): (r: Option<string>)
    ensures r.None? <==> !Truthy(v)
    ensures r.Some? ==> r.value == ToString(v)
    ensures v.Text? && v.s != "" ==> r == Some(v.s)
  {
    if Truthy(v) then Some(ToString(v)) else None
  }

  /** The value a string-or-undefined is in JavaScript, to feed it back into `str`, `||` or `ip`. */
  function OptValue(s: Option<string>): (v: Value)
    ensures s.None? ==> v == Undefined
    ensures s.Some? ==> v == Text(s.value)
  {
    match s
    case None => Undefined
    case Some(t) => Text(t)
  }

  /** `${s}` for a string-or-undefined: `undefined` prints as the word. */
  function Show(s: Option<string>): (r: string)
    ensures s.Some? ==> r == s.value
    ensures s.None? ==> r == "undefined"
  {
    ToString(OptValue(s))
  }

  /**
   * `str(str(v)) == str(v)` whenever `str(v)` is not the empty string; the
   * exception is a truthy value that prints as nothing, such as `[]`.
   */
  lemma StrIdempotent(v: Value)
    ensures Str(v) != Some("") ==> Str(OptValue(Str(v))) == Str(v)
    ensures Str(Arr([])) == Some("") && Str(OptValue(Str(Arr([])))) == None
  {
  }

  /** `ip(s)`: `s` when `net.isIP` accepts it (`undefined` reads as `""`), else `undefined`. */
  function Ip(rt: Runtime, s: Option<string>): (r: Option<string>)
    ensures r.Some? ==> r == s && rt.isIP(s.value)
    ensures s.Some? && rt.isIP(s.value) ==> r == s
    ensures s.None? || s == Some("") ==> r.None?
  {
    var t := if s.Some? && s.value != "" then s.value else "";
    if rt.isIP(t) then s else None
  }

  /** `undef(a)`: the array when it has elements, `undefined` when it is empty. */
  function Undef<T>(a: seq<T>): (r: Option<seq<T>>)
    ensures r.None? <==> a == []
    ensures r.Some? ==> r.value == a
  {
    if |a| > 0 then Some(a) else None
  }

  /** A string-or-undefined that `||` treats as truthy. */
  predicate NonEmpty(s: Option<string>) {
    s.Some? && s.value != ""
  }

  /** `cs[0] || cs[1] || ... || last` over strings-or-undefined. */
  function FirstNonEmpty(cs: seq<Option<string>>, last: string): (r: string)
    ensures (forall k :: 0 <= k < |cs| ==> !NonEmpty(cs[k])) ==> r == last
    ensures forall k :: 0 <= k < |cs| && NonEmpty(cs[k]) && (forall j :: 0 <= j < k ==> !NonEmpty(cs[j]))
                ==> r == cs[k].value
    ensures r == last || exists k :: 0 <= k < |cs| && NonEmpty(cs[k]) && r == cs[k].value
  {
    if cs == [] then last
    else if NonEmpty(cs[0]) then cs[0].value
    else
      var r := FirstNonEmpty(cs[1..], last);
      assert forall k :: 1 <= k < |cs| ==> cs[1..][k - 1] == cs[k];
      r
  }
}
