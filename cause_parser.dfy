/**
 * `DefaultCauseParser` (src/cause.parser.ts): the `cause` block of a segment,
 * one exception per span event named `exception`, each with an id from an
 * injected generator and the stack frames read from the recorded stack trace
 * by the regular expression at src/cause.parser.ts:17-18.
 */
module CauseParser {
  import opened Wrappers
  import opened Strings
  import opened Js
  import opened SemConv
  import opened Spans
  import opened Util
  import opened Document

  // ---------------------------------------------------------------------------
  // The stack-frame matcher.
  //
  //   ^\s*at\s+(?:(?<label>[^()]+)\s+\((?<path>[^:]+):(?<line>\d+):\d+\)
  //              |(?<path2>[^:]+):(?<line2>\d+):\d+)$
  //
  // `\s*` can only take all the leading white space (an `a` must follow). The
  // greedy `\s+` after `at` first takes all the white space there and gives it
  // back one character at a time; at each split the labelled alternative is
  // tried before the bare one. Within an alternative the groups are fixed: a
  // label holds no parenthesis, so it ends one white-space character before
  // the first parenthesis, and a path holds no colon, so it ends at the first
  // colon.

  /** `P:L:C` with `P` non-empty and colon-free, `L` and `C` decimal digits: the path and `L`. */
  function Location(s: string): (r: Option<(string, string)>)
    ensures r.Some? ==> var (path, line) := r.value;
      && path != [] && Free(path, ':') && line != [] && AllDigits(line)
  {
    var c1 := IndexOf(s, ':');
    if c1 < 1 then None
    else
      var rest := s[c1 + 1..];
      var c2 := IndexOf(rest, ':');
      if c2 < 1 then None
      else
        var line, col := rest[..c2], rest[c2 + 1..];
        if AllDigits(line) && col != [] && AllDigits(col) then Some((s[..c1], line)) else None
  }

  /** The frame a match yields: `line` is `Number` of the digits. */
  /** The groups of a match: `label` as `labelText` (absent for the second alternative), `path` or `path2`, `line` or `line2`. */
  datatype Groups = Groups(labelText: Option<string>, path: string, line: string)

  /** The frame `.map(...)` builds from a match: the label, the path and `Number(line)`. */
  function Frame(g: Groups): StackFrame {
    StackFrame(g.labelText, g.path, StringToNumber(g.line))
  }

  /** The first alternative on what follows `at\s+`: `label\s+(P:L:C)`. */
  function Labelled(s: string): (r: Option<Groups>)
    ensures r.Some? ==> (r.value.labelText.Some? && r.value.labelText.value != []
      && (forall i :: 0 <= i < |r.value.labelText.value| ==> r.value.labelText.value[i] !in {'(', ')'})
      && r.value.path != [] && Free(r.value.path, ':'))
  {
    var b := IndexOfAny(s, {'(', ')'});
    if b >= 2 && s[b] == '(' && IsJsSpace(s[b - 1]) && |s| >= b + 2 && s[|s| - 1] == ')' then
      var loc := Location(s[b + 1..|s| - 1]);
      if loc.Some? then Some(Groups(Some(s[..b - 1]), loc.value.0, loc.value.1)) else None
    else None
  }

  /** The second alternative: `P:L:C`. */
  function Bare(s: string): (r: Option<Groups>)
    ensures r.Some? ==> r.value.labelText.None? && r.value.path != [] && Free(r.value.path, ':')
  {
    match Location(s)
    case Some((path, line)) => Some(Groups(None, path, line))
    case None => None
  }

  /** Try the alternatives with `\s+` holding the first `j` white-space characters of `after`, then fewer. */
  function TryFrom(after: string, j: nat): Option<Groups>
    requires 1 <= j <= |after|
    decreases j
  {
    var s := after[j..];
    if Labelled(s).Some? then Labelled(s)
    else if Bare(s).Some? then Bare(s)
    else if j == 1 then None
    else TryFrom(after, j - 1)
  }

  /** `regex.exec(line)`, reduced to the frame built from its groups. */
  function MatchLine(line: string): Option<Groups> {
    var rest := line[LeadingSpace(line)..];
    if !StartsWith(rest, "at") then None
    else
      var after := rest[2..];
      var m := LeadingSpace(after);
      if m == 0 then None else TryFrom(after, m)
  }

  /** Every frame carries a non-empty, colon-free path; a label, when present, is non-empty and holds no parenthesis. */
  lemma {:induction false} MatchedFrameShape(after: string, j: nat)
    requires 1 <= j <= |after|
    ensures var r := TryFrom(after, j);
      r.Some? ==> && r.value.path != [] && Free(r.value.path, ':')
                  && (r.value.labelText.Some? ==> (r.value.labelText.value != []
                        && forall i :: 0 <= i < |r.value.labelText.value| ==> r.value.labelText.value[i] !in {'(', ')'}))
    decreases j
  {
    if j > 1 {
      MatchedFrameShape(after, j - 1);
    }
  }

  /**
   * A V8 frame with a function name, `<indent>at <label> (<path>:<L>:<C>)`,
   * yields that label and path and the value of `L`.
   */
  lemma LabelledFrame(indent: string, name: string, path: string, line: string, col: string)
    requires forall i :: 0 <= i < |indent| ==> IsJsSpace(indent[i])
    requires name != [] && !IsJsSpace(name[0]) && forall i :: 0 <= i < |name| ==> name[i] !in {'(', ')'}
    requires path != [] && Free(path, ':')
    requires line != [] && AllDigits(line) && col != [] && AllDigits(col)
    ensures var m := MatchLine(indent + "at " + name + " (" + path + ":" + line + ":" + col + ")");
      m == Some(Groups(Some(name), path, line)) && Frame(m.value) == StackFrame(Some(name), path, Finite(DecimalValue(line) as real))
  {
    var loc := path + ":" + line + ":" + col;
    var s := name + " (" + loc + ")";
    assert indent + "at " + name + " (" + path + ":" + line + ":" + col + ")" == indent + "at" + (" " + s);
    AfterAt(indent, s);
    LabelledOf(name, path, line, col);
    NumberOfDigits(line);
  }

  /** A V8 frame without a function name, `<indent>at <path>:<L>:<C>`, yields the path and the value of `L`. */
  lemma BareFrame(indent: string, path: string, line: string, col: string)
    requires forall i :: 0 <= i < |indent| ==> IsJsSpace(indent[i])
    requires path != [] && !IsJsSpace(path[0]) && Free(path, ':')
    requires line != [] && AllDigits(line) && col != [] && AllDigits(col)
    ensures var m := MatchLine(indent + "at " + path + ":" + line + ":" + col);
      m == Some(Groups(None, path, line)) && Frame(m.value) == StackFrame(None, path, Finite(DecimalValue(line) as real))
  {
    var s := path + ":" + line + ":" + col;
    assert indent + "at " + path + ":" + line + ":" + col == indent + "at" + (" " + s);
    AfterAt(indent, s);
    LocationOf(path, line, col);
    assert s[|s| - 1] == col[|col| - 1];
    assert IsDigit(col[|col| - 1]);
    assert Labelled(s).None?;
    NumberOfDigits(line);
  }

  /** After an indent and `at`, a single space before a non-space leaves one split to try. */
  lemma AfterAt(indent: string, s: string)
    requires forall i :: 0 <= i < |indent| ==> IsJsSpace(indent[i])
    requires s != [] && !IsJsSpace(s[0])
    ensures MatchLine(indent + "at" + (" " + s)) == TryFrom(" " + s, 1)
    ensures (" " + s)[1..] == s
  {
    var after := " " + s;
    var rest := "at" + after;
    var line := indent + "at" + after;
    assert line == indent + rest;
    IndentSkipped(indent, rest);
    assert line[LeadingSpace(line)..] == rest;
    assert rest[..2] == "at";
    assert rest[2..] == after;
    OneSpace(s);
  }

  /** One white-space character before a non-space one. */
  lemma OneSpace(s: string)
    requires s != [] && !IsJsSpace(s[0])
    ensures LeadingSpace(" " + s) == 1 && (" " + s)[1..] == s
  {
    var after := " " + s;
    assert after[0] == ' ';
    assert after[1..] == s;
  }

  /** `label (P:L:C)` is read by the first alternative. */
  lemma LabelledOf(name: string, path: string, line: string, col: string)
    requires name != [] && forall i :: 0 <= i < |name| ==> name[i] !in {'(', ')'}
    requires path != [] && Free(path, ':')
    requires line != [] && AllDigits(line) && col != [] && AllDigits(col)
    ensures Labelled(name + " (" + (path + ":" + line + ":" + col) + ")") == Some(Groups(Some(name), path, line))
  {
    var loc := path + ":" + line + ":" + col;
    var s := name + " (" + loc + ")";
    var b := |name| + 1;
    assert IndexOfAny(s, {'(', ')'}) == b && s[b] == '(' && s[b - 1] == ' ' && |s| >= b + 2
      && s[|s| - 1] == ')' && s[b + 1..|s| - 1] == loc && s[..b - 1] == name by {
      LabelLocated(name, loc);
    }
    assert Location(loc) == Some((path, line)) by {
      LocationOf(path, line, col);
    }
    LabelledAt(s, b, path, line);
  }

  /** The first alternative, once the opening parenthesis and the location inside are known. */
  lemma LabelledAt(s: string, b: nat, path: string, line: string)
    requires IndexOfAny(s, {'(', ')'}) == b >= 2 && s[b] == '(' && s[b - 1] == ' '
    requires |s| >= b + 2 && s[|s| - 1] == ')'
    requires Location(s[b + 1..|s| - 1]) == Some((path, line))
    ensures Labelled(s) == Some(Groups(Some(s[..b - 1]), path, line))
  {
    var loc := Location(s[b + 1..|s| - 1]);
    assert IsJsSpace(s[b - 1]);
    assert loc.Some? && loc.value.0 == path && loc.value.1 == line;
  }

  /** Leading white space before a non-space character is exactly what `\s*` consumes. */
  lemma {:induction false} IndentSkipped(indent: string, s: string)
    requires forall i :: 0 <= i < |indent| ==> IsJsSpace(indent[i])
    requires s != [] && !IsJsSpace(s[0])
    ensures LeadingSpace(indent + s) == |indent|
    ensures (indent + s)[LeadingSpace(indent + s)..] == s
    decreases |indent|
  {
    var t := indent + s;
    if indent != [] {
      assert t[0] == indent[0];
      assert t[1..] == indent[1..] + s;
      IndentSkipped(indent[1..], s);
      assert LeadingSpace(t) == 1 + LeadingSpace(t[1..]);
    } else {
      assert t == s;
    }
    assert t[|indent|..] == s;
  }

  /** `P:L:C` splits at its first two colons. */
  lemma LocationOf(path: string, line: string, col: string)
    requires path != [] && Free(path, ':')
    requires line != [] && AllDigits(line) && col != [] && AllDigits(col)
    ensures Location(path + ":" + line + ":" + col) == Some((path, line))
  {
    var s := path + ":" + line + ":" + col;
    IndexOfPrefix(path, ":" + line + ":" + col, ':');
    assert s == path + (":" + line + ":" + col);
    var rest := s[|path| + 1..];
    assert rest == line + (":" + col);
    assert Free(line, ':') by {
      forall i | 0 <= i < |line| ensures line[i] != ':' { assert IsDigit(line[i]); }
    }
    IndexOfPrefix(line, ":" + col, ':');
    assert rest[..|line|] == line;
    assert rest[|line| + 1..] == col;
    assert s[..|path|] == path;
  }

  /** In `label (loc)` the first parenthesis is the opening one, right after the space. */
  lemma LabelLocated(name: string, loc: string)
    requires name != [] && forall i :: 0 <= i < |name| ==> name[i] !in {'(', ')'}
    ensures var s := name + " (" + loc + ")";
      var b := |name| + 1;
      && IndexOfAny(s, {'(', ')'}) == b && s[b] == '(' && s[b - 1] == ' '
      && s[b + 1..|s| - 1] == loc && s[..b - 1] == name && s[|s| - 1] == ')'
  {
    var s := name + " (" + loc + ")";
    var b := |name| + 1;
    assert forall j :: 0 <= j < b ==> s[j] !in {'(', ')'} by {
      forall j | 0 <= j < b ensures s[j] !in {'(', ')'} {
        if j < |name| { assert s[j] == name[j]; } else { assert s[j] == ' '; }
      }
    }
    assert s[b] == '(';
  }

  /** `.map(exec).filter(Boolean).map(...)`: the frames of the lines that match, in line order. */
  function Frames(lines: seq<string>): (r: seq<StackFrame>)
    ensures |r| <= |lines|
  {
    if lines == [] then []
    else
      match MatchLine(lines[0])
      case Some(g) => [Frame(g)] + Frames(lines[1..])
      case None => Frames(lines[1..])
  }

  /** Frames are read line by line: the frames of two runs of lines are the frames of each, in order. */
  lemma {:induction false} FramesAppend(a: seq<string>, b: seq<string>)
    ensures Frames(a + b) == Frames(a) + Frames(b)
  {
    if a != [] {
      assert (a + b)[1..] == a[1..] + b;
      FramesAppend(a[1..], b);
    } else {
      assert a + b == b;
    }
  }

  /** A line that does not match adds no frame; a matching line adds its frame. */
  lemma FramesOfLine(line: string)
    ensures Frames([line]) == if MatchLine(line).Some? then [Frame(MatchLine(line).value)] else []
  {
    assert [line][1..] == [];
  }

  // ---------------------------------------------------------------------------
  // Exceptions.

  /** An id generator: the id its `n`-th call returns. */
  type IdSource = nat -> string

  /** The events named exactly `exception`, in order. */
  function ExceptionEvents(events: seq<SpanEvent>): (r: seq<SpanEvent>)
    ensures |r| <= |events|
    ensures forall i :: 0 <= i < |r| ==> r[i].name == EXCEPTION_EVENT && r[i] in events
    ensures r == [] <==> forall i :: 0 <= i < |events| ==> events[i].name != EXCEPTION_EVENT
  {
    if events == [] then []
    else
      var rest := ExceptionEvents(events[1..]);
      assert forall i :: 0 <= i < |rest| ==> rest[i] in events;
      if events[0].name == EXCEPTION_EVENT then [events[0]] + rest
      else
        assert rest == [] <==> forall i :: 0 <= i < |events| ==> events[i].name != EXCEPTION_EVENT by {
          if forall i :: 0 <= i < |events[1..]| ==> events[1..][i].name != EXCEPTION_EVENT {
            forall i | 0 <= i < |events| ensures events[i].name != EXCEPTION_EVENT {
              if i > 0 { assert events[i] == events[1..][i - 1]; }
            }
          }
        }
        rest
  }

  /** The filter works event by event: the events kept from two runs of events are those of each, in order. */
  lemma {:induction false} ExceptionEventsAppend(a: seq<SpanEvent>, b: seq<SpanEvent>)
    ensures ExceptionEvents(a + b) == ExceptionEvents(a) + ExceptionEvents(b)
  {
    if a != [] {
      assert (a + b)[1..] == a[1..] + b;
      ExceptionEventsAppend(a[1..], b);
    } else {
      assert a + b == b;
    }
  }

  /** One event is kept exactly when it is named `exception`. */
  lemma ExceptionEventsOfOne(e: SpanEvent)
    ensures ExceptionEvents([e]) == if e.name == EXCEPTION_EVENT then [e] else []
  {
    assert [e][1..] == [];
  }

  /** Events that are all named `exception` are all kept, in order. */
  lemma {:induction false} AllExceptionEventsKept(events: seq<SpanEvent>)
    requires forall i :: 0 <= i < |events| ==> events[i].name == EXCEPTION_EVENT
    ensures ExceptionEvents(events) == events
  {
    if events != [] {
      AllExceptionEventsKept(events[1..]);
    }
  }

  /** The stack of one exception: absent when the recorded trace is falsy, else the frames of its lines. */
  function Stack(attrs: Attributes): (r: Option<seq<StackFrame>>)
    ensures r.None? <==> !Truthy(Get(attrs, EXCEPTION_STACKTRACE))
    ensures r.Some? ==> r.value == Frames(Split(ToString(Get(attrs, EXCEPTION_STACKTRACE)), '\n'))
  {
    match Str(Get(attrs, EXCEPTION_STACKTRACE))
    case None => None
    case Some(text) => Some(Frames(Split(text, '\n')))
  }

  /** The exception of one event, with the id the generator gives it. */
  function ExceptionOf(event: SpanEvent, kind: SpanKind, id: string): (e: Exception)
    ensures e.id == id && e.cause == ""
    ensures e.remote <==> kind in {PRODUCER, CLIENT}
    ensures e.exception_type == Str(Get(event.attributes, EXCEPTION_TYPE))
    ensures e.message == Str(Get(event.attributes, EXCEPTION_MESSAGE))
    ensures e.stack == Stack(event.attributes)
  {
    Exception(
      id, "", Str(Get(event.attributes, EXCEPTION_TYPE)), Str(Get(event.attributes, EXCEPTION_MESSAGE)),
      kind in {PRODUCER, CLIENT}, Stack(event.attributes))
  }

  /** The exceptions of `events`, the `k`-th taking the id of call `next + k`. */
  function Exceptions(events: seq<SpanEvent>, kind: SpanKind, ids: IdSource, next: nat): (r: seq<Exception>)
    ensures |r| == |events|
    ensures forall k :: 0 <= k < |events| ==> r[k] == ExceptionOf(events[k], kind, ids(next + k))
  {
    if events == [] then []
    else [ExceptionOf(events[0], kind, ids(next))] + Exceptions(events[1..], kind, ids, next + 1)
  }

  /**
   * `getCause(span)` with the generator's calls numbered from `next`: the
   * cause, and the number of the next call.
   */
  function GetCause(span: ReadableSpan, ids: IdSource, next: nat): (r: (Option<Cause>, nat))
    ensures r.0.None? <==> forall i :: 0 <= i < |span.events| ==> span.events[i].name != EXCEPTION_EVENT
    ensures r.1 == next + |ExceptionEvents(span.events)|
    ensures r.0.Some? ==> r.0.value.exceptions == Some(Exceptions(ExceptionEvents(span.events), span.kind, ids, next))
  {
    var events := ExceptionEvents(span.events);
    if events == [] then (None, next)
    else
      var excs := Exceptions(events, span.kind, ids, next);
      (Some(Cause(Undef(excs))), next + |events|)
  }

  /** Each exception event yields exactly one exception, so the list is never empty when present. */
  lemma CauseNonEmpty(span: ReadableSpan, ids: IdSource, next: nat)
    requires GetCause(span, ids, next).0.Some?
    ensures var c := GetCause(span, ids, next).0.value;
      c.exceptions.Some? && |c.exceptions.value| == |ExceptionEvents(span.events)| > 0
  {
  }

  // ---------------------------------------------------------------------------
  // The default id generator, `randomBytes(8).toString('hex')`.

  type Byte = x: nat | x < 256

  /** A lowercase hex digit. */
  predicate IsLowerHex(c: char) {
    ('0' <= c <= '9') || ('a' <= c <= 'f')
  }

  function HexChar(d: nat): (c: char)
    requires d < 16
    ensures IsLowerHex(c) && RadixDigit(c) == d
  {
    if d < 10 then ('0' as int + d) as char else ('a' as int + d - 10) as char
  }

  /** Lowercase hex, two digits per byte. */
  function ToHex(bytes: seq<Byte>): (r: string)
    ensures |r| == 2 * |bytes|
    ensures forall i :: 0 <= i < |r| ==> IsLowerHex(r[i])
  {
    if bytes == [] then ""
    else [HexChar(bytes[0] / 16), HexChar(bytes[0] % 16)] + ToHex(bytes[1..])
  }

  /** The default id: the hex of 8 random bytes, which `random` supplies; 16 lowercase hex digits. */
  function DefaultId(random: seq<Byte>): (r: string)
    requires |random| == 8
    ensures |r| == 16 && forall i :: 0 <= i < 16 ==> IsLowerHex(r[i])
  {
    ToHex(random)
  }

  /** Reads lowercase hex back into bytes. */
  function FromHex(s: string): seq<Byte>
    requires |s| % 2 == 0
    requires forall i :: 0 <= i < |s| ==> IsLowerHex(s[i])
  {
    if s == [] then []
    else
      var hi := RadixDigit(s[0]);
      var lo := RadixDigit(s[1]);
      assert 0 <= hi < 16 && 0 <= lo < 16 by { assert IsLowerHex(s[0]) && IsLowerHex(s[1]); }
      [hi * 16 + lo] + FromHex(s[2..])
  }

  /** The id loses nothing: the bytes can be read back from it. */
  lemma {:induction false} HexRoundTrip(bytes: seq<Byte>)
    ensures FromHex(ToHex(bytes)) == bytes
  {
    if bytes != [] {
      var b := bytes[0];
      var s := ToHex(bytes);
      assert s == [HexChar(b / 16), HexChar(b % 16)] + ToHex(bytes[1..]);
      assert s[2..] == ToHex(bytes[1..]);
      assert RadixDigit(s[0]) == b / 16 && RadixDigit(s[1]) == b % 16;
      assert (b / 16) * 16 + b % 16 == b;
      HexRoundTrip(bytes[1..]);
    }
  }
}
