/** project/logging/log.hpp, `make_format`: named replacement fields become positional ones. */
module Formats {
  import opened Basics

  datatype FormatError = NoClosingBracket | UnnamedParameter | BadName(name: string)

  datatype Result = Ok(text: string) | Error(why: FormatError)

  /** `std::to_string` of a position. */
  function Decimal(n: nat): string {
    if n < 10 then [Digit(n)] else Decimal(n / 10) + [Digit(n % 10)]
  }

  function Digit(d: nat): char
    requires d < 10
  {
    (d + 48) as char
  }

  // ------------------------------------------------------------------ one turn of the scan

  /** What the scan finds next: text without a bracket to the end; an escaped bracket; a named field, with
      its ':' and format specification if it has one; or an error. */
  datatype View =
    | Plain
    | Broken(why: FormatError)
    | Escape(pre: string, rest: string)
    | Field(pre: string, name: string, spec: string, rest: string)

  function Look(s: string): (v: View)
    ensures v.Escape? || v.Field? ==> |v.rest| < |s|
  {
    var open := IndexOf(s, '{');
    if open == |s| then Plain
    else if open + 1 == |s| then Broken(NoClosingBracket)
    else if s[open + 1] == '{' then Escape(s[..open], s[open + 2..])
    else if s[open + 1] == '}' then Broken(UnnamedParameter)
    else LookBehind(s[..open], s[open + 1..])
  }

  /** A field whose opening bracket stands between `pre` and `tail`. */
  function LookBehind(pre: string, tail: string): (v: View)
    ensures v.Escape? || v.Field? ==> |v.rest| < |tail|
  {
    var end := IndexOf(tail, '}');
    if end == |tail| then Broken(NoClosingBracket)
    else
      var body := tail[..end];
      var colon := IndexOf(body, ':');
      Field(pre, body[..colon], body[colon..], tail[end + 1..])
  }

  predicate FieldOk(name: string, spec: string) {
    && ':' !in name && '}' !in name && '}' !in spec
    && (spec == "" || spec[0] == ':')
    && name + spec != "" && (name + spec)[0] != '{'
  }

  function Braced(name: string, spec: string): string {
    "{" + name + spec + "}"
  }

  lemma Cut(s: string, i: nat)
    requires i < |s|
    ensures s == s[..i] + [s[i]] + s[i + 1..]
  {
  }

  /** What stands between the brackets is cut into a name and a specification. */
  lemma CutBody(body: string)
    requires body != "" && body[0] != '{' && '}' !in body
    ensures var colon := IndexOf(body, ':');
      FieldOk(body[..colon], body[colon..]) && body[..colon] + body[colon..] == body
  {
    var colon := IndexOf(body, ':');
    assert body[..colon] + body[colon..] == body;
  }

  /** Cutting a tail that starts behind an opening bracket into name, specification and rest. */
  lemma CutField(tail: string)
    requires tail != "" && tail[0] != '{' && tail[0] != '}' && IndexOf(tail, '}') < |tail|
    ensures var end := IndexOf(tail, '}'); var body := tail[..end]; var colon := IndexOf(body, ':');
      && FieldOk(body[..colon], body[colon..])
      && tail == body[..colon] + body[colon..] + "}" + tail[end + 1..]
  {
    var end := IndexOf(tail, '}');
    assert tail[..end][0] == tail[0];
    CutBody(tail[..end]);
    Cut(tail, end);
  }

  lemma Reassemble(pre: string, name: string, spec: string, rest: string)
    ensures pre + "{" + (name + spec + "}" + rest) == pre + Braced(name, spec) + rest
  {
  }

  lemma LookExactField(s: string)
    requires Look(s).Field?
    ensures var Field(pre, name, spec, rest) := Look(s);
      '{' !in pre && FieldOk(name, spec) && s == pre + Braced(name, spec) + rest
  {
    var open := IndexOf(s, '{');
    Cut(s, open);
    CutField(s[open + 1..]);
    var Field(pre, name, spec, rest) := Look(s);
    Reassemble(pre, name, spec, rest);
  }

  lemma LookExactEscape(s: string)
    requires Look(s).Escape?
    ensures var Escape(pre, rest) := Look(s); '{' !in pre && s == pre + "{{" + rest
  {
  }

  /** What has been looked at can be put together again. */
  lemma LookExact(s: string)
    ensures match Look(s)
      case Plain => '{' !in s
      case Broken(_) => '{' in s
      case Escape(pre, rest) => '{' !in pre && s == pre + "{{" + rest
      case Field(pre, name, spec, rest) => '{' !in pre && FieldOk(name, spec) && s == pre + Braced(name, spec) + rest
  {
    if Look(s).Field? {
      LookExactField(s);
    } else if Look(s).Escape? {
      LookExactEscape(s);
    }
  }

  lemma LookPlain(s: string)
    requires '{' !in s
    ensures Look(s) == Plain
  {
  }

  lemma LookEscape(pre: string, rest: string)
    requires '{' !in pre
    ensures Look(pre + "{{" + rest) == Escape(pre, rest)
  {
    var s := pre + "{{" + rest;
    IndexOfFirst(s, '{', |pre|);
    assert s[..|pre|] == pre && s[|pre| + 2..] == rest;
  }

  lemma LookBehindField(pre: string, name: string, spec: string, rest: string)
    requires FieldOk(name, spec)
    ensures LookBehind(pre, name + spec + "}" + rest) == Field(pre, name, spec, rest)
  {
    var body := name + spec;
    var tail := body + "}" + rest;
    IndexOfFirst(tail, '}', |body|);
    assert tail[..|body|] == body && tail[|body| + 1..] == rest;
    IndexOfFirst(body, ':', |name|);
    assert body[..|name|] == name && body[|name|..] == spec;
  }

  lemma LookField(pre: string, name: string, spec: string, rest: string)
    requires '{' !in pre && FieldOk(name, spec)
    ensures Look(pre + Braced(name, spec) + rest) == Field(pre, name, spec, rest)
  {
    var s := pre + Braced(name, spec) + rest;
    var tail := name + spec + "}" + rest;
    Reassemble(pre, name, spec, rest);
    IndexOfFirst(s, '{', |pre|);
    assert s[..|pre|] == pre && s[|pre| + 1..] == tail && tail[0] == (name + spec)[0];
    LookBehindField(pre, name, spec, rest);
  }

  // ------------------------------------------------------------------ the whole scan

  function Prepend(prefix: string, r: Result): Result {
    match r
    case Ok(text) => Ok(prefix + text)
    case Error(_) => r
  }

  /** The scan of `make_format`, for any renaming of the fields. */
  function Scan(s: string, names: map<string, string>): Result
    decreases |s|
  {
    match Look(s)
    case Plain => Ok(s)
    case Broken(why) => Error(why)
    case Escape(pre, rest) => Prepend(pre + "{{", Scan(rest, names))
    case Field(pre, name, spec, rest) =>
      if name in names then Prepend(pre + Braced(names[name], spec), Scan(rest, names)) else Error(BadName(name))
  }

  function PositionNames(positions: map<string, nat>): map<string, string> {
    map n | n in positions :: Decimal(positions[n])
  }

  /** `make_format`: each name becomes its position, and a newline is added. */
  function PositionalFormat(s: string, positions: map<string, nat>): Result {
    match Scan(s, PositionNames(positions))
    case Ok(text) => Ok(text + "\n")
    case Error(why) => Error(why)
  }

  /** The positions that the logger gives to its fields. */
  const POSITION_MAP: map<string, nat> := map[
    "time" := 0, "level" := 1, "name" := 2, "message" := 3, "function" := 4, "file" := 5, "line" := 6]

  // ------------------------------------------------------------------ the loop

  lemma PrependTwice(a: string, b: string, r: Result)
    ensures Prepend(a, Prepend(b, r)) == Prepend(a + b, r)
  {
  }

  lemma FieldStep(s: string, pre: string, name: string, spec: string, rest: string, names: map<string, string>)
    requires Look(s) == Field(pre, name, spec, rest)
    ensures Scan(s, names) ==
            if name in names then Prepend(pre + Braced(names[name], spec), Scan(rest, names)) else Error(BadName(name))
  {
  }

  /** The closing bracket may be counted in or not when the ':' is looked for. */
  lemma ColonBefore(body: string)
    ensures var colon := IndexOf(body + "}", ':');
      IndexOf(body, ':') == if colon == |body| + 1 then |body| else colon
  {
    var colon := IndexOf(body, ':');
    if colon < |body| {
      IndexOfFirst(body + "}", ':', colon);
    } else {
      IndexOfFirst(body + "}", ':', |body| + 1);
    }
  }

  /** The field that starts behind the bracket at `start - 1`, cut out of the string as the loop does it. */
  method CutOut(s: string, start: nat, end: nat) returns (name: string, spec: string)
    requires 0 < start <= end < |s| && s[end] == '}'
    ensures var body := s[start..end]; var colon := IndexOf(body, ':');
      name == body[..colon] && spec == body[colon..]
  {
    ghost var body := s[start..end];
    ColonBefore(body);
    var field := s[start..end + 1];
    assert field == body + "}";
    var colon := IndexOf(field, ':');
    if colon == |field| {
      name, spec := s[start..end], "";
      assert body[..|body|] == body && body[|body|..] == "";
    } else {
      name, spec := s[start..start + colon], s[start + colon..end];
      assert field[colon] == ':';
      assert name == body[..colon] && spec == body[colon..];
    }
  }

  lemma Slices(s: string, i: nat, j: nat, k: nat)
    requires i <= j <= k <= |s|
    ensures s[i..][j - i..k - i] == s[j..k] && s[i..][j - i..] == s[j..] && s[i..][..j - i] == s[i..j]
  {
  }

  /** One turn of the loop from index `i`: what it finds, and where the next turn starts. */
  method LookAt(s: string, i: nat) returns (v: View, next: nat)
    requires i < |s|
    ensures v == Look(s[i..])
    ensures v.Escape? || v.Field? ==> i < next <= |s| && v.rest == s[next..]
  {
    next := i;
    var start := i + IndexOf(s[i..], '{');
    if start == |s| {
      return Plain, i;
    }
    Slices(s, i, start, start);
    start := start + 1;
    if start >= |s| {
      return Broken(NoClosingBracket), i;
    }
    if s[start] == '{' {
      Slices(s, i, start + 1, start + 1);
      return Escape(s[i..start - 1], s[start + 1..]), start + 1;
    }
    if s[start] == '}' {
      return Broken(UnnamedParameter), i;
    }
    v, next := FieldAt(s, i, start);
  }

  /** The rest of a turn that has found a single opening bracket. */
  method FieldAt(s: string, i: nat, start: nat) returns (v: View, next: nat)
    requires i < start < |s| && start - 1 - i == IndexOf(s[i..], '{') && s[start] != '{' && s[start] != '}'
    ensures v == Look(s[i..])
    ensures v.Field? ==> i < next <= |s| && v.rest == s[next..]
    ensures v.Field? || v.Broken?
  {
    var end := start + IndexOf(s[start..], '}');
    if end == |s| {
      LookUnclosed(s, i, start);
      return Broken(NoClosingBracket), i;
    }
    LookFieldAt(s, i, start, end);
    var name, spec := CutOut(s, start, end);
    return Field(s[i..start - 1], name, spec, s[end + 1..]), end + 1;
  }

  lemma LookUnclosed(s: string, i: nat, start: nat)
    requires i < start < |s| && start - 1 - i == IndexOf(s[i..], '{') && s[start] != '{' && s[start] != '}'
    requires IndexOf(s[start..], '}') == |s| - start
    ensures Look(s[i..]) == Broken(NoClosingBracket)
  {
    var t, open := s[i..], start - 1 - i;
    assert t[open + 1..] == s[start..];
    LookOpen(t, open);
  }

  lemma LookFieldAt(s: string, i: nat, start: nat, end: nat)
    requires i < start < |s| && start - 1 - i == IndexOf(s[i..], '{') && s[start] != '{' && s[start] != '}'
    requires start <= end < |s| && end - start == IndexOf(s[start..], '}')
    ensures var body := s[start..end]; var colon := IndexOf(body, ':');
      Look(s[i..]) == Field(s[i..start - 1], body[..colon], body[colon..], s[end + 1..])
  {
    var t, open := s[i..], start - 1 - i;
    assert t[..open] == s[i..start - 1] && t[open + 1..] == s[start..] by {
      Slices(s, i, start - 1, start);
      Slices(s, i, start, |s|);
    }
    LookOpen(t, open);
    BehindAt(s, s[i..start - 1], start, end);
  }

  lemma LookOpen(t: string, open: nat)
    requires open == IndexOf(t, '{') && open + 1 < |t| && t[open + 1] != '{' && t[open + 1] != '}'
    ensures Look(t) == LookBehind(t[..open], t[open + 1..])
  {
  }

  lemma BehindAt(s: string, pre: string, start: nat, end: nat)
    requires start <= end < |s| && end - start == IndexOf(s[start..], '}')
    ensures var body := s[start..end]; var colon := IndexOf(body, ':');
      LookBehind(pre, s[start..]) == Field(pre, body[..colon], body[colon..], s[end + 1..])
  {
    var tail := s[start..];
    assert tail[..end - start] == s[start..end] && tail[end - start + 1..] == s[end + 1..];
  }

  lemma Glue(text: string, pre: string, name: string, spec: string)
    ensures text + (pre + Braced(name, spec)) == text + (pre + "{") + name + (spec + "}")
  {
  }

  method MakeFormat(s: string, positions: map<string, nat>) returns (r: Result)
    ensures r == PositionalFormat(s, positions)
  {
    ghost var names := PositionNames(positions);
    var text := "";
    var i := 0;
    while i < |s|
      invariant i <= |s|
      invariant Prepend(text, Scan(s[i..], names)) == Scan(s, names)
    {
      var v, next := LookAt(s, i);
      match v {
        case Plain =>
          text := text + s[i..];
          next := |s|;
        case Broken(why) =>
          return Error(why);
        case Escape(pre, rest) =>
          PrependTwice(text, pre + "{{", Scan(rest, names));
          text := text + (pre + "{{");
        case Field(pre, name, spec, rest) =>
          if name !in positions {
            return Error(BadName(name));
          }
          FieldStep(s[i..], pre, name, spec, rest, names);
          PrependTwice(text, pre + Braced(names[name], spec), Scan(rest, names));
          Glue(text, pre, Decimal(positions[name]), spec);
          text := text + (pre + "{") + Decimal(positions[name]) + (spec + "}");
      }
      i := next;
    }
    return Ok(text + "\n");
  }
}
