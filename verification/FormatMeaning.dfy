/** What formatting makes of a format string, as section 22.14.2 [format.string] of ISO C++23 has it, and what
    `make_format` does to that. */
module FormatMeaning {
  import opened Basics
  import opened Formats
  import opened FormatTheorems

  /** A text; or the string is malformed, or it has a replacement field inside a field, which is not followed. */
  datatype Shown = Shows(text: string) | Malformed | Nested

  function Before(text: string, r: Shown): Shown {
    if r.Shows? then Shows(text + r.text) else r
  }

  /** A replacement field at the front of a string: its argument, the specification behind the ':', and whether
      there is another bracket in it. */
  datatype Part = Unclosed | Replacement(id: string, spec: string, nested: bool, rest: string)

  function FrontField(s: string): (p: Part)
    requires s != "" && s[0] == '{'
    ensures p.Replacement? ==> |p.rest| < |s|
  {
    var end := IndexOf(s, '}');
    if end == |s| then Unclosed else Inside(s[1..end], s[end + 1..])
  }

  function Inside(body: string, rest: string): Part {
    var colon := IndexOf(body, ':');
    Replacement(body[..colon], if colon < |body| then body[colon + 1..] else "", '{' in body, rest)
  }

  /** The string is read character by character: both brackets are escaped by doubling them, a bracket that closes
      nothing is an error, and a field shows its argument with the specification behind the ':'. */
  function Formatted<T>(s: string, args: map<string, T>, show: (T, string) -> string): Shown
    decreases |s|
  {
    if s == "" then Shows("")
    else if s[0] == '{' then
      if |s| >= 2 && s[1] == '{' then Before("{", Formatted(s[2..], args, show))
      else
        match FrontField(s)
        case Unclosed => Malformed
        case Replacement(id, spec, nested, rest) =>
          if nested then Nested
          else if id !in args then Malformed
          else Before(show(args[id], spec), Formatted(rest, args, show))
    else if s[0] == '}' then
      if |s| >= 2 && s[1] == '}' then Before("}", Formatted(s[2..], args, show)) else Malformed
    else Before([s[0]], Formatted(s[1..], args, show))
  }

  /** Nothing, or something that starts with an opening bracket. */
  predicate AtField(s: string) {
    s == "" || s[0] == '{'
  }

  /** The same text in front of two strings that show the same. */
  lemma {:induction false} TextBefore<T>(
      text: string, a: string, b: string, args: map<string, T>, renamed: map<string, T>, show: (T, string) -> string)
    requires '{' !in text && AtField(a) && (a == "" <==> b == "") && AtField(b)
    requires Formatted(a, args, show) == Formatted(b, renamed, show)
    ensures Formatted(text + a, args, show) == Formatted(text + b, renamed, show)
    decreases |text|
  {
    if text == "" {
      assert text + a == a && text + b == b;
    } else if text[0] == '}' {
      if |text| >= 2 && text[1] == '}' {
        assert (text + a)[2..] == text[2..] + a && (text + b)[2..] == text[2..] + b;
        TextBefore(text[2..], a, b, args, renamed, show);
      } else if |text| >= 2 {
        assert (text + a)[1] == text[1] && (text + b)[1] == text[1];
      }
    } else {
      assert (text + a)[1..] == text[1..] + a && (text + b)[1..] == text[1..] + b;
      TextBefore(text[1..], a, b, args, renamed, show);
    }
  }

  lemma EscapeShows<T>(rest: string, args: map<string, T>, show: (T, string) -> string)
    ensures Formatted("{{" + rest, args, show) == Before("{", Formatted(rest, args, show))
  {
    assert ("{{" + rest)[2..] == rest;
  }

  /** The specification without the ':' that starts it. */
  function Bare(spec: string): string {
    if spec == "" then "" else spec[1..]
  }

  lemma FieldParts(name: string, spec: string, rest: string)
    requires FieldOk(name, spec)
    ensures var s := Braced(name, spec) + rest; var end := |name| + |spec| + 1;
      && IndexOf(s, '}') == end && s[1..end] == name + spec && s[end + 1..] == rest
      && |s| >= 2 && s[0] == '{' && s[1] != '{'
  {
    var body := name + spec;
    var s := Braced(name, spec) + rest;
    assert s == "{" + body + "}" + rest;
    assert forall k :: 1 <= k < |body| + 1 ==> s[k] == body[k - 1];
    IndexOfFirst(s, '}', |body| + 1);
  }

  lemma InsideIs(name: string, spec: string, rest: string)
    requires FieldOk(name, spec) && '{' !in name
    ensures Inside(name + spec, rest) == Replacement(name, Bare(spec), '{' in spec, rest)
  {
    var body := name + spec;
    IndexOfFirst(body, ':', |name|);
    assert body[..|name|] == name;
    assert spec != "" ==> body[|name| + 1..] == spec[1..];
  }

  lemma FrontFieldIs(name: string, spec: string, rest: string)
    requires FieldOk(name, spec) && '{' !in name
    ensures var s := Braced(name, spec) + rest;
      && |s| >= 2 && s[0] == '{' && s[1] != '{'
      && FrontField(s) == Replacement(name, Bare(spec), '{' in spec, rest)
  {
    FieldParts(name, spec, rest);
    InsideIs(name, spec, rest);
  }

  lemma FieldShows<T>(name: string, spec: string, rest: string, args: map<string, T>, show: (T, string) -> string)
    requires FieldOk(name, spec) && '{' !in name
    ensures AtField(Braced(name, spec) + rest) && Braced(name, spec) + rest != ""
    ensures Formatted(Braced(name, spec) + rest, args, show) ==
            if '{' in spec then Nested
            else if name !in args then Malformed
            else Before(show(args[name], Bare(spec)), Formatted(rest, args, show))
  {
    FrontFieldIs(name, spec, rest);
  }

  /** The renamed arguments are the same arguments, and all names can stand in a field. */
  predicate SameArgs<T(==)>(names: map<string, string>, args: map<string, T>, renamed: map<string, T>) {
    forall n :: n in names ==>
      && '{' !in n && NameOk(names[n]) && '{' !in names[n]
      && n in args && names[n] in renamed && renamed[names[n]] == args[n]
  }

  lemma FieldSame<T>(
      name: string, spec: string, rest: string, after: string, names: map<string, string>,
      args: map<string, T>, renamed: map<string, T>, show: (T, string) -> string)
    requires FieldOk(name, spec) && name in names && SameArgs(names, args, renamed)
    requires Formatted(rest, args, show) == Formatted(after, renamed, show)
    ensures FieldOk(names[name], spec)
    ensures var a, b := Braced(name, spec) + rest, Braced(names[name], spec) + after;
      AtField(a) && AtField(b) && a != "" && b != "" && Formatted(a, args, show) == Formatted(b, renamed, show)
  {
    FieldShows(name, spec, rest, args, show);
    FieldShows(names[name], spec, after, renamed, show);
  }

  lemma FieldKept<T>(
      pre: string, name: string, spec: string, rest: string, after: string, names: map<string, string>,
      args: map<string, T>, renamed: map<string, T>, show: (T, string) -> string)
    requires '{' !in pre && FieldOk(name, spec) && name in names && SameArgs(names, args, renamed)
    requires Formatted(rest, args, show) == Formatted(after, renamed, show)
    ensures Formatted(pre + Braced(name, spec) + rest, args, show) ==
            Formatted(pre + Braced(names[name], spec) + after, renamed, show)
  {
    FieldSame(name, spec, rest, after, names, args, renamed, show);
    TextBefore(pre, Braced(name, spec) + rest, Braced(names[name], spec) + after, args, renamed, show);
    Associate(pre, Braced(name, spec), rest);
    Associate(pre, Braced(names[name], spec), after);
  }

  lemma EscapeKept<T>(
      pre: string, rest: string, after: string, args: map<string, T>, renamed: map<string, T>, show: (T, string) -> string)
    requires '{' !in pre && Formatted(rest, args, show) == Formatted(after, renamed, show)
    ensures Formatted(pre + "{{" + rest, args, show) == Formatted(pre + "{{" + after, renamed, show)
  {
    EscapeShows(rest, args, show);
    EscapeShows(after, renamed, show);
    TextBefore(pre, "{{" + rest, "{{" + after, args, renamed, show);
    assert pre + "{{" + rest == pre + ("{{" + rest) && pre + "{{" + after == pre + ("{{" + after);
  }

  /** Renaming the fields of an accepted string and their arguments alike changes nothing of what is shown. */
  lemma {:induction false} ScanMeaning<T>(
      s: string, names: map<string, string>, args: map<string, T>, renamed: map<string, T>, show: (T, string) -> string)
    requires Scan(s, names).Ok? && SameArgs(names, args, renamed)
    ensures Formatted(Scan(s, names).text, renamed, show) == Formatted(s, args, show)
    decreases |s|
  {
    var v := Look(s);
    LookExact(s);
    if v.Field? {
      FieldStep(s, v.pre, v.name, v.spec, v.rest, names);
      ScanMeaning(v.rest, names, args, renamed, show);
      FieldKept(v.pre, v.name, v.spec, v.rest, Scan(v.rest, names).text, names, args, renamed, show);
    } else if v.Escape? {
      ScanMeaning(v.rest, names, args, renamed, show);
      EscapeKept(v.pre, v.rest, Scan(v.rest, names).text, args, renamed, show);
    } else {
      TextBefore(s, "", "", args, renamed, show);
      assert s + "" == s;
    }
  }

  /** Formatting with positions shows what formatting with names would have shown, whatever the arguments and
      however they are shown; and a string that is malformed for one is malformed for the other. */
  lemma MakeFormatMeaning<T>(
      s: string, positions: map<string, nat>, args: map<string, T>, byPosition: map<string, T>, show: (T, string) -> string)
    requires PositionalFormat(s, positions).Ok?
    requires forall n :: n in positions ==> '{' !in n
    requires forall n :: n in positions ==>
      n in args && Decimal(positions[n]) in byPosition && byPosition[Decimal(positions[n])] == args[n]
    ensures Formatted(PositionalFormat(s, positions).text, byPosition, show) == Formatted(s + "\n", args, show)
  {
    forall n | n in positions ensures NameOk(Decimal(positions[n])) && '{' !in Decimal(positions[n]) {
      DecimalDigits(positions[n]);
    }
    NewlineAdded(s, positions);
    ScanMeaning(s + "\n", PositionNames(positions), args, byPosition, show);
  }
}
