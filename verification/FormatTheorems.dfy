/** What `make_format` promises: exactly a grammar, rewritten token by token, without loss and with the same
    meaning. */
module FormatTheorems {
  import opened Basics
  import opened Formats

  /** The grammar of the strings that are accepted. */
  datatype Token = Text(text: string) | OpenBracket | Named(name: string, spec: string)

  function Print(token: Token): string {
    match token
    case Text(text) => text
    case OpenBracket => "{{"
    case Named(name, spec) => Braced(name, spec)
  }

  predicate TokenOk(token: Token, names: map<string, string>) {
    match token
    case Text(text) => '{' !in text
    case OpenBracket => true
    case Named(name, spec) => FieldOk(name, spec) && name in names
  }

  predicate TokensOk(tokens: seq<Token>, names: map<string, string>) {
    forall i :: 0 <= i < |tokens| ==> TokenOk(tokens[i], names)
  }

  function Rename(token: Token, names: map<string, string>): Token
    requires TokenOk(token, names)
  {
    if token.Named? then Named(names[token.name], token.spec) else token
  }

  function PrintAll(tokens: seq<Token>): string {
    if tokens == [] then "" else Print(tokens[0]) + PrintAll(tokens[1..])
  }

  function RenameAll(tokens: seq<Token>, names: map<string, string>): seq<Token>
    requires TokensOk(tokens, names)
  {
    if tokens == [] then [] else [Rename(tokens[0], names)] + RenameAll(tokens[1..], names)
  }

  // ------------------------------------------------------------------ concatenation

  lemma LookTextBroken(text: string, rest: string)
    requires '{' !in text && Look(rest).Broken?
    ensures Look(text + rest) == Look(rest)
  {
    var open := IndexOf(rest, '{');
    IndexOfFirst(text + rest, '{', |text| + open);
    assert (text + rest)[|text| + open + 1..] == rest[open + 1..];
  }

  lemma LookTextEscape(text: string, rest: string)
    requires '{' !in text && Look(rest).Escape?
    ensures Look(text + rest) == Escape(text + Look(rest).pre, Look(rest).rest)
  {
    LookExactEscape(rest);
    var Escape(pre, more) := Look(rest);
    Associate(text, pre, "{{");
    Associate(text, pre + "{{", more);
    LookEscape(text + pre, more);
  }

  lemma LookTextField(text: string, rest: string)
    requires '{' !in text && Look(rest).Field?
    ensures var Field(pre, name, spec, more) := Look(rest); Look(text + rest) == Field(text + pre, name, spec, more)
  {
    LookExactField(rest);
    var Field(pre, name, spec, more) := Look(rest);
    Associate(text, pre, Braced(name, spec));
    Associate(text, pre + Braced(name, spec), more);
    LookField(text + pre, name, spec, more);
  }

  lemma ScanTextEscape(text: string, rest: string, names: map<string, string>)
    requires '{' !in text && Look(rest).Escape?
    ensures Scan(text + rest, names) == Prepend(text, Scan(rest, names))
  {
    LookTextEscape(text, rest);
    var Escape(pre, more) := Look(rest);
    PrependTwice(text, pre + "{{", Scan(more, names));
    assert text + (pre + "{{") == text + pre + "{{";
  }

  lemma PrependField(text: string, pre: string, field: string, r: Result)
    ensures Prepend(text, Prepend(pre + field, r)) == Prepend(text + pre + field, r)
  {
  }

  lemma ScanTextField(text: string, rest: string, names: map<string, string>)
    requires '{' !in text && Look(rest).Field?
    ensures Scan(text + rest, names) == Prepend(text, Scan(rest, names))
  {
    LookTextField(text, rest);
    var Field(pre, name, spec, more) := Look(rest);
    FieldStep(rest, pre, name, spec, more, names);
    FieldStep(text + rest, text + pre, name, spec, more, names);
    if name in names {
      PrependField(text, pre, Braced(names[name], spec), Scan(more, names));
    }
  }

  /** Text in front of a string is passed through. */
  lemma ScanText(text: string, rest: string, names: map<string, string>)
    requires '{' !in text
    ensures Scan(text + rest, names) == Prepend(text, Scan(rest, names))
  {
    var v := Look(rest);
    if v.Field? {
      ScanTextField(text, rest, names);
    } else if v.Escape? {
      ScanTextEscape(text, rest, names);
    } else if v.Broken? {
      LookTextBroken(text, rest);
    } else {
      LookExact(rest);
      LookPlain(text + rest);
    }
  }

  lemma ScanEscape(rest: string, names: map<string, string>)
    ensures Scan("{{" + rest, names) == Prepend("{{", Scan(rest, names))
  {
  }

  lemma NothingBefore(s: string)
    ensures "" + s == s
  {
  }

  lemma LookFieldFirst(name: string, spec: string, rest: string)
    requires FieldOk(name, spec)
    ensures Look(Braced(name, spec) + rest) == Field("", name, spec, rest)
  {
    LookField("", name, spec, rest);
    NothingBefore(Braced(name, spec));
  }

  lemma ScanField(name: string, spec: string, rest: string, names: map<string, string>)
    requires FieldOk(name, spec) && name in names
    ensures Scan(Braced(name, spec) + rest, names) == Prepend(Braced(names[name], spec), Scan(rest, names))
  {
    LookFieldFirst(name, spec, rest);
    FieldStep(Braced(name, spec) + rest, "", name, spec, rest, names);
    NothingBefore(Braced(names[name], spec));
  }

  /** One token in front of a string is rewritten on its own. */
  lemma ScanToken(token: Token, rest: string, names: map<string, string>)
    requires TokenOk(token, names)
    ensures Scan(Print(token) + rest, names) == Prepend(Print(Rename(token, names)), Scan(rest, names))
  {
    match token
    case Text(text) => ScanText(text, rest, names);
    case OpenBracket => ScanEscape(rest, names);
    case Named(name, spec) => ScanField(name, spec, rest, names);
  }

  // ------------------------------------------------------------------ exactly the grammar

  /** Every string of the grammar is accepted, and rewritten token by token, whatever follows it. */
  lemma {:induction false} Accepts(tokens: seq<Token>, rest: string, names: map<string, string>)
    requires TokensOk(tokens, names)
    ensures Scan(PrintAll(tokens) + rest, names) == Prepend(PrintAll(RenameAll(tokens, names)), Scan(rest, names))
  {
    if tokens == [] {
      assert "" + rest == rest;
      var r := Scan(rest, names);
      assert r.Ok? ==> "" + r.text == r.text;
    } else {
      var first, more := Print(tokens[0]), PrintAll(tokens[1..]);
      assert (first + more) + rest == first + (more + rest);
      ScanToken(tokens[0], more + rest, names);
      Accepts(tokens[1..], rest, names);
      PrependTwice(Print(Rename(tokens[0], names)), PrintAll(RenameAll(tokens[1..], names)), Scan(rest, names));
      assert RenameAll(tokens, names)[1..] == RenameAll(tokens[1..], names);
    }
  }

  /** The tokens of a string. */
  function Tokens(s: string): seq<Token>
    decreases |s|
  {
    match Look(s)
    case Plain => [Text(s)]
    case Broken(_) => [Text(s)]
    case Escape(pre, rest) => [Text(pre), OpenBracket] + Tokens(rest)
    case Field(pre, name, spec, rest) => [Text(pre), Named(name, spec)] + Tokens(rest)
  }

  lemma PrintTwo(a: Token, b: Token, tokens: seq<Token>)
    ensures PrintAll([a, b] + tokens) == Print(a) + Print(b) + PrintAll(tokens)
  {
  }

  lemma {:induction false} TokensPrint(s: string)
    ensures PrintAll(Tokens(s)) == s
    decreases |s|
  {
    var v := Look(s);
    if v.Field? {
      LookExactField(s);
      TokensPrint(v.rest);
      PrintTwo(Text(v.pre), Named(v.name, v.spec), Tokens(v.rest));
    } else if v.Escape? {
      LookExactEscape(s);
      TokensPrint(v.rest);
      PrintTwo(Text(v.pre), OpenBracket, Tokens(v.rest));
    } else {
      assert [Text(s)][1..] == [] && PrintAll([Text(s)]) == s + PrintAll([]);
    }
  }

  /** Only strings of the grammar are accepted. */
  lemma {:induction false} TokensAccepted(s: string, names: map<string, string>)
    requires Scan(s, names).Ok?
    ensures TokensOk(Tokens(s), names)
    decreases |s|
  {
    var v := Look(s);
    if v.Field? {
      LookExactField(s);
      TokensAccepted(v.rest, names);
    } else if v.Escape? {
      LookExactEscape(s);
      TokensAccepted(v.rest, names);
    } else {
      LookExact(s);
    }
  }

  /** `make_format` succeeds exactly on the strings of the grammar, and its result is the same string with
      every name replaced. */
  lemma ScanExact(s: string, text: string, names: map<string, string>)
    ensures Scan(s, names) == Ok(text) <==>
            exists tokens: seq<Token> :: TokensOk(tokens, names) && PrintAll(tokens) == s && PrintAll(RenameAll(tokens, names)) == text
  {
    if Scan(s, names) == Ok(text) {
      TokensPrint(s);
      TokensAccepted(s, names);
      Rewritten(s, Tokens(s), names);
    }
    forall tokens: seq<Token> | TokensOk(tokens, names) && PrintAll(tokens) == s
      ensures Scan(s, names) == Ok(PrintAll(RenameAll(tokens, names)))
    {
      Rewritten(s, tokens, names);
    }
  }

  lemma Rewritten(s: string, tokens: seq<Token>, names: map<string, string>)
    requires TokensOk(tokens, names) && PrintAll(tokens) == s
    ensures Scan(s, names) == Ok(PrintAll(RenameAll(tokens, names)))
  {
    Accepts(tokens, "", names);
    assert s + "" == s;
    LookPlain("");
    assert PrintAll(RenameAll(tokens, names)) + "" == PrintAll(RenameAll(tokens, names));
  }

  /** On an accepted string the scan is a homomorphism: what follows is rewritten on its own. */
  lemma ScanConcat(s: string, t: string, names: map<string, string>)
    requires Scan(s, names).Ok?
    ensures Scan(s + t, names) == Prepend(Scan(s, names).text, Scan(t, names))
  {
    TokensPrint(s);
    TokensAccepted(s, names);
    Rewritten(s, Tokens(s), names);
    Accepts(Tokens(s), t, names);
  }

  // ------------------------------------------------------------------ the way back

  /** A text that can stand for a name. */
  predicate NameOk(name: string) {
    name != "" && ':' !in name && '}' !in name && name[0] != '{'
  }

  /** `back` undoes `names`. */
  predicate Inverts(back: map<string, string>, names: map<string, string>) {
    forall n :: n in names ==> NameOk(names[n]) && names[n] in back && back[names[n]] == n
  }

  lemma {:induction false} RenameBack(tokens: seq<Token>, names: map<string, string>, back: map<string, string>)
    requires TokensOk(tokens, names) && Inverts(back, names)
    ensures TokensOk(RenameAll(tokens, names), back)
    ensures RenameAll(RenameAll(tokens, names), back) == tokens
  {
    if tokens != [] {
      RenameBack(tokens[1..], names, back);
      var one := Rename(tokens[0], names);
      assert TokenOk(one, back) && Rename(one, back) == tokens[0];
      assert RenameAll(tokens, names)[1..] == RenameAll(tokens[1..], names);
    }
  }

  /** The same scan with the inverse map recovers the string. */
  lemma ScanBack(s: string, names: map<string, string>, back: map<string, string>)
    requires Scan(s, names).Ok? && Inverts(back, names)
    ensures Scan(Scan(s, names).text, back) == Ok(s)
  {
    var tokens := Tokens(s);
    TokensPrint(s);
    TokensAccepted(s, names);
    Rewritten(s, tokens, names);
    RenameBack(tokens, names, back);
    Rewritten(Scan(s, names).text, RenameAll(tokens, names), back);
  }

  // ------------------------------------------------------------------ positions

  predicate Injective(positions: map<string, nat>) {
    forall m, n :: m in positions && n in positions && positions[m] == positions[n] ==> m == n
  }

  lemma LastTwo(a: string, c: char, b: string, d: char)
    requires a + [c] == b + [d]
    ensures a == b && c == d
  {
    assert (a + [c])[..|a|] == a && (b + [d])[..|b|] == b;
    assert (a + [c])[|a|] == c && (b + [d])[|b|] == d;
  }

  lemma {:induction false} DecimalDigits(n: nat)
    ensures Decimal(n) != "" && forall i :: 0 <= i < |Decimal(n)| ==> '0' <= Decimal(n)[i] <= '9'
  {
    if n >= 10 {
      DecimalDigits(n / 10);
    }
  }

  lemma {:induction false} DecimalInjective(m: nat, n: nat)
    requires Decimal(m) == Decimal(n)
    ensures m == n
  {
    if m < 10 && n < 10 {
      assert Decimal(m)[0] == Decimal(n)[0];
    } else if m >= 10 && n >= 10 {
      LastTwo(Decimal(m / 10), Digit(m % 10), Decimal(n / 10), Digit(n % 10));
      DecimalInjective(m / 10, n / 10);
    } else {
      DecimalDigits(m / 10);
      DecimalDigits(n / 10);
    }
  }

  lemma LoggerPositions()
    ensures Injective(POSITION_MAP)
  {
  }

  /** From each position, written out, back to its name. */
  ghost function Names(positions: map<string, nat>): (back: map<string, string>)
    requires Injective(positions)
    ensures Inverts(back, PositionNames(positions))
  {
    forall m, n | m in positions && n in positions && Decimal(positions[m]) == Decimal(positions[n])
      ensures m == n
    {
      DecimalInjective(positions[m], positions[n]);
    }
    forall n | n in positions ensures NameOk(Decimal(positions[n])) {
      DecimalDigits(positions[n]);
    }
    map n | n in positions :: Decimal(positions[n]) := n
  }

  lemma NewlineAdded(s: string, positions: map<string, nat>)
    requires PositionalFormat(s, positions).Ok?
    ensures Scan(s + "\n", PositionNames(positions)) == PositionalFormat(s, positions)
  {
    ScanConcat(s, "\n", PositionNames(positions));
    LookPlain("\n");
  }

  /** The rewriting loses nothing: when no two names share a position, renaming the positions back gives the
      format string, with the newline. */
  lemma MakeFormatBack(s: string, positions: map<string, nat>)
    requires Injective(positions) && PositionalFormat(s, positions).Ok?
    ensures Scan(PositionalFormat(s, positions).text, Names(positions)) == Ok(s + "\n")
  {
    NewlineAdded(s, positions);
    ScanBack(s + "\n", PositionNames(positions), Names(positions));
  }
}
