/** Which strings `make_format` refuses, and with which error. */
module FormatErrors {
  import opened Basics
  import opened Formats
  import opened FormatTheorems

  /** A string that goes wrong at its start: a bracket that is not closed, one with nothing in it, or a field whose name
      has no position. */
  predicate BadStart(rest: string, why: FormatError, names: map<string, string>) {
    && rest != "" && rest[0] == '{'
    && match why
       case NoClosingBracket => |rest| == 1 || (rest[1] != '{' && '}' !in rest)
       case UnnamedParameter => |rest| >= 2 && rest[1] == '}'
       case BadName(name) => name !in names && NamedFirst(rest, name)
  }

  /** A field with this name is at the start. */
  predicate NamedFirst(rest: string, name: string) {
    var end := IndexOf(rest, '}');
    && 1 < end < |rest| && rest[0] == '{' && rest[1] != '{'
    && var colon := IndexOf(rest[1..end], ':'); name == rest[1..end][..colon]
  }

  lemma OpensFirst(rest: string)
    requires rest != "" && rest[0] == '{'
    ensures IndexOf(rest, '{') == 0
  {
  }

  lemma EndBehind(rest: string)
    requires |rest| >= 2 && rest[0] == '{'
    ensures IndexOf(rest[1..], '}') == IndexOf(rest, '}') - 1
    ensures IndexOf(rest, '}') < |rest| ==> rest[1..][..IndexOf(rest, '}') - 1] == rest[1..IndexOf(rest, '}')]
  {
  }

  lemma NotIn(s: string, c: char)
    ensures c !in s <==> IndexOf(s, c) == |s|
  {
  }

  /** A bad start is what the error says. */
  lemma BadStartFails(rest: string, why: FormatError, names: map<string, string>)
    requires BadStart(rest, why, names)
    ensures Scan(rest, names) == Error(why)
  {
    OpensFirst(rest);
    if |rest| >= 2 {
      EndBehind(rest);
      NotIn(rest, '}');
      NotIn(rest[1..], '}');
      assert rest[0 + 1..] == rest[1..] && rest[0 + 1] == rest[1];
      assert rest[..0] == "";
    }
  }

  predicate Stuck(v: View, names: map<string, string>) {
    v.Broken? || (v.Field? && v.name !in names)
  }

  /** A turn that finds an error finds it at its bracket. */
  lemma BadHere(s: string, names: map<string, string>)
    requires Stuck(Look(s), names)
    ensures var open := IndexOf(s, '{'); open < |s| && BadStart(s[open..], Scan(s, names).why, names)
  {
    var open := IndexOf(s, '{');
    var rest := s[open..];
    if |rest| >= 2 {
      assert rest[1..] == s[open + 1..] && rest[1] == s[open + 1];
      EndBehind(rest);
      NotIn(rest, '}');
    }
  }

  /** The bracket at which the scan gives up. */
  function BadEnd(s: string, names: map<string, string>): string
    decreases |s|
  {
    var v := Look(s);
    if Stuck(v, names) then s[IndexOf(s, '{')..]
    else if v.Plain? then ""
    else BadEnd(v.rest, names)
  }

  /** The two tokens of a turn that goes on. */
  function Turned(v: View): seq<Token>
    requires v.Escape? || v.Field?
  {
    [Text(v.pre), if v.Escape? then OpenBracket else Named(v.name, v.spec)]
  }

  /** What it has accepted before. */
  function Accepted(s: string, names: map<string, string>): seq<Token>
    decreases |s|
  {
    var v := Look(s);
    if Stuck(v, names) then [Text(s[..IndexOf(s, '{')])]
    else if v.Plain? then [Text(s)]
    else Turned(v) + Accepted(v.rest, names)
  }

  lemma {:induction false} BadAtEnd(s: string, names: map<string, string>)
    requires Scan(s, names).Error?
    ensures BadStart(BadEnd(s, names), Scan(s, names).why, names)
    decreases |s|
  {
    var v := Look(s);
    if Stuck(v, names) {
      BadHere(s, names);
    } else {
      BadAtEnd(v.rest, names);
    }
  }

  lemma OneInFront(text: string, rest: string)
    ensures PrintAll([Text(text)]) + rest == text + rest
  {
    assert [Text(text)][1..] == [] && PrintAll([Text(text)]) == text + PrintAll([]);
  }

  lemma TwoInFront(a: Token, b: Token, s: string, tokens: seq<Token>, rest: string)
    requires s == PrintAll(tokens) + rest
    ensures Print(a) + Print(b) + s == PrintAll([a, b] + tokens) + rest
  {
    PrintTwo(a, b, tokens);
    Associate(Print(a) + Print(b), PrintAll(tokens), rest);
  }

  lemma TurnPrints(s: string, v: View)
    requires v == Look(s) && (v.Escape? || v.Field?)
    ensures s == Print(Turned(v)[0]) + Print(Turned(v)[1]) + v.rest
  {
    LookExact(s);
  }

  lemma TurnOk(s: string, v: View, tokens: seq<Token>, names: map<string, string>)
    requires v == Look(s) && (v.Escape? || v.Field?) && !Stuck(v, names) && TokensOk(tokens, names)
    ensures TokensOk(Turned(v) + tokens, names)
  {
    LookExact(s);
  }

  lemma {:induction false} AcceptedBefore(s: string, names: map<string, string>)
    requires Scan(s, names).Error?
    ensures s == PrintAll(Accepted(s, names)) + BadEnd(s, names)
    decreases |s|
  {
    var v := Look(s);
    if Stuck(v, names) {
      var open := IndexOf(s, '{');
      OneInFront(s[..open], s[open..]);
    } else {
      AcceptedBefore(v.rest, names);
      TurnPrints(s, v);
      TwoInFront(Turned(v)[0], Turned(v)[1], v.rest, Accepted(v.rest, names), BadEnd(v.rest, names));
    }
  }

  lemma {:induction false} AcceptedOk(s: string, names: map<string, string>)
    requires Scan(s, names).Error?
    ensures TokensOk(Accepted(s, names), names)
    decreases |s|
  {
    var v := Look(s);
    if Stuck(v, names) {
      LookExact(s);
    } else {
      AcceptedOk(v.rest, names);
      TurnOk(s, v, Accepted(v.rest, names), names);
    }
  }

  /** A string is refused with an error if and only if it is a string of the grammar with a bad start behind it, of just
      that kind. */
  lemma ErrorExact(s: string, why: FormatError, names: map<string, string>)
    ensures Scan(s, names) == Error(why) <==>
            exists tokens: seq<Token>, rest: string ::
              TokensOk(tokens, names) && s == PrintAll(tokens) + rest && BadStart(rest, why, names)
  {
    if Scan(s, names) == Error(why) {
      AcceptedBefore(s, names);
      AcceptedOk(s, names);
      BadAtEnd(s, names);
    }
    forall tokens: seq<Token>, rest: string |
      TokensOk(tokens, names) && s == PrintAll(tokens) + rest && BadStart(rest, why, names)
      ensures Scan(s, names) == Error(why)
    {
      BadStartFails(rest, why, names);
      Accepts(tokens, rest, names);
    }
  }
}
