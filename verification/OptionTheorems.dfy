/** What the command line parser promises: a printer/parser round trip. */
module OptionTheorems {
  import opened Basics
  import opened Options

  // ------------------------------------------------------------------ the printer

  datatype Form = LongAttached | LongSeparate | ShortAttached | ShortSeparate

  /** One thing that a user can say on the command line. */
  datatype Item = Positional(text: string) | Assign(option: nat, form: Form, value: string)

  predicate IsLong(form: Form) {
    form.LongAttached? || form.LongSeparate?
  }

  function Render(table: Table, item: Item): seq<string>
    requires item.Assign? ==> item.option < |table|
  {
    match item
    case Positional(text) => [text]
    case Assign(k, form, value) =>
      var name := if IsLong(form) then "--" + table[k].longName else "-" + table[k].shortName;
      match table[k].kind
      case Switch => [name]
      case Implicit(_) => [if value == "" then name else if IsLong(form) then name + "=" + value else name + value]
      case Value =>
        match form
        case LongAttached => [name + "=" + value]
        case ShortAttached => [name + value]
        case _ => [name, value]
  }

  /** What can be said in this form: a positional does not start with '-'; an option is active, has a name of
      the kind used, one that the parser can tell from the rest, and a value if it needs one. */
  predicate Sayable(table: Table, item: Item) {
    match item
    case Positional(text) => text == "" || text[0] != '-'
    case Assign(k, form, value) =>
      && k < |table| && table[k].attribute != INACTIVE
      && (if IsLong(form) then table[k].longName != "" && '=' !in table[k].longName
          else table[k].shortName != "" && table[k].shortName != "-")
      && (table[k].kind.Value? ==> value != "")
  }

  predicate AllSayable(table: Table, items: seq<Item>) {
    forall i :: 0 <= i < |items| ==> Sayable(table, items[i])
  }

  function RenderAll(table: Table, items: seq<Item>): seq<string>
    requires AllSayable(table, items)
  {
    if items == [] then [] else Render(table, items[0]) + RenderAll(table, items[1..])
  }

  /** The value that an assignment stands for. */
  function Meant(kind: Kind, value: string): string {
    match kind
    case Switch => "true"
    case Implicit(default) => if value == "" then default else value
    case Value => value
  }

  /** The values meant for one option, and the positionals, in order. */
  function ValuesOf(table: Table, items: seq<Item>, k: nat): seq<string>
    requires k < |table|
  {
    if items == [] then []
    else
      (if items[0].Assign? && items[0].option == k then [Meant(table[k].kind, items[0].value)] else [])
      + ValuesOf(table, items[1..], k)
  }

  function PositionalsOf(items: seq<Item>): seq<string> {
    if items == [] then []
    else (if items[0].Positional? then [items[0].text] else []) + PositionalsOf(items[1..])
  }

  // ------------------------------------------------------------------ names are found again

  lemma FoundLong(table: Table, k: nat)
    requires Built(table) && k < |table| && table[k].longName != "" && table[k].attribute != INACTIVE
    ensures KnownLong(table, table[k].longName) == Some(k)
  {
  }

  lemma FoundShort(table: Table, k: nat)
    requires Built(table) && k < |table| && table[k].shortName != "" && table[k].attribute != INACTIVE
    ensures |table[k].shortName| == 1 && KnownShort(table, table[k].shortName[0]) == Some(k)
  {
  }

  lemma {:induction false} IndexOfName(name: string, tail: string)
    requires '=' !in name && (tail == "" || tail[0] == '=')
    ensures IndexOf(name + tail, '=') == |name|
  {
    if name == "" {
      assert name + tail == tail;
    } else {
      assert (name + tail)[1..] == name[1..] + tail;
      IndexOfName(name[1..], tail);
    }
  }

  // ------------------------------------------------------------------ one item is parsed back

  function Apply(table: Table, st: State, item: Item): (r: State)
    requires |table| == |st.values| && (item.Assign? ==> item.option < |table|)
    ensures |r.values| == |table|
  {
    match item
    case Positional(text) => st.(positionals := st.positionals + [text])
    case Assign(k, _, value) =>
      st.(values := st.values[k := st.values[k] + [Meant(table[k].kind, value)]])
  }

  /** Parsing one rendered item reads all of it, and nothing of what follows. */
  predicate ReadsBack(table: Table, st: State, item: Item, rest: seq<string>)
    requires |table| == |st.values| && Sayable(table, item)
  {
    var args := Render(table, item);
    Argument(table, st, args[0], args[1..] + rest) == Progress(Parsed(Apply(table, st, item), None), rest)
  }

  lemma LongArgumentIs(table: Table, st: State, k: nat, value: string, attached: bool, rest: seq<string>)
    requires Built(table) && |table| == |st.values| && k < |table|
    requires table[k].longName != "" && '=' !in table[k].longName && table[k].attribute != INACTIVE
    requires !attached ==> value == ""
    ensures var arg := "--" + table[k].longName + if attached then "=" + value else "";
      && Argument(table, st, arg, rest) == LongArgument(table, st, arg, rest)
      && (table[k].kind.Implicit? || (table[k].kind.Switch? && value == "") || (table[k].kind.Value? && value != "") ==>
            LongArgument(table, st, arg, rest) == Progress(Give(table, st, k, value), rest))
      && (table[k].kind.Value? && value == "" && rest != [] ==>
            LongArgument(table, st, arg, rest) == Progress(Give(table, st, k, rest[0]), rest[1..]))
  {
    var name := table[k].longName;
    var tail := if attached then "=" + value else "";
    var arg := "--" + name + tail;
    FoundLong(table, k);
    IndexOfName(name, tail);
    assert arg[2..] == name + tail;
    assert (name + tail)[..|name|] == name;
    if attached {
      assert (name + tail)[|name| + 1..] == value;
    }
    assert arg[..2] == "--" && |arg| > 2;
  }

  lemma ShortArgumentIs(table: Table, st: State, k: nat, value: string, rest: seq<string>)
    requires Built(table) && |table| == |st.values| && k < |table|
    requires table[k].shortName != "" && table[k].shortName != "-" && table[k].attribute != INACTIVE
    ensures var arg := "-" + table[k].shortName + value;
      && Argument(table, st, arg, rest) == ShortArgument(table, st, arg, rest)
      && (table[k].kind.Implicit? || (table[k].kind.Switch? && value == "") || (table[k].kind.Value? && value != "") ==>
            ShortArgument(table, st, arg, rest) == Progress(Give(table, st, k, value), rest))
      && (table[k].kind.Value? && value == "" && rest != [] ==>
            ShortArgument(table, st, arg, rest) == Progress(Give(table, st, k, rest[0]), rest[1..]))
  {
    FoundShort(table, k);
    var c := table[k].shortName[0];
    assert table[k].shortName == [c];
    var opt := [c] + value;
    var arg := "-" + table[k].shortName + value;
    assert arg == "-" + opt && arg[1..] == opt && opt[1..] == value;
    assert arg[0] == '-' && arg[1] == c && c != '-';
    if table[k].kind.Switch? && value == "" {
      var p := Give(table, st, k, "");
      assert Cluster(table, p.state, opt[1..], false, rest) == (Progress(p, rest), false);
    }
  }

  lemma SwitchReadsBack(table: Table, st: State, item: Item, rest: seq<string>)
    requires Built(table) && |table| == |st.values| && Sayable(table, item)
    requires item.Assign? && table[item.option].kind.Switch?
    ensures ReadsBack(table, st, item, rest)
  {
    var arg := Render(table, item)[0];
    assert arg + "" == arg && [arg][1..] + rest == rest;
    if IsLong(item.form) {
      LongArgumentIs(table, st, item.option, "", false, rest);
    } else {
      ShortArgumentIs(table, st, item.option, "", rest);
    }
  }

  lemma ImplicitReadsBack(table: Table, st: State, item: Item, rest: seq<string>)
    requires Built(table) && |table| == |st.values| && Sayable(table, item)
    requires item.Assign? && table[item.option].kind.Implicit?
    ensures ReadsBack(table, st, item, rest)
  {
    var arg := Render(table, item)[0];
    var name := if IsLong(item.form) then "--" + table[item.option].longName else "-" + table[item.option].shortName;
    assert name + "" == name && [arg][1..] + rest == rest;
    if IsLong(item.form) {
      assert item.value != "" ==> arg == name + ("=" + item.value);
      LongArgumentIs(table, st, item.option, item.value, item.value != "", rest);
    } else {
      ShortArgumentIs(table, st, item.option, item.value, rest);
    }
  }

  lemma ValueReadsBack(table: Table, st: State, item: Item, rest: seq<string>)
    requires Built(table) && |table| == |st.values| && Sayable(table, item)
    requires item.Assign? && table[item.option].kind.Value?
    ensures ReadsBack(table, st, item, rest)
  {
    var name := if IsLong(item.form) then "--" + table[item.option].longName else "-" + table[item.option].shortName;
    var value := item.value;
    assert name + "" == name;
    assert [name, value][1..] + rest == [value] + rest && ([value] + rest)[1..] == rest;
    match item.form
    case LongAttached =>
      assert name + "=" + value == name + ("=" + value) && [name + "=" + value][1..] + rest == rest;
      LongArgumentIs(table, st, item.option, value, true, rest);
    case LongSeparate =>
      LongArgumentIs(table, st, item.option, "", false, [value] + rest);
    case ShortAttached =>
      assert [name + value][1..] + rest == rest;
      ShortArgumentIs(table, st, item.option, value, rest);
    case ShortSeparate =>
      ShortArgumentIs(table, st, item.option, "", [value] + rest);
  }

  lemma ItemReadsBack(table: Table, st: State, item: Item, rest: seq<string>)
    requires Built(table) && |table| == |st.values| && Sayable(table, item)
    ensures ReadsBack(table, st, item, rest)
  {
    if item.Positional? {
      assert [item.text][1..] + rest == rest;
    } else {
      match table[item.option].kind
      case Switch => SwitchReadsBack(table, st, item, rest);
      case Implicit(_) => ImplicitReadsBack(table, st, item, rest);
      case Value => ValueReadsBack(table, st, item, rest);
    }
  }

  // ------------------------------------------------------------------ the round trip

  function ApplyAll(table: Table, st: State, items: seq<Item>): (r: State)
    requires |table| == |st.values| && AllSayable(table, items)
    ensures |r.values| == |table|
    decreases |items|
  {
    if items == [] then st else ApplyAll(table, Apply(table, st, items[0]), items[1..])
  }

  lemma ItemParsed(table: Table, st: State, item: Item, rest: seq<string>)
    requires Built(table) && |table| == |st.values| && Sayable(table, item)
    ensures Arguments(table, st, Render(table, item) + rest) == Arguments(table, Apply(table, st, item), rest)
  {
    var args := Render(table, item);
    ItemReadsBack(table, st, item, rest);
    assert (args + rest)[0] == args[0] && (args + rest)[1..] == args[1..] + rest;
  }

  lemma {:induction false} ItemsReadBack(table: Table, st: State, items: seq<Item>)
    requires Built(table) && |table| == |st.values| && AllSayable(table, items)
    ensures Arguments(table, st, RenderAll(table, items)) == Parsed(ApplyAll(table, st, items), None)
    decreases |items|
  {
    if items != [] {
      ItemParsed(table, st, items[0], RenderAll(table, items[1..]));
      ItemsReadBack(table, Apply(table, st, items[0]), items[1..]);
    }
  }

  lemma {:induction false} ApplyAllValues(table: Table, st: State, items: seq<Item>, k: nat)
    requires |table| == |st.values| && AllSayable(table, items) && k < |table|
    ensures ApplyAll(table, st, items).values[k] == st.values[k] + ValuesOf(table, items, k)
    decreases |items|
  {
    if items != [] {
      ApplyAllValues(table, Apply(table, st, items[0]), items[1..], k);
    }
  }

  lemma {:induction false} ApplyAllPositionals(table: Table, st: State, items: seq<Item>)
    requires |table| == |st.values| && AllSayable(table, items)
    ensures ApplyAll(table, st, items).positionals == st.positionals + PositionalsOf(items)
    ensures ApplyAll(table, st, items).unknown == st.unknown
    decreases |items|
  {
    if items != [] {
      var one := if items[0].Positional? then [items[0].text] else [];
      ApplyAllPositionals(table, Apply(table, st, items[0]), items[1..]);
      assert st.positionals + (one + PositionalsOf(items[1..])) == (st.positionals + one) + PositionalsOf(items[1..]);
    }
  }

  /** The round trip: whatever mix of forms the items are written in, parsing them gives every option
      exactly its values, in order, the positionals in order, and nothing unknown; and it fails only when a
      required option was not among them. */
  lemma RoundTrip(table: Table, program: string, items: seq<Item>, k: nat)
    requires Built(table) && AllSayable(table, items) && k < |table|
    ensures var empty := State(seq(|table|, i => []), [], []);
      var r := Parse(table, empty, [program] + RenderAll(table, items));
      && r.state.values[k] == ValuesOf(table, items, k)
      && r.state.positionals == PositionalsOf(items)
      && r.state.unknown == []
      && (r.failure.None? ==> table[k].attribute == REQUIRED ==> ValuesOf(table, items, k) != [])
      && (r.failure.Some? ==>
            && r.failure.get.MissingOption? && r.failure.get.option < |table|
            && table[r.failure.get.option].attribute == REQUIRED
            && ValuesOf(table, items, r.failure.get.option) == [])
  {
    var empty := State(seq(|table|, i => []), [], []);
    var argv := [program] + RenderAll(table, items);
    assert argv[1..] == RenderAll(table, items);
    ItemsReadBack(table, empty, items);
    ApplyAllValues(table, empty, items, k);
    ApplyAllPositionals(table, empty, items);
    var missing := FirstMissing(table, ApplyAll(table, empty, items), 0);
    if missing.Some? {
      ApplyAllValues(table, empty, items, missing.get);
    }
  }
}
