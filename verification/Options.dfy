/** external/popl.hpp: the option table and the command line parser, as functions. */
module Options {
  import opened Basics

  datatype Attribute = INACTIVE | HIDDEN | REQUIRED | OPTIONAL | ADVANCED | EXPERT

  /** `Switch`, `Value<std::string>` and `Implicit<std::string>`. */
  datatype Kind = Switch | Value | Implicit(default: string)

  /** `shortName` is empty or one character; either name may be empty. */
  datatype Definition = Definition(shortName: string, longName: string, kind: Kind, attribute: Attribute)

  type Table = seq<Definition>

  /** The values of each option, the positional arguments, and the options nobody knows. */
  datatype State = State(values: seq<seq<string>>, positionals: seq<string>, unknown: seq<string>)

  datatype Failure = MissingArgument(option: nat) | MissingOption(option: nat)

  /** A parse ends normally or with an exception; what was parsed before is kept either way. */
  datatype Parsed = Parsed(state: State, failure: Maybe<Failure>)

  // ------------------------------------------------------------------ the table

  predicate Proper(d: Definition) {
    |d.shortName| <= 1 && (d.shortName != "" || d.longName != "")
  }

  predicate Clash(a: Definition, b: Definition) {
    (a.shortName != "" && a.shortName == b.shortName) || (a.longName != "" && a.longName == b.longName)
  }

  /** What `add` guarantees: proper options, and no name twice. */
  predicate Built(table: Table) {
    && (forall i :: 0 <= i < |table| ==> Proper(table[i]))
    && (forall i, j :: 0 <= i < j < |table| ==> !Clash(table[i], table[j]))
  }

  /** `find_option` by long name: the first option with that name. */
  function FindLong(table: Table, name: string): Maybe<nat> {
    FindLongFrom(table, name, 0)
  }

  function FindLongFrom(table: Table, name: string, i: nat): (r: Maybe<nat>)
    requires i <= |table|
    ensures r.Some? ==> i <= r.get < |table| && table[r.get].longName == name
    ensures r.None? ==> forall k :: i <= k < |table| ==> table[k].longName != name
    ensures r.Some? ==> forall k :: i <= k < r.get ==> table[k].longName != name
    decreases |table| - i
  {
    if i == |table| then None else if table[i].longName == name then Some(i) else FindLongFrom(table, name, i + 1)
  }

  function FindShort(table: Table, c: char): Maybe<nat> {
    FindShortFrom(table, c, 0)
  }

  function FindShortFrom(table: Table, c: char, i: nat): (r: Maybe<nat>)
    requires i <= |table|
    ensures r.Some? ==> i <= r.get < |table| && table[r.get].shortName == [c]
    ensures r.None? ==> forall k :: i <= k < |table| ==> table[k].shortName != [c]
    ensures r.Some? ==> forall k :: i <= k < r.get ==> table[k].shortName != [c]
    decreases |table| - i
  {
    if i == |table| then None else if table[i].shortName == [c] then Some(i) else FindShortFrom(table, c, i + 1)
  }

  /** An inactive option is treated as if it were not found. */
  function Active(table: Table, found: Maybe<nat>): Maybe<nat>
    requires found.Some? ==> found.get < |table|
  {
    if found.Some? && table[found.get].attribute == INACTIVE then None else found
  }

  function KnownLong(table: Table, name: string): (r: Maybe<nat>)
    ensures r.Some? ==> r.get < |table|
  {
    Active(table, FindLong(table, name))
  }

  function KnownShort(table: Table, c: char): (r: Maybe<nat>)
    ensures r.Some? ==> r.get < |table|
  {
    Active(table, FindShort(table, c))
  }

  // ------------------------------------------------------------------ one option

  /** `parse` of one option: the value it adds, or the exception it throws. */
  function ValueFor(kind: Kind, given: string): Maybe<string> {
    match kind
    case Switch => Some("true")
    case Value => if given == "" then None else Some(given)
    case Implicit(default) => Some(if given == "" then default else given)
  }

  function Give(table: Table, st: State, k: nat, given: string): Parsed
    requires k < |table| == |st.values|
  {
    match ValueFor(table[k].kind, given)
    case None => Parsed(st, Some(MissingArgument(k)))
    case Some(v) => Parsed(st.(values := st.values[k := st.values[k] + [v]]), None)
  }

  // ------------------------------------------------------------------ the parser

  /** What is left to parse after one argument, and the result so far. */
  datatype Progress = Progress(parsed: Parsed, rest: seq<string>)

  /** The value that an option gets, given what is attached to it, and what is left of the arguments: an
      option that needs a value takes the next argument when nothing is attached. */
  function Following(kind: Kind, attached: string, rest: seq<string>): (r: (string, seq<string>))
    ensures |r.1| <= |rest|
  {
    match kind
    case Switch => ("", rest)
    case Value => if attached == "" && rest != [] then (rest[0], rest[1..]) else (attached, rest)
    case Implicit(_) => (attached, rest)
  }

  /** The option that an argument of the form "--name" or "--name=value" speaks of, and what is attached. */
  function LongChoice(table: Table, arg: string): (r: (Maybe<nat>, string))
    requires |arg| >= 2
    ensures r.0.Some? ==> r.0.get < |table|
  {
    var body := arg[2..];
    var eq := IndexOf(body, '=');
    var given := if eq < |body| then body[eq + 1..] else "";
    var k := KnownLong(table, body[..eq]);
    (if k.Some? && table[k.get].kind.Switch? && given != "" then None else k, given)
  }

  /** An argument that starts with "--". */
  function LongArgument(table: Table, st: State, arg: string, rest: seq<string>): (p: Progress)
    requires |arg| >= 2 && |table| == |st.values|
    ensures |p.parsed.state.values| == |table| && |p.rest| <= |rest|
  {
    var (choice, attached) := LongChoice(table, arg);
    match choice
    case None => Progress(Parsed(st.(unknown := st.unknown + [arg]), None), rest)
    case Some(k) =>
      var (given, more) := Following(table[k].kind, attached, rest);
      Progress(Give(table, st, k, given), more)
  }

  /** The characters of an argument that starts with "-"; `strange` says that one of them was unknown. */
  function Cluster(table: Table, st: State, opt: string, strange: bool, rest: seq<string>): (r: (Progress, bool))
    requires |table| == |st.values|
    ensures |r.0.parsed.state.values| == |table| && |r.0.rest| <= |rest|
    decreases |opt|
  {
    if opt == "" then (Progress(Parsed(st, None), rest), strange)
    else
      match KnownShort(table, opt[0])
      case None => Cluster(table, st, opt[1..], true, rest)
      case Some(k) =>
        var (given, more) := Following(table[k].kind, opt[1..], rest);
        var p := Give(table, st, k, given);
        if table[k].kind.Switch? then Cluster(table, p.state, opt[1..], strange, rest)
        else (Progress(p, more), strange)
  }

  function ShortArgument(table: Table, st: State, arg: string, rest: seq<string>): (p: Progress)
    requires |arg| >= 1 && |table| == |st.values|
    ensures |p.parsed.state.values| == |table| && |p.rest| <= |rest|
  {
    var (p, strange) := Cluster(table, st, arg[1..], false, rest);
    if p.parsed.failure.None? && strange then
      p.(parsed := Parsed(p.parsed.state.(unknown := p.parsed.state.unknown + [arg]), None))
    else p
  }

  /** One argument. After a bare "--" all that follows becomes positional, and is then parsed as well. */
  function Argument(table: Table, st: State, arg: string, rest: seq<string>): (p: Progress)
    requires |table| == |st.values|
    ensures |p.parsed.state.values| == |table| && |p.rest| <= |rest|
  {
    if arg == "--" then Progress(Parsed(st.(positionals := st.positionals + rest), None), rest)
    else if "--" <= arg then LongArgument(table, st, arg, rest)
    else if "-" <= arg then ShortArgument(table, st, arg, rest)
    else Progress(Parsed(st.(positionals := st.positionals + [arg]), None), rest)
  }

  /** All arguments, until one throws. */
  function Arguments(table: Table, st: State, args: seq<string>): (r: Parsed)
    requires |table| == |st.values|
    ensures |r.state.values| == |table|
    decreases |args|
  {
    if args == [] then Parsed(st, None)
    else
      var p := Argument(table, st, args[0], args[1..]);
      if p.parsed.failure.Some? then p.parsed else Arguments(table, p.parsed.state, p.rest)
  }

  /** The first required option without a value, if there is one. */
  function FirstMissing(table: Table, st: State, i: nat): (r: Maybe<nat>)
    requires |table| == |st.values| && i <= |table|
    ensures r.Some? ==> r.get < |table| && table[r.get].attribute == REQUIRED && st.values[r.get] == []
    ensures r.None? ==> forall k :: i <= k < |table| && table[k].attribute == REQUIRED ==> st.values[k] != []
    decreases |table| - i
  {
    if i == |table| then None
    else if table[i].attribute == REQUIRED && st.values[i] == [] then Some(i)
    else FirstMissing(table, st, i + 1)
  }

  /** What is still to be read at an index, which may lie behind the end. */
  function From(argv: seq<string>, n: nat): seq<string> {
    if n <= |argv| then argv[n..] else []
  }

  /** `parse(argc, argv)`; the first argument is the program. */
  function Parse(table: Table, st: State, argv: seq<string>): Parsed
    requires |table| == |st.values|
  {
    var r := Arguments(table, st, From(argv, 1));
    if r.failure.Some? then r
    else
      match FirstMissing(table, r.state, 0)
      case None => r
      case Some(k) => Parsed(r.state, Some(MissingOption(k)))
  }
}
