/** When the command line parser fails, what it then leaves, and what it reports as unknown. */
module OptionFailures {
  import opened Basics
  import opened Options
  import opened OptionClusters

  // ------------------------------------------------------------------ which option a name means

  /** The first option with a name, if it is active, and none else. */
  lemma KnownExact(table: Table, name: string, c: char, k: nat)
    requires k < |table|
    ensures KnownLong(table, name) == Some(k) <==>
      && table[k].longName == name && table[k].attribute != INACTIVE
      && forall j :: 0 <= j < k ==> table[j].longName != name
    ensures KnownShort(table, c) == Some(k) <==>
      && table[k].shortName == [c] && table[k].attribute != INACTIVE
      && forall j :: 0 <= j < k ==> table[j].shortName != [c]
  {
  }

  /** A name means nothing when no option has it, or the first that has it is inactive. */
  lemma UnknownName(table: Table, name: string, c: char)
    ensures KnownLong(table, name).None? <==>
      forall k :: 0 <= k < |table| && table[k].longName == name && (forall j :: 0 <= j < k ==> table[j].longName != name) ==>
        table[k].attribute == INACTIVE
    ensures KnownShort(table, c).None? <==>
      forall k :: 0 <= k < |table| && table[k].shortName == [c] && (forall j :: 0 <= j < k ==> table[j].shortName != [c]) ==>
        table[k].attribute == INACTIVE
  {
    var found := FindLong(table, name);
    if found.Some? {
      assert forall j :: 0 <= j < found.get ==> table[j].longName != name;
    }
    var short := FindShort(table, c);
    if short.Some? {
      assert forall j :: 0 <= j < short.get ==> table[j].shortName != [c];
    }
  }

  // ------------------------------------------------------------------ a value that is missing

  /** The option of a cluster that has its value in the next argument. */
  function ClusterOption(table: Table, opt: string): (k: nat)
    requires ClusterTakes(table, opt)
    ensures k < |table| && table[k].kind.Value? && table[k].attribute != INACTIVE
    decreases |opt|
  {
    match KnownShort(table, opt[0])
    case None => ClusterOption(table, opt[1..])
    case Some(k) => if table[k].kind.Switch? then ClusterOption(table, opt[1..]) else k
  }

  /** The option that takes the argument behind this one as its value. */
  function Wanting(table: Table, arg: string): (k: nat)
    requires Takes(table, arg)
    ensures k < |table| && table[k].kind.Value? && table[k].attribute != INACTIVE
  {
    if "--" <= arg then KnownLong(table, arg[2..][..IndexOf(arg[2..], '=')]).get else ClusterOption(table, arg[1..])
  }

  /** The first argument speaks of an option that needs a value, has none attached, and no argument follows or an empty
      one does. */
  predicate Missing(table: Table, args: seq<string>) {
    args != [] && args[0] != "--" && Takes(table, args[0]) && (|args| == 1 || args[1] == "")
  }

  /** The switches of a cluster, up to an option with a value. */
  function Given(table: Table, st: State, opt: string): (t: State)
    requires |table| == |st.values|
    ensures |t.values| == |table| && t.positionals == st.positionals && t.unknown == st.unknown
    decreases |opt|
  {
    if opt == "" then st
    else
      match KnownShort(table, opt[0])
      case None => Given(table, st, opt[1..])
      case Some(k) =>
        if table[k].kind.Switch? then Given(table, st.(values := st.values[k := st.values[k] + ["true"]]), opt[1..]) else st
  }

  /** What one argument has recorded before its option finds no value: nothing, but for the switches in front of it in a
      cluster. */
  function Before(table: Table, st: State, arg: string): (t: State)
    requires |table| == |st.values|
    ensures |t.values| == |table| && t.positionals == st.positionals && t.unknown == st.unknown
  {
    if "--" <= arg || !("-" <= arg) then st else Given(table, st, arg[1..])
  }

  lemma {:induction false} ClusterFails(table: Table, st: State, opt: string, strange: bool, rest: seq<string>)
    requires |table| == |st.values|
    ensures var p := Cluster(table, st, opt, strange, rest).0.parsed;
      if ClusterTakes(table, opt) && (rest == [] || rest[0] == "") then
        p == Parsed(Given(table, st, opt), Some(MissingArgument(ClusterOption(table, opt))))
      else p.failure.None?
    decreases |opt|
  {
    if opt != "" {
      var k := KnownShort(table, opt[0]);
      if k.None? {
        ClusterFails(table, st, opt[1..], true, rest);
      } else if table[k.get].kind.Switch? {
        ClusterFails(table, st.(values := st.values[k.get := st.values[k.get] + ["true"]]), opt[1..], strange, rest);
      }
    }
  }

  lemma LongFails(table: Table, st: State, arg: string, rest: seq<string>)
    requires |table| == |st.values| && "--" <= arg && arg != "--"
    ensures var p := Argument(table, st, arg, rest).parsed;
      if Missing(table, [arg] + rest) then p == Parsed(st, Some(MissingArgument(Wanting(table, arg)))) else p.failure.None?
  {
    assert rest != [] ==> ([arg] + rest)[1] == rest[0];
  }

  /** One argument fails if and only if its option finds no value; what it leaves then is known. */
  lemma ArgumentFails(table: Table, st: State, arg: string, rest: seq<string>)
    requires |table| == |st.values|
    ensures var p := Argument(table, st, arg, rest).parsed;
      if Missing(table, [arg] + rest) then p == Parsed(Before(table, st, arg), Some(MissingArgument(Wanting(table, arg))))
      else p.failure.None?
  {
    assert rest != [] ==> ([arg] + rest)[1] == rest[0];
    if "--" <= arg && arg != "--" {
      LongFails(table, st, arg, rest);
    } else if "-" <= arg && arg != "--" {
      ClusterFails(table, st, arg[1..], false, rest);
    }
  }

  /** The first option in an argument list that finds no value. Behind a bare "--" the arguments are parsed, too. */
  function FirstFailure(table: Table, args: seq<string>): Maybe<nat>
    decreases |args|
  {
    if args == [] then None
    else if Missing(table, args) then Some(Wanting(table, args[0]))
    else if args[0] != "--" && Takes(table, args[0]) then FirstFailure(table, args[2..])
    else FirstFailure(table, args[1..])
  }

  /** How many arguments one takes up. */
  lemma ArgumentRest(table: Table, st: State, arg: string, rest: seq<string>)
    requires |table| == |st.values|
    ensures Argument(table, st, arg, rest).rest ==
            if arg != "--" && Takes(table, arg) && rest != [] then rest[1..] else rest
  {
    if arg != "--" {
      if Takes(table, arg) {
        if rest != [] {
          assert [rest[0]] + rest[1..] == rest;
          ArgumentTakesOne(table, st, arg, rest[0], rest[1..], rest[1..]);
        }
      } else {
        ArgumentLocal(table, st, arg, rest, rest);
      }
    }
  }

  /** The arguments are parsed to the end if and only if no option in them finds no value, and the first that does is
      the one reported. */
  lemma {:induction false} ArgumentsFail(table: Table, st: State, args: seq<string>)
    requires |table| == |st.values|
    ensures Arguments(table, st, args).failure ==
            match FirstFailure(table, args) case None => None case Some(k) => Some(MissingArgument(k))
    decreases |args|
  {
    if args != [] {
      assert [args[0]] + args[1..] == args;
      ArgumentFails(table, st, args[0], args[1..]);
      ArgumentRest(table, st, args[0], args[1..]);
      if !Missing(table, args) {
        var p := Argument(table, st, args[0], args[1..]);
        ArgumentsFail(table, p.parsed.state, p.rest);
      }
    }
  }

  /** At an option position: everything before is kept, and nothing behind is looked at. */
  lemma {:induction false} FailsAt(table: Table, st: State, pre: seq<string>, args: seq<string>)
    requires |table| == |st.values| && OptionPosition(table, pre) && Missing(table, args)
    ensures var p := Arguments(table, st, pre);
      p.failure.None? ==>
        Arguments(table, st, pre + args) ==
        Parsed(Before(table, p.state, args[0]), Some(MissingArgument(Wanting(table, args[0]))))
    decreases |pre|
  {
    if pre == [] {
      assert pre + args == args && [args[0]] + args[1..] == args;
      ArgumentFails(table, st, args[0], args[1..]);
    } else {
      Behind(table, st, pre, args);
      Behind(table, st, pre, []);
      assert pre + [] == pre && pre[Taken(table, pre)..] + [] == pre[Taken(table, pre)..];
      FailsAt(table, First(table, st, pre).state, pre[Taken(table, pre)..], args);
    }
  }

  /** A whole parse fails for a missing value, with the option that misses it, or else for the first required option
      that has been given none; and for nothing else. */
  lemma ParseFails(table: Table, st: State, argv: seq<string>)
    requires |table| == |st.values|
    ensures var r := Parse(table, st, argv); var missing := FirstFailure(table, From(argv, 1));
      && (missing.Some? ==> r.failure == Some(MissingArgument(missing.get)))
      && (missing.None? ==>
            && (r.failure.None? <==> forall k :: 0 <= k < |table| && table[k].attribute == REQUIRED ==> r.state.values[k] != [])
            && (r.failure.Some? ==> r.failure.get.MissingOption? && FirstRequired(table, r.state, r.failure.get.option)))
  {
    ArgumentsFail(table, st, From(argv, 1));
    FirstMissingExact(table, Arguments(table, st, From(argv, 1)).state, 0);
  }

  /** The first required option without a value. */
  ghost predicate FirstRequired(table: Table, st: State, k: nat)
    requires |table| == |st.values|
  {
    && k < |table| && table[k].attribute == REQUIRED && st.values[k] == []
    && forall j :: 0 <= j < k && table[j].attribute == REQUIRED ==> st.values[j] != []
  }

  lemma {:induction false} FirstMissingExact(table: Table, st: State, i: nat)
    requires |table| == |st.values| && i <= |table|
    requires forall j :: 0 <= j < i && table[j].attribute == REQUIRED ==> st.values[j] != []
    ensures var m := FirstMissing(table, st, i);
      && (m.Some? ==> FirstRequired(table, st, m.get))
      && (m.None? ==> forall k :: 0 <= k < |table| && table[k].attribute == REQUIRED ==> st.values[k] != [])
    decreases |table| - i
  {
    if i < |table| && !(table[i].attribute == REQUIRED && st.values[i] == []) {
      FirstMissingExact(table, st, i + 1);
    }
  }

  // ------------------------------------------------------------------ what is unknown

  predicate ClusterStrange(table: Table, opt: string)
    decreases |opt|
  {
    opt != "" &&
    match KnownShort(table, opt[0])
    case None => true
    case Some(k) => table[k].kind.Switch? && ClusterStrange(table, opt[1..])
  }

  /** A long name that means nothing, or means a switch and has a value attached; or a cluster with a character that
      means nothing, in front of any option with a value. */
  predicate Strange(table: Table, arg: string) {
    if "--" <= arg then
      arg != "--" &&
      var body := arg[2..];
      var eq := IndexOf(body, '=');
      var k := KnownLong(table, body[..eq]);
      k.None? || (table[k.get].kind.Switch? && eq + 1 < |body|)
    else "-" <= arg && ClusterStrange(table, arg[1..])
  }

  lemma {:induction false} ClusterUnknown(table: Table, st: State, opt: string, strange: bool, rest: seq<string>)
    requires |table| == |st.values|
    ensures var (p, s) := Cluster(table, st, opt, strange, rest);
      && s == (strange || ClusterStrange(table, opt))
      && p.parsed.state.unknown == st.unknown && p.parsed.state.positionals == st.positionals
    decreases |opt|
  {
    if opt != "" {
      var k := KnownShort(table, opt[0]);
      if k.None? {
        ClusterUnknown(table, st, opt[1..], true, rest);
      } else if table[k.get].kind.Switch? {
        ClusterUnknown(table, Give(table, st, k.get, "").state, opt[1..], strange, rest);
      }
    }
  }

  /** An argument is reported as unknown, as it stands, if and only if it is strange and its options find their values;
      a long one that is strange does nothing else. */
  lemma ArgumentUnknown(table: Table, st: State, arg: string, rest: seq<string>)
    requires |table| == |st.values|
    ensures var p := Argument(table, st, arg, rest).parsed;
      && p.state.unknown == st.unknown + (if Strange(table, arg) && p.failure.None? then [arg] else [])
      && ("--" <= arg && Strange(table, arg) ==>
            Argument(table, st, arg, rest) == Progress(Parsed(st.(unknown := st.unknown + [arg]), None), rest))
      && (arg != "--" && "-" <= arg ==> p.state.positionals == st.positionals)
  {
    if "-" <= arg && !("--" <= arg) {
      ClusterUnknown(table, st, arg[1..], false, rest);
    }
  }

  /** So an inactive option of a table that `add` has built is unknown under both its names. */
  lemma InactiveUnknown(table: Table, k: nat, tail: string)
    requires Built(table) && k < |table| && table[k].attribute == INACTIVE
    requires tail == "" || tail[0] == '='
    ensures table[k].longName != "" && '=' !in table[k].longName ==> Strange(table, "--" + table[k].longName + tail)
    ensures table[k].shortName != "" && table[k].shortName != "-" ==> Strange(table, "-" + table[k].shortName + tail)
  {
    if table[k].longName != "" && '=' !in table[k].longName {
      InactiveLong(table, k, tail);
    }
    if table[k].shortName != "" && table[k].shortName != "-" {
      InactiveShort(table, k, tail);
    }
  }

  lemma InactiveLong(table: Table, k: nat, tail: string)
    requires Built(table) && k < |table| && table[k].attribute == INACTIVE
    requires (tail == "" || tail[0] == '=') && table[k].longName != "" && '=' !in table[k].longName
    ensures Strange(table, "--" + table[k].longName + tail)
  {
    var name := table[k].longName;
    var arg := "--" + name + tail;
    assert arg[2..] == name + tail && (name + tail)[..|name|] == name;
    IndexOfFirst(name + tail, '=', if tail == "" then |name + tail| else |name|);
    assert tail == "" ==> (name + tail)[..|name + tail|] == name;
    forall j | 0 <= j < |table| && table[j].longName == name ensures j == k {
      assert j != k ==> Clash(table[j], table[k]) && Clash(table[k], table[j]);
    }
    UnknownName(table, name, ' ');
  }

  lemma InactiveShort(table: Table, k: nat, tail: string)
    requires Built(table) && k < |table| && table[k].attribute == INACTIVE
    requires table[k].shortName != "" && table[k].shortName != "-"
    ensures Strange(table, "-" + table[k].shortName + tail)
  {
    assert Proper(table[k]);
    var c := table[k].shortName[0];
    assert table[k].shortName == [c];
    var arg := "-" + table[k].shortName + tail;
    assert arg[1..] == [c] + tail && arg[1] == c;
    forall j | 0 <= j < |table| && table[j].shortName == [c] ensures j == k {
      assert j != k ==> Clash(table[j], table[k]) && Clash(table[k], table[j]);
    }
    UnknownName(table, "", c);
  }

  /** An argument "--=value" names an option that has no long name: the first one gets the value. */
  lemma EmptyName(table: Table, st: State, k: nat, value: string, rest: seq<string>)
    requires |table| == |st.values| && k < |table| && value != ""
    requires table[k].longName == "" && forall j :: 0 <= j < k ==> table[j].longName != ""
    requires table[k].attribute != INACTIVE && table[k].kind.Value?
    ensures Argument(table, st, "--=" + value, rest) ==
            Progress(Parsed(st.(values := st.values[k := st.values[k] + [value]]), None), rest)
  {
    KnownExact(table, "", ' ', k);
    var arg := "--=" + value;
    assert arg[2..] == "=" + value && arg[2..][..0] == "" && arg[2..][1..] == value;
    IndexOfFirst(arg[2..], '=', 0);
  }
}
