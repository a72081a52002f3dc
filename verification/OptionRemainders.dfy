/** What becomes of the arguments after a bare "--". */
module OptionRemainders {
  import opened Basics
  import opened Options

  function Total(values: seq<seq<string>>): nat {
    if values == [] then 0 else |values[0]| + Total(values[1..])
  }

  /** How much has been recorded. */
  function Recorded(st: State): nat {
    Total(st.values) + |st.positionals| + |st.unknown|
  }

  /** Parsing these arguments after they have been made positional records nothing more: they are all "-",
      but for a last one that may be "--". */
  predicate Harmless(args: seq<string>)
    decreases |args|
  {
    args == [] || (args[0] == "-" && Harmless(args[1..])) || args == ["--"]
  }

  lemma {:induction false} TotalUpdate(values: seq<seq<string>>, k: nat, v: string)
    requires k < |values|
    ensures Total(values[k := values[k] + [v]]) == Total(values) + 1
  {
    var updated := values[k := values[k] + [v]];
    if k > 0 {
      assert updated[1..] == values[1..][k - 1 := values[1..][k - 1] + [v]];
      TotalUpdate(values[1..], k - 1, v);
    } else {
      assert updated[1..] == values[1..];
    }
  }

  lemma GiveRecords(table: Table, st: State, k: nat, given: string)
    requires k < |table| == |st.values|
    ensures var p := Give(table, st, k, given);
      Recorded(p.state) == Recorded(st) + if p.failure.None? then 1 else 0
  {
    var v := ValueFor(table[k].kind, given);
    if v.Some? {
      TotalUpdate(st.values, k, v.get);
    }
  }

  lemma {:induction false} ClusterRecords(table: Table, st: State, opt: string, strange: bool, rest: seq<string>)
    requires |table| == |st.values|
    ensures var (p, s) := Cluster(table, st, opt, strange, rest);
      && Recorded(st) <= Recorded(p.parsed.state)
      && (strange ==> s)
      && (opt != "" && p.parsed.failure.None? && !s ==> Recorded(st) < Recorded(p.parsed.state))
    decreases |opt|
  {
    if opt != "" {
      var k := KnownShort(table, opt[0]);
      if k.None? {
        ClusterRecords(table, st, opt[1..], true, rest);
      } else if table[k.get].kind.Switch? {
        GiveRecords(table, st, k.get, "");
        ClusterRecords(table, Give(table, st, k.get, "").state, opt[1..], strange, rest);
      } else {
        GiveRecords(table, st, k.get, opt[1..]);
        if rest != [] {
          GiveRecords(table, st, k.get, rest[0]);
        }
      }
    }
  }

  lemma LongRecords(table: Table, st: State, arg: string, rest: seq<string>)
    requires |table| == |st.values| && |arg| >= 2
    ensures var p := LongArgument(table, st, arg, rest).parsed;
      Recorded(st) <= Recorded(p.state) && (p.failure.None? ==> Recorded(st) < Recorded(p.state))
  {
    var (choice, attached) := LongChoice(table, arg);
    if choice.Some? {
      GiveRecords(table, st, choice.get, Following(table[choice.get].kind, attached, rest).0);
    }
  }

  /** Every argument but a lone "-" and a last "--" leaves a trace, or throws. */
  lemma ArgumentRecords(table: Table, st: State, arg: string, rest: seq<string>)
    requires |table| == |st.values|
    ensures var p := Argument(table, st, arg, rest).parsed;
      && Recorded(st) <= Recorded(p.state)
      && (p.failure.None? && arg != "-" && !(arg == "--" && rest == []) ==> Recorded(st) < Recorded(p.state))
  {
    if "--" <= arg && arg != "--" {
      LongRecords(table, st, arg, rest);
    } else if "-" <= arg && arg != "--" {
      ClusterRecords(table, st, arg[1..], false, rest);
      assert arg != "-" ==> arg[1..] != "";
    }
  }

  lemma {:induction false} ArgumentsRecord(table: Table, st: State, args: seq<string>)
    requires |table| == |st.values|
    ensures Recorded(st) <= Recorded(Arguments(table, st, args).state)
    decreases |args|
  {
    if args != [] {
      ArgumentRecords(table, st, args[0], args[1..]);
      var p := Argument(table, st, args[0], args[1..]);
      if p.parsed.failure.None? {
        ArgumentsRecord(table, p.parsed.state, p.rest);
      }
    }
  }

  lemma {:induction false} NothingRecorded(table: Table, st: State, args: seq<string>)
    requires |table| == |st.values|
    ensures Arguments(table, st, args) == Parsed(st, None) <==> Harmless(args)
    decreases |args|
  {
    if args != [] {
      ArgumentRecords(table, st, args[0], args[1..]);
      var p := Argument(table, st, args[0], args[1..]);
      if args[0] == "-" {
        assert "-"[1..] == "";
        NothingRecorded(table, st, args[1..]);
      } else if args[0] == "--" && args[1..] == [] {
        assert st.positionals + [] == st.positionals;
        assert args == ["--"];
      } else if p.parsed.failure.None? {
        ArgumentsRecord(table, p.parsed.state, p.rest);
      }
    }
  }

  /** The documentation promises that all arguments after a bare "--" are positional. The parser makes them
      so, but goes on to parse them: the promise is kept exactly when that second reading records nothing. */
  lemma AfterDashDash(table: Table, st: State, args: seq<string>)
    requires |table| == |st.values|
    ensures Arguments(table, st, ["--"] + args) == Parsed(st.(positionals := st.positionals + args), None)
            <==> Harmless(args)
  {
    assert (["--"] + args)[1..] == args;
    NothingRecorded(table, st.(positionals := st.positionals + args), args);
  }

  lemma PositionalArgument(table: Table, st: State, arg: string, rest: seq<string>)
    requires |table| == |st.values| && (arg == "" || arg[0] != '-')
    ensures Arguments(table, st, [arg] + rest) == Arguments(table, st.(positionals := st.positionals + [arg]), rest)
  {
  }

  /** The example in the documentation of `non_option_args` comes out twice. */
  lemma DashDashTwice(table: Table, st: State)
    requires |table| == |st.values|
    ensures Arguments(table, st, ["--", "from", "here"]) ==
            Parsed(st.(positionals := st.positionals + ["from", "here", "from", "here"]), None)
  {
    var args := ["from", "here"];
    assert ["--", "from", "here"][1..] == args && args == ["from"] + ["here"] && ["here"] == ["here"] + [];
    var once := st.(positionals := st.positionals + args);
    var more := once.(positionals := once.positionals + ["from"]);
    PositionalArgument(table, once, "from", ["here"]);
    PositionalArgument(table, more, "here", []);
    assert more.positionals + ["here"] == st.positionals + ["from", "here", "from", "here"];
  }
}
