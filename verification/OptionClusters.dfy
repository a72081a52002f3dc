/** A cluster of short options means the same as its options one by one, wherever an option is expected. */
module OptionClusters {
  import opened Basics
  import opened Options

  /** Every character up to the first option with a value is a known option other than '-'. */
  predicate KnownCluster(table: Table, opt: string)
    decreases |opt|
  {
    opt != "" && opt[0] != '-' &&
    match KnownShort(table, opt[0])
    case None => false
    case Some(k) => table[k].kind.Switch? && opt[1..] != "" ==> KnownCluster(table, opt[1..])
  }

  /** The same options, each with a '-' of its own. */
  function Split(table: Table, opt: string): seq<string>
    requires KnownCluster(table, opt)
    decreases |opt|
  {
    if table[KnownShort(table, opt[0]).get].kind.Switch? && opt[1..] != "" then
      ["-" + [opt[0]]] + Split(table, opt[1..])
    else ["-" + opt]
  }

  /** The state after one switch. */
  function Switched(table: Table, st: State, c: char): State
    requires |table| == |st.values| && KnownShort(table, c).Some?
  {
    Give(table, st, KnownShort(table, c).get, "").state
  }

  /** A known cluster is read as its characters are, and is never reported as unknown. */
  lemma ClusterArgument(table: Table, st: State, opt: string, rest: seq<string>)
    requires |table| == |st.values| && KnownCluster(table, opt)
    ensures Argument(table, st, "-" + opt, rest) == Cluster(table, st, opt, false, rest).0
    ensures !Cluster(table, st, opt, false, rest).1
    decreases |opt|
  {
    var arg := "-" + opt;
    assert arg[1..] == opt && arg[0] == '-' && arg[1] == opt[0];
    NotStrange(table, st, opt, rest);
  }

  lemma {:induction false} NotStrange(table: Table, st: State, opt: string, rest: seq<string>)
    requires |table| == |st.values| && (opt == "" || KnownCluster(table, opt))
    ensures !Cluster(table, st, opt, false, rest).1
    decreases |opt|
  {
    if opt != "" && table[KnownShort(table, opt[0]).get].kind.Switch? {
      NotStrange(table, Switched(table, st, opt[0]), opt[1..], rest);
    }
  }

  /** Taking one switch off the front of a cluster changes nothing. */
  lemma FirstSwitch(table: Table, st: State, opt: string, rest: seq<string>)
    requires |table| == |st.values| && KnownCluster(table, opt) && opt[1..] != ""
    requires table[KnownShort(table, opt[0]).get].kind.Switch?
    ensures Arguments(table, st, ["-" + opt] + rest) ==
            Arguments(table, Switched(table, st, opt[0]), ["-" + opt[1..]] + rest)
  {
    ClusterArgument(table, st, opt, rest);
    ClusterArgument(table, Switched(table, st, opt[0]), opt[1..], rest);
    assert (["-" + opt] + rest)[1..] == rest && (["-" + opt[1..]] + rest)[1..] == rest;
  }

  lemma LoneSwitch(table: Table, st: State, c: char, rest: seq<string>)
    requires |table| == |st.values| && KnownCluster(table, [c])
    requires table[KnownShort(table, c).get].kind.Switch?
    ensures Arguments(table, st, ["-" + [c]] + rest) == Arguments(table, Switched(table, st, c), rest)
  {
    ClusterArgument(table, st, [c], rest);
    var st1 := Switched(table, st, c);
    assert [c][1..] == "" && (["-" + [c]] + rest)[1..] == rest;
    assert Cluster(table, st1, "", false, rest) == (Progress(Parsed(st1, None), rest), false);
  }

  /** A cluster of known switches, possibly ended by an option with its value attached or following, means
      the same as its options written one by one, whatever comes next. */
  lemma {:induction false} ClusterEquivalent(table: Table, st: State, opt: string, rest: seq<string>)
    requires |table| == |st.values| && KnownCluster(table, opt)
    ensures Arguments(table, st, ["-" + opt] + rest) == Arguments(table, st, Split(table, opt) + rest)
    decreases |opt|
  {
    if table[KnownShort(table, opt[0]).get].kind.Switch? && opt[1..] != "" {
      var c, st1 := opt[0], Switched(table, st, opt[0]);
      var more := Split(table, opt[1..]) + rest;
      calc {
        Arguments(table, st, ["-" + opt] + rest);
        { FirstSwitch(table, st, opt, rest); }
        Arguments(table, st1, ["-" + opt[1..]] + rest);
        { ClusterEquivalent(table, st1, opt[1..], rest); }
        Arguments(table, st1, more);
        { LoneSwitch(table, st, c, more); }
        Arguments(table, st, ["-" + [c]] + more);
        { assert Split(table, opt) + rest == ["-" + [c]] + more; }
        Arguments(table, st, Split(table, opt) + rest);
      }
    }
  }

  // ------------------------------------------------------------------ the place of an option in any argv

  /** The characters end in an option that has its value in the next argument. */
  predicate ClusterTakes(table: Table, opt: string)
    decreases |opt|
  {
    opt != "" &&
    match KnownShort(table, opt[0])
    case None => ClusterTakes(table, opt[1..])
    case Some(k) =>
      (table[k].kind.Switch? && ClusterTakes(table, opt[1..])) || (table[k].kind.Value? && opt[1..] == "")
  }

  /** The argument takes the next one, if there is one, as its value. */
  predicate Takes(table: Table, arg: string) {
    if "--" <= arg then
      var body := arg[2..];
      var eq := IndexOf(body, '=');
      var k := KnownLong(table, body[..eq]);
      k.Some? && table[k.get].kind.Value? && eq + 1 >= |body|
    else "-" <= arg && ClusterTakes(table, arg[1..])
  }

  /** After these arguments an option is expected: the last one does not wait for a value, and no bare "--"
      was among them. */
  predicate OptionPosition(table: Table, pre: seq<string>)
    decreases |pre|
  {
    pre == [] ||
    (pre[0] != "--" &&
     if Takes(table, pre[0]) then |pre| >= 2 && OptionPosition(table, pre[2..]) else OptionPosition(table, pre[1..]))
  }

  lemma {:induction false} ClusterLocal(table: Table, st: State, opt: string, strange: bool, x: seq<string>, y: seq<string>)
    requires |table| == |st.values| && !ClusterTakes(table, opt)
    ensures var (p, s) := Cluster(table, st, opt, strange, x); var (q, t) := Cluster(table, st, opt, strange, y);
      s == t && p.parsed == q.parsed && p.rest == x && q.rest == y
    decreases |opt|
  {
    if opt != "" {
      var k := KnownShort(table, opt[0]);
      if k.None? {
        ClusterLocal(table, st, opt[1..], true, x, y);
      } else if table[k.get].kind.Switch? {
        ClusterLocal(table, Switched(table, st, opt[0]), opt[1..], strange, x, y);
      }
    }
  }

  lemma {:induction false} ClusterTakesOne(table: Table, st: State, opt: string, strange: bool, v: string, x: seq<string>, y: seq<string>)
    requires |table| == |st.values| && ClusterTakes(table, opt)
    ensures var (p, s) := Cluster(table, st, opt, strange, [v] + x); var (q, t) := Cluster(table, st, opt, strange, [v] + y);
      s == t && p.parsed == q.parsed && p.rest == x && q.rest == y
    decreases |opt|
  {
    assert ([v] + x)[1..] == x && ([v] + y)[1..] == y;
    var k := KnownShort(table, opt[0]);
    if k.None? {
      ClusterTakesOne(table, st, opt[1..], true, v, x, y);
    } else if table[k.get].kind.Switch? {
      ClusterTakesOne(table, Switched(table, st, opt[0]), opt[1..], strange, v, x, y);
    }
  }

  /** What one argument does depends on the next one only when it takes it. */
  lemma ArgumentLocal(table: Table, st: State, arg: string, x: seq<string>, y: seq<string>)
    requires |table| == |st.values| && arg != "--" && !Takes(table, arg)
    ensures var p := Argument(table, st, arg, x); var q := Argument(table, st, arg, y);
      p.parsed == q.parsed && p.rest == x && q.rest == y
  {
    if "-" <= arg && !("--" <= arg) {
      ClusterLocal(table, st, arg[1..], false, x, y);
    }
  }

  lemma ArgumentTakesOne(table: Table, st: State, arg: string, v: string, x: seq<string>, y: seq<string>)
    requires |table| == |st.values| && arg != "--" && Takes(table, arg)
    ensures var p := Argument(table, st, arg, [v] + x); var q := Argument(table, st, arg, [v] + y);
      p.parsed == q.parsed && p.rest == x && q.rest == y
  {
    assert ([v] + x)[1..] == x && ([v] + y)[1..] == y;
    if !("--" <= arg) {
      ClusterTakesOne(table, st, arg[1..], false, v, x, y);
    }
  }

  /** The result of arguments behind some that have been parsed. */
  function Then(table: Table, before: Parsed, rest: seq<string>): Parsed
    requires |table| == |before.state.values|
  {
    if before.failure.Some? then before else Arguments(table, before.state, rest)
  }

  /** What comes behind an argument that takes no other is parsed in the state that it leaves ... */
  lemma BehindLocal(table: Table, st: State, arg: string, x: seq<string>)
    requires |table| == |st.values| && arg != "--" && !Takes(table, arg)
    ensures Arguments(table, st, [arg] + x) == Then(table, Argument(table, st, arg, []).parsed, x)
  {
    assert ([arg] + x)[1..] == x;
    ArgumentLocal(table, st, arg, x, []);
  }

  /** ... and so is what comes behind one that takes the next. */
  lemma BehindTaker(table: Table, st: State, arg: string, v: string, x: seq<string>)
    requires |table| == |st.values| && arg != "--" && Takes(table, arg)
    ensures Arguments(table, st, [arg, v] + x) == Then(table, Argument(table, st, arg, [v]).parsed, x)
  {
    assert ([arg, v] + x)[1..] == [v] + x && [v] + [] == [v];
    ArgumentTakesOne(table, st, arg, v, x, []);
  }

  /** How many arguments the first option takes up, and what it leaves. */
  function Taken(table: Table, pre: seq<string>): (n: nat)
    requires pre != [] && OptionPosition(table, pre)
    ensures 1 <= n <= |pre| && OptionPosition(table, pre[n..])
  {
    if Takes(table, pre[0]) then 2 else 1
  }

  function First(table: Table, st: State, pre: seq<string>): (r: Parsed)
    requires |table| == |st.values| && pre != [] && OptionPosition(table, pre)
    ensures |r.state.values| == |table|
  {
    Argument(table, st, pre[0], pre[1..Taken(table, pre)]).parsed
  }

  lemma Behind(table: Table, st: State, pre: seq<string>, x: seq<string>)
    requires |table| == |st.values| && pre != [] && OptionPosition(table, pre)
    ensures Arguments(table, st, pre + x) == Then(table, First(table, st, pre), pre[Taken(table, pre)..] + x)
  {
    if Takes(table, pre[0]) {
      assert pre + x == [pre[0], pre[1]] + (pre[2..] + x) && pre[1..2] == [pre[1]];
      BehindTaker(table, st, pre[0], pre[1], pre[2..] + x);
    } else {
      assert pre + x == [pre[0]] + (pre[1..] + x) && pre[1..1] == [];
      BehindLocal(table, st, pre[0], pre[1..] + x);
    }
  }

  /** The forms of a cluster are interchangeable wherever an option is expected. */
  lemma {:induction false} ClusterInContext(table: Table, st: State, pre: seq<string>, opt: string, rest: seq<string>)
    requires |table| == |st.values| && OptionPosition(table, pre) && KnownCluster(table, opt)
    ensures Arguments(table, st, pre + (["-" + opt] + rest)) == Arguments(table, st, pre + (Split(table, opt) + rest))
    decreases |pre|
  {
    var x, y := ["-" + opt] + rest, Split(table, opt) + rest;
    if pre == [] {
      assert pre + x == x && pre + y == y;
      ClusterEquivalent(table, st, opt, rest);
    } else {
      Behind(table, st, pre, x);
      Behind(table, st, pre, y);
      ClusterInContext(table, First(table, st, pre).state, pre[Taken(table, pre)..], opt, rest);
    }
  }

  /** So too on a whole command line, with the check of the required options. */
  lemma ClusterInCommandLine(table: Table, st: State, program: string, pre: seq<string>, opt: string, rest: seq<string>)
    requires |table| == |st.values| && OptionPosition(table, pre) && KnownCluster(table, opt)
    ensures Parse(table, st, [program] + (pre + (["-" + opt] + rest))) ==
            Parse(table, st, [program] + (pre + (Split(table, opt) + rest)))
  {
    ClusterInContext(table, st, pre, opt, rest);
    var x, y := pre + (["-" + opt] + rest), pre + (Split(table, opt) + rest);
    assert From([program] + x, 1) == x && From([program] + y, 1) == y;
  }
}
