/** external/popl.hpp: options and their parser as objects that collect values. */
module OptionObjects {
  import opened Basics
  import opened Options
  import Spec = Options

  /** `Value<T>` and its descendants: the values parsed so far, and the variable that follows them. */
  class Option {
    const definition: Definition
    const default: Maybe<string>
    const initial: string
    var values: seq<string>
    var target: string

    /** What the assigned variable holds: the last value, else the default, else what it held before. */
    function Current(): string
      reads this`values
    {
      if values != [] then values[|values| - 1] else if default.Some? then default.get else initial
    }

    constructor (definition: Definition, default: Maybe<string>, initial: string)
      ensures this.definition == definition && this.default == default && this.initial == initial
      ensures values == [] && target == Current()
    {
      this.definition, this.default, this.initial := definition, default, initial;
      values := [];
      target := if default.Some? then default.get else initial;
    }

    method UpdateReference()
      modifies this`target
      ensures target == if values == [] && default.None? then old(target) else Current()
    {
      if values == [] && default.Some? {
        target := default.get;
      } else if values != [] {
        target := values[|values| - 1];
      }
    }

    method AddValue(value: string)
      modifies this
      ensures values == old(values) + [value] && target == value
    {
      values := values + [value];
      UpdateReference();
    }

    /** `parse`: adds a value, or throws when one is missing. */
    method Parse(given: string) returns (ok: bool)
      modifies this
      ensures var v := ValueFor(definition.kind, given);
        && ok == v.Some?
        && values == old(values) + (if v.Some? then [v.get] else [])
        && target == (if v.Some? then v.get else old(target))
    {
      match definition.kind {
        case Switch =>
          AddValue("true");
        case Value =>
          if given == "" {
            return false;
          }
          AddValue(given);
        case Implicit(implied) =>
          if given != "" {
            AddValue(given);
          } else {
            AddValue(implied);
          }
      }
      return true;
    }
  }

  class OptionParser {
    var options: seq<Option>
    var positionals: seq<string>
    var unknown: seq<string>

    ghost function Table(): Table
      reads this`options
    {
      var os := options;
      seq(|os|, i requires 0 <= i < |os| => os[i].definition)
    }

    ghost function Values(): seq<seq<string>>
      reads this`options, options
    {
      var os := options;
      seq(|os|, i requires 0 <= i < |os| reads os => os[i].values)
    }

    ghost function Value(): (st: State)
      reads this, options
      ensures |st.values| == |Table()|
    {
      State(Values(), positionals, unknown)
    }

    /** No option is in the table twice, the table is one that `add` has built, and every assigned variable
        holds its option's current value. */
    ghost predicate Valid()
      reads this, options
    {
      && Built(Table())
      && (forall i, j :: 0 <= i < j < |options| ==> options[i] != options[j])
      && (forall i :: 0 <= i < |options| ==> options[i].target == options[i].Current())
    }

    constructor ()
      ensures Valid() && options == [] && Value() == State([], [], [])
    {
      options, positionals, unknown := [], [], [];
    }

    /** `add`: refuses an improper option, and one that has a name in common with another. */
    method Add(d: Definition, default: Maybe<string>, initial: string) returns (ok: bool)
      requires Valid()
      modifies this`options
      ensures Valid()
      ensures ok == (Proper(d) && forall i :: 0 <= i < |old(Table())| ==> !Clash(old(Table())[i], d))
      ensures Table() == old(Table()) + if ok then [d] else []
      ensures Value() == old(Value()).(values := old(Value().values) + if ok then [[]] else [])
    {
      if |d.shortName| > 1 || (d.shortName == "" && d.longName == "") {
        return false;
      }
      var i := 0;
      while i < |options|
        invariant i <= |options|
        invariant forall k :: 0 <= k < i ==> !Clash(Table()[k], d)
      {
        var o := options[i].definition;
        if (d.shortName != "" && d.shortName == o.shortName) || (d.longName != "" && d.longName == o.longName) {
          assert Clash(Table()[i], d);
          return false;
        }
        i := i + 1;
      }
      var option := new Option(d, default, initial);
      options := options + [option];
      assert Table() == old(Table()) + [d];
      assert Values() == old(Values()) + [[]];
      return true;
    }

    /** `find_option` by long name. */
    method FindLong(name: string) returns (r: Maybe<nat>)
      ensures r == Spec.FindLong(Table(), name)
    {
      var i := 0;
      while i < |options|
        invariant i <= |options|
        invariant FindLongFrom(Table(), name, i) == Spec.FindLong(Table(), name)
      {
        if options[i].definition.longName == name {
          return Some(i);
        }
        i := i + 1;
      }
      return None;
    }

    /** `find_option` by short name. */
    method FindShort(c: char) returns (r: Maybe<nat>)
      ensures r == Spec.FindShort(Table(), c)
    {
      var i := 0;
      while i < |options|
        invariant i <= |options|
        invariant FindShortFrom(Table(), c, i) == Spec.FindShort(Table(), c)
      {
        if options[i].definition.shortName == [c] {
          return Some(i);
        }
        i := i + 1;
      }
      return None;
    }

    /** The virtual call of `parse` on one option. */
    method Give(k: nat, given: string) returns (failure: Maybe<Failure>)
      requires Valid() && k < |options|
      modifies options
      ensures Valid() && unchanged(this)
      ensures Parsed(Value(), failure) == Spec.Give(Table(), old(Value()), k, given)
    {
      var ok := options[k].Parse(given);
      failure := if ok then None else Some(MissingArgument(k));
      ghost var before := old(Values());
      assert Values() == before[k := options[k].values];
      if !ok {
        assert options[k].values == before[k] && before[k := before[k]] == before;
      }
    }

    /** The option that an argument "--name" or "--name=value" speaks of, and what is attached. */
    method ChooseLong(arg: string) returns (choice: Maybe<nat>, attached: string)
      requires "--" <= arg
      ensures (choice, attached) == LongChoice(Table(), arg)
      ensures Value() == old(Value()) && (Valid() <==> old(Valid()))
    {
      var opt := arg[2..];
      attached := "";
      var eq := IndexOf(opt, '=');
      if eq < |opt| {
        attached := opt[eq + 1..];
        opt := opt[..eq];
      }
      choice := FindLong(opt);
      if choice.Some? && options[choice.get].definition.attribute == INACTIVE {
        choice := None;
      }
      if choice.Some? && options[choice.get].definition.kind.Switch? && attached != "" {
        choice := None;
      }
    }

    /** Gives an option its value; one that needs a value and has none attached takes the next argument. */
    method GiveFollowing(k: nat, attached: string, argv: seq<string>, start: nat)
        returns (n: nat, failure: Maybe<Failure>)
      requires Valid() && k < |options| && start < |argv|
      modifies options
      ensures Valid() && unchanged(this) && start <= n < |argv|
      ensures var (given, more) := Following(Table()[k].kind, attached, argv[start + 1..]);
        && Parsed(Value(), failure) == Spec.Give(Table(), old(Value()), k, given)
        && argv[n + 1..] == more
    {
      n := start;
      var given := if options[k].definition.kind.Switch? then "" else attached;
      if options[k].definition.kind.Value? && given == "" && n < |argv| - 1 {
        n := n + 1;
        given := argv[n];
      }
      failure := Give(k, given);
    }

    /** An argument that starts with "--"; `n` is its index, and then that of the last argument read. */
    method LongArgument(argv: seq<string>, start: nat) returns (n: nat, failure: Maybe<Failure>)
      requires Valid() && start < |argv| && "--" <= argv[start]
      modifies this`unknown, options
      ensures Valid() && options == old(options) && start <= n < |argv|
      ensures Progress(Parsed(Value(), failure), argv[n + 1..]) ==
              Spec.LongArgument(Table(), old(Value()), argv[start], argv[start + 1..])
    {
      n, failure := start, None;
      var choice, attached := ChooseLong(argv[start]);
      if choice.Some? {
        n, failure := GiveFollowing(choice.get, attached, argv, start);
      } else {
        unknown := unknown + [argv[start]];
      }
    }

    /** One character of a cluster: its option, unless it is unknown or inactive. */
    method ChooseShort(c: char) returns (choice: Maybe<nat>)
      ensures choice == KnownShort(Table(), c)
      ensures Value() == old(Value()) && (Valid() <==> old(Valid()))
    {
      choice := FindShort(c);
      if choice.Some? && options[choice.get].definition.attribute == INACTIVE {
        choice := None;
      }
    }

    /** The first character of `opt`; `done` when the option has taken the rest of the cluster. */
    method ReadCharacter(opt: string, before: bool, argv: seq<string>, start: nat)
        returns (n: nat, failure: Maybe<Failure>, strange: bool, done: bool)
      requires Valid() && start < |argv| && opt != ""
      modifies options
      ensures Valid() && unchanged(this) && start <= n < |argv|
      ensures var cluster := Cluster(Table(), old(Value()), opt, before, argv[start + 1..]);
        if done then (Progress(Parsed(Value(), failure), argv[n + 1..]), strange) == cluster
        else n == start && failure.None? && Cluster(Table(), Value(), opt[1..], strange, argv[start + 1..]) == cluster
    {
      n, failure, strange, done := start, None, before, false;
      var choice := ChooseShort(opt[0]);
      if choice.None? {
        strange := true;
      } else {
        n, failure := GiveFollowing(choice.get, opt[1..], argv, start);
        done := !options[choice.get].definition.kind.Switch?;
      }
    }

    /** The characters of an argument that starts with "-", one after the other. */
    method ReadCluster(opt: string, argv: seq<string>, start: nat)
        returns (n: nat, failure: Maybe<Failure>, strange: bool)
      requires Valid() && start < |argv|
      modifies options
      ensures Valid() && unchanged(this) && start <= n < |argv|
      ensures (Progress(Parsed(Value(), failure), argv[n + 1..]), strange) ==
              Cluster(Table(), old(Value()), opt, false, argv[start + 1..])
    {
      n, failure, strange := start, None, false;
      ghost var cluster := Cluster(Table(), Value(), opt, false, argv[start + 1..]);
      var m, done := 0, false;
      while m < |opt|
        invariant m <= |opt| && Valid() && unchanged(this) && n == start && failure.None?
        invariant Cluster(Table(), Value(), opt[m..], strange, argv[start + 1..]) == cluster
      {
        n, failure, strange, done := ReadCharacter(opt[m..], strange, argv, start);
        if done {
          return;
        }
        assert opt[m..][1..] == opt[m + 1..];
        m := m + 1;
      }
    }

    method ShortArgument(argv: seq<string>, start: nat) returns (n: nat, failure: Maybe<Failure>)
      requires Valid() && start < |argv| && "-" <= argv[start]
      modifies this`unknown, options
      ensures Valid() && options == old(options) && start <= n < |argv|
      ensures Progress(Parsed(Value(), failure), argv[n + 1..]) ==
              Spec.ShortArgument(Table(), old(Value()), argv[start], argv[start + 1..])
    {
      var strange;
      n, failure, strange := ReadCluster(argv[start][1..], argv, start);
      if failure.None? && strange {
        unknown := unknown + [argv[start]];
      }
    }

    /** The body of the loop of `parse`; `n` is the index of the last argument read. */
    method ReadArgument(argv: seq<string>, start: nat) returns (n: nat, failure: Maybe<Failure>)
      requires Valid() && start < |argv|
      modifies this`unknown, this`positionals, options
      ensures Valid() && options == old(options) && start <= n < |argv|
      ensures Progress(Parsed(Value(), failure), argv[n + 1..]) ==
              Spec.Argument(Table(), old(Value()), argv[start], argv[start + 1..])
    {
      n, failure := start, None;
      var arg := argv[start];
      if arg == "--" {
        positionals := positionals + argv[start + 1..];
      } else if "--" <= arg {
        n, failure := LongArgument(argv, start);
      } else if "-" <= arg {
        n, failure := ShortArgument(argv, start);
      } else {
        positionals := positionals + [arg];
      }
    }

    /** `parse(argc, argv)`: the arguments, and then the check of the required options. */
    method Parse(argv: seq<string>) returns (failure: Maybe<Failure>)
      requires Valid()
      modifies this`unknown, this`positionals, options
      ensures Valid() && options == old(options)
      ensures Parsed(Value(), failure) == Spec.Parse(Table(), old(Value()), argv)
    {
      failure := None;
      var n := 1;
      while n < |argv|
        invariant Valid() && options == old(options) && failure.None?
        invariant Arguments(Table(), Value(), From(argv, n)) == Arguments(Table(), old(Value()), From(argv, 1))
        decreases |argv| - n
      {
        assert From(argv, n)[0] == argv[n] && From(argv, n)[1..] == argv[n + 1..];
        var last;
        last, failure := ReadArgument(argv, n);
        if failure.Some? {
          return;
        }
        n := last + 1;
      }
      failure := CheckRequired();
    }

    method CheckRequired() returns (failure: Maybe<Failure>)
      ensures var missing := FirstMissing(Table(), Value(), 0);
        failure == if missing.Some? then Some(MissingOption(missing.get)) else None
      ensures Value() == old(Value()) && (Valid() <==> old(Valid()))
    {
      var i := 0;
      while i < |options|
        invariant i <= |options|
        invariant FirstMissing(Table(), Value(), i) == FirstMissing(Table(), Value(), 0)
      {
        if options[i].definition.attribute == REQUIRED && options[i].values == [] {
          return Some(MissingOption(i));
        }
        i := i + 1;
      }
      return None;
    }
  }
}
