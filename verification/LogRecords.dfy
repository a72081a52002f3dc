/** project/logging/log.hpp, `emit`: the arguments of a log record, in the order in which they are given to the
    formatter, and the fields that a format string names. */
module LogRecords {
  import opened Formats
  import opened FormatTheorems
  import opened FormatMeaning

  /** A log record; what its fields are does not matter here. */
  datatype LogRecord<T> = LogRecord(time: T, level: T, name: T, message: T, func: T, file: T, line: T)

  /** The argument list of `std::vformat`. */
  function Arguments<T>(r: LogRecord<T>): seq<T> {
    [r.time, r.level, r.name, r.message, r.func, r.file, r.line]
  }

  lemma OtherDecimal(i: nat, j: nat)
    requires i != j
    ensures Decimal(i) != Decimal(j)
  {
    if Decimal(i) == Decimal(j) {
      DecimalInjective(i, j);
    }
  }

  /** The arguments under their positions, written out. */
  ghost function ByPosition<T>(args: seq<T>): (m: map<string, T>)
    ensures forall i :: 0 <= i < |args| ==> Decimal(i) in m && m[Decimal(i)] == args[i]
  {
    if args == [] then map[]
    else
      var last := |args| - 1;
      assert forall i :: 0 <= i < last ==> Decimal(i) != Decimal(last) by {
        forall i | 0 <= i < last ensures Decimal(i) != Decimal(last) {
          OtherDecimal(i, last);
        }
      }
      ByPosition(args[..last])[Decimal(last) := args[last]]
  }

  /** What a user means by a name in a format string. */
  function Fields<T>(r: LogRecord<T>): map<string, T> {
    map["time" := r.time, "level" := r.level, "name" := r.name, "message" := r.message,
        "function" := r.func, "file" := r.file, "line" := r.line]
  }

  lemma PositionsFit<T>(n: string, r: LogRecord<T>)
    requires n in POSITION_MAP
    ensures POSITION_MAP[n] < |Arguments(r)| && n in Fields(r) && Arguments(r)[POSITION_MAP[n]] == Fields(r)[n]
    ensures '{' !in n
  {
  }

  /** Every name that has a position shows its own field: what emit prints with the positional string is what the format
      string says of the record, and a newline. */
  lemma EmitShows<T>(s: string, r: LogRecord<T>, show: (T, string) -> string)
    requires PositionalFormat(s, POSITION_MAP).Ok?
    ensures Formatted(PositionalFormat(s, POSITION_MAP).text, ByPosition(Arguments(r)), show) ==
            Formatted(s + "\n", Fields(r), show)
  {
    forall n | n in POSITION_MAP
      ensures '{' !in n && POSITION_MAP[n] < |Arguments(r)|
      ensures n in Fields(r) && Arguments(r)[POSITION_MAP[n]] == Fields(r)[n]
    {
      PositionsFit(n, r);
    }
    MakeFormatMeaning(s, POSITION_MAP, Fields(r), ByPosition(Arguments(r)), show);
  }
}
