/** The configuration of one profiling run (ProfileRunSettings) and the
    grouping key the tracer understands (TraceKeyType). */
module Settings {

  const DefaultRunCount: int := 3
  const DefaultLimit: int := 10

  /** How the tracer groups allocations. `Value` is the key string handed to the
      tracer, `Name` the enumeration name printed in the settings banner. */
  datatype TraceKeyType = Filename | LineNum | Traceback {
    function Value(): string {
      match this
      case Filename => "filename"
      case LineNum => "lineno"
      case Traceback => "traceback"
    }

    function Name(): string {
      match this
      case Filename => "FILENAME"
      case LineNum => "LINE_NUM"
      case Traceback => "TRACEBACK"
    }
  }

  /** The target function is represented by its printed name; invoking it is
      `Process.InvokeTarget`. Nothing is validated: a negative `runCount` or
      `limit` is accepted as the dataclass accepts it. */
  datatype ProfileRunSettings = ProfileRunSettings(
    funcName: string,
    funcFileNames: seq<string>,
    runCount: int := DefaultRunCount,
    keyType: TraceKeyType := LineNum,
    limit: int := DefaultLimit,
    exclusiveFilter: bool := true)

  /** Settings built with only the two required fields get the documented
      defaults. */
  lemma DefaultsApplied(funcName: string, names: seq<string>)
    ensures var s := ProfileRunSettings(funcName, names);
      s.runCount == 3 && s.keyType == LineNum && s.limit == 10 && s.exclusiveFilter
  {
  }
}
