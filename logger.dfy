/** The logger: a level table, the configured threshold, and the line format. */
module Logger {
  import opened Wrappers
  import opened Strings

  /** `levels`: error < warn < info < debug. */
  const Levels: map<string, nat> := map["error" := 0, "warn" := 1, "info" := 2, "debug" := 3]

  const DefaultLevel := "info"

  /** `currentLevel`: LOG_LEVEL lower-cased, "info" when it is unset or empty. */
  function CurrentLevel(logLevel: Option<string>): (level: string)
    ensures logLevel.None? || logLevel.value == [] ==> level == DefaultLevel
    ensures logLevel.Some? && logLevel.value != [] ==> level == ToLower(logLevel.value)
  {
    ToLower(if logLevel.Some? && logLevel.value != [] then logLevel.value else DefaultLevel)
  }

  /**
   * `shouldLog(level)`: `levels[level] <= levels[currentLevel]`; a name that
   * is not in the table reads as undefined, and any comparison with undefined
   * is false.
   */
  predicate ShouldLog(level: string, current: string) {
    level in Levels && current in Levels && Levels[level] <= Levels[current]
  }

  /** `formatMessage(level, message)` with the timestamp passed in: `ts [LEVEL] message`. */
  function FormatMessage(timestamp: string, level: string, message: string): (line: string)
    ensures |line| == |timestamp| + |level| + |message| + 4
    ensures line[..|timestamp|] == timestamp
    ensures line[|timestamp|..|timestamp| + 2] == " ["
    ensures line[|timestamp| + 2..|timestamp| + 2 + |level|] == ToUpper(level)
    ensures line[|timestamp| + 2 + |level|..|timestamp| + 4 + |level|] == "] "
    ensures line[|line| - |message|..] == message
  {
    timestamp + " [" + ToUpper(level) + "] " + message
  }

  /** The four logger methods. */
  datatype LogMethod = Error | Warn | Info | Debug

  function MethodLevel(m: LogMethod): string {
    match m
    case Error => "error"
    case Warn => "warn"
    case Info => "info"
    case Debug => "debug"
  }

  /** The line a logger method writes, if any: it writes exactly when its own level should be logged. */
  function Emit(m: LogMethod, current: string, timestamp: string, message: string): (out: Option<string>)
    ensures out.Some? <==> ShouldLog(MethodLevel(m), current)
    ensures out.Some? ==> out.value == FormatMessage(timestamp, MethodLevel(m), message)
  {
    if ShouldLog(MethodLevel(m), current) then Some(FormatMessage(timestamp, MethodLevel(m), message)) else None
  }

  lemma LevelsStrictlyOrdered()
    ensures Levels.Keys == {"error", "warn", "info", "debug"}
    ensures Levels["error"] == 0 && Levels["warn"] == 1 && Levels["info"] == 2 && Levels["debug"] == 3
  {
  }

  /** With LOG_LEVEL unset or empty the threshold is "info"; otherwise it is lower-cased. */
  lemma CurrentLevelExamples()
    ensures CurrentLevel(None) == DefaultLevel
    ensures CurrentLevel(Some("")) == DefaultLevel
    ensures CurrentLevel(Some("DEBUG")) == "debug"
  {
    assert ToLower("DEBUG") == "debug";
  }

  /** `shouldLog` is monotone in the level: a lower level is logged whenever a higher one is. */
  lemma ShouldLogMonotone(level: string, lower: string, current: string)
    requires ShouldLog(level, current)
    requires lower in Levels && Levels[lower] <= Levels[level]
    ensures ShouldLog(lower, current)
  {
  }

  /** Under every recognised threshold errors are logged; under an unrecognised one nothing is. */
  lemma ThresholdExtremes(level: string, current: string)
    ensures current in Levels ==> ShouldLog("error", current)
    ensures current !in Levels ==> !ShouldLog(level, current)
  {
  }
}
