/** Log levels and the level gate every leaf sink consults. */
module Levels {
  import opened Wrappers

  /** The standard levels of Go's log/slog: higher is more severe. */
  const Debug: int := -4
  const Info: int := 0
  const Warn: int := 4
  const Error: int := 8

  /** A level variable shared by reference between a sink, its clones and any controller that
      changes the verbosity while the program runs. */
  class LevelVar {
    var level: int

    constructor (l: int)
      ensures level == l
    {
      level := l;
    }

    method Set(l: int)
      modifies this
      ensures level == l
    {
      level := l;
    }
  }

  /** The package-wide default levels. They are variables in the package, so a program may change them. */
  datatype LevelDefaults = LevelDefaults(console: int, file: int, sentinelOne: int)

  /** The defaults as the package ships them. */
  const ShippedDefaults: LevelDefaults := LevelDefaults(Info, Info, Info)

  /** The enablement test of the console, file and forwarder sinks, as the code is written: with a maximum
      level configured it compares the level with the minimum twice and never reads the maximum. */
  function EnabledAsWritten(level: int, min: LevelVar, max: Option<LevelVar>): bool
    reads min
  {
    if max.None? then level >= min.level else level >= min.level && level <= min.level
  }

  /** The documented contract: at least the minimum and, when a maximum is set, at most the maximum. */
  function EnabledIntended(level: int, min: int, max: Option<int>): bool
  {
    min <= level && (max.None? || level <= max.value)
  }

  /** What the written gate decides: without a maximum, every level from the minimum up; with one, only the
      minimum itself. */
  lemma EnabledAsWrittenCases(level: int, min: LevelVar, max: Option<LevelVar>)
    ensures max.None? ==> (EnabledAsWritten(level, min, max) <==> level >= min.level)
    ensures max.Some? ==> (EnabledAsWritten(level, min, max) <==> level == min.level)
  {
  }

  /** The written gate gives the same answer whatever the maximum level variable holds. */
  lemma MaxLevelNeverRead(level: int, min: LevelVar, a: LevelVar, b: LevelVar)
    ensures EnabledAsWritten(level, min, Some(a)) == EnabledAsWritten(level, min, Some(b))
  {
  }

  /** Without a maximum the written gate is the documented one; with a maximum it agrees only at the
      minimum level and disables every level strictly above it that the maximum admits. */
  lemma AsWrittenVersusIntended(level: int, min: LevelVar, max: Option<LevelVar>)
    ensures max.None? ==> EnabledAsWritten(level, min, max) == EnabledIntended(level, min.level, None)
    ensures max.Some? && min.level <= max.value.level ==>
      (EnabledAsWritten(level, min, max) ==> EnabledIntended(level, min.level, Some(max.value.level)))
    ensures max.Some? && min.level < level <= max.value.level ==>
      EnabledIntended(level, min.level, Some(max.value.level)) && !EnabledAsWritten(level, min, max)
  {
  }

  /** A concrete configuration that shows the divergence: minimum Info, maximum Error, a Warn record. */
  lemma GateDivergesAtWarn(min: LevelVar, max: LevelVar)
    requires min.level == Info && max.level == Error
    ensures EnabledIntended(Warn, min.level, Some(max.level))
    ensures !EnabledAsWritten(Warn, min, Some(max))
  {
  }

  /** Unlike the written gate, the intended one reads the maximum: a level above the minimum passes under a
      maximum at or above it and fails under one below it, where the written gate answers the same for both. */
  lemma EnabledIntendedReadsMax(level: int, min: LevelVar, low: LevelVar, high: LevelVar)
    requires min.level <= level && low.level < level <= high.level
    ensures !EnabledIntended(level, min.level, Some(low.level))
    ensures EnabledIntended(level, min.level, Some(high.level))
    ensures EnabledAsWritten(level, min, Some(low)) == EnabledAsWritten(level, min, Some(high))
  {
    MaxLevelNeverRead(level, min, low, high);
  }
}
