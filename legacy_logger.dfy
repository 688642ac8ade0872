/** The logger of the earlier runner, `lib/utils/logger.js`: the same
    levels, padding and filter as `Logging`, but a factory without any
    configuration, whose new loggers always start at `debug`. */
module LegacyLogging {
  import opened Objects
  import Logging

  /** The module-level cache of loggers. */
  class Registry {
    var loggers: map<string, Logging.Logger>

    /** Every name has its own logger. */
    ghost predicate Valid()
      reads this
    {
      forall a, b :: a in loggers && b in loggers && a != b ==> loggers[a] != loggers[b]
    }

    constructor()
      ensures Valid() && loggers == map[]
    {
      loggers := map[];
    }

    /** `getLogger(name)`: the cached logger, or a new one at level `debug`,
        then cached (own keys only; see `Logging.FactoryLookup`). */
    method Get(name: string) returns (l: Logging.Logger)
      requires Valid()
      modifies this
      ensures Valid()
      ensures Logging.FactoryLookup(old(loggers).Keys, name) == Logging.Cached ==>
        loggers == old(loggers) && l == loggers[name]
      ensures Logging.FactoryLookup(old(loggers).Keys, name) == Logging.Created ==>
        fresh(l) && loggers == old(loggers)[name := l] && l.name == name && l.level == Str("debug")
    {
      if name in loggers {
        l := loggers[name];
      } else {
        l := new Logging.Logger(name, Str("debug"));
        loggers := loggers[name := l];
      }
    }
  }

  /** A new legacy logger prints the `debug`, `info`, `warn` and `error`
      traces, skips `all`, and fails on the colour of `off`. */
  lemma {:induction false} NewLoggerPrintsDebugAndAbove(level: Logging.Level, name: string, args: seq<Value>)
    ensures Logging.PrintLog(level, name, Logging.LoggerThreshold(Str("debug")), args).Printed?
      <==> level in {Logging.Debug, Logging.Info, Logging.Warn, Logging.Error}
    ensures level == Logging.All ==> Logging.PrintLog(level, name, Logging.LoggerThreshold(Str("debug")), args) == Logging.Skipped
    ensures level == Logging.Off ==> Logging.PrintLog(level, name, Logging.LoggerThreshold(Str("debug")), args) == Logging.ColorMissing
  {
    Logging.FilterByLevel(Logging.Debug, level, name, args);
  }
}
