/** The logging utility of `src/utils/logger.js`: six levels with
    thresholds, name padding, the filter a logger applies to each trace, a
    factory that caches loggers by name, and the reload of the INI
    configuration that updates existing loggers. */
module Logging {
  import Outcomes
  import opened Text
  import opened Objects

  /** The acceptable levels, in increasing order of severity. */
  datatype Level = All | Debug | Info | Warn | Error | Off

  function Name(l: Level): (r: string)
  {
    match l
    case All => "all"
    case Debug => "debug"
    case Info => "info"
    case Warn => "warn"
    case Error => "error"
    case Off => "off"
  }

  function Threshold(l: Level): (t: nat)
  {
    match l
    case All => 0
    case Debug => 1
    case Info => 2
    case Warn => 3
    case Error => 4
    case Off => 5
  }

  /** The colour a level is printed in; `all` and `off` have none. */
  function Color(l: Level): (c: Outcomes.Option<string>)
  {
    match l
    case All => Outcomes.None
    case Debug => Outcomes.Some("blue")
    case Info => Outcomes.Some("green")
    case Warn => Outcomes.Some("yellow")
    case Error => Outcomes.Some("red")
    case Off => Outcomes.None
  }

  /** The level table: thresholds and names tell levels apart, and only
      the levels strictly between `all` and `off` have a colour. */
  lemma {:induction false} LevelTable(a: Level, b: Level)
    ensures Threshold(a) == Threshold(b) <==> a == b
    ensures Name(a) == Name(b) <==> a == b
    ensures Color(a).Some? <==> Threshold(All) < Threshold(a) < Threshold(Off)
  {
    match a
    case All =>
    case Debug =>
    case Info =>
    case Warn =>
    case Error =>
    case Off =>
  }

  /** `levels[v]`: the level whose name is `v`, if any. */
  function LevelNamed(v: Value): (r: Outcomes.Option<Level>)
    ensures r.Some? ==> v == Str(Name(r.value))
    ensures r.None? ==> forall l: Level :: v != Str(Name(l))
  {
    if v == Str("all") then Outcomes.Some(All)
    else if v == Str("debug") then Outcomes.Some(Debug)
    else if v == Str("info") then Outcomes.Some(Info)
    else if v == Str("warn") then Outcomes.Some(Warn)
    else if v == Str("error") then Outcomes.Some(Error)
    else if v == Str("off") then Outcomes.Some(Off)
    else Outcomes.None
  }

  /** Level names identify their level. */
  lemma {:induction false} LevelNamedRoundTrip(l: Level)
    ensures LevelNamed(Str(Name(l))) == Outcomes.Some(l)
  {
    match l
    case All =>
    case Debug =>
    case Info =>
    case Warn =>
    case Error =>
    case Off =>
  }

  /** `(levels[this.level] || levels.all).threshold`: the threshold a
      logger applies; an unknown level behaves as `all`. */
  function LoggerThreshold(level: Value): (t: nat)
    ensures t <= 5
    ensures t == 0 <==> LevelNamed(level) == Outcomes.None || LevelNamed(level) == Outcomes.Some(All)
  {
    match LevelNamed(level)
    case Some(l) => Threshold(l)
    case None => Threshold(All)
  }

  /** `padd(str, max)`: truncate with a horizontal ellipsis, or pad on the
      left with spaces, to exactly `max` characters. */
  function Padd(s: string, max: nat): (r: string)
    ensures |s| == max ==> r == s
    ensures |s| < max ==> |r| == max && r[max - |s|..] == s && forall i :: 0 <= i < max - |s| ==> r[i] == ' '
    ensures |s| > max && max >= 1 ==> |r| == max && r[..max - 1] == s[..max - 1] && r[max - 1] == '…'
    ensures |s| > max && max == 0 ==> r == "…"
  {
    if |s| > max then (if max >= 1 then s[..max - 1] else "") + "…"
    else if |s| < max then Spaces(max - |s|) + s
    else s
  }

  function Spaces(n: nat): (r: string)
    ensures |r| == n && forall i :: 0 <= i < n ==> r[i] == ' '
  {
    if n == 0 then "" else Spaces(n - 1) + " "
  }

  /** Once `max` is at least one, the padded text always has `max` characters. */
  lemma PaddLength(s: string, max: nat)
    requires max >= 1
    ensures |Padd(s, max)| == max
  {
  }

  /** The second item of every printed line: the logger name padded to 10
      characters and the level name padded to 5, in brackets. */
  function Header(loggerName: string, level: Level): (r: string)
    ensures |r| == |Padd(loggerName, 10)| + 10
    ensures r[..|Padd(loggerName, 10)|] == Padd(loggerName, 10)
    ensures r[|Padd(loggerName, 10)|..] == " [" + Padd(Name(level), 5) + "] -"
  {
    Padd(loggerName, 10) + " [" + Padd(Name(level), 5) + "] -"
  }

  lemma PaddInfo()
    ensures Padd("info", 5) == " info"
  {
    assert Spaces(1) == " ";
  }

  /** A short logger name is right-aligned and the level is padded. */
  lemma {:induction false} HeaderShortName()
    ensures Header("test", Info) == "      test [ info] -"
  {
    PaddTest();
    PaddInfo();
    assert "      test" + " [" + " info" + "] -" == "      test [ info] -";
  }

  lemma PaddTest()
    ensures Padd("test", 10) == "      test"
  {
    var r := Padd("test", 10);
    assert forall i :: 0 <= i < 10 ==> r[i] == "      test"[i];
  }

  /** A long logger name is cut to nine characters and an ellipsis. */
  lemma {:induction false} HeaderLongName()
    ensures Header("too-big-to-fit", Debug)[..12] == "too-big-t… ["
  {
    var p := Padd("too-big-to-fit", 10);
    assert p == "too-big-t" + "…";
    assert Header("too-big-to-fit", Debug)[..12] == p + " [";
  }

  /** What one call of a level method does. */
  datatype LogEffect =
    /** Below the threshold: nothing is printed. */
    | Skipped
    /** `console.log` receives the header (after the timestamp) and the arguments. */
    | Printed(header: string, args: seq<Value>)
    /** `chalk[undefined]` is called for a level without a colour: a TypeError. */
    | ColorMissing

  /** `printLog(levelName, loggername, threshold, args)`. */
  function PrintLog(level: Level, loggerName: string, threshold: nat, args: seq<Value>): (e: LogEffect)
    ensures Threshold(level) < threshold <==> e == Skipped
    ensures e.Printed? <==> Threshold(level) >= threshold && Color(level).Some?
    ensures e.Printed? ==> e.header == Header(loggerName, level) && e.args == args
  {
    if Threshold(level) < threshold then Skipped
    else if Color(level).None? then ColorMissing
    else Printed(Header(loggerName, level), args)
  }

  /** A logger configured with a known level prints exactly the coloured
      levels at least as severe. */
  lemma {:induction false} FilterByLevel(configured: Level, level: Level, name: string, args: seq<Value>)
    ensures PrintLog(level, name, LoggerThreshold(Str(Name(configured))), args).Printed?
      <==> Threshold(level) >= Threshold(configured) && level !in {All, Off}
  {
    LevelNamedRoundTrip(configured);
  }

  /** A logger whose level is not a level name prints every coloured level. */
  lemma {:induction false} UnknownLevelPrintsAll(unknown: Value, level: Level, name: string, args: seq<Value>)
    requires LevelNamed(unknown).None?
    ensures PrintLog(level, name, LoggerThreshold(unknown), args).Printed? <==> level !in {All, Off}
  {
  }

  /** A logger at level `off` prints nothing: every level method is
      skipped except `off` itself, which reaches the missing colour. */
  lemma {:induction false} OffIsSilent(level: Level, name: string, args: seq<Value>)
    ensures PrintLog(level, name, LoggerThreshold(Str("off")), args) == (if level == Off then ColorMissing else Skipped)
  {
    assert LevelNamed(Str("off")) == Outcomes.Some(Off);
  }

  /** `Logger`: a name and a level, both plain properties. */
  class Logger {
    var name: string
    var level: Value

    constructor(name: string, level: Value)
      ensures this.name == name && this.level == level
    {
      this.name := name;
      this.level := level;
    }

    /** `logger[level](...args)`: one of the methods added per level. */
    method Emit(level: Level, args: seq<Value>) returns (e: LogEffect)
      ensures e == PrintLog(level, name, LoggerThreshold(this.level), args)
    {
      var threshold := LoggerThreshold(this.level);
      e := PrintLog(level, name, threshold, args);
    }

    /** `logger.log`: the same function as `logger.debug`. */
    method Log(args: seq<Value>) returns (e: LogEffect)
      ensures e == PrintLog(Debug, name, LoggerThreshold(level), args)
    {
      e := Emit(Debug, args);
    }
  }

  // ---------------------------------------------------------------------
  // Configuration

  /** `conf[name] && conf[name].level`: whether the configuration sets a
      level for the logger called `name`. */
  predicate Configured(conf: map<string, Value>, name: string)
  {
    Truthy(Field(conf, name)) && Truthy(Prop(Field(conf, name), "level"))
  }

  /** The level a new logger starts with: the configured one, else `debug`. */
  function InitialLevel(conf: map<string, Value>, name: string): (r: Value)
    ensures Truthy(r)
    ensures Configured(conf, name) ==> r == Field(conf[name].fields, "level")
    ensures !Configured(conf, name) ==> r == Str("debug")
  {
    if Configured(conf, name) then Prop(Field(conf, name), "level") else Str("debug")
  }

  /** The level a logger holds after a reload with `conf`. */
  function ReloadedLevel(conf: map<string, Value>, name: string, current: Value): (r: Value)
    ensures Configured(conf, name) ==> r == InitialLevel(conf, name)
    ensures !Configured(conf, name) ==> r == current
  {
    if Configured(conf, name) then Prop(Field(conf, name), "level") else current
  }

  /** What reading the file gave: its content or an error message. */
  datatype ReadOutcome = Content(text: string) | ReadFailed(message: string)

  /** `processContent`: a missing file is an empty configuration, any
      other error rejects, and content is decoded as INI. */
  function ProcessContent(read: ReadOutcome, decode: string -> map<string, Value>): (r: Outcomes.Result<map<string, Value>>)
    ensures read.Content? ==> r == Outcomes.Ok(decode(read.text))
    ensures read.ReadFailed? && Contains(read.message, "ENOENT") ==> r == Outcomes.Ok(map[])
    ensures read.ReadFailed? && !Contains(read.message, "ENOENT") ==> r == Outcomes.Err(Outcomes.Failure(read.message))
  {
    match read
    case Content(text) => Outcomes.Ok(decode(text))
    case ReadFailed(message) =>
      if Contains(message, "ENOENT") then Outcomes.Ok(map[]) else Outcomes.Err(Outcomes.Failure(message))
  }

  /** The configuration the promise of `reloadConf(confPath, sync)` settles
      with, as written: on the synchronous path `readFileSync` throws inside
      the executor before `processContent` is reached, so every read error
      rejects, a missing file included. */
  function SettleAsWritten(sync: bool, read: ReadOutcome, decode: string -> map<string, Value>): (r: Outcomes.Result<map<string, Value>>)
    ensures sync && read.ReadFailed? ==> r == Outcomes.Err(Outcomes.Failure(read.message))
    ensures !(sync && read.ReadFailed?) ==> r == ProcessContent(read, decode)
  {
    if sync && read.ReadFailed? then Outcomes.Err(Outcomes.Failure(read.message)) else ProcessContent(read, decode)
  }

  /** The synchronous start-up read of a missing file rejects, although the
      same error read asynchronously is an empty configuration. */
  lemma SyncMissingFileRejects(decode: string -> map<string, Value>)
    ensures SettleAsWritten(true, ReadFailed("ENOENT: no such file or directory"), decode).Err?
    ensures SettleAsWritten(false, ReadFailed("ENOENT: no such file or directory"), decode) == Outcomes.Ok(map[])
  {
    ContainsAt("ENOENT: no such file or directory", "ENOENT", 0);
  }

  /** The intended settlement: both paths go through `processContent`, so
      `sync` no longer changes the outcome and either path settles as the
      asynchronous one does as written. */
  function Settle(sync: bool, read: ReadOutcome, decode: string -> map<string, Value>): (r: Outcomes.Result<map<string, Value>>)
    ensures r == SettleAsWritten(false, read, decode)
    ensures !(sync && read.ReadFailed?) ==> r == SettleAsWritten(sync, read, decode)
    ensures r.Err? <==> read.ReadFailed? && !Contains(read.message, "ENOENT")
    ensures read.ReadFailed? && Contains(read.message, "ENOENT") ==> r == Outcomes.Ok(map[])
  {
    ProcessContent(read, decode)
  }

  /** With the intended settlement a missing file never rejects, whichever
      path reads it, and the two paths agree on every outcome. */
  lemma {:induction false} MissingFileIsEmpty(sync: bool, message: string, decode: string -> map<string, Value>)
    requires Contains(message, "ENOENT")
    ensures Settle(sync, ReadFailed(message), decode) == Outcomes.Ok(map[])
    ensures Settle(sync, ReadFailed(message), decode) == Settle(!sync, ReadFailed(message), decode)
  {
  }

  // ---------------------------------------------------------------------
  // The factory

  /** Names every object inherits from `Object.prototype`. */
  const InheritedNames: set<string> :=
    {"constructor", "toString", "toLocaleString", "valueOf", "hasOwnProperty",
     "isPrototypeOf", "propertyIsEnumerable", "__proto__", "__defineGetter__",
     "__defineSetter__", "__lookupGetter__", "__lookupSetter__"}

  /** What the factory returns for `name`. */
  datatype Lookup =
    /** The logger cached under `name`. */
    | Cached
    /** A new logger, now cached. */
    | Created
    /** A member of `Object.prototype`, which is not a logger. */
    | Inherited

  /** The factory as written: `name in loggers` also holds for the names
      the cache object inherits, so no logger is created for them and the
      inherited member is returned instead. */
  function FactoryLookupAsWritten(cached: set<string>, name: string): (r: Lookup)
    ensures r == Cached <==> name in cached
    ensures r == Inherited <==> name !in cached && name in InheritedNames
    ensures r == Created <==> name !in cached && name !in InheritedNames
  {
    if name in cached then Cached
    else if name in InheritedNames then Inherited
    else Created
  }

  /** `getLogger("constructor")` on an empty cache returns no logger. */
  lemma ConstructorIsNoLogger()
    ensures FactoryLookupAsWritten({}, "constructor") == Inherited
  {
  }

  /** The intended lookup: only the cache's own keys count. */
  function FactoryLookup(cached: set<string>, name: string): (r: Lookup)
    ensures r != Inherited
    ensures r == Cached <==> name in cached
  {
    if name in cached then Cached else Created
  }

  /** The two lookups agree on every name that is not inherited. */
  lemma {:induction false} FactoryLookupAgrees(cached: set<string>, name: string)
    requires name !in InheritedNames
    ensures FactoryLookup(cached, name) == FactoryLookupAsWritten(cached, name)
  {
  }

  /** The module-level state: the cache of loggers and the current
      configuration. */
  class LoggerFactory {
    var loggers: map<string, Logger>
    var configuration: map<string, Value>

    /** Every name has its own logger. */
    ghost predicate Valid()
      reads this
    {
      forall a, b :: a in loggers && b in loggers && a != b ==> loggers[a] != loggers[b]
    }

    constructor()
      ensures Valid() && loggers == map[] && configuration == map[]
    {
      loggers := map[];
      configuration := map[];
    }

    /** `getLogger(name)`: the cached logger, or a new one at its
        configured level (`debug` by default), then cached. */
    method Get(name: string) returns (l: Logger)
      requires Valid()
      modifies this
      ensures Valid()
      ensures configuration == old(configuration)
      ensures FactoryLookup(old(loggers).Keys, name) == Cached ==> loggers == old(loggers) && l == loggers[name]
      ensures FactoryLookup(old(loggers).Keys, name) == Created ==>
        fresh(l) && loggers == old(loggers)[name := l] && l.name == name && l.level == InitialLevel(configuration, name)
    {
      if name in loggers {
        l := loggers[name];
      } else {
        l := new Logger(name, InitialLevel(configuration, name));
        loggers := loggers[name := l];
      }
    }

    /** The second half of `reloadConf`: store the settled configuration
        and give each cached logger the level it configures, if any. */
    method Apply(conf: map<string, Value>)
      requires Valid()
      modifies this, loggers.Values
      ensures Valid()
      ensures configuration == conf && loggers == old(loggers)
      ensures forall n :: n in loggers ==> loggers[n].level == ReloadedLevel(conf, n, old(loggers[n].level))
      ensures forall n :: n in loggers ==> loggers[n].name == old(loggers[n].name)
    {
      configuration := conf;
      var pending := loggers.Keys;
      while pending != {}
        invariant pending <= loggers.Keys
        invariant loggers == old(loggers) && configuration == conf
        invariant forall n :: n in loggers && n !in pending ==> loggers[n].level == ReloadedLevel(conf, n, old(loggers[n].level))
        invariant forall n :: n in pending ==> loggers[n].level == old(loggers[n].level)
        invariant forall n :: n in loggers ==> loggers[n].name == old(loggers[n].name)
        decreases pending
      {
        var n :| n in pending;
        if Configured(conf, n) {
          loggers[n].level := Prop(Field(conf, n), "level");
        }
        pending := pending - {n};
      }
    }

    /** `reloadConf(confPath, sync)`: read, settle, then apply; a rejected
        read leaves the configuration and every logger as they were. */
    method Reload(sync: bool, read: ReadOutcome, decode: string -> map<string, Value>) returns (r: Outcomes.Result<()>)
      requires Valid()
      modifies this, loggers.Values
      ensures Valid() && loggers == old(loggers)
      ensures Settle(sync, read, decode).Err? ==>
        r == Outcomes.Err(Settle(sync, read, decode).error) && configuration == old(configuration) &&
        forall n :: n in loggers ==> loggers[n].level == old(loggers[n].level)
      ensures Settle(sync, read, decode).Ok? ==>
        r == Outcomes.Ok(()) && configuration == Settle(sync, read, decode).value &&
        forall n :: n in loggers ==> loggers[n].level == ReloadedLevel(configuration, n, old(loggers[n].level))
    {
      var settled := Settle(sync, read, decode);
      if settled.Err? {
        r := Outcomes.Err(settled.error);
      } else {
        Apply(settled.value);
        r := Outcomes.Ok(());
      }
    }
  }

  /** Reloading a configuration that sets no level for a cached logger
      leaves its level alone; one that sets it gives the logger that level. */
  lemma {:induction false} ReloadTargetsConfiguredNames(conf: map<string, Value>, name: string, current: Value)
    ensures !(name in conf && conf[name].Obj? && Truthy(Field(conf[name].fields, "level"))) ==> ReloadedLevel(conf, name, current) == current
    ensures name in conf && conf[name].Obj? && Truthy(Field(conf[name].fields, "level")) ==>
      ReloadedLevel(conf, name, current) == conf[name].fields["level"]
  {
  }
}
