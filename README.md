# A verified model of the integration-test runner's core

This project models the deterministic core of a Node.js integration-test
runner in Dafny. In the runner, test scenarios are declared as CSV or YAML
fixtures, or as chains of promise-returning actions. Each fixture row becomes
a test unit. An action receives a shared context object, appends one
descriptor to its `_ctx.stack`, and either passes the context on or fails
with a message prefixed by that stack.

The model covers four groups:

- **Fixture transformation.** JavaScript values are the `Objects.Value`
  datatype, and `getType` is a tag function over it. The dotted-path
  assignment `setProp` is an imperative loop over an aliased `current`
  object, proved equal to a recursive definition `SetPath`. CSV cells are
  cast to booleans and unflattened. Rows are named by the CSV counters (the
  newer parser counts unnamed rows only, the older one counts every row).
  YAML entries are named by position, and the YAML common and per-test
  fixtures are deep-merged. The scenario id is read from the file name by
  the regular expression `^.+-(.+)\..+$`, proved to follow its greedy match.
  The spec parser is chosen from the file extension.
- **The action pipeline.** `Context` is a class with a field map and an
  optional stack. `run` and `run-serial` are a fold over a `Result`. The
  assertion actions either return the same context or fail with an exact
  message. `request` and `listen` keep their pure decisions: the default
  content type, the key-wise header merge, XML-before-JSON parsing, and the
  path-then-method check. The XSD expectation keeps its two closure
  variables and the process working directory as object state.
- **The logger.** This covers `padd`, the threshold filter and the level
  methods. It also covers the name-keyed factory cache and the configuration
  reload, which updates existing loggers in place.
- **Test units.** The constructor refuses absent fixtures and defaults the
  working directory to `.`. `run` generates, then executes. The Request
  scenario's fixture schema is a predicate, and its `test()` is a chain of
  steps in which the first failure wins.

Each parser, validator, template engine, HTTP transport, file read and
chai message rendering that the runner delegates to is a function-typed
parameter. The model promises nothing about those functions beyond how
their results are used.

The older logger in `lib/utils/logger.js` has `padd` and `printLog` with
the same text as the newer logger (lines 24-45 against 33-102). So
`Logging.Padd` and `Logging.PrintLog` model both files. `LegacyLogging`
models only the older factory, which always starts loggers at `debug`.

Some behaviours of the code are easy to misread, and the model keeps them
as written:

- An unnamed CSV row is named `test k`, where k counts the unnamed rows
  seen so far, not the row's position.
- A missing YAML scenario is reported with the spec file's basename.
- Per-test YAML fixtures are deep-merged over the common ones at every
  depth.
- The Request scenario declares a fixture schema, but its base class
  never asserts it. `test()` therefore runs on any fixtures, and the schema
  is a predicate whose consequences are proved separately.

## Model

| member | source | states |
|---|---|---|
| Objects.GetType | src/utils/object.js:8 | each kind of value gets its own lower-case tag; arrays are `array`, never `object`; a Document is tagged `object` |
| Objects.SetProp | src/utils/object.js:19-35 | the loop with an aliased `current` returns the root it was given, updated exactly as `SetPath` of the dot-separated steps |
| Objects.SetPathLookup | src/utils/object.js:20-33 | after the assignment, following the path from the root reaches the stored value |
| Objects.SetPathKeepsOthers | src/utils/object.js:23-33 | every path that branches off the assigned one reads as before, at every depth |
| Objects.SetPathFreshSteps | src/utils/object.js:28-31 | an intermediate step that did not hold a plain object (arrays included) now holds a fresh object whose only key is the next step |
| Objects.SetPathNoDot | src/utils/object.js:25-26 | a key without a dot is a plain top-level assignment |
| Objects.PrintContext | src/utils/object.js:58-61 | no stack, or a stack whose steps join to "", gives `"\n" + assertion`; otherwise `"\nwhen " + steps joined by "\nthen " + "\n" + assertion` |
| Objects.PrintContextNamesSteps | src/utils/object.js:59-60 | a stack with at least one non-empty step always gives the `when … then …` form |
| Objects.PrintContextOneStep | src/utils/object.js:59-60 | a one-step stack gives `"\nwhen " + step + "\n" + assertion` |
| ActionContext.Context.Push | src/actions/request.js:65-66 | `_ctx` is created if absent and exactly one descriptor is appended after the existing ones; no field changes |
| ActionContext.Context.Open | src/actions/render.js:28 | the stack is created if absent, with the steps it had |
| ActionContext.ContentOf | src/actions/request.js:68-72 | a body that is not a function is used as it is; a function body is resolved, its rejection is the result, a resolution to undefined or null fails with the `Cannot read property 'content'` TypeError, and any other resolution gives its `content` |
| ActionContext.Resolve | src/actions/request.js:68-69 | a function is called and its promise settles the result; any other value is wrapped as `{content: value}` |
| Objects.ReadProperty | src/actions/request.js:72 | reading a property (`result.content` here, `opts.reporter` in the CLI run) throws the TypeError `Cannot read property '<name>' of undefined` or `… of null` for those two values, and yields the property of any other value (undefined when absent) |
| ActionContext.PromisedContent | src/actions/request.js:68-72 | a function resolving to `{content: v}` gives the same content as passing `v` directly |
| CsvParser.Cast | src/parser/csv.js:26-35 | strings whose trimmed, lower-cased form is `true` or `false` become that boolean; every other value is returned unchanged |
| CsvParser.CastIdempotent | src/parser/csv.js:26-35 | casting twice equals casting once, and only strings are ever changed, into booleans |
| CsvParser.CastTrueWords | src/parser/csv.js:28-29 | a string casts to `true` exactly when its trimmed text is the four letters of `true` in any case |
| CsvParser.Without | src/parser/csv.js:65 | after `delete`, no column has the name key, and every other column is kept |
| CsvParser.Unflatten | src/parser/csv.js:42-46 | starts from a fresh object and applies `setProp(key, cast(value))` once per column, in column order |
| CsvParser.UnflattenedKeys | src/parser/csv.js:42-46 | the top-level keys of the result are exactly the first steps of the column names |
| CsvParser.UnflattenedColumn | src/parser/csv.js:44 | a column's cast value is found at its dotted path unless a later column writes the same path, a path above it or a path below it |
| CsvParser.LastColumnWins | src/parser/csv.js:44 | the last column is always found at its own path |
| CsvParser.UnflattenedNested | src/parser/csv.js:42-46 | column `a.b.c` holding `"true"` gives `{a: {b: {c: true}}}` |
| CsvParser.UnflattenedOverwrite | src/parser/csv.js:44 | column `a` followed by column `a.b` turns `a` into `{b: …}` when neither cell holds a string |
| CsvParser.ParseFile | src/parser/csv.js:55-69 | one scenario per row, in row order; the name is the row's truthy name cell, or `test k` where k counts the unnamed rows so far; the fixtures are the row without its name column, unflattened |
| CsvParser.MapRow | src/parser/csv.js:63-66 | the scenario built for one row is the row's scenario as `ParseFile` defines it, and the counter becomes the number of unnamed rows up to and including this one |
| CsvParser.UnnamedRowsNumbered | src/parser/csv.js:62-64 | unnamed rows get strictly increasing numbers from 1, so no two of them share a name; named rows do not advance the counter |
| CsvParser.AllUnnamed | src/parser/csv.js:62-64 | when no row has a name, the rows are `test 1` … `test N` |
| CsvParser.NameColumnDropped | src/parser/csv.js:65-66 | the name column never reaches the fixtures unless another column's dotted name starts with it |
| CsvParser.ScenarioId | src/parser/csv.js:81-85 | the id extracted from a file name is never empty |
| CsvParser.ScenarioIdGreedy | src/parser/csv.js:81 | no id exactly when the regular expression has no match; otherwise the id is the text between the greedy match's dash and dot |
| CsvParser.ScenarioIdExample | src/parser/csv.js:81-85 | `fixtures-request.csv` gives the id `request` |
| CsvParser.LoadScenarioClass | src/parser/csv.js:80-91 | no id fails with `<file> does not include scenario id`; an unknown id fails with `<id> is not a known scenario`; otherwise the known id |
| CsvParser.ReadScenarios | src/parser/csv.js:106-112 | a read error and a csv-parse error are each passed on unchanged; on success, the scenarii are exactly those `ParseFile` builds from the parsed rows |
| CsvParser.Load | src/parser/csv.js:101-117 | id errors are wrapped as `failed to load test scenarii: …`; read and parse errors are passed on unchanged; on success, one scenario per parsed row as `ParseFile` builds it |
| LegacyCsvParser.ParseFile | lib/parser/csv.js:24-34 | N rows give N specs named `test 1` … `test N`, in order, each holding its row as parsed (no cast, no unflattening) |
| LegacyCsvParser.NamesDistinct | lib/parser/csv.js:31-32 | no two specs of one file share a name |
| LegacyCsvParser.LoadSpec | lib/parser/csv.js:45-56 | the same id as the newer parser; the messages are `does not includes a test template id` and `is not a known test template id` |
| LegacyCsvParser.ReadSpecs | lib/parser/csv.js:71-77 | a read error and a csv-parse error are each passed on unchanged; on success, the specs are exactly those `ParseFile` builds from the parsed rows |
| LegacyCsvParser.ParseSpecs | lib/parser/csv.js:66-82 | id errors are wrapped as `failed to load test template: …`; read and parse errors are passed on unchanged; on success, the sequentially named specs |
| YamlParser.Omit | src/parser/yaml.js:74 | the keys are the object's keys minus the omitted ones, with their values unchanged |
| YamlParser.MergeValueShape | src/parser/yaml.js:80 | a source object gives an object holding the keys of both sides; a source array gives an array as long as the longer side; any other source value replaces the destination |
| YamlParser.MergeInto | src/parser/yaml.js:80 | the merged object has the union of both key sets |
| YamlParser.MergeCopies | src/parser/yaml.js:80 | merging a value into a fresh object yields an equal copy |
| YamlParser.MergeLeafWins | src/parser/yaml.js:80 | every leaf of the later object is found at the same path in the merge |
| YamlParser.MergeKeepsUnmentioned | src/parser/yaml.js:80 | a key the later object does not mention keeps the earlier value |
| YamlParser.Common | src/parser/yaml.js:74 | the common fixtures are every top-level key except `scenario` and `tests`, with their values |
| YamlParser.OwnFixturesShape | src/parser/yaml.js:80 | an object entry keeps every key but `name`; a string entry becomes an object from index keys to its one-character strings; an array entry becomes an object from index keys to its elements; any other entry gives `{}` |
| YamlParser.IndexedShape | src/parser/yaml.js:80 | the object made of an array-like value has exactly the index keys, each holding its own element |
| YamlParser.OwnFixturesNeverName | src/parser/yaml.js:80 | no entry, of any kind, brings a `name` key into its own fixtures |
| YamlParser.TestFixturesKeys | src/parser/yaml.js:80 | a test's fixtures have exactly the keys of the common fixtures and of its own |
| YamlParser.TestName | src/parser/yaml.js:78 | entry i is named by its truthy `name`, else `test (i+1)`, by position |
| YamlParser.Workdir | src/parser/yaml.js:63-66 | the scenario's directory when it exists, else the spec's directory |
| YamlParser.ScenarioFile | src/parser/yaml.js:68-71 | the resolved path only when the scenario's directory and the file both exist; otherwise the raw scenario text |
| YamlParser.BuildTests | src/parser/yaml.js:76-82 | one test per entry, in list order, with its name, the scenario, the merged fixtures and the workdir; a null or undefined entry throws and escapes the promise |
| YamlParser.ParseFile | src/parser/yaml.js:50-86 | an empty (undefined) or `~` (null) document fails with `Cannot read property 'scenario' of undefined` (or `of null`); any other spec without a truthy `scenario` fails with `Missing scenario in <basename>`; a truthy `scenario` that is not a string fails with `Path must be a string. Received <inspect(scenario)>`; a `tests` that is not an array gives no test; otherwise the tests `BuildTests` composes |
| YamlParser.NumberScenarioRefused | src/parser/yaml.js:63 | a spec whose `scenario` is the number 1 fails with exactly `Path must be a string. Received 1` |
| YamlParser.Parse | src/parser/yaml.js:101-113 | read and YAML errors reject unchanged; otherwise the result of `ParseFile` on the absolute path |
| YamlParser.CommonReachesEveryTest | src/parser/yaml.js:74-80 | every top-level key other than `scenario` and `tests` reaches each test whose own fixtures do not hold that key, with its value unchanged |
| YamlParser.TestLeafWins | src/parser/yaml.js:80 | a leaf a test sets, at any depth, is what that test gets |
| YamlParser.NoLeakBetweenTests | src/parser/yaml.js:77-81 | changing one entry never changes another test |
| YamlParser.TestsAreConstructible | src/parser/yaml.js:80 | every composed test is accepted by the `Test` constructor with its fixtures unchanged |
| Logging.LevelTable | src/utils/logger.js:13-20 | thresholds and names tell the six levels apart (`all` < `debug` < `info` < `warn` < `error` < `off`); only the levels strictly between `all` and `off` have a colour |
| Logging.LevelNamed | src/utils/logger.js:123 | a value names a level exactly when it is that level's name string |
| Logging.LevelNamedRoundTrip | src/utils/logger.js:13-20 | every level's name looks up that level |
| Logging.LoggerThreshold | src/utils/logger.js:123 | the logger's threshold is 0 exactly when its level is `all` or unknown |
| Logging.Padd | src/utils/logger.js:33-40 | equal length is unchanged; shorter is left-padded with spaces to max; longer is the first max−1 characters and `…` |
| Logging.PaddLength | src/utils/logger.js:33-40 | for max ≥ 1 the result has exactly max characters |
| Logging.Header | src/utils/logger.js:98 | the printed header is the padded logger name, then ` [`, the padded level name and `] -` |
| Logging.HeaderShortName | src/utils/logger.js:98 | logger `test` at `info` prints `      test [ info] -` |
| Logging.HeaderLongName | src/utils/logger.js:33-40 | a long name is cut to nine characters and `…` |
| Logging.PrintLog | src/utils/logger.js:90-102 | skipped iff the level's threshold is below the logger's; printed iff at or above it and the level has a colour, with the header before the arguments |
| Logging.FilterByLevel | src/utils/logger.js:91-93 | a logger at a known level prints a call iff its level is at least as severe and is not `all` or `off` |
| Logging.UnknownLevelPrintsAll | src/utils/logger.js:123 | a logger with an unknown level prints every coloured level |
| Logging.OffIsSilent | src/utils/logger.js:91-98 | a logger at `off` prints nothing: every level is skipped except `off`, which passes the threshold and then fails for want of a colour |
| Logging.Logger.constructor | src/utils/logger.js:110-113 | a logger holds the given name and level |
| Logging.Logger.Emit | src/utils/logger.js:117-125 | a level method applies `PrintLog` with the logger's threshold |
| Logging.Logger.Log | src/utils/logger.js:127 | `log` behaves exactly as `debug` |
| Logging.InitialLevel | src/utils/logger.js:149 | a new logger starts at its configured level, else `debug` |
| Logging.ReloadedLevel | src/utils/logger.js:74-78 | a reload sets a logger's level only when its section has a level; otherwise the logger keeps its level |
| Logging.ProcessContent | src/utils/logger.js:54-63 | a read error mentioning ENOENT is an empty configuration; any other read error rejects; content is decoded |
| Logging.SettleAsWritten | src/utils/logger.js:65-69 | on the synchronous path, every read error rejects, a missing file included |
| Logging.SyncMissingFileRejects | src/utils/logger.js:65-68 | the same missing file rejects when read synchronously and is `{}` when read asynchronously |
| Logging.Settle | src/utils/logger.js:54-69 | corrected: both paths settle as the asynchronous path does as written, so only a read error other than ENOENT rejects, and a missing file is `{}` |
| Logging.MissingFileIsEmpty | src/utils/logger.js:57-59 | a missing file never rejects, on either path |
| Logging.FactoryLookupAsWritten | src/utils/logger.js:148 | `in` also finds the names the cache object inherits, so no logger is created for them |
| Logging.ConstructorIsNoLogger | src/utils/logger.js:148 | `getLogger("constructor")` on an empty cache gives the inherited member, not a logger |
| Logging.FactoryLookup | src/utils/logger.js:147-152 | a cached name is reused; every other name creates a logger |
| Logging.FactoryLookupAgrees | src/utils/logger.js:148 | both lookups agree on every name that is not inherited |
| Logging.LoggerFactory.constructor | src/utils/logger.js:9-23 | the cache and the configuration start empty |
| Logging.LoggerFactory.Get | src/utils/logger.js:147-152 | corrected (own keys only, by `FactoryLookup`): the same instance for a cached name; otherwise a fresh logger at its initial level, now cached; the configuration is unchanged |
| Logging.LoggerFactory.Apply | src/utils/logger.js:71-79 | the configuration is stored and every cached logger gets `ReloadedLevel`; the cache and the names are unchanged |
| Logging.LoggerFactory.Reload | src/utils/logger.js:50-79 | corrected (both paths through `processContent`, by `Settle`): a rejected read leaves the configuration and every level unchanged; otherwise the settled configuration is applied |
| Logging.ReloadTargetsConfiguredNames | src/utils/logger.js:74-78 | a configuration without a level for a name leaves that logger's level alone; with one, the logger takes it |
| LegacyLogging.Registry.constructor | lib/utils/logger.js:6 | the cache starts empty |
| LegacyLogging.Registry.Get | lib/utils/logger.js:60-65 | corrected (own keys only, by `FactoryLookup`): the same instance for a cached name; otherwise a fresh logger at `debug`, now cached |
| LegacyLogging.NewLoggerPrintsDebugAndAbove | lib/utils/logger.js:33-62 | a new logger prints `debug`, `info`, `warn` and `error`, and skips `all` |
| RunSerial.Validate | src/actions/run-serial.js:14 | accepted iff absent, or an array whose every item is a function |
| RunSerial.Serial | src/actions/run-serial.js:15-17 | absent tasks fail with `Cannot read property 'reduce' of undefined`; otherwise the chain starts from undefined, whatever the returned function is given |
| RunSerial.ChainRunsInOrder | src/actions/run-serial.js:15-17 | tasks run in array order, each at most once; each receives the previous result; after a failure nothing runs and the chain fails with that error; otherwise the last result, or the input when there is no task |
| RunSerial.NoTaskYieldsUndefined | src/actions/run-serial.js:15-17 | an empty array yields undefined |
| RunSerial.TwoTasks | src/actions/run-serial.js:15-17 | the second task receives the first's result, and the chain yields the second's |
| RunAction.Run | src/actions/run.js:19-26 | a missing or non-function `fn`, or non-object data, is refused; `fn` is called with `{}` without data, else with the data; the result is `fn`'s |
| RunAction.ObjectsAreTruthy | src/actions/run.js:24 | accepted data is always truthy, so `data \|\| {}` only replaces absent data |
| RunAction.IdentityFunction | src/actions/run.js:22-25 | an identity function yields `{}` without data and the data when given |
| RunAction.RefusedArguments | src/actions/run.js:20-21 | a missing function, a non-function and boolean data are refused |
| ExpectStatusCode.Construct | src/actions/expect-status-code.js:18 | only a number is accepted |
| ExpectStatusCode.Check | src/actions/expect-status-code.js:19-23 | the same context iff the context has a `code` key whose value equals the expected value; no `code` key fails with the `have.property` message, and any other value, `undefined` included, with the `equal` message, both after the `printContext` prefix |
| ExpectStatusCode.MissingCodeMessage | src/actions/expect-status-code.js:20 | with no context, a missing code fails with exactly `\nunexpected status code: expected {} to have a property 'code'` |
| ExpectStatusCode.UndefinedCodeMessage | src/actions/expect-status-code.js:20 | a `code` key holding `undefined` is present: expecting 200 fails with exactly `\nunexpected status code: expected undefined to equal 200` |
| ExpectStatusCode.WrongCodeMessage | src/actions/expect-status-code.js:20 | with a stack, a wrong code fails with `\nwhen s1\nthen s2…\nunexpected status code: expected <got> to equal <expected>` |
| ExpectContent.Construct | src/actions/expect-content-to-include.js:23-24 | only a string or a RegExp is accepted; a string means a substring test, a RegExp a pattern match |
| ExpectContent.Check | src/actions/expect-content-to-include.js:25-30 | the same context iff the context has a `content` key and its value (`undefined` included) includes or matches the element; no `content` key and an element not found each fail with their own message after the prefix; for a text element, an object content fails with `obj.indexOf is not a function` and a content that is not an array, an object or a string fails with chai's type message, without the prefix |
| ExpectContent.TextIsSubstring | src/actions/expect-content-to-include.js:27 | a string content passes a text iff the text occurs in it at some index |
| ExpectContent.AcceptsContainedText | src/actions/expect-content-to-include.js:27 | `this contains yeah, really` includes `yeah` |
| ExpectContent.MissingContentMessage | src/actions/expect-content-to-include.js:27 | with no context, a missing content fails with exactly `\nunexpected content: expected {} to have a property 'content'` |
| ExpectContent.NotIncludedMessage | src/actions/expect-content-to-include.js:27 | with a stack, the failure message begins `\nwhen s1\nthen s2…` |
| ExpectContent.NumberIsNotIncludable | src/actions/expect-content-to-include.js:27 | a number content and a text element fail with exactly `object tested must be an array, an object, or a string, but number given` |
| ExpectContent.UndefinedContentIsChecked | src/actions/expect-content-to-include.js:27 | a `content` key holding `undefined` is present: a text element fails with exactly `object tested must be an array, an object, or a string, but undefined given`, and a pattern passes iff it matches `undefined` |
| ExpectXsd.Construct | src/actions/expect-to-match-xsd.js:33-37 | only a non-empty string, a Document or a function is accepted |
| ExpectXsd.ParseIfString | src/actions/expect-to-match-xsd.js:54-58 | a string is parsed; any other value is kept as the identical value |
| ExpectXsd.XsdAfterParse | src/actions/expect-to-match-xsd.js:53-56 | the closure's XSD becomes the parsed schema once parsing succeeded |
| ExpectXsd.Validate | src/actions/expect-to-match-xsd.js:53-74 | success only for a Document content that validates with no error, kept as that object; a non-Document fails; errors fail with `printContext("invalid XML") + ": "` and the trimmed, newline-joined messages |
| ExpectXsd.Outcome | src/actions/expect-to-match-xsd.js:41-81 | a rejected XSD function fails first; then a context without a `content` key fails with the `no content to validate` prefix (a key holding `undefined` goes on); then a failed directory change fails; then reading `result.content` of undefined or null fails with its TypeError; otherwise the outcome of `Validate` |
| ExpectXsd.XsdAfter | src/actions/expect-to-match-xsd.js:44-56 | the closure's XSD is replaced only once `result.content` was read, which every call with a `content` key (even one holding `undefined`) and a successful directory change reaches; a call that stops before that, or at it, leaves it unchanged |
| ExpectXsd.CwdAfterAsWritten | src/actions/expect-to-match-xsd.js:46-80 | a call that saves the directory (one with a `content` key, even holding `undefined`, and a truthy `path`, per `Saves`) restores it; a call that does not save it restores a directory saved by an earlier call |
| ExpectXsd.RestoredWithoutStaleCwd | src/actions/expect-to-match-xsd.js:63-65 | the directory is restored whenever the call saved it itself or nothing else was saved |
| ExpectXsd.StaleCwdRestored | src/actions/expect-to-match-xsd.js:38-49 | a call without `path` after one with `path` moves the process back to the older directory |
| ExpectXsd.XsdExpectation.constructor | src/actions/expect-to-match-xsd.js:32-38 | the closure holds the given XSD and no saved directory |
| ExpectXsd.XsdExpectation.Apply | src/actions/expect-to-match-xsd.js:41-81 | as written, with the content check on the `content` key (a key holding `undefined` passes it): on success only `content` changes, to the parsed Document; on failure no field changes; the closure state and the directory evolve as `XsdAfter` and `CwdAfterAsWritten` say |
| ExpectXsd.XsdExpectation.Restore | src/actions/expect-to-match-xsd.js:77-79 | a saved directory becomes the process's directory |
| ExpectXsd.XsdExpectation.ApplyRestoring | src/actions/expect-to-match-xsd.js:41-81 | the same outcome and context update (`Outcome`, with its `content` key check), and the working directory after the call is the one before it, on every path |
| ExpectXsd.DocumentKept | src/actions/expect-to-match-xsd.js:58-72 | a Document content that validates is kept as the identical object, and no field changes |
| ExpectXsd.NonDocumentFails | src/actions/expect-to-match-xsd.js:58-59 | a content that is not a Document, and not a string that parses to one, always fails |
| ExpectXsd.UndefinedContentNotDocument | src/actions/expect-to-match-xsd.js:44-59 | a `content` key holding `undefined` with a truthy `path`: the directory is saved, the closure's XSD becomes the one the promise yielded, and the call fails with `expected undefined to be an instance of Document` |
| ExpectXsd.UnresolvedXsdThrows | src/actions/expect-to-match-xsd.js:44-53 | an XSD function resolving to undefined, with a content and no `path`, fails with `Cannot read property 'content' of undefined` and keeps the function |
| Http.MethodOf | src/actions/request.js:63 | the method defaults to GET, and an accepted method is one of the five |
| Http.MergeHeaders | src/actions/request.js:93-95 | the sent headers are the defaults overwritten key-wise by the caller's |
| Http.CallerHeaders | src/actions/request.js:95 | absent headers are an empty set |
| Http.ParseKindFor | src/actions/request.js:110-114 | XML iff the type contains `/xml` or `+xml`; JSON iff it does not but contains `/json` or `+json`; otherwise raw |
| Http.XmlBeforeJson | src/actions/request.js:110-114 | a type naming both XML and JSON is parsed as XML |
| Http.MissingTypeIsRaw | src/actions/request.js:110-114 | a missing content type leaves the body raw |
| Http.ParseBody | src/actions/request.js:109-117 | the body goes through the parser of its kind, and a parse error fails |
| Http.Encoding | src/actions/request.js:74-80 | a Document implies XML, any other object JSON, anything else none |
| Http.Encoded | src/actions/request.js:74-80 | a Document is serialised, any other object stringified, anything else sent as it is |
| Http.Decoded | src/actions/listen.js:125-131 | the received body is parsed by its content type |
| Http.JsonIsParsed | src/actions/listen.js:128-129 | an `application/json` body is JSON-parsed |
| RequestAction.Construct | src/actions/request.js:10-16 | absent options are accepted (the returned function then fails on `method`); other options only with an http(s) `url`, a method among the five, known keys and typed values, a `followRedirect` being a boolean or a text reading `true` or `false` in any case; method defaults to GET, and redirects are followed iff `followRedirect` is truthy |
| RequestAction.DefaultType | src/actions/request.js:72-80 | a Document body implies `application/xml`, another object `application/json`, anything else `text/plain` |
| RequestAction.RequestFor | src/actions/request.js:89-97 | the request carries the method, URL, redirect flag and encoded body, and every caller header overrides the default content type |
| RequestAction.Apply | src/actions/request.js:62-123 | one `request <url>` step is pushed; transport errors fail with no field changed; a response sets `code` and `headers`, then `content` only when parsing succeeds; success returns the same context |
| RequestAction.ContentTypeChoice | src/actions/request.js:93-95 | a caller content type wins; otherwise JSON for an object, XML for a Document, plain text for a string |
| RequestAction.Defaults | src/actions/request.js:61-92 | options with only `url` send a GET that does not follow redirects |
| RequestAction.Refused | src/actions/request.js:10-16 | a URL without scheme, and an unknown key, are refused |
| RequestAction.FalseTextFollowsRedirects | src/actions/request.js:92 | `followRedirect: "false"` is accepted, and the request follows redirects |
| ListenAction.StatusOf | src/actions/listen.js:109 | the status is the given code, else 200 |
| ListenAction.Construct | src/actions/listen.js:64-66 | options need a numeric `port` and a `url` starting with `/`, and the other keys typed; absent options fail when the method is read |
| ListenAction.Defaults | src/actions/listen.js:77-88 | the reply's default type: XML for a Document, JSON for another object, `text/plain` for a truthy body, none for an empty one |
| ListenAction.ReplyFor | src/actions/listen.js:91-115 | the reply has the status, the encoded body and the defaults overwritten key-wise by the caller's headers |
| ListenAction.Server.constructor | src/actions/listen.js:144 | a new server is listening |
| ListenAction.Server.Close | src/actions/listen.js:97 | a closed server is no longer listening |
| ListenAction.Received | src/actions/listen.js:121-131 | a request is accepted only if the path matches, checked first, and then the method; its body is then parsed |
| ListenAction.Apply | src/actions/listen.js:68-147 | one `listen to <METHOD> <url>` step is pushed; any server started is closed on the success, validation-failure and bind-error paths; success sets `content` and `headers` on the same context |
| ListenAction.ReplyContentType | src/actions/listen.js:77-91 | a caller content type wins; otherwise JSON, XML, plain text for a non-empty string, and none for an empty body |
| ListenAction.ZeroCodeIs200 | src/actions/listen.js:109 | codes 0 and absent send 200; 201 sends 201 |
| ListenAction.WrongPathFirst | src/actions/listen.js:121-122 | a request on another path fails on its path, whatever its method |
| RenderAction.Construct | src/actions/render.js:22-25 | only a non-empty string or a thenable is accepted |
| RenderAction.Descriptor | src/actions/render.js:29 | `render template`, plus a space and the basename when `path` is a truthy string; a truthy `path` that is not a string fails with `Path must be a string. Received <inspect(path)>` |
| RenderAction.DataOf | src/actions/render.js:31 | the data defaults to `{}` |
| RenderAction.Template | src/actions/render.js:30-31 | a string template is used directly; otherwise the thenable's rejection is the result, a resolution to undefined or null fails with the `Cannot read property 'content'` TypeError, and any other resolution gives its `content` |
| RenderAction.Apply | src/actions/render.js:27-36 | for a content `Construct` accepted: one step is pushed, `_ctx` is created if absent, and on success only `content` changes, to the rendered text, on the same context |
| RenderAction.DescriptorOfFile | src/actions/render.js:29 | path `req1.txt` gives `render template req1.txt` |
| RenderAction.DescriptorWithoutPath | src/actions/render.js:29 | no path gives `render template`, and the path 1 fails with exactly `Path must be a string. Received 1` |
| RenderAction.DataDefault | src/actions/render.js:31 | absent data is `{}`, and object data passes as it is |
| RenderMustache.Apply | src/actions/render-mustache.js:23-32 | refused options are left untouched; accepted ones get one step and only `content` replaced, and the same object is returned with no `data` or `path` added |
| RenderMustache.Refusals | src/actions/render-mustache.js:8-11 | a missing or non-string content, or non-object data, is refused; extra keys are allowed |
| TestUnit.NewTest | src/engine/test.js:29-38 | falsy fixtures fail with `can't create <Class> scenario without fixtures`; then the schema is asserted; a test holds exactly the given name, file and fixtures, with workdir defaulting to `.` |
| TestUnit.BaseAcceptsTruthyFixtures | src/engine/test.js:18-36 | the base schema accepts every truthy fixture |
| TestUnit.Run | src/engine/test.js:44-47 | generation from (file, fixtures) runs first; its failure is the result and nothing executes; otherwise the content is executed in the test's workdir |
| RequestScenario.LoadFromFile | src/scenario/request.js:23-31 | a file that is not a string fails with `path.resolve`'s `Path must be a string. Received <inspect(file)>`, without prefix; a read error fails with `Failed to load file: ` and its message; otherwise the file's text |
| RequestScenario.NumberBodyNotLoaded | src/scenario/request.js:24 | a `body` that is the number 1 fails with exactly `Path must be a string. Received 1` |
| RequestScenario.CompileTemplate | src/scenario/request.js:40-51 | no template gives an undefined body with no error; a render error is prefixed |
| RequestScenario.CompileXsd | src/scenario/request.js:59-70 | no XSD gives none; a parse error is prefixed |
| RequestScenario.ValidateAgainstXsd | src/scenario/request.js:78-93 | no XSD passes the response through; with one, validation errors fail with `Invalid XML response:` and one message per line |
| RequestScenario.TemplateSource | src/scenario/request.js:140 | the template is the `body` file when set, else `bodyStr` |
| RequestScenario.XsdSource | src/scenario/request.js:141 | the XSD is the `xsd` file when set, else `xsdStr` |
| RequestScenario.RequestFor | src/scenario/request.js:146-153 | on any fixtures: the method is `method` when truthy, else `GET`; the URL is `host + url`, string concatenation when both are strings; `Content-Type` is `contentType` when truthy, else `text/plain`; redirects are not followed; the body is the compiled one |
| RequestScenario.SchemaShapesRequest | src/scenario/request.js:119-153 | for fixtures the schema accepts, the method is one of the five, the URL is the text `host` then `url` and starts with `http://` or `https://`, and the content type is a string |
| RequestScenario.Answer | src/scenario/request.js:154-158 | a transport error or a status different from `fixtures.code` fails; otherwise the response body |
| RequestScenario.Test | src/scenario/request.js:139-163 | on any fixtures: template, body, XSD, request, then validation; the error of the first step that fails (template file, template compilation, XSD file, XSD compilation, status check or validation) is the result; a request is sent iff the four steps before it succeed; a success means the status equalled `code` |
| RequestScenario.BareRequest | src/scenario/request.js:140-161 | without body or XSD, no body is sent, the method is `method \|\| 'GET'`, and a response with the expected code passes unvalidated |
| RequestScenario.WrongStatusEscapes | src/scenario/request.js:156 | a status different from `code` is always a failure, escaping the promise |
| RequestScenario.MissingCodeNeverPasses | src/scenario/request.js:156 | fixtures without `code` never pass, whatever the server answers |
| RequestScenario.SchemaExamples | src/scenario/request.js:119-133 | the schema allows extra keys and refuses `body` with `bodyStr`, `xsd` with `xsdStr`, and a missing `code` |
| CliRun.LoadParser | src/utils/cli-run.js:14-22 | `.csv` selects the CSV parser and `.yaml` or `.yml` the YAML parser; anything else fails with `Unsupported spec file format` |
| CliRun.Steps | src/utils/cli-run.js:33-35 | parser choice, then parsing, then running; the first failure stops the chain |
| CliRun.Pipeline | src/utils/cli-run.js:32-40 | a failure is logged once and rethrown unchanged; a success logs nothing |
| CliRun.RunsWhatWasParsed | src/utils/cli-run.js:33-35 | the runner gets exactly the parsed tests and the reporter, and a success is the runner's result |
| CliRun.UnknownExtensionRefused | src/utils/cli-run.js:16-20 | an unknown extension is never parsed, and the failure is logged |
| CliRun.MissingOptionsFailAfterParsing | src/utils/cli-run.js:35 | absent options fail after parsing with `Cannot read property 'reporter' of undefined` (`CannotRead`), before anything runs |

## Left out

- The isolated executor (`src/engine/executor.js`) is not part of this model. It concerns process forking, IPC and `process.exit`, and it rebuilds errors from global constructor names.
- The generator, file, XML, `load` and `validate-xml` helpers are not part of this model. They are thin wrappers over `fs`, Hogan/Nunjucks and libxmljs. Where the core calls them, they are function parameters.
- The mocha adapters, the commander CLI wiring, the Hapi orchestration of `request_and_listen`, and the directory-listing action and helper registries are not part of this model.
- `src/helpers/unquote.js`, `src/scenario/base.js`, `lib/spec/*`, `lib/scenario/request.js` and `lib/parser/csv-parser.js` are not part of this model. They are trivial or stale.
- `makePromisable` (src/utils/object.js:43-50) is thenable plumbing and is not modelled. `render` is modelled as the function it wraps.
- Third-party behaviour is a parameter with no contract of its own. This covers csv-parse tokenising and `auto_parse` (rows arrive parsed) and js-yaml with its `!!inc/file` includes. It also covers libxmljs parse and validate, the template engines, `JSON.parse` and `JSON.stringify`, RegExp matching for pattern elements, chai's and Node's rendering of values (`inspect`, `util.inspect`), and the HTTP transport.
- Joi's message wording is not modelled. A refusal is `Invalid` with the label that is passed to `Joi.assert`.
- Joi's conversion of numeric strings to numbers is not modelled: only `Num` values count as numbers.
- Numbers are integers. Floating point and NaN are not modelled.
- RequestAction.Construct: `Joi.boolean()` is modelled as the Joi releases that convert only `true` and `false`, in any case. Older releases also accept `yes`, `no`, `on` and `off`, which are refused here. The repository does not pin a Joi version.
- ExpectContent.Check: chai's `include` is modelled as chai 3 words it: a type check, then `indexOf`. The repository does not pin a chai version, and chai 4 words these failures differently.
- Logging.Padd: lengths count characters (Unicode scalar values), while JavaScript's `length` and `substr` count UTF-16 code units. Text outside the Basic Multilingual Plane is measured and cut differently.
- YamlParser.OwnFixtures: a string entry is split into characters, not UTF-16 code units, for the same reason.
- Logging.LoggerFactory.Get: uses the corrected `FactoryLookup`. As written, an inherited name such as `constructor` returns the `Object.prototype` member (`Logging.ConstructorIsNoLogger`).
- LegacyLogging.Registry.Get: uses the corrected `FactoryLookup`, like `Logging.LoggerFactory.Get`.
- Logging.LoggerFactory.Reload: uses the corrected `Settle`. As written, a missing file read on the synchronous path rejects (`Logging.SyncMissingFileRejects`).
- Objects.SetPath: a Document at an intermediate step is replaced by `{}`, whereas `setProp` would assign into it, since `getType` calls it `object`. Only CSV cells reach `setProp`, and they are never Documents.
- Objects.PathNotString: the TypeError for a path that is not a string is worded as Node's `path` module words it up to Node 7 (`Path must be a string. Received …`). Later Node releases throw `ERR_INVALID_ARG_TYPE` with other wording. The repository does not pin a Node version.
- Objects.CannotRead: the TypeError for reading a property of `undefined` or `null` is worded as V8 words it up to Node 15. Later releases say `Cannot read properties of undefined (reading '<name>')`.
- RequestScenario.RequestFor: `host + url` on operands that are not both strings is the parameter `plus`. JavaScript's conversions are not modelled.
- Timing is not modelled: promise scheduling, the 2 ms delay in `listen`, and the concurrency between tests. Each action is one sequential step.
- In `request` and `listen`, sockets, ports and `EADDRINUSE` are not modelled. An error the server or the client emits is the `Err` of a parameter. The server keeps only its open/closed state.
- Logger side effects are not modelled: the moment timestamp, chalk colours, console output, the `fs.watch` hot reload and INI decoding (a parameter).
- YamlParser.MergeValue: a plain object merged onto an array gives a fresh object, whereas lodash merges the keys into a copy of the array. Fixtures that mix arrays and objects at one path are outside the model.
- CsvParser.Cast: lower-casing is modelled for ASCII letters only. No other character lower-cases to a letter of `true` or `false`, so the result is the same.
- An exception thrown inside an I/O callback (YAML entries that are null, the status check of the Request scenario) is modelled as an `Escaped` error. In the runner such a promise never settles and the exception reaches the process.

## Findings

| source | as written | input that shows it | evidently intended | confidence | as-written member | corrected member |
|---|---|---|---|---|---|---|
| src/actions/expect-to-match-xsd.js:38-49 | the saved directory `cwd` is a closure variable shared by every call of one expectation, and it is restored whenever set | a call with `path` from `/a`, then a directory change to `/b`, then a call without `path`: the process ends up in `/a` | each call restores the directory it found | likely; not executed | ExpectXsd.StaleCwdRestored | ExpectXsd.XsdExpectation.ApplyRestoring |
| src/utils/logger.js:148 | `name in loggers` also finds the members the cache object inherits | `getLogger("constructor")` returns `Object`, not a logger (lib/utils/logger.js:61 likewise) | only the cache's own keys count | likely; not executed | Logging.ConstructorIsNoLogger | Logging.FactoryLookupAgrees |
| src/utils/logger.js:65-66 | on the synchronous path, `readFileSync` throws before `processContent` sees the error | start-up without a `logging.properties` file: the reload rejects instead of yielding `{}` | a missing file is an empty configuration on both paths | likely; not executed | Logging.SyncMissingFileRejects | Logging.MissingFileIsEmpty |
