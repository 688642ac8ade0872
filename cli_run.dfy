/** `src/utils/cli-run.js`: the command-line pipeline, which picks a spec
    parser by file extension, parses the spec file into test units and runs
    them with the configured reporter, logging any failure before passing
    it on. The parsers and the runner are parameters. */
module CliRun {
  import opened Outcomes
  import opened Text
  import opened Objects
  import opened TestUnit

  /** The two spec parsers. */
  datatype ParserKind = Csv | Yaml

  const Unsupported := "Unsupported spec file format"

  /** `loadParser`: `.csv` files go to the CSV parser, `.yaml` and `.yml`
      files to the YAML parser, anything else is refused. */
  function LoadParser(file: string): (r: Result<ParserKind>)
    ensures r == Ok(Csv) <==> Extname(file) == ".csv"
    ensures r == Ok(Yaml) <==> Extname(file) == ".yaml" || Extname(file) == ".yml"
    ensures r.Err? ==> r.error == Failure(Unsupported)
  {
    var ext := Extname(file);
    if ext == ".csv" then Ok(Csv)
    else if ext == ".yaml" || ext == ".yml" then Ok(Yaml)
    else Err(Failure(Unsupported))
  }

  /** What the pipeline does before it settles, in order. */
  datatype Step =
    | Parsing(kind: ParserKind, specs: string)
    | Running(tests: seq<Test>, reporter: Value)

  /** A run of the pipeline: what it settles with, the steps it took, and
      the error it logged, if any. */
  datatype Outcome = Outcome(result: Result<int>, steps: seq<Step>, logged: Option<Error>)

  /** The pipeline. Any failure, whichever step it came from, is logged
      once and the pipeline rejects with that very error; a success logs
      nothing. */
  function Pipeline(specs: string, opts: Value, parse: (ParserKind, string) -> Result<seq<Test>>,
                    run: (seq<Test>, Value) -> Result<int>): (o: Outcome)
    ensures o.result.Err? ==> o.logged == Some(o.result.error)
    ensures o.result.Ok? ==> o.logged == None
    ensures |o.steps| <= 2
  {
    var (result, steps) := Steps(specs, opts, parse, run);
    Outcome(result, steps, if result.Err? then Some(result.error) else None)
  }

  /** The chain of `then`s before the `catch`. */
  function Steps(specs: string, opts: Value, parse: (ParserKind, string) -> Result<seq<Test>>,
                 run: (seq<Test>, Value) -> Result<int>): (r: (Result<int>, seq<Step>))
    ensures |r.1| <= 2
    ensures LoadParser(specs).Err? ==> r == (Err(LoadParser(specs).error), [])
    ensures LoadParser(specs).Ok? ==>
      var kind := LoadParser(specs).value;
      && (parse(kind, specs).Err? ==> r == (Err(parse(kind, specs).error), [Parsing(kind, specs)]))
      && (parse(kind, specs).Ok? && ReadProperty(opts, "reporter").Err? ==> r == (Err(ReadProperty(opts, "reporter").error), [Parsing(kind, specs)]))
      && (parse(kind, specs).Ok? && ReadProperty(opts, "reporter").Ok? ==>
            r == (run(parse(kind, specs).value, ReadProperty(opts, "reporter").value),
                  [Parsing(kind, specs), Running(parse(kind, specs).value, ReadProperty(opts, "reporter").value)]))
  {
    match LoadParser(specs)
    case Err(e) => (Err(e), [])
    case Ok(kind) =>
      match parse(kind, specs)
      case Err(e) => (Err(e), [Parsing(kind, specs)])
      case Ok(tests) =>
        match ReadProperty(opts, "reporter")
        case Err(e) => (Err(e), [Parsing(kind, specs)])
        case Ok(reporter) => (run(tests, reporter), [Parsing(kind, specs), Running(tests, reporter)])
  }

  /** The spec file is parsed by the parser its extension names, and the
      runner gets exactly the parsed tests with the configured reporter; a
      success is the runner's result. */
  lemma {:induction false} RunsWhatWasParsed(specs: string, opts: Value, parse: (ParserKind, string) -> Result<seq<Test>>,
                                             run: (seq<Test>, Value) -> Result<int>)
    ensures var o := Pipeline(specs, opts, parse, run);
      && (LoadParser(specs).Err? ==> o.steps == [] && o.result == Err(Failure(Unsupported)))
      && (LoadParser(specs).Ok? ==> o.steps[0] == Parsing(LoadParser(specs).value, specs))
      && (o.result.Ok? ==>
            && LoadParser(specs).Ok? && parse(LoadParser(specs).value, specs).Ok? && ReadProperty(opts, "reporter").Ok?
            && o.steps == [Parsing(LoadParser(specs).value, specs),
                           Running(parse(LoadParser(specs).value, specs).value, ReadProperty(opts, "reporter").value)]
            && o.result == run(parse(LoadParser(specs).value, specs).value, ReadProperty(opts, "reporter").value))
  {
  }

  /** A spec with an unknown extension is never parsed, and the failure is
      logged. */
  lemma {:induction false} UnknownExtensionRefused(specs: string, opts: Value, parse: (ParserKind, string) -> Result<seq<Test>>,
                                                   run: (seq<Test>, Value) -> Result<int>)
    requires Extname(specs) !in {".csv", ".yaml", ".yml"}
    ensures Pipeline(specs, opts, parse, run) == Outcome(Err(Failure(Unsupported)), [], Some(Failure(Unsupported)))
  {
  }

  /** Absent options fail after parsing, before anything runs. */
  lemma {:induction false} MissingOptionsFailAfterParsing(specs: string, parse: (ParserKind, string) -> Result<seq<Test>>,
                                                          run: (seq<Test>, Value) -> Result<int>)
    requires LoadParser(specs).Ok? && parse(LoadParser(specs).value, specs).Ok?
    ensures var o := Pipeline(specs, Undefined, parse, run);
      && o.result == Err(Failure(CannotRead("reporter", "undefined")))
      && o.steps == [Parsing(LoadParser(specs).value, specs)]
  {
  }
}
