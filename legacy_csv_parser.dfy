/** The earlier CSV spec parser of `lib/parser/csv.js`: rows are handed to
    the spec class as they are and named in sequence. */
module LegacyCsvParser {
  import opened Outcomes
  import opened Text
  import opened Objects
  import CsvParser

  /** `new SpecClass(name, fixtures)`: the template chosen by id, the name
      and the row exactly as csv-parse produced it. */
  datatype Spec = Spec(id: string, name: string, fixtures: CsvParser.Row)

  /** The spec built for row `k`. */
  function SpecAt(id: string, rows: seq<CsvParser.Row>, k: nat): Spec
    requires k < |rows|
  {
    Spec(id, "test " + NatToString(k + 1), rows[k])
  }

  /** `specs` holds one spec per row, in row order, each built as
      `parseFile` builds it. */
  predicate ParsedRows(specs: seq<Spec>, id: string, rows: seq<CsvParser.Row>)
  {
    |specs| == |rows| && forall k :: 0 <= k < |rows| ==> specs[k] == SpecAt(id, rows, k)
  }

  /** `parseFile`: `test ${++i}` for every row, with no casting and no
      unflattening. */
  method ParseFile(id: string, rows: seq<CsvParser.Row>) returns (specs: seq<Spec>)
    ensures ParsedRows(specs, id, rows)
  {
    var i := 0;
    specs := [];
    while i < |rows|
      invariant 0 <= i <= |rows| && |specs| == i
      invariant forall k :: 0 <= k < i ==> specs[k] == SpecAt(id, rows, k)
    {
      i := i + 1;
      specs := specs + [Spec(id, "test " + NatToString(i), rows[i - 1])];
    }
  }

  /** No two specs of a file share a name. */
  lemma NamesDistinct(id: string, rows: seq<CsvParser.Row>, specs: seq<Spec>, k1: nat, k2: nat)
    requires ParsedRows(specs, id, rows)
    requires k1 < k2 < |rows|
    ensures specs[k1].name != specs[k2].name
  {
    CsvParser.GeneratedNamesDistinct(k1 + 1, k2 + 1);
  }

  /** `loadSpec(filename)`: the id read exactly as the newer parser reads a
      scenario id, with this parser's own messages. */
  function LoadSpec(filename: string, known: string -> bool): (r: Result<string>)
    ensures CsvParser.ScenarioId(filename).None? ==>
      r == Err(Failure(filename + " does not includes a test template id"))
    ensures CsvParser.ScenarioId(filename).Some? && !known(CsvParser.ScenarioId(filename).value) ==>
      r == Err(Failure(CsvParser.ScenarioId(filename).value + " is not a known test template id"))
    ensures r.Ok? ==> CsvParser.ScenarioId(filename) == Some(r.value) && known(r.value)
    ensures r.Err? ==> r.error.Failure?
  {
    match CsvParser.ScenarioId(filename)
    case None => Err(Failure(filename + " does not includes a test template id"))
    case Some(id) => if known(id) then Ok(id) else Err(Failure(id + " is not a known test template id"))
  }

  /** The prefix every template-loading error gets. */
  const LoadPrefix := "failed to load test template: "

  /** What follows the template lookup in `parseSpecs`: reading the file,
      csv-parse, then `parseFile`; either error is passed on as it is. */
  method ReadSpecs(id: string, specPath: string,
                   read: string -> Result<string>, parse: string -> Result<seq<CsvParser.Row>>)
    returns (r: Result<seq<Spec>>)
    ensures read(specPath).Err? ==> r == Err(read(specPath).error)
    ensures read(specPath).Ok? && parse(read(specPath).value).Err? ==> r == Err(parse(read(specPath).value).error)
    ensures r.Ok? ==>
      read(specPath).Ok? && parse(read(specPath).value).Ok?
      && ParsedRows(r.value, id, parse(read(specPath).value).value)
  {
    var content := read(specPath);
    if content.Err? {
      return Err(content.error);
    }
    var rows := parse(content.value);
    if rows.Err? {
      return Err(rows.error);
    }
    var specs := ParseFile(id, rows.value);
    r := Ok(specs);
  }

  /** `parseSpecs(specPath)`: id errors are wrapped, read and parse errors
      are passed on as they are. */
  method ParseSpecs(specPath: string, known: string -> bool,
                    read: string -> Result<string>, parse: string -> Result<seq<CsvParser.Row>>)
    returns (r: Result<seq<Spec>>)
    ensures LoadSpec(Basename(specPath), known).Err? ==>
      r == Err(Failure(LoadPrefix + LoadSpec(Basename(specPath), known).error.message))
    ensures LoadSpec(Basename(specPath), known).Ok? && read(specPath).Err? ==> r == Err(read(specPath).error)
    ensures (LoadSpec(Basename(specPath), known).Ok? && read(specPath).Ok?
             && parse(read(specPath).value).Err?) ==> r == Err(parse(read(specPath).value).error)
    ensures r.Ok? ==>
      LoadSpec(Basename(specPath), known).Ok? && read(specPath).Ok? && parse(read(specPath).value).Ok?
    ensures r.Ok? ==>
      var id := LoadSpec(Basename(specPath), known).value;
      var rows := parse(read(specPath).value).value;
      ParsedRows(r.value, id, rows)
  {
    var cls := LoadSpec(Basename(specPath), known);
    if cls.Err? {
      return Err(Failure(LoadPrefix + cls.error.message));
    }
    r := ReadSpecs(cls.value, specPath, read, parse);
  }
}
