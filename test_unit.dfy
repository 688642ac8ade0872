/** The test unit of `src/engine/test.js`: a named scenario with its
    fixtures and working directory, run by generating the scenario text and
    executing it. */
module TestUnit {
  import opened Outcomes
  import opened Objects

  /** A constructed `Test`: `file` is a scenario path or the scenario text
      itself. */
  datatype Test = Test(name: Value, file: string, fixtures: Value, workdir: string)

  /** The schema of the base class, `Joi.any()`: every value passes. */
  predicate AnySchema(fixtures: Value)
  {
    true
  }

  /** `new Test(name, file, fixtures, workdir)` for a class called
      `className` whose `schema` is given: falsy fixtures are refused, then
      the schema is asserted; the working directory defaults to ".". */
  function NewTest(className: string, schema: Value -> bool, name: Value, file: string,
                   fixtures: Value, workdir: Option<string>): (r: Result<Test>)
    ensures !Truthy(fixtures) ==>
      r == Err(Failure("can't create " + className + " scenario without fixtures"))
    ensures Truthy(fixtures) && !schema(fixtures) ==> r == Err(Invalid(""))
    ensures r.Ok? <==> Truthy(fixtures) && schema(fixtures)
    ensures r.Ok? ==> r.value.name == name && r.value.file == file && r.value.fixtures == fixtures
    ensures r.Ok? ==> r.value.workdir == (if workdir.Some? && workdir.value != "" then workdir.value else ".")
  {
    var dir := if workdir.Some? && workdir.value != "" then workdir.value else ".";
    if !Truthy(fixtures) then Err(Failure("can't create " + className + " scenario without fixtures"))
    else if !schema(fixtures) then Err(Invalid(""))
    else Ok(Test(name, file, fixtures, dir))
  }

  /** The base class accepts every truthy fixture, and only those. */
  lemma BaseAcceptsTruthyFixtures(name: Value, file: string, fixtures: Value, workdir: Option<string>)
    ensures NewTest("Test", AnySchema, name, file, fixtures, workdir).Ok? <==> Truthy(fixtures)
  {
  }

  /** One step of running a test, in the order they happen. */
  datatype Stage = Generate(file: string, fixtures: Value) | Execute(content: string, workdir: string)

  /** `run()`: `generate(file, fixtures)` then `execute(content, workdir)`;
      a generation failure is the run's failure and nothing is executed. */
  function Run(t: Test, generate: (string, Value) -> Result<string>,
               execute: (string, string) -> Result<Value>): (r: (Result<Value>, seq<Stage>))
    ensures 1 <= |r.1| <= 2 && r.1[0] == Generate(t.file, t.fixtures)
    ensures |r.1| == 2 <==> generate(t.file, t.fixtures).Ok?
    ensures |r.1| == 1 ==> r.0 == Err(generate(t.file, t.fixtures).error)
    ensures |r.1| == 2 ==>
      r.1[1] == Execute(generate(t.file, t.fixtures).value, t.workdir) && r.0 == execute(r.1[1].content, t.workdir)
  {
    match generate(t.file, t.fixtures)
    case Err(e) => (Err(e), [Generate(t.file, t.fixtures)])
    case Ok(content) => (execute(content, t.workdir), [Generate(t.file, t.fixtures), Execute(content, t.workdir)])
  }
}
