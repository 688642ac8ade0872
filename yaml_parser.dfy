/** The YAML spec parser of `src/parser/yaml.js`: one test per entry of
    `tests`, each with the common fixtures merged under its own, and the
    scenario given either as a file next to the spec or inline. */
module YamlParser {
  import opened Outcomes
  import opened Text
  import opened Objects
  import opened TestUnit

  // ---------------------------------------------------------------------
  // `_.omit` and `_.merge`

  /** `_.omit(o, ...keys)` on a plain object. */
  function Omit(o: map<string, Value>, keys: set<string>): (r: map<string, Value>)
    ensures r.Keys == o.Keys - keys
    ensures forall k :: k in r ==> r[k] == o[k]
  {
    map k | k in o && k !in keys :: o[k]
  }

  /** lodash `merge` of one source value onto a destination value: plain
      objects are merged key by key, arrays index by index, and any other
      source value replaces the destination. */
  function MergeValue(dst: Value, src: Value): Value
    decreases src, 1
  {
    match src
    case Obj(fields) => Obj(MergeInto(if dst.Obj? then dst.fields else map[], fields))
    case Arr(items) => Arr(MergeItems(if dst.Arr? then dst.items else [], items))
    case _ => src
  }

  /** Merging a whole plain object: a key set to undefined in the source
      keeps the destination's value when there is one. */
  function MergeInto(dst: map<string, Value>, src: map<string, Value>): (r: map<string, Value>)
    ensures r.Keys == dst.Keys + src.Keys
    decreases Obj(src), 0
  {
    map k | k in dst.Keys + src.Keys ::
      if k !in src then dst[k]
      else if src[k] == Undefined && k in dst then dst[k]
      else MergeValue(Field(dst, k), src[k])
  }

  /** Merging an array onto an array, index by index. */
  function MergeItems(dst: seq<Value>, src: seq<Value>): (r: seq<Value>)
    ensures |r| == if |dst| < |src| then |src| else |dst|
    decreases Arr(src), 0
  {
    var n := if |dst| < |src| then |src| else |dst|;
    seq(n, i requires 0 <= i < n =>
      if i >= |src| then dst[i]
      else if src[i] == Undefined && i < |dst| then dst[i]
      else MergeValue(if i < |dst| then dst[i] else Undefined, src[i]))
  }

  /** A source object gives an object with the keys of both sides, a
      source array an array as long as the longer side, and any other
      source value replaces the destination. */
  lemma MergeValueShape(dst: Value, src: Value)
    ensures var r := MergeValue(dst, src);
      && (src.Obj? ==> r.Obj? && r.fields.Keys == (if dst.Obj? then dst.fields.Keys else {}) + src.fields.Keys)
      && (src.Arr? ==> r.Arr? && |r.items| == (if dst.Arr? && |dst.items| > |src.items| then |dst.items| else |src.items|))
      && (!src.Obj? && !src.Arr? ==> r == src)
  {
  }

  /** Merging into a fresh object copies: the copy equals the source. */
  lemma {:induction false} MergeCopies(v: Value)
    ensures MergeValue(Undefined, v) == v
    decreases v
  {
    match v
    case Obj(fields) =>
      forall k | k in fields ensures MergeValue(Undefined, fields[k]) == fields[k] {
        MergeCopies(fields[k]);
      }
      assert MergeInto(map[], fields) == fields;
    case Arr(items) =>
      forall i | 0 <= i < |items| ensures MergeValue(Undefined, items[i]) == items[i] {
        MergeCopies(items[i]);
      }
      assert MergeItems([], items) == items;
    case _ =>
  }

  /** A value that is neither an object, an array nor undefined. */
  predicate IsLeaf(v: Value)
  {
    !v.Obj? && !v.Arr? && v != Undefined
  }

  /** Every leaf of the source is found at the same path in the result:
      the later object wins. */
  lemma {:induction false} MergeLeafWins(dst: map<string, Value>, src: map<string, Value>, q: seq<string>)
    requires |q| >= 1 && Lookup(src, q).Some? && IsLeaf(Lookup(src, q).value)
    ensures Lookup(MergeInto(dst, src), q) == Lookup(src, q)
    decreases |q|
  {
    var k := q[0];
    if |q| > 1 {
      var d := Field(dst, k);
      MergeLeafWins(if d.Obj? then d.fields else map[], src[k].fields, q[1..]);
    }
  }

  /** A key the source does not mention keeps the destination's value. */
  lemma MergeKeepsUnmentioned(dst: map<string, Value>, src: map<string, Value>, k: string)
    requires k in dst && k !in src
    ensures MergeInto(dst, src)[k] == dst[k]
  {
  }

  // ---------------------------------------------------------------------
  // parseFile

  /** The Node `path` and `fs` services `parseFile` uses: `path.resolve` of
      one or two paths, `path.dirname`, what `fs.exists` reports (`present`),
      and `util.inspect`, which `path` uses to show a path that is not a string. */
  datatype PathEnv = PathEnv(absolute: string -> string, resolve: (string, string) -> string,
                             dirname: string -> string, present: string -> bool, inspect: Value -> string)

  /** The common fixtures: every top-level key but `scenario` and `tests`. */
  function Common(spec: map<string, Value>): (r: map<string, Value>)
    ensures r.Keys == spec.Keys - {"scenario", "tests"}
    ensures forall k :: k in r ==> r[k] == spec[k]
  {
    Omit(spec, {"scenario", "tests"})
  }

  /** The index keys "0" .. "n-1". */
  function IndexKeys(n: nat): set<string>
  {
    set i | 0 <= i < n :: NatToString(i)
  }

  /** Different numbers below and at `n` print differently. */
  lemma {:induction false} IndexKeysDistinct(n: nat, i: nat)
    requires i < n
    ensures NatToString(i) != NatToString(n)
  {
    if NatToString(i) == NatToString(n) {
      NatToStringInjective(i, n);
    }
  }

  /** One more index adds its own key. */
  lemma {:induction false} IndexKeysStep(n: nat)
    ensures IndexKeys(n + 1) == IndexKeys(n) + {NatToString(n)}
  {
    forall k | k in IndexKeys(n + 1) ensures k in IndexKeys(n) + {NatToString(n)} {
      var i :| 0 <= i < n + 1 && k == NatToString(i);
      if i < n { assert k in IndexKeys(n); }
    }
  }

  /** The object lodash makes of an array-like value: its elements keyed
      by their indices. */
  function Indexed(items: seq<Value>): map<string, Value>
    decreases |items|
  {
    if |items| == 0 then map[]
    else Indexed(items[..|items| - 1])[NatToString(|items| - 1) := items[|items| - 1]]
  }

  /** The keys of `Indexed(items)` are exactly the indices. */
  lemma {:induction false} IndexedKeys(items: seq<Value>)
    ensures Indexed(items).Keys == IndexKeys(|items|)
    decreases |items|
  {
    if |items| > 0 {
      IndexedKeys(items[..|items| - 1]);
      IndexKeysStep(|items| - 1);
    }
  }

  /** Index `i` holds its own element: a later key never overwrites it. */
  lemma {:induction false} IndexedAt(items: seq<Value>, i: nat)
    requires i < |items|
    ensures NatToString(i) in Indexed(items) && Indexed(items)[NatToString(i)] == items[i]
    decreases |items|
  {
    var n := |items| - 1;
    if i < n {
      IndexedAt(items[..n], i);
      IndexKeysDistinct(n, i);
      assert items[..n][i] == items[i];
    }
  }

  /** The keys of `Indexed(items)` are exactly the indices, and each holds
      its own element: no two indices share a key. */
  lemma {:induction false} IndexedShape(items: seq<Value>)
    ensures Indexed(items).Keys == IndexKeys(|items|)
    ensures forall i :: 0 <= i < |items| ==> Indexed(items)[NatToString(i)] == items[i]
  {
    IndexedKeys(items);
    forall i | 0 <= i < |items| ensures Indexed(items)[NatToString(i)] == items[i] {
      IndexedAt(items, i);
    }
  }

  /** A string's elements as one-character strings. */
  function Characters(s: string): (r: seq<Value>)
    ensures |r| == |s| && forall i :: 0 <= i < |s| ==> r[i] == Str([s[i]])
  {
    if s == [] then [] else [Str([s[0]])] + Characters(s[1..])
  }

  /** A test entry's own fixtures, `_.omit(fixture, 'name')`: an object
      keeps all its keys but `name`; a string or an array is read as an
      object keyed by index (a string's elements being its one-character
      strings); any other entry brings none. */
  function OwnFixtures(fixture: Value): map<string, Value>
  {
    match fixture
    case Obj(fields) => Omit(fields, {"name"})
    case Str(s) => Indexed(Characters(s))
    case Arr(items) => Indexed(items)
    case _ => map[]
  }

  /** What each kind of entry brings: an object its keys but `name`; a
      string or an array its elements under their index keys; anything
      else nothing. */
  lemma {:induction false} OwnFixturesShape(fixture: Value)
    ensures var r := OwnFixtures(fixture);
      && (fixture.Obj? ==>
            r.Keys == fixture.fields.Keys - {"name"} && forall k :: k in r ==> r[k] == fixture.fields[k])
      && (fixture.Str? ==>
            r.Keys == IndexKeys(|fixture.s|) && forall i :: 0 <= i < |fixture.s| ==> r[NatToString(i)] == Str([fixture.s[i]]))
      && (fixture.Arr? ==>
            r.Keys == IndexKeys(|fixture.items|) && forall i :: 0 <= i < |fixture.items| ==> r[NatToString(i)] == fixture.items[i])
      && (!fixture.Obj? && !fixture.Str? && !fixture.Arr? ==> r == map[])
  {
    match fixture
    case Str(s) => IndexedShape(Characters(s));
    case Arr(items) => IndexedShape(items);
    case _ =>
  }

  /** A digit string is never `name`: only an object entry can carry it. */
  lemma {:induction false} OwnFixturesNeverName(fixture: Value)
    ensures "name" !in OwnFixtures(fixture)
  {
    OwnFixturesShape(fixture);
  }

  /** `_.merge({}, common, _.omit(fixture, 'name'))`. */
  function TestFixtures(common: map<string, Value>, fixture: Value): map<string, Value>
  {
    MergeInto(MergeInto(map[], common), OwnFixtures(fixture))
  }

  /** A test's fixtures have exactly the common keys and its own. */
  lemma TestFixturesKeys(common: map<string, Value>, fixture: Value)
    ensures TestFixtures(common, fixture).Keys == common.Keys + OwnFixtures(fixture).Keys
  {
  }

  /** The name of test `i` (counted from 0): its `name` when truthy, else
      "test i+1", by position in the list. */
  function TestName(fixture: Value, i: nat): (r: Value)
    ensures Truthy(Prop(fixture, "name")) ==> r == Prop(fixture, "name")
    ensures !Truthy(Prop(fixture, "name")) ==> r == Str("test " + NatToString(i + 1))
  {
    var name := Prop(fixture, "name");
    if Truthy(name) then name else Str("test " + NatToString(i + 1))
  }

  /** The working directory of every test: the scenario's directory when it
      exists, else the spec's. */
  function Workdir(specDir: string, scenario: string, env: PathEnv): (r: string)
    ensures var dir := env.resolve(specDir, env.dirname(scenario));
      r == if env.present(dir) then dir else specDir
  {
    var dir := env.resolve(specDir, env.dirname(scenario));
    if env.present(dir) then dir else specDir
  }

  /** The scenario handed to every test: the resolved path when its
      directory and the file both exist, else the text as written (inline
      scenario content). */
  function ScenarioFile(specDir: string, scenario: string, env: PathEnv): (r: string)
    ensures var resolved := env.resolve(specDir, scenario);
      r == if env.present(env.resolve(specDir, env.dirname(scenario))) && env.present(resolved)
           then resolved else scenario
  {
    var dirExist := env.present(env.resolve(specDir, env.dirname(scenario)));
    var candidate := if dirExist then env.resolve(specDir, scenario) else scenario;
    if env.present(candidate) then candidate else scenario
  }

  /** Test `i` of the list: its name, the scenario, the common fixtures
      merged with its own, and the working directory. */
  function Composed(fixture: Value, i: nat, scenario: string, common: map<string, Value>, workdir: string): Test
  {
    Test(TestName(fixture, i), scenario, Obj(TestFixtures(common, fixture)), workdir)
  }

  /** Builds the tests of a list of entries, from position `from` on. */
  function BuildTests(entries: seq<Value>, from: nat, scenario: string, common: map<string, Value>,
                      workdir: string): (r: Result<seq<Test>>)
    requires from <= |entries|
    ensures r.Ok? ==> |r.value| == |entries| - from
    ensures r.Ok? ==> forall i :: from <= i < |entries| ==>
      r.value[i - from] == Composed(entries[i], i, scenario, common, workdir)
    ensures r.Ok? <==> forall i :: from <= i < |entries| ==> entries[i] != Undefined && entries[i] != Null
    decreases |entries| - from
  {
    if from == |entries| then Ok([])
    else
      var fixture := entries[from];
      if fixture == Undefined || fixture == Null then
        // `fixture.name` throws inside the `fs.exists` callback
        Err(Escaped(CannotRead("name", if fixture == Null then "null" else "undefined")))
      else
        match BuildTests(entries, from + 1, scenario, common, workdir)
        case Err(e) => Err(e)
        case Ok(rest) =>
          Ok([Composed(fixture, from, scenario, common, workdir)] + rest)
  }

  /** `parseFile(fullpath, content)` once js-yaml has turned `content` into
      `spec`. */
  function ParseFile(fullpath: string, spec: Value, env: PathEnv): (r: Result<seq<Test>>)
    ensures spec == Undefined ==> r == Err(Failure(CannotRead("scenario", "undefined")))
    ensures spec == Null ==> r == Err(Failure(CannotRead("scenario", "null")))
    ensures spec != Undefined && spec != Null && !Truthy(Prop(spec, "scenario")) ==>
      r == Err(Failure("Missing scenario in " + Basename(fullpath)))
    ensures Truthy(Prop(spec, "scenario")) && !Prop(spec, "scenario").Str? ==>
      r == Err(Failure(PathNotString(Prop(spec, "scenario"), env.inspect)))
    ensures Prop(spec, "scenario").Str? && Truthy(Prop(spec, "scenario")) && !Prop(spec, "tests").Arr? ==> r == Ok([])
    ensures r.Ok? && Prop(spec, "tests").Arr? ==>
      var entries := Prop(spec, "tests").items;
      var specDir := env.dirname(fullpath);
      var scenario := Prop(spec, "scenario").s;
      |r.value| == |entries| && forall i :: 0 <= i < |entries| ==>
        r.value[i] == Composed(entries[i], i, ScenarioFile(specDir, scenario, env), Common(spec.fields),
                               Workdir(specDir, scenario, env))
  {
    var filename := Basename(fullpath);
    var specDir := env.dirname(fullpath);
    if spec == Undefined || spec == Null then
      Err(Failure(CannotRead("scenario", if spec == Null then "null" else "undefined")))
    else
      var scenario := Prop(spec, "scenario");
      if !Truthy(scenario) then Err(Failure("Missing scenario in " + filename))
      else if !scenario.Str? then Err(Failure(PathNotString(scenario, env.inspect)))
      else
        var workdir := Workdir(specDir, scenario.s, env);
        var file := ScenarioFile(specDir, scenario.s, env);
        var tests := Prop(spec, "tests");
        if tests.Arr? then BuildTests(tests.items, 0, file, Common(spec.fields), workdir)
        else Ok([])
  }

  /** The exported parser: `read` is `fs.readFile` and `load` is js-yaml
      with the `!!inc/file` schema rooted at the spec's directory. */
  function Parse(specPath: string, env: PathEnv, read: string -> Result<string>,
                 load: (string, string) -> Result<Value>): (r: Result<seq<Test>>)
    ensures read(env.absolute(specPath)).Err? ==> r == Err(read(env.absolute(specPath)).error)
    ensures (read(env.absolute(specPath)).Ok?
             && load(read(env.absolute(specPath)).value, env.dirname(env.absolute(specPath))).Err?) ==>
      r == Err(load(read(env.absolute(specPath)).value, env.dirname(env.absolute(specPath))).error)
    ensures r.Ok? ==>
      var full := env.absolute(specPath);
      r == ParseFile(full, load(read(full).value, env.dirname(full)).value, env)
  {
    var full := env.absolute(specPath);
    match read(full)
    case Err(e) => Err(e)
    case Ok(content) =>
      match load(content, env.dirname(full))
      case Err(e) => Err(e)
      case Ok(spec) => ParseFile(full, spec, env)
  }

  /** A spec whose `scenario` is the number 1 is refused by `path.dirname`:
      "Path must be a string. Received 1". */
  lemma {:induction false} NumberScenarioRefused(fullpath: string, env: PathEnv)
    requires env.inspect(Num(1)) == "1"
    ensures ParseFile(fullpath, Obj(map["scenario" := Num(1)]), env) == Err(Failure("Path must be a string. Received 1"))
  {
    assert Prop(Obj(map["scenario" := Num(1)]), "scenario") == Num(1);
    assert "Path must be a string. Received " + "1" == "Path must be a string. Received 1";
  }

  // ---------------------------------------------------------------------
  // Properties of the composed fixtures

  /** Every test holds the common fixtures except where it overrides them,
      and never the keys `scenario`, `tests` or (from its own entry) `name`. */
  lemma CommonReachesEveryTest(spec: map<string, Value>, fixture: Value, k: string)
    requires k in spec && k != "scenario" && k != "tests"
    requires k !in OwnFixtures(fixture)
    ensures k in TestFixtures(Common(spec), fixture)
    ensures TestFixtures(Common(spec), fixture)[k] == spec[k]
  {
    var c := Common(spec);
    MergeCopies(spec[k]);
    assert MergeInto(map[], c)[k] == spec[k];
  }

  /** A leaf a test sets, at any depth, is what that test gets. */
  lemma TestLeafWins(common: map<string, Value>, fixture: Value, q: seq<string>)
    requires fixture.Obj? && |q| >= 1 && q[0] != "name"
    requires Lookup(fixture.fields, q).Some? && IsLeaf(Lookup(fixture.fields, q).value)
    ensures Lookup(TestFixtures(common, fixture), q) == Lookup(fixture.fields, q)
  {
    var own := OwnFixtures(fixture);
    assert Lookup(own, q) == Lookup(fixture.fields, q);
    MergeLeafWins(MergeInto(map[], common), own, q);
  }

  /** The merged fixtures of one test depend only on the common fixtures
      and its own entry: an override in one test never reaches another. */
  lemma NoLeakBetweenTests(entries: seq<Value>, other: seq<Value>, i: nat, j: nat,
                           scenario: string, common: map<string, Value>, workdir: string)
    requires |entries| == |other| && i < |entries| && j < |entries| && i != j
    requires forall k :: 0 <= k < |entries| && k != i ==> other[k] == entries[k]
    requires BuildTests(entries, 0, scenario, common, workdir).Ok?
    requires BuildTests(other, 0, scenario, common, workdir).Ok?
    ensures BuildTests(entries, 0, scenario, common, workdir).value[j]
         == BuildTests(other, 0, scenario, common, workdir).value[j]
  {
    assert other[j] == entries[j];
  }

  /** Every composed test is one the `Test` constructor accepts as it is. */
  lemma TestsAreConstructible(entries: seq<Value>, scenario: string, common: map<string, Value>,
                              workdir: string, i: nat)
    requires BuildTests(entries, 0, scenario, common, workdir).Ok? && i < |entries|
    ensures var t := BuildTests(entries, 0, scenario, common, workdir).value[i];
      NewTest("Test", AnySchema, t.name, t.file, t.fixtures, Some(t.workdir)).Ok?
      && NewTest("Test", AnySchema, t.name, t.file, t.fixtures, Some(t.workdir)).value.fixtures == t.fixtures
  {
    var t := BuildTests(entries, 0, scenario, common, workdir).value[i];
    assert t == Composed(entries[i - 0], i, scenario, common, workdir);
    assert AnySchema(t.fixtures);
  }
}
