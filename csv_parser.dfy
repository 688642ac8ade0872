/** The CSV spec parser of `src/parser/csv.js`: one scenario per row, cells
    cast to booleans, dotted column names turned into nested objects, and
    the scenario class chosen from the file name. */
module CsvParser {
  import opened Outcomes
  import opened Text
  import opened Objects

  /** One parsed CSV line as csv-parse hands it over: column name and
      (auto-parsed) cell, in the order `Object.keys` lists them. */
  type Row = seq<(string, Value)>

  /** The word a cell spells once trimmed and lower-cased. */
  function Word(s: string): string
  {
    Lower(Trim(s))
  }

  /** `cast`: "true" / "false" in any case, with surrounding white space,
      become booleans; every other value is returned as it is. The test
      `getType(value) === 'string'` is `v.Str?` (see `GetType`). */
  function Cast(v: Value): (r: Value)
    ensures v.Str? && Word(v.s) == "true" ==> r == Bool(true)
    ensures v.Str? && Word(v.s) == "false" ==> r == Bool(false)
    ensures !(v.Str? && Word(v.s) in {"true", "false"}) ==> r == v
  {
    if v.Str? then
      if Word(v.s) == "true" then Bool(true)
      else if Word(v.s) == "false" then Bool(false)
      else v
    else v
  }

  /** Only a string can be cast, and casting is idempotent. */
  lemma CastIdempotent(v: Value)
    ensures Cast(Cast(v)) == Cast(v)
    ensures Cast(v) != v ==> v.Str? && Cast(v).Bool?
  {
  }

  /** Which strings become `true`: exactly the trimmed case variants of "true". */
  lemma {:induction false} CastTrueWords(s: string)
    ensures Cast(Str(s)) == Bool(true) <==>
      (|Trim(s)| == 4 && forall i :: 0 <= i < 4 ==> LowerChar(Trim(s)[i]) == "true"[i])
  {
    var t := Trim(s);
    assert Word(s) == Lower(t);
    if |t| == 4 && forall i :: 0 <= i < 4 ==> LowerChar(t[i]) == "true"[i] {
      assert Lower(t) == "true";
    }
    if Lower(t) == "true" {
      assert forall i :: 0 <= i < 4 ==> LowerChar(t[i]) == Lower(t)[i];
    }
  }

  /** The value of a column (undefined when the row has none). */
  function Cell(row: Row, key: string): (r: Value)
    ensures (forall i :: 0 <= i < |row| ==> row[i].0 != key) ==> r == Undefined
  {
    if row == [] then Undefined
    else if row[0].0 == key then row[0].1
    else Cell(row[1..], key)
  }

  /** The row once `delete fixture[key]` has run. */
  function Without(row: Row, key: string): (r: Row)
    ensures forall i :: 0 <= i < |r| ==> r[i].0 != key
    ensures forall i :: 0 <= i < |r| ==> r[i] in row
    ensures forall i :: 0 <= i < |row| && row[i].0 != key ==> row[i] in r
  {
    if row == [] then []
    else if row[0].0 == key then Without(row[1..], key)
    else [row[0]] + Without(row[1..], key)
  }

  /** The object `unflatten` builds: starting from `acc`, each column in
      order is stored at its dotted path, cast. */
  function Unflattened(acc: map<string, Value>, row: Row): map<string, Value>
    decreases |row|
  {
    if row == [] then acc
    else Unflattened(SetPath(acc, Split(row[0].0, '.'), Cast(row[0].1)), row[1..])
  }

  lemma {:induction false} UnflattenedSnoc(acc: map<string, Value>, row: Row, kv: (string, Value))
    ensures Unflattened(acc, row + [kv]) == SetPath(Unflattened(acc, row), Split(kv.0, '.'), Cast(kv.1))
    decreases |row|
  {
    if row != [] {
      assert (row + [kv])[1..] == row[1..] + [kv];
      UnflattenedSnoc(SetPath(acc, Split(row[0].0, '.'), Cast(row[0].1)), row[1..], kv);
    }
  }

  /** `unflatten(fixtures)`: a fresh `result`, filled by `setProp` once per
      column. */
  method Unflatten(row: Row) returns (result: map<string, Value>)
    ensures result == Unflattened(map[], row)
  {
    result := map[];
    var i := 0;
    while i < |row|
      invariant 0 <= i <= |row|
      invariant result == Unflattened(map[], row[..i])
    {
      assert row[..i + 1] == row[..i] + [row[i]];
      UnflattenedSnoc(map[], row[..i], row[i]);
      result := SetProp(result, row[i].0, Cast(row[i].1));
      i := i + 1;
    }
    assert row[..i] == row;
  }

  /** The first step of every column name. */
  function FirstSteps(row: Row): set<string>
    decreases |row|
  {
    if row == [] then {} else {Split(row[0].0, '.')[0]} + FirstSteps(row[1..])
  }

  lemma {:induction false} FirstStepsFrom(row: Row, x: string) returns (i: nat)
    requires x in FirstSteps(row)
    ensures i < |row| && Split(row[i].0, '.')[0] == x
    decreases |row|
  {
    if Split(row[0].0, '.')[0] == x {
      i := 0;
    } else {
      var j := FirstStepsFrom(row[1..], x);
      i := j + 1;
    }
  }

  /** The top-level keys of the result are the first steps of the column names. */
  lemma {:induction false} UnflattenedKeys(acc: map<string, Value>, row: Row)
    ensures Unflattened(acc, row).Keys == acc.Keys + FirstSteps(row)
    decreases |row|
  {
    if row != [] {
      var path := Split(row[0].0, '.');
      var next := SetPath(acc, path, Cast(row[0].1));
      assert next.Keys == acc.Keys + {path[0]};
      UnflattenedKeys(next, row[1..]);
    }
  }

  /** Columns that never touch the path `q` leave it as it was. */
  lemma {:induction false} UnflattenedKeeps(acc: map<string, Value>, row: Row, q: seq<string>)
    requires |q| >= 1
    requires forall m :: 0 <= m < |row| ==> Diverges(q, Split(row[m].0, '.'))
    ensures Lookup(Unflattened(acc, row), q) == Lookup(acc, q)
    decreases |row|
  {
    if row != [] {
      SetPathKeepsOthers(acc, Split(row[0].0, '.'), Cast(row[0].1), q);
      forall m | 0 <= m < |row[1..]| ensures Diverges(q, Split(row[1..][m].0, '.')) {
        assert row[1..][m] == row[m + 1];
      }
      UnflattenedKeeps(SetPath(acc, Split(row[0].0, '.'), Cast(row[0].1)), row[1..], q);
    }
  }

  /** A column's cast value is found at its dotted path unless a later column
      writes the same path, a path above it or a path below it. */
  lemma {:induction false} UnflattenedColumn(acc: map<string, Value>, row: Row, j: nat)
    requires j < |row|
    requires forall m :: j < m < |row| ==> Diverges(Split(row[j].0, '.'), Split(row[m].0, '.'))
    ensures Lookup(Unflattened(acc, row), Split(row[j].0, '.')) == Some(Cast(row[j].1))
    decreases |row|
  {
    var next := SetPath(acc, Split(row[0].0, '.'), Cast(row[0].1));
    if j == 0 {
      SetPathLookup(acc, Split(row[0].0, '.'), Cast(row[0].1));
      forall m | 0 <= m < |row[1..]| ensures Diverges(Split(row[0].0, '.'), Split(row[1..][m].0, '.')) {
        assert row[1..][m] == row[m + 1];
      }
      UnflattenedKeeps(next, row[1..], Split(row[0].0, '.'));
    } else {
      forall m | j - 1 < m < |row[1..]| ensures Diverges(Split(row[1..][j - 1].0, '.'), Split(row[1..][m].0, '.')) {
        assert row[1..][m] == row[m + 1];
      }
      UnflattenedColumn(next, row[1..], j - 1);
    }
  }

  /** The last column always wins at its own path. */
  lemma LastColumnWins(row: Row)
    requires |row| >= 1
    ensures Lookup(Unflattened(map[], row), Split(row[|row| - 1].0, '.')) == Some(Cast(row[|row| - 1].1))
  {
    var last := row[|row| - 1];
    assert row == row[..|row| - 1] + [last];
    UnflattenedSnoc(map[], row[..|row| - 1], last);
    SetPathLookup(Unflattened(map[], row[..|row| - 1]), Split(last.0, '.'), Cast(last.1));
  }

  lemma SplitNoSep(s: string, c: char)
    requires c !in s
    ensures Split(s, c) == [s]
  {
  }

  lemma SplitAt(s: string, c: char, i: nat)
    requires i < |s| && s[i] == c && c !in s[..i]
    ensures Split(s, c) == [s[..i]] + Split(s[i + 1..], c)
  {
  }

  /** Splitting at a first separator after a separator-free head. */
  lemma SplitJoined(head: string, rest: string, c: char)
    requires c !in head
    ensures Split(head + [c] + rest, c) == [head] + Split(rest, c)
  {
    var s := head + [c] + rest;
    assert s[|head|] == c && s[..|head|] == head && s[|head| + 1..] == rest;
    SplitAt(s, c, |head|);
  }

  lemma SplitOneDot()
    ensures Split("a.b", '.') == ["a", "b"]
  {
    assert "a.b" == "a" + ['.'] + "b";
    SplitJoined("a", "b", '.');
    SplitNoSep("b", '.');
  }

  lemma SplitThree(a: string, b: string, c: string)
    requires '.' !in a && '.' !in b && '.' !in c
    ensures Split(a + ['.'] + (b + ['.'] + c), '.') == [a, b, c]
  {
    SplitJoined(a, b + ['.'] + c, '.');
    SplitJoined(b, c, '.');
    SplitNoSep(c, '.');
  }

  lemma SplitTwoDots()
    ensures Split("a.b.c", '.') == ["a", "b", "c"]
  {
    SplitThree("a", "b", "c");
    assert "a" + ['.'] + ("b" + ['.'] + "c") == "a.b.c";
  }

  lemma CastTrueWord()
    ensures Cast(Str("true")) == Bool(true)
  {
    TrimUnchanged("true");
    LowerUnchanged("true");
  }

  /** The example of the format's documentation: column "a.b.c" holding
      "true" gives `{a: {b: {c: true}}}`. */
  lemma UnflattenedNested()
    ensures Unflattened(map[], [("a.b.c", Str("true"))])
         == map["a" := Obj(map["b" := Obj(map["c" := Bool(true)])])]
  {
    var row := [("a.b.c", Str("true"))];
    assert row[1..] == [];
    SplitTwoDots();
    CastTrueWord();
    NestedPath();
  }

  lemma NestedPath()
    ensures SetPath(map[], ["a", "b", "c"], Bool(true)) == map["a" := Obj(map["b" := Obj(map["c" := Bool(true)])])]
  {
    var path := ["a", "b", "c"];
    assert path[1..] == ["b", "c"] && path[1..][1..] == ["c"];
    var inner := SetPath(map[], ["c"], Bool(true));
    assert inner == map["c" := Bool(true)];
    assert SetPath(map[], ["b", "c"], Bool(true)) == map["b" := Obj(inner)];
  }

  /** A later "a.b" column turns an earlier plain "a" into an object. */
  lemma UnflattenedOverwrite(x: Value, y: Value)
    requires !x.Str? && !x.Obj? && !y.Str?
    ensures Unflattened(map[], [("a", x), ("a.b", y)]) == map["a" := Obj(map["b" := y])]
  {
    UnflattenedSnoc(map[], [], ("a", x));
    assert [] + [("a", x)] == [("a", x)];
    UnflattenedSnoc(map[], [("a", x)], ("a.b", y));
    assert [("a", x)] + [("a.b", y)] == [("a", x), ("a.b", y)];
    SplitNoSep("a", '.');
    SplitOneDot();
    var first := SetPath(map[], ["a"], x);
    assert first == map["a" := x];
    assert ["a", "b"][1..] == ["b"];
    assert Child(first, "a") == map[];
    assert SetPath(first, ["a", "b"], y) == map["a" := Obj(map["b" := y])];
  }

  // ---------------------------------------------------------------------
  // Naming rows

  /** `new Scenario(name, fixtures)`: the class chosen by id, the test name
      and the unflattened fixtures. */
  datatype Scenario = Scenario(id: string, name: Value, fixtures: map<string, Value>)

  /** The number of rows whose name cell is falsy. */
  function CountUnnamed(rows: seq<Row>, key: string): (n: nat)
    ensures n <= |rows|
  {
    if rows == [] then 0
    else CountUnnamed(rows[..|rows| - 1], key) + (if Truthy(Cell(rows[|rows| - 1], key)) then 0 else 1)
  }

  /** The name of row `k`: its name cell when truthy, else "test n" where n
      counts the unnamed rows up to and including this one. */
  function RowName(rows: seq<Row>, k: nat, key: string): Value
    requires k < |rows|
  {
    var cell := Cell(rows[k], key);
    if Truthy(cell) then cell else Str("test " + NatToString(CountUnnamed(rows[..k + 1], key)))
  }

  /** The scenario `parseFile` builds for row `k`. */
  function RowScenario(id: string, rows: seq<Row>, k: nat, key: string): Scenario
    requires k < |rows|
  {
    Scenario(id, RowName(rows, k, key), Unflattened(map[], Without(rows[k], key)))
  }

  lemma CountUnnamedStep(rows: seq<Row>, k: nat, key: string)
    requires k < |rows|
    ensures CountUnnamed(rows[..k + 1], key)
         == CountUnnamed(rows[..k], key) + (if Truthy(Cell(rows[k], key)) then 0 else 1)
  {
    assert rows[..k + 1][..k] == rows[..k];
  }

  /** `scenarii` holds one scenario per row, in row order, each built as
      `parseFile` builds it. */
  predicate ParsedRows(scenarii: seq<Scenario>, id: string, rows: seq<Row>, key: string)
  {
    |scenarii| == |rows| && forall k :: 0 <= k < |rows| ==> scenarii[k] == RowScenario(id, rows, k, key)
  }

  /** The `map` callback of `parseFile`: the row's name cell, or "test n"
      with the shared counter bumped first; then the name column is deleted
      and the rest unflattened. */
  method MapRow(id: string, rows: seq<Row>, k: nat, nameProperty: string, i: nat) returns (scenario: Scenario, next: nat)
    requires k < |rows| && i == CountUnnamed(rows[..k], nameProperty)
    ensures next == CountUnnamed(rows[..k + 1], nameProperty)
    ensures scenario == RowScenario(id, rows, k, nameProperty)
  {
    CountUnnamedStep(rows, k, nameProperty);
    next := i;
    var name := Cell(rows[k], nameProperty);
    if !Truthy(name) {
      next := next + 1;
      name := Str("test " + NatToString(next));
    }
    var fixtures := Unflatten(Without(rows[k], nameProperty));
    scenario := Scenario(id, name, fixtures);
  }

  /** `parseFile`: one scenario per row, in order, through `MapRow` with a
      counter shared by all rows. */
  method ParseFile(id: string, rows: seq<Row>, nameProperty: string) returns (scenarii: seq<Scenario>)
    ensures ParsedRows(scenarii, id, rows, nameProperty)
  {
    var i := 0;
    scenarii := [];
    var k := 0;
    while k < |rows|
      invariant 0 <= k <= |rows|
      invariant |scenarii| == k
      invariant i == CountUnnamed(rows[..k], nameProperty)
      invariant forall m :: 0 <= m < k ==> scenarii[m] == RowScenario(id, rows, m, nameProperty)
    {
      var scenario;
      scenario, i := MapRow(id, rows, k, nameProperty, i);
      scenarii := scenarii + [scenario];
      k := k + 1;
    }
  }

  lemma {:induction false} CountUnnamedMonotone(rows: seq<Row>, key: string, a: nat, b: nat)
    requires a <= b <= |rows|
    ensures CountUnnamed(rows[..a], key) <= CountUnnamed(rows[..b], key)
    decreases b - a
  {
    if a < b {
      assert rows[..b][..b - 1] == rows[..b - 1];
      CountUnnamedMonotone(rows, key, a, b - 1);
    }
  }

  /** Unnamed rows are numbered 1, 2, … in row order, so no two of them share
      a generated name; named rows do not advance the count. */
  lemma UnnamedRowsNumbered(rows: seq<Row>, key: string, k1: nat, k2: nat)
    requires k1 < k2 < |rows|
    requires !Truthy(Cell(rows[k1], key)) && !Truthy(Cell(rows[k2], key))
    ensures 1 <= CountUnnamed(rows[..k1 + 1], key) < CountUnnamed(rows[..k2 + 1], key)
    ensures RowName(rows, k1, key) != RowName(rows, k2, key)
  {
    CountUnnamedStep(rows, k1, key);
    CountUnnamedStep(rows, k2, key);
    CountUnnamedMonotone(rows, key, k1 + 1, k2);
    GeneratedNamesDistinct(CountUnnamed(rows[..k1 + 1], key), CountUnnamed(rows[..k2 + 1], key));
  }

  /** Different counters give different generated names. */
  lemma GeneratedNamesDistinct(n1: nat, n2: nat)
    requires n1 != n2
    ensures "test " + NatToString(n1) != "test " + NatToString(n2)
  {
    if "test " + NatToString(n1) == "test " + NatToString(n2) {
      assert NatToString(n1) == ("test " + NatToString(n1))[5..];
      assert NatToString(n2) == ("test " + NatToString(n2))[5..];
      NatToStringInjective(n1, n2);
    }
  }

  /** When no row has a name cell the rows are "test 1" … "test N". */
  lemma {:induction false} AllUnnamed(rows: seq<Row>, key: string, k: nat)
    requires k < |rows|
    requires forall m :: 0 <= m < |rows| ==> !Truthy(Cell(rows[m], key))
    ensures RowName(rows, k, key) == Str("test " + NatToString(k + 1))
  {
    CountAllUnnamed(rows[..k + 1], key);
  }

  lemma {:induction false} CountAllUnnamed(rows: seq<Row>, key: string)
    requires forall m :: 0 <= m < |rows| ==> !Truthy(Cell(rows[m], key))
    ensures CountUnnamed(rows, key) == |rows|
    decreases |rows|
  {
    if rows != [] {
      CountAllUnnamed(rows[..|rows| - 1], key);
    }
  }

  /** The name column reaches the fixtures only through another column
      whose dotted name starts with it. */
  lemma NameColumnDropped(row: Row, key: string)
    requires forall i :: 0 <= i < |row| && row[i].0 != key ==> Split(row[i].0, '.')[0] != key
    ensures key !in Unflattened(map[], Without(row, key))
  {
    var w := Without(row, key);
    UnflattenedKeys(map[], w);
    if key in FirstSteps(w) {
      var i := FirstStepsFrom(w, key);
    }
  }

  // ---------------------------------------------------------------------
  // Scenario id

  /** One way `^.+-(.+)\..+$` can match `s`: the dash at `d`, the dot at `p`. */
  ghost predicate IdMatch(s: string, d: int, p: int)
  {
    (forall i :: 0 <= i < |s| ==> !IsLineTerminator(s[i]))
    && 1 <= d && d + 2 <= p && p + 2 <= |s| && s[d] == '-' && s[p] == '.'
  }

  /** The match the regular expression reports: its greedy first `.+` takes
      the last possible dash, then its greedy group the last possible dot. */
  ghost predicate GreedyIdMatch(s: string, d: int, p: int)
  {
    IdMatch(s, d, p) && forall d', p' :: IdMatch(s, d', p') ==> d' < d || (d' == d && p' <= p)
  }

  /** The scenario id: group 1 of `^.+-(.+)\..+$`, found from the last
      dot before the final character and the last dash before it. */
  function ScenarioId(filename: string): (r: Option<string>)
    ensures r.Some? ==> r.value != ""
  {
    var s := filename;
    if !SingleLine(s) then None
    else if |s| < 2 then None
    else
      var p := LastIndexOf(s[..|s| - 1], '.');
      if p < 3 then None
      else
        var d := LastIndexOf(s[..p - 1], '-');
        if d < 1 then None else Some(s[d + 1..p])
  }

  /** No character of `s` is a line terminator. */
  predicate SingleLine(s: string)
    decreases |s|
  {
    |s| == 0 || (!IsLineTerminator(s[0]) && SingleLine(s[1..]))
  }

  lemma {:induction false} SingleLineAll(s: string)
    ensures SingleLine(s) <==> forall i :: 0 <= i < |s| ==> !IsLineTerminator(s[i])
    decreases |s|
  {
    if |s| > 0 {
      SingleLineAll(s[1..]);
      assert forall i :: 1 <= i < |s| ==> s[i] == s[1..][i - 1];
    }
  }

  /** Every match lies at or before the dot and the dash `ScenarioId` picks. */
  lemma {:induction false} MatchBounded(s: string, d: int, p: int)
    requires IdMatch(s, d, p)
    ensures |s| >= 2 && p <= LastIndexOf(s[..|s| - 1], '.')
    ensures var q := LastIndexOf(s[..|s| - 1], '.'); d <= LastIndexOf(s[..q - 1], '-')
  {
    assert s[..|s| - 1][p] == '.';
    var q := LastIndexOf(s[..|s| - 1], '.');
    assert s[..q - 1][d] == '-';
  }

  /** `ScenarioId` is the regular expression's group: there is none exactly
      when nothing matches, and otherwise it lies between the greedy
      match's dash and dot. */
  lemma {:induction false} ScenarioIdGreedy(filename: string)
    ensures ScenarioId(filename).None? <==> forall d, p :: !IdMatch(filename, d, p)
    ensures ScenarioId(filename).Some? ==>
      exists d, p :: GreedyIdMatch(filename, d, p) && ScenarioId(filename).value == filename[d + 1..p]
  {
    var s := filename;
    SingleLineAll(s);
    if ScenarioId(s).Some? {
      var p := LastIndexOf(s[..|s| - 1], '.');
      var d := LastIndexOf(s[..p - 1], '-');
      assert IdMatch(s, d, p);
      forall d', p' | IdMatch(s, d', p') ensures d' < d || (d' == d && p' <= p) {
        MatchBounded(s, d', p');
      }
      assert GreedyIdMatch(s, d, p);
    } else if exists d, p :: IdMatch(s, d, p) {
      var d, p :| IdMatch(s, d, p);
      MatchBounded(s, d, p);
      assert false;
    }
  }

  lemma ExampleOneLine()
    ensures SingleLine("fixtures-request.csv")
  {
    var s := "fixtures-request.csv";
    assert forall i :: 0 <= i < |s| ==> !IsLineTerminator(s[i]);
    SingleLineAll(s);
  }

  /** The file-name example of the format's documentation. */
  lemma ScenarioIdExample()
    ensures ScenarioId("fixtures-request.csv") == Some("request")
  {
    var s := "fixtures-request.csv";
    ExampleOneLine();
    ExampleDot();
    ExampleDash();
    ExampleId();
  }

  lemma ExampleId()
    ensures "fixtures-request.csv"[9..16] == "request"
  {
  }

  lemma ExampleDot()
    ensures LastIndexOf("fixtures-request.csv"[..19], '.') == 16
  {
    var s := "fixtures-request.csv"[..19];
    assert s[16] == '.' && s[17] != '.' && s[18] != '.';
  }

  lemma ExampleDash()
    ensures LastIndexOf("fixtures-request.csv"[..15], '-') == 8
  {
    var s := "fixtures-request.csv"[..15];
    assert s[8] == '-' && forall j :: 8 < j < 15 ==> s[j] != '-';
  }

  /** `loadScenarioClass(filename)`: the id must be present and name a
      module of the scenario directory. */
  function LoadScenarioClass(filename: string, known: string -> bool): (r: Result<string>)
    ensures ScenarioId(filename).None? ==> r == Err(Failure(filename + " does not include scenario id"))
    ensures ScenarioId(filename).Some? && !known(ScenarioId(filename).value) ==>
      r == Err(Failure(ScenarioId(filename).value + " is not a known scenario"))
    ensures r.Ok? ==> ScenarioId(filename) == Some(r.value) && known(r.value)
    ensures r.Err? ==> r.error.Failure?
  {
    match ScenarioId(filename)
    case None => Err(Failure(filename + " does not include scenario id"))
    case Some(id) => if known(id) then Ok(id) else Err(Failure(id + " is not a known scenario"))
  }

  /** The prefix every scenario-loading error gets. */
  const LoadPrefix := "failed to load test scenarii: "

  /** What follows the class lookup in the exported parser: reading the
      file, csv-parse, then `parseFile`; either error is passed on as it is. */
  method ReadScenarios(id: string, nameProperty: string, specPath: string,
                       read: string -> Result<string>, parse: string -> Result<seq<Row>>)
    returns (r: Result<seq<Scenario>>)
    ensures read(specPath).Err? ==> r == Err(read(specPath).error)
    ensures read(specPath).Ok? && parse(read(specPath).value).Err? ==> r == Err(parse(read(specPath).value).error)
    ensures r.Ok? ==>
      read(specPath).Ok? && parse(read(specPath).value).Ok?
      && ParsedRows(r.value, id, parse(read(specPath).value).value, nameProperty)
  {
    var content := read(specPath);
    if content.Err? {
      return Err(content.error);
    }
    var rows := parse(content.value);
    if rows.Err? {
      return Err(rows.error);
    }
    var scenarii := ParseFile(id, rows.value, nameProperty);
    r := Ok(scenarii);
  }

  /** The exported parser. `known` says which ids `require` resolves,
      `nameProperty` gives the class's `nameProperty` key (JavaScript looks
      up `undefined` as the key "undefined"), `read` is `fs.readFile` and
      `parse` is csv-parse. */
  method Load(specPath: string, known: string -> bool, nameProperty: string -> string,
              read: string -> Result<string>, parse: string -> Result<seq<Row>>)
    returns (r: Result<seq<Scenario>>)
    ensures LoadScenarioClass(Basename(specPath), known).Err? ==>
      r == Err(Failure(LoadPrefix + LoadScenarioClass(Basename(specPath), known).error.message))
    ensures LoadScenarioClass(Basename(specPath), known).Ok? && read(specPath).Err? ==>
      r == Err(read(specPath).error)
    ensures (LoadScenarioClass(Basename(specPath), known).Ok? && read(specPath).Ok?
             && parse(read(specPath).value).Err?) ==> r == Err(parse(read(specPath).value).error)
    ensures r.Ok? ==>
      LoadScenarioClass(Basename(specPath), known).Ok? && read(specPath).Ok? && parse(read(specPath).value).Ok?
    ensures r.Ok? ==>
      var id := LoadScenarioClass(Basename(specPath), known).value;
      var rows := parse(read(specPath).value).value;
      ParsedRows(r.value, id, rows, nameProperty(id))
  {
    var cls := LoadScenarioClass(Basename(specPath), known);
    if cls.Err? {
      return Err(Failure(LoadPrefix + cls.error.message));
    }
    r := ReadScenarios(cls.value, nameProperty(cls.value), specPath, read, parse);
  }
}
