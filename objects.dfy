/** The value model of the runner's data and the helpers of
    `src/utils/object.js`: type names, dotted-path assignment and the
    assertion-message prefix. */
module Objects {
  import opened Outcomes
  import opened Text

  /** A JavaScript value. Numbers are integers; a parsed XML document, a
      function and a regular expression are opaque, told apart by an id. */
  datatype Value =
    | Undefined
    | Null
    | Bool(b: bool)
    | Num(n: int)
    | Str(s: string)
    | Arr(items: seq<Value>)
    | Obj(fields: map<string, Value>)
    | Document(doc: nat)
    | Func(fn: nat)
    | RegExp(re: nat)

  /** `getType`: the lower-cased tag of `Object.prototype.toString`. A
      Document is a class instance, tagged like a plain object. */
  function GetType(v: Value): (r: string)
    ensures r == "object" <==> v.Obj? || v.Document?
    ensures r == "array" <==> v.Arr?
    ensures r == "string" <==> v.Str?
    ensures r == "number" <==> v.Num?
    ensures r == "boolean" <==> v.Bool?
    ensures r == "function" <==> v.Func?
    ensures r == "regexp" <==> v.RegExp?
    ensures r == "null" <==> v.Null?
    ensures r == "undefined" <==> v.Undefined?
  {
    match v
    case Undefined => "undefined"
    case Null => "null"
    case Bool(_) => "boolean"
    case Num(_) => "number"
    case Str(_) => "string"
    case Arr(_) => "array"
    case Obj(_) => "object"
    case Document(_) => "object"
    case Func(_) => "function"
    case RegExp(_) => "regexp"
  }

  /** JavaScript truthiness (NaN is not modelled). */
  predicate Truthy(v: Value)
  {
    match v
    case Undefined => false
    case Null => false
    case Bool(b) => b
    case Num(n) => n != 0
    case Str(s) => s != ""
    case _ => true
  }

  /** lodash `isObject`: any non-null object or function. */
  predicate IsObjectLike(v: Value)
  {
    v.Arr? || v.Obj? || v.Document? || v.Func? || v.RegExp?
  }

  /** What `Joi.string()` accepts: a string that is not empty. */
  predicate JoiString(v: Value)
  {
    v.Str? && v.s != ""
  }

  /** What `Joi.boolean()` accepts: a boolean, or a string that reads
      `true` or `false` in any case (Joi converts it while validating). */
  predicate JoiBoolean(v: Value)
  {
    v.Bool? || (v.Str? && Lower(v.s) in {"true", "false"})
  }

  /** What `Joi.object()` accepts: an object that is not an array or a function. */
  predicate JoiObject(v: Value)
  {
    v.Obj? || v.Document? || v.RegExp?
  }

  /** Reading `o[k]`: a missing key reads as undefined. */
  function Field(o: map<string, Value>, k: string): (r: Value)
    ensures k !in o ==> r == Undefined
    ensures k in o ==> r == o[k]
  {
    if k in o then o[k] else Undefined
  }

  /** `v[k]` for any value: only plain objects have the keys the runner reads. */
  function Prop(v: Value, k: string): (r: Value)
    ensures v.Obj? ==> r == Field(v.fields, k)
    ensures !v.Obj? ==> r == Undefined
  {
    if v.Obj? then Field(v.fields, k) else Undefined
  }

  /** Whether a key is set to something other than undefined (how Joi and
      `_.merge` see a key). */
  predicate Present(o: map<string, Value>, k: string)
  {
    k in o && o[k] != Undefined
  }

  // ---------------------------------------------------------------------
  // Nested paths

  /** The value reached by following `q` through plain objects. */
  function Lookup(o: map<string, Value>, q: seq<string>): Option<Value>
    requires |q| >= 1
    decreases |q|
  {
    if q[0] !in o then None
    else if |q| == 1 then Some(o[q[0]])
    else if o[q[0]].Obj? then Lookup(o[q[0]].fields, q[1..])
    else None
  }

  /** The object under key `k`, or a fresh `{}` when there is none. */
  function Child(o: map<string, Value>, k: string): (c: map<string, Value>)
    ensures k in o && o[k].Obj? ==> c == o[k].fields
    ensures !(k in o && o[k].Obj?) ==> c == map[]
  {
    if k in o && o[k].Obj? then o[k].fields else map[]
  }

  /** The object `o` becomes once `value` is stored at the end of `path`:
      every step that is not an object becomes a fresh `{}`. */
  function SetPath(o: map<string, Value>, path: seq<string>, value: Value): map<string, Value>
    requires |path| >= 1
    decreases |path|
  {
    if |path| == 1 then o[path[0] := value]
    else o[path[0] := Obj(SetPath(Child(o, path[0]), path[1..], value))]
  }

  /** After the assignment the path leads to the value stored. */
  lemma {:induction false} SetPathLookup(o: map<string, Value>, path: seq<string>, value: Value)
    requires |path| >= 1
    ensures Lookup(SetPath(o, path, value), path) == Some(value)
    decreases |path|
  {
    if |path| > 1 {
      SetPathLookup(Child(o, path[0]), path[1..], value);
    }
  }

  /** `q` leaves `path` at some step both of them have. */
  predicate Diverges(q: seq<string>, path: seq<string>)
  {
    exists i :: 0 <= i < |q| && i < |path| && q[i] != path[i]
  }

  /** Every path that branches off the assigned one reads as before, at
      every depth: siblings of each step are kept. */
  lemma {:induction false} SetPathKeepsOthers(o: map<string, Value>, path: seq<string>, value: Value, q: seq<string>)
    requires |path| >= 1 && |q| >= 1 && Diverges(q, path)
    ensures Lookup(SetPath(o, path, value), q) == Lookup(o, q)
    decreases |path|
  {
    if q[0] == path[0] {
      var i :| 0 <= i < |q| && i < |path| && q[i] != path[i];
      assert i >= 1;
      assert q[1..][i - 1] != path[1..][i - 1];
      SetPathKeepsOthers(Child(o, path[0]), path[1..], value, q[1..]);
    }
  }

  /** A step that did not hold an object now holds one whose only key is
      the next step. */
  lemma {:induction false} SetPathFreshSteps(o: map<string, Value>, path: seq<string>, value: Value, j: nat)
    requires j + 1 < |path|
    requires Lookup(o, path[..j + 1]).None? || !Lookup(o, path[..j + 1]).value.Obj?
    ensures var n := Lookup(SetPath(o, path, value), path[..j + 1]);
      n.Some? && n.value.Obj? && n.value.fields.Keys == {path[j + 1]}
    decreases j
  {
    var c := Child(o, path[0]);
    if j == 0 {
      assert path[..1] == [path[0]];
      if |path| > 2 {
        assert path[1..][..1] == [path[1]];
      }
    } else {
      assert path[1..][..j] == path[..j + 1][1..];
      SetPathFreshSteps(c, path[1..], value, j - 1);
    }
  }

  /** A key without a dot is a plain assignment. */
  lemma SetPathNoDot(o: map<string, Value>, key: string, value: Value)
    requires '.' !in key
    ensures SetPath(o, Split(key, '.'), value) == o[key := value]
  {
  }

  // ---------------------------------------------------------------------
  // setProp, step by step

  /** `p` leads from `o` through plain objects only. */
  ghost predicate ObjectsAlong(o: map<string, Value>, p: seq<string>)
    decreases |p|
  {
    p == [] || (p[0] in o && o[p[0]].Obj? && ObjectsAlong(o[p[0]].fields, p[1..]))
  }

  /** The object at the end of `p`: what a variable holding that nested
      object refers to. */
  function At(o: map<string, Value>, p: seq<string>): map<string, Value>
    requires ObjectsAlong(o, p)
    decreases |p|
  {
    if p == [] then o else At(o[p[0]].fields, p[1..])
  }

  /** `o` with the object at the end of `p` replaced by `m`: a write through
      a variable that aliases that nested object. */
  function Replace(o: map<string, Value>, p: seq<string>, m: map<string, Value>): map<string, Value>
    requires ObjectsAlong(o, p)
    decreases |p|
  {
    if p == [] then m else o[p[0] := Obj(Replace(o[p[0]].fields, p[1..], m))]
  }

  lemma {:induction false} ReplaceAt(o: map<string, Value>, p: seq<string>, m: map<string, Value>)
    requires ObjectsAlong(o, p)
    ensures ObjectsAlong(Replace(o, p, m), p) && At(Replace(o, p, m), p) == m
    decreases |p|
  {
    if p != [] {
      ReplaceAt(o[p[0]].fields, p[1..], m);
    }
  }

  lemma {:induction false} ReplaceSame(o: map<string, Value>, p: seq<string>)
    requires ObjectsAlong(o, p)
    ensures Replace(o, p, At(o, p)) == o
    decreases |p|
  {
    if p != [] {
      ReplaceSame(o[p[0]].fields, p[1..]);
    }
  }

  lemma {:induction false} ReplaceTwice(o: map<string, Value>, p: seq<string>, m1: map<string, Value>, m2: map<string, Value>)
    requires ObjectsAlong(o, p)
    ensures ObjectsAlong(Replace(o, p, m1), p)
    ensures Replace(Replace(o, p, m1), p, m2) == Replace(o, p, m2)
    decreases |p|
  {
    ReplaceAt(o, p, m1);
    if p != [] {
      ReplaceTwice(o[p[0]].fields, p[1..], m1, m2);
    }
  }

  lemma {:induction false} ReplaceDeeper(o: map<string, Value>, p: seq<string>, k: string, m: map<string, Value>)
    requires ObjectsAlong(o, p) && k in At(o, p) && At(o, p)[k].Obj?
    ensures ObjectsAlong(o, p + [k])
    ensures At(o, p + [k]) == At(o, p)[k].fields
    ensures Replace(o, p + [k], m) == Replace(o, p, At(o, p)[k := Obj(m)])
    decreases |p|
  {
    if p == [] {
      assert [k][1..] == [];
    } else {
      assert (p + [k])[1..] == p[1..] + [k];
      ReplaceDeeper(o[p[0]].fields, p[1..], k, m);
    }
  }

  /** Storing under `[step] + tail` stores the deeper path in the child
      object at `step`, which `c1` holds. */
  lemma SetPathStep(c0: map<string, Value>, c1: map<string, Value>, step: string, tail: seq<string>, value: Value)
    requires |tail| >= 1
    requires c1 == if step in c0 && c0[step].Obj? then c0 else c0[step := Obj(map[])]
    ensures SetPath(c0, [step] + tail, value) == c1[step := Obj(SetPath(c1[step].fields, tail, value))]
  {
    assert ([step] + tail)[0] == step && ([step] + tail)[1..] == tail;
  }

  /** One non-final step of `setProp` keeps the object it will return. */
  lemma StepKeepsGoal(r0: map<string, Value>, p: seq<string>, c0: map<string, Value>, step: string,
                      tail: seq<string>, value: Value, c1: map<string, Value>, r1: map<string, Value>)
    requires ObjectsAlong(r0, p) && c0 == At(r0, p) && |tail| >= 1
    requires c1 == if step in c0 && c0[step].Obj? then c0 else c0[step := Obj(map[])]
    requires r1 == if step in c0 && c0[step].Obj? then r0 else Replace(r0, p, c1)
    ensures ObjectsAlong(r1, p + [step]) && At(r1, p + [step]) == c1[step].fields
    ensures Replace(r1, p + [step], SetPath(c1[step].fields, tail, value))
         == Replace(r0, p, SetPath(c0, [step] + tail, value))
  {
    var rest := SetPath(c1[step].fields, tail, value);
    SetPathStep(c0, c1, step, tail, value);
    if step in c0 && c0[step].Obj? {
      ReplaceDeeper(r0, p, step, rest);
    } else {
      ReplaceAt(r0, p, c1);
      ReplaceTwice(r0, p, c1, c1[step := Obj(rest)]);
      ReplaceDeeper(r1, p, step, rest);
    }
  }

  /** `setProp(obj, path, value)`: walks the dot-separated steps with a
      variable `current` that aliases the nested object reached so far,
      creating `{}` for every step that does not hold an object, and stores
      `value` under the last step. The object it returns is `SetPath`. */
  method SetProp(obj: map<string, Value>, path: string, value: Value) returns (r: map<string, Value>)
    ensures r == SetPath(obj, Split(path, '.'), value)
  {
    var steps := Split(path, '.');
    ghost var goal := SetPath(obj, steps, value);
    r := obj;
    var current := obj;
    var i := 0;
    while i < |steps|
      invariant 0 <= i <= |steps|
      invariant i < |steps| ==> ObjectsAlong(r, steps[..i]) && current == At(r, steps[..i])
      invariant i < |steps| ==> Replace(r, steps[..i], SetPath(current, steps[i..], value)) == goal
      invariant i == |steps| ==> r == goal
    {
      var step := steps[i];
      var prefix := steps[..i];
      assert steps[i..] == [step] + steps[i + 1..];
      if i + 1 == |steps| {
        // the last step: `current[step] = value`
        ReplaceTwice(r, prefix, SetPath(current, steps[i..], value), current[step := value]);
        r := Replace(r, prefix, current[step := value]);
      } else {
        ghost var r0, c0 := r, current;
        if !(step in current && current[step].Obj?) {
          // `getType(current[step]) !== 'object'`: `current[step] = {}`
          current := current[step := Obj(map[])];
          r := Replace(r, prefix, current);
        }
        StepKeepsGoal(r0, prefix, c0, step, steps[i + 1..], value, current, r);
        assert steps[..i + 1] == prefix + [step];
        current := current[step].fields;
      }
      i := i + 1;
    }
  }

  // ---------------------------------------------------------------------
  // printContext

  /** The steps of a context's stack; no `_ctx` or no stack at all is
      treated as an empty one. */
  function Entries(stack: Option<seq<string>>): (r: seq<string>)
    ensures stack.None? ==> r == []
    ensures stack.Some? ==> r == stack.value
  {
    if stack.Some? then stack.value else []
  }

  /** `printContext(assertion, context)`: the assertion message, preceded by
      "when s1\nthen s2…" when the stack joins to a non-empty text. */
  function PrintContext(assertion: string, stack: Option<seq<string>>): (r: string)
    ensures Join(Entries(stack), "\nthen ") == "" ==> r == "\n" + assertion
    ensures Join(Entries(stack), "\nthen ") != "" ==>
      r == "\nwhen " + Join(Entries(stack), "\nthen ") + "\n" + assertion
  {
    var trace := Join(Entries(stack), "\nthen ");
    "\n" + (if trace != "" then "when " + trace + "\n" else "") + assertion
  }

  /** Whenever at least one step has a name, the message names the steps
      in order and ends with the assertion. */
  lemma {:induction false} PrintContextNamesSteps(assertion: string, steps: seq<string>)
    requires exists i :: 0 <= i < |steps| && steps[i] != ""
    ensures PrintContext(assertion, Some(steps)) == "\nwhen " + Join(steps, "\nthen ") + "\n" + assertion
  {
    var i :| 0 <= i < |steps| && steps[i] != "";
    assert Join(steps, "\nthen ") != "";
  }

  /** The message the first step of a context produces. */
  lemma PrintContextOneStep(assertion: string, step: string)
    requires step != ""
    ensures PrintContext(assertion, Some([step])) == "\nwhen " + step + "\n" + assertion
  {
  }

  /** The TypeError thrown on reading property `name` of `undefined` or
      `null` (`what`). */
  function CannotRead(name: string, what: string): string
  {
    "Cannot read property '" + name + "' of " + what
  }

  /** `v[name]`: reading a property of undefined or null throws a
      TypeError, which names the property and the value; any other value
      yields the property (undefined when it has none). */
  function ReadProperty(v: Value, name: string): (r: Result<Value>)
    ensures v == Undefined ==> r == Err(Failure(CannotRead(name, "undefined")))
    ensures v == Null ==> r == Err(Failure(CannotRead(name, "null")))
    ensures v != Undefined && v != Null ==> r == Ok(Prop(v, name))
  {
    if v == Undefined then Err(Failure(CannotRead(name, "undefined")))
    else if v == Null then Err(Failure(CannotRead(name, "null")))
    else Ok(Prop(v, name))
  }

  /** The TypeError Node's `path` functions throw on a path that is not a
      string; `inspect` is Node's `util.inspect`. */
  function PathNotString(path: Value, inspect: Value -> string): string
  {
    "Path must be a string. Received " + inspect(path)
  }
}
