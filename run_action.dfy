/** `src/actions/run.js`: the entry point of a pipeline, which checks its
    arguments when it is built and then calls the function with its data. */
module RunAction {
  import opened Outcomes
  import opened Objects

  /** The arguments `run(fn, data)` accepts: a function, and data that is
      absent or an object. */
  predicate Accepts(fn: Value, data: Value)
  {
    fn.Func? && (data == Undefined || JoiObject(data))
  }

  /** `run(fn, data)`: refused arguments throw at once; otherwise the
      promise settles as `fn(data || {})` does. */
  function Run(fn: Value, data: Value, call: (nat, Value) -> Result<Value>): (r: Result<Value>)
    ensures !Accepts(fn, data) ==> r == Err(Invalid("run action"))
    ensures Accepts(fn, data) && data == Undefined ==> r == call(fn.fn, Obj(map[]))
    ensures Accepts(fn, data) && data != Undefined ==> r == call(fn.fn, data)
  {
    if !Accepts(fn, data) then Err(Invalid("run action"))
    else call(fn.fn, if Truthy(data) then data else Obj(map[]))
  }

  /** Every value `Joi.object()` accepts is truthy, so `data || {}` only
      replaces absent data. */
  lemma {:induction false} ObjectsAreTruthy(data: Value)
    requires JoiObject(data)
    ensures Truthy(data)
  {
    match data
    case Obj(_) =>
    case Document(_) =>
    case RegExp(_) =>
  }

  /** A function that returns its argument, run without data, yields `{}`;
      run with data, it yields that data. */
  lemma {:induction false} IdentityFunction(f: nat, data: Value, call: (nat, Value) -> Result<Value>)
    requires forall v :: call(f, v) == Ok(v)
    ensures Run(Func(f), Undefined, call) == Ok(Obj(map[]))
    ensures JoiObject(data) ==> Run(Func(f), data, call) == Ok(data)
  {
  }

  /** Neither a missing function, a non-function nor non-object data is
      accepted. */
  lemma {:induction false} RefusedArguments(f: nat, call: (nat, Value) -> Result<Value>)
    ensures Run(Undefined, Undefined, call).Err?
    ensures Run(Obj(map[]), Undefined, call).Err?
    ensures Run(Func(f), Bool(true), call) == Err(Invalid("run action"))
  {
  }
}
