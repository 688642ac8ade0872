/** `src/actions/run-serial.js`: an array of tasks run one after the other,
    each receiving the previous one's result. A task is a function id; what
    calling it gives (a value or a rejection, whether it returned a promise
    or not) is the parameter `call`. */
module RunSerial {
  import opened Outcomes
  import opened Objects

  /** The function ids of an array of functions, if every item is one. */
  function FunctionIds(items: seq<Value>): (r: Option<seq<nat>>)
    ensures r.Some? <==> forall i :: 0 <= i < |items| ==> items[i].Func?
    ensures r.Some? ==> |r.value| == |items| && forall i :: 0 <= i < |items| ==> items[i] == Func(r.value[i])
  {
    if |items| == 0 then Some([])
    else if !items[0].Func? then None
    else match FunctionIds(items[1..])
      case None => None
      case Some(rest) => Some([items[0].fn] + rest)
  }

  /** `Joi.assert(tasks, Joi.array().items(Joi.func()))`: an array of
      functions is accepted, and so is no argument at all (None). */
  function Validate(tasks: Value): (r: Result<Option<seq<nat>>>)
    ensures r == Ok(None) <==> tasks == Undefined
    ensures r.Ok? <==> tasks == Undefined || (tasks.Arr? && forall i :: 0 <= i < |tasks.items| ==> tasks.items[i].Func?)
    ensures r.Ok? && r.value.Some? ==>
      tasks.Arr? && |r.value.value| == |tasks.items| && forall i :: 0 <= i < |tasks.items| ==> tasks.items[i] == Func(r.value.value[i])
    ensures r.Err? ==> r.error == Invalid("")
  {
    if tasks == Undefined then Ok(None)
    else if !tasks.Arr? then Err(Invalid(""))
    else match FunctionIds(tasks.items)
      case None => Err(Invalid(""))
      case Some(ids) => Ok(Some(ids))
  }

  /** One invocation of a task. */
  datatype Call = Call(task: nat, arg: Value)

  /** `tasks.reduce((cur, next) => cur.then(next)..., start)`: the promise
      the chain settles with when `start` is fulfilled with `input`. */
  function Chain(tasks: seq<nat>, call: (nat, Value) -> Result<Value>, input: Value): (r: Result<Value>)
    decreases |tasks|
  {
    if |tasks| == 0 then Ok(input)
    else match call(tasks[0], input)
      case Err(e) => Err(e)
      case Ok(v) => Chain(tasks[1..], call, v)
  }

  /** The invocations the chain makes, in order. */
  function Calls(tasks: seq<nat>, call: (nat, Value) -> Result<Value>, input: Value): (cs: seq<Call>)
    decreases |tasks|
  {
    if |tasks| == 0 then []
    else if call(tasks[0], input).Err? then [Call(tasks[0], input)]
    else [Call(tasks[0], input)] + Calls(tasks[1..], call, call(tasks[0], input).value)
  }

  /** The returned function: whatever it is given, the first task receives
      undefined. An absent task list fails when the chain is built. */
  function Serial(tasks: Option<seq<nat>>, call: (nat, Value) -> Result<Value>, given: Value): (r: Result<Value>)
    ensures tasks.None? ==> r == Err(Failure(CannotRead("reduce", "undefined")))
    ensures tasks.Some? ==> r == Chain(tasks.value, call, Undefined)
  {
    match tasks
    case None => Err(Failure(CannotRead("reduce", "undefined")))
    case Some(ts) => Chain(ts, call, Undefined)
  }

  /** The tasks run in array order, each at most once; the first receives
      the chain's input and each next one the previous result; once a task
      fails none runs after it and the chain fails with its error; otherwise
      every task ran and the result is the last one's (the input when there
      is no task). */
  lemma {:induction false} ChainRunsInOrder(tasks: seq<nat>, call: (nat, Value) -> Result<Value>, input: Value)
    ensures var cs := Calls(tasks, call, input);
      && |cs| <= |tasks|
      && (forall i :: 0 <= i < |cs| ==> cs[i].task == tasks[i])
      && (|tasks| > 0 ==> |cs| > 0 && cs[0].arg == input)
      && (forall i :: 0 <= i < |cs| - 1 ==> call(cs[i].task, cs[i].arg) == Ok(cs[i + 1].arg))
    ensures var cs := Calls(tasks, call, input); var r := Chain(tasks, call, input);
      && (r.Err? ==> |cs| > 0 && r == call(cs[|cs| - 1].task, cs[|cs| - 1].arg))
      && (r.Ok? ==> |cs| == |tasks|)
      && (r.Ok? && |tasks| == 0 ==> r.value == input)
      && (r.Ok? && |tasks| > 0 ==> r == call(cs[|cs| - 1].task, cs[|cs| - 1].arg))
    decreases |tasks|
  {
    if |tasks| > 0 {
      match call(tasks[0], input)
      case Err(_) =>
      case Ok(v) =>
        ChainRunsInOrder(tasks[1..], call, v);
    }
  }

  /** An empty array yields undefined. */
  lemma NoTaskYieldsUndefined(call: (nat, Value) -> Result<Value>, given: Value)
    ensures Serial(Some([]), call, given) == Ok(Undefined)
  {
  }

  /** Two tasks: the second receives the first's result, and the chain
      yields the second's. */
  lemma {:induction false} TwoTasks(t1: nat, t2: nat, call: (nat, Value) -> Result<Value>, given: Value, v1: Value)
    requires call(t1, Undefined) == Ok(v1)
    ensures Serial(Some([t1, t2]), call, given) == call(t2, v1)
    ensures Calls([t1, t2], call, Undefined) == [Call(t1, Undefined), Call(t2, v1)]
  {
    assert [t1, t2][1..] == [t2];
    assert [t2][1..] == [];
    assert Chain([t1, t2], call, Undefined) == Chain([t2], call, v1);
    assert Calls([t1, t2], call, Undefined) == [Call(t1, Undefined)] + Calls([t2], call, v1);
    match call(t2, v1)
    case Err(_) =>
    case Ok(w) =>
      assert Chain([t2], call, v1) == Chain([], call, w);
      assert Calls([t2], call, v1) == [Call(t2, v1)] + Calls([], call, w);
  }
}
