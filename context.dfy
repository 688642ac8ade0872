/** The object that flows through an action pipeline, and the wording of
    the chai assertions the actions make about it. */
module ActionContext {
  import opened Outcomes
  import opened Objects

  /** The object every action receives and (on success) returns: its
      fields other than the internal `_ctx`, and `_ctx.stack`, the
      descriptors of the actions applied so far (None while there is no
      `_ctx`). */
  class Context {
    var fields: map<string, Value>
    var stack: Option<seq<string>>

    constructor(fields: map<string, Value>, stack: Option<seq<string>>)
      ensures this.fields == fields && this.stack == stack
    {
      this.fields := fields;
      this.stack := stack;
    }

    /** `args[k]`. */
    function Get(k: string): (v: Value)
      reads this
      ensures k in fields ==> v == fields[k]
      ensures k !in fields ==> v == Undefined
    {
      Field(fields, k)
    }

    /** `args._ctx = args._ctx || {stack: []}; args._ctx.stack.push(step)`:
        exactly one descriptor is appended after the existing ones. */
    method Push(step: string)
      modifies this
      ensures fields == old(fields)
      ensures stack == Some(Entries(old(stack)) + [step])
    {
      stack := Some(Entries(stack) + [step]);
    }

    /** `args._ctx = args._ctx || {stack: []}` alone: the stack exists,
        with the steps it had. */
    method Open()
      modifies this
      ensures fields == old(fields)
      ensures stack == Some(Entries(old(stack)))
    {
      stack := Some(Entries(stack));
    }

    /** `args[k] = v`. */
    method Set(k: string, v: Value)
      modifies this
      ensures fields == old(fields)[k := v] && stack == old(stack)
    {
      fields := fields[k := v];
    }

    /** How the object is shown in a message: its fields, with `_ctx`
        when there is a stack. */
    function AsValue(): (v: Value)
      reads this
      ensures v == Shown(fields, stack)
    {
      Shown(fields, stack)
    }
  }

  /** The object with these fields and this stack, as a message shows it. */
  function Shown(fields: map<string, Value>, stack: Option<seq<string>>): (v: Value)
    ensures v.Obj?
    ensures stack.None? ==> v.fields == fields
    ensures stack.Some? ==> "_ctx" in v.fields && v.fields - {"_ctx"} == fields - {"_ctx"}
  {
    match stack
    case None => Obj(fields)
    case Some(steps) => Obj(fields["_ctx" := Obj(map["stack" := Arr(seq(|steps|, i requires 0 <= i < |steps| => Str(steps[i])))])])
  }

  /** The promise an action builds from a value: a value that is not a
      function is wrapped as `{content: v}`; a function is called with `{}`,
      and its promise settles as `resolved`. */
  function Resolve(v: Value, resolved: Result<Value>): (r: Result<Value>)
    ensures !v.Func? ==> r == Ok(Obj(map["content" := v]))
    ensures v.Func? ==> r == resolved
  {
    if v.Func? then resolved else Ok(Obj(map["content" := v]))
  }

  /** The body resolved, then `result.content` taken, in the one `then`
      where the actions read it. */
  function ContentOf(v: Value, resolved: Result<Value>): (r: Result<Value>)
    ensures !v.Func? ==> r == Ok(v)
    ensures v.Func? && resolved.Err? ==> r == resolved
    ensures v.Func? && resolved.Ok? && resolved.value == Undefined ==>
      r == Err(Failure(CannotRead("content", "undefined")))
    ensures v.Func? && resolved.Ok? && resolved.value == Null ==>
      r == Err(Failure(CannotRead("content", "null")))
    ensures v.Func? && resolved.Ok? && resolved.value != Undefined && resolved.value != Null ==>
      r == Ok(Prop(resolved.value, "content"))
  {
    match Resolve(v, resolved)
    case Err(e) => Err(e)
    case Ok(result) => ReadProperty(result, "content")
  }

  /** A function whose promise yields `{content: v}` stands for `v` itself,
      and only a function body can make the body fail. */
  lemma {:induction false} PromisedContent(f: Value, v: Value, resolved: Result<Value>)
    requires f.Func? && !v.Func?
    ensures ContentOf(f, Ok(Obj(map["content" := v]))) == ContentOf(v, resolved) == Ok(v)
    ensures ContentOf(v, resolved).Ok?
  {
    assert Prop(Obj(map["content" := v]), "content") == v;
  }

  // ---------------------------------------------------------------------
  // chai wording; `inspect` is chai's rendering of a value

  /** A failed `expect(target, message)...`: the message, a colon, then
      what was expected. */
  function Failed(message: string, detail: string): string
  {
    message + ": " + detail
  }

  /** `.to.have.property(name)`. */
  function NoProperty(target: Value, name: string, inspect: Value -> string): string
  {
    "expected " + inspect(target) + " to have a property '" + name + "'"
  }

  /** `.that.equals(expected)`. */
  function NotEqual(actual: Value, expected: Value, inspect: Value -> string): string
  {
    "expected " + inspect(actual) + " to equal " + inspect(expected)
  }

  /** `.to.include(element)`. */
  function NotIncluded(actual: Value, element: Value, inspect: Value -> string): string
  {
    "expected " + inspect(actual) + " to include " + inspect(element)
  }

  /** `.to.match(pattern)`. */
  function NoMatch(actual: Value, pattern: Value, inspect: Value -> string): string
  {
    "expected " + inspect(actual) + " to match " + inspect(pattern)
  }

  /** `.to.be.an.instanceOf(Document)`. */
  function NotDocument(actual: Value, inspect: Value -> string): string
  {
    "expected " + inspect(actual) + " to be an instance of Document"
  }
}
