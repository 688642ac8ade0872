/** `src/actions/render.js`: a template, given as a string or as a
    promise of `{content}`, rendered with the context's `data` into its
    `content`. The template engine is the parameter `compile`. */
module RenderAction {
  import opened Outcomes
  import opened Text
  import opened Objects
  import opened ActionContext

  /** `Joi.object({then: Joi.func().required()}).unknown()`: a thenable. */
  predicate Thenable(v: Value)
  {
    v.Obj? && Field(v.fields, "then").Func?
  }

  /** The check made when the action is built: a non-empty string or a
      thenable. */
  function Construct(content: Value): (r: Result<Value>)
    ensures r.Ok? <==> JoiString(content) || Thenable(content)
    ensures r.Ok? ==> r.value == content
    ensures r.Err? ==> r.error == Invalid("render action")
  {
    if JoiString(content) || Thenable(content) then Ok(content) else Err(Invalid("render action"))
  }

  /** The step a rendering pushes: "render template", followed by the
      basename of `path` when there is one; `basename` throws on a truthy
      path that is not a string. */
  function Descriptor(path: Value, inspect: Value -> string): (r: Result<string>)
    ensures !Truthy(path) ==> r == Ok("render template")
    ensures Truthy(path) && path.Str? ==> r == Ok("render template " + Basename(path.s))
    ensures Truthy(path) && !path.Str? ==> r == Err(Failure(PathNotString(path, inspect)))
  {
    if !Truthy(path) then Ok("render template")
    else if path.Str? then Ok("render template " + Basename(path.s))
    else Err(Failure(PathNotString(path, inspect)))
  }

  /** `args.data || {}`. */
  function DataOf(data: Value): (d: Value)
    ensures Truthy(data) ==> d == data
    ensures !Truthy(data) ==> d == Obj(map[])
  {
    if Truthy(data) then data else Obj(map[])
  }

  /** The template text: the string itself, or the `content` of what the
      thenable settles with (`resolved`); a thenable that settles with
      undefined or null makes `result.content` throw. */
  function Template(content: Value, resolved: Result<Value>): (r: Result<Value>)
    ensures content.Str? ==> r == Ok(content)
    ensures !content.Str? && resolved.Ok? ==> r == ReadProperty(resolved.value, "content")
    ensures !content.Str? && resolved.Ok? && (resolved.value == Undefined || resolved.value == Null) ==> r.Err?
    ensures !content.Str? && resolved.Err? ==> r == resolved
  {
    if content.Str? then Ok(content)
    else match resolved
      case Ok(v) => ReadProperty(v, "content")
      case Err(e) => Err(e)
  }

  /** The returned function on a context, which exists only once
      `Construct` accepted `content`: one step is pushed (the stack is
      created first, so a `path` that is not a string leaves it created but
      unchanged), then the template is compiled with the data and becomes
      `content`; no other field changes. */
  method Apply(content: Value, args: Context, resolved: Result<Value>, compile: (Value, Value) -> Result<Value>,
               inspect: Value -> string) returns (r: Result<Context>)
    requires Construct(content).Ok?
    modifies args
    ensures var d := Descriptor(old(args.Get("path")), inspect);
      && (d.Err? ==> r == Err(d.error) && args.stack == Some(Entries(old(args.stack))) && args.fields == old(args.fields))
      && (d.Ok? ==> args.stack == Some(Entries(old(args.stack)) + [d.value]))
    ensures Descriptor(old(args.Get("path")), inspect).Ok? && Template(content, resolved).Err? ==>
      r == Err(Template(content, resolved).error) && args.fields == old(args.fields)
    ensures Descriptor(old(args.Get("path")), inspect).Ok? && Template(content, resolved).Ok? ==>
      var out := compile(Template(content, resolved).value, DataOf(old(args.Get("data"))));
      && (out.Err? ==> r == Err(out.error) && args.fields == old(args.fields))
      && (out.Ok? ==> r == Ok(args) && args.fields == old(args.fields)["content" := out.value])
  {
    args.Open();
    var d := Descriptor(args.Get("path"), inspect);
    if d.Err? {
      return Err(d.error);
    }
    args.Push(d.value);
    var template := Template(content, resolved);
    if template.Err? {
      return Err(template.error);
    }
    var out := compile(template.value, DataOf(args.Get("data")));
    if out.Err? {
      return Err(out.error);
    }
    args.Set("content", out.value);
    r := Ok(args);
  }

  /** The descriptor of the tests: a path gives its basename. */
  lemma {:induction false} DescriptorOfFile(inspect: Value -> string)
    ensures Descriptor(Str("req1.txt"), inspect) == Ok("render template req1.txt")
  {
    assert '/' !in "req1.txt";
    assert "render template " + "req1.txt" == "render template req1.txt";
  }

  /** Without a path the step is the bare descriptor; a path that is not
      a string fails with Node's message, e.g. "Path must be a string.
      Received 1" for the number 1. */
  lemma {:induction false} DescriptorWithoutPath(inspect: Value -> string)
    requires inspect(Num(1)) == "1"
    ensures Descriptor(Undefined, inspect) == Ok("render template")
    ensures Descriptor(Str(""), inspect) == Ok("render template")
    ensures Descriptor(Num(1), inspect) == Err(Failure("Path must be a string. Received 1"))
  {
    assert "Path must be a string. Received " + "1" == "Path must be a string. Received 1";
  }

  /** Object data is passed as it is; absent data as `{}`. */
  lemma {:induction false} DataDefault(data: Value)
    ensures DataOf(Undefined) == Obj(map[])
    ensures JoiObject(data) ==> DataOf(data) == data
  {
    if JoiObject(data) {
      match data
      case Obj(_) =>
      case Document(_) =>
      case RegExp(_) =>
    }
  }
}
