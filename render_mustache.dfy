/** `src/actions/render-mustache.js`: the options object is itself the
    context; its `content` template is compiled with its `data` and
    replaced by the rendered text. The template engine is the parameter
    `compile`. */
module RenderMustache {
  import opened Outcomes
  import opened Objects
  import opened ActionContext
  import RenderAction

  /** `Joi.object().keys({content: Joi.string().required(), data: Joi.object()}).unknown()`. */
  predicate Accepts(fields: map<string, Value>)
  {
    JoiString(Field(fields, "content")) && (Field(fields, "data") == Undefined || JoiObject(Field(fields, "data")))
  }

  /** The action on its options (null when none were given, which the
      schema lets through until `opt._ctx` is read). Options the schema
      refuses are left untouched; accepted ones get one step pushed and
      their `content` compiled; no other field changes, and in particular
      `data` and `path` are neither added nor replaced. */
  method Apply(opt: Context?, compile: (Value, Value) -> Result<Value>, inspect: Value -> string) returns (r: Result<Context>)
    modifies opt
    ensures opt == null ==> r == Err(Failure(CannotRead("_ctx", "undefined")))
    ensures opt != null && !Accepts(old(opt.fields)) ==>
      r == Err(Invalid("")) && opt.fields == old(opt.fields) && opt.stack == old(opt.stack)
    ensures opt != null && Accepts(old(opt.fields)) ==>
      var d := RenderAction.Descriptor(old(opt.Get("path")), inspect);
      && (d.Err? ==> r == Err(d.error) && opt.stack == Some(Entries(old(opt.stack))) && opt.fields == old(opt.fields))
      && (d.Ok? ==> opt.stack == Some(Entries(old(opt.stack)) + [d.value]))
      && (d.Ok? ==>
            var out := compile(old(opt.fields)["content"], RenderAction.DataOf(old(opt.Get("data"))));
            && (out.Err? ==> r == Err(out.error) && opt.fields == old(opt.fields))
            && (out.Ok? ==> r.Ok? && r.value == opt && opt.fields == old(opt.fields)["content" := out.value]))
  {
    if opt == null {
      return Err(Failure(CannotRead("_ctx", "undefined")));
    }
    if !Accepts(opt.fields) {
      return Err(Invalid(""));
    }
    opt.Open();
    var d := RenderAction.Descriptor(opt.Get("path"), inspect);
    if d.Err? {
      return Err(d.error);
    }
    opt.Push(d.value);
    var out := compile(opt.fields["content"], RenderAction.DataOf(opt.Get("data")));
    if out.Err? {
      return Err(out.error);
    }
    opt.Set("content", out.value);
    r := Ok(opt);
  }

  /** The refusals of the tests: no content, a content that is not a
      string, data that is not an object. */
  lemma {:induction false} Refusals()
    ensures !Accepts(map[])
    ensures !Accepts(map["content" := Bool(true)])
    ensures !Accepts(map["content" := Str("!"), "data" := Bool(true)])
    ensures Accepts(map["content" := Str("!"), "other" := Num(1)])
  {
    assert Field(map["content" := Str("!"), "data" := Bool(true)], "data") == Bool(true);
    assert Field(map["content" := Str("!"), "other" := Num(1)], "data") == Undefined;
  }
}
