/** `src/actions/request.js`: an HTTP request made with options checked
    when the action is built. The HTTP client is the parameter `send`, body
    serialization and response parsing are parameters too. */
module RequestAction {
  import opened Outcomes
  import Text
  import opened Objects
  import opened ActionContext
  import opened Http

  /** The option keys the schema knows; any other key is refused. */
  const Keys: set<string> := {"url", "method", "body", "headers", "followRedirect"}

  /** `Joi.string().required().regex(/^https?:\/\//)`. */
  predicate UrlOk(v: Value)
  {
    v.Str? && ("http://" <= v.s || "https://" <= v.s)
  }

  /** What the option schema accepts in an object. */
  predicate Accepts(fields: map<string, Value>)
  {
    && fields.Keys <= Keys
    && UrlOk(Field(fields, "url"))
    && MethodOk(Field(fields, "method"))
    && BodyOk(Field(fields, "body"))
    && HeadersOk(Field(fields, "headers"))
    && (Field(fields, "followRedirect") == Undefined || JoiBoolean(Field(fields, "followRedirect")))
  }

  /** The options once checked, with their defaults applied. */
  datatype Options = Options(url: string, verb: string, body: Value, headers: map<string, Value>, followRedirect: bool)

  /** `Joi.assert(opt, schema, 'request action')`: no options at all pass
      (None), an object the schema accepts gives its options, anything
      else is refused. */
  function Construct(opt: Value): (r: Result<Option<Options>>)
    ensures r == Ok(None) <==> opt == Undefined
    ensures r.Ok? <==> opt == Undefined || (opt.Obj? && Accepts(opt.fields))
    ensures r.Ok? && r.value.Some? ==>
      var o := r.value.value;
      && Str(o.url) == opt.fields["url"]
      && o.verb == MethodOf(Field(opt.fields, "method")) && o.verb in Methods
      && o.body == Field(opt.fields, "body")
      && o.headers == CallerHeaders(Field(opt.fields, "headers"))
      && (o.followRedirect <==> Truthy(Field(opt.fields, "followRedirect")))
    ensures r.Err? ==> r.error == Invalid("request action")
  {
    if opt == Undefined then Ok(None)
    else if opt.Obj? && Accepts(opt.fields) then
      Ok(Some(Options(opt.fields["url"].s, MethodOf(Field(opt.fields, "method")), Field(opt.fields, "body"),
                      CallerHeaders(Field(opt.fields, "headers")), Truthy(Field(opt.fields, "followRedirect")))))
    else Err(Invalid("request action"))
  }

  /** The content type sent when the caller gives none: the body's own,
      or `text/plain`. */
  function DefaultType(content: Value): (t: string)
    ensures content.Document? ==> t == "application/xml"
    ensures IsObjectLike(content) && !content.Document? ==> t == "application/json"
    ensures !IsObjectLike(content) ==> t == "text/plain"
  {
    match Encoding(content)
    case Some(t) => t
    case None => "text/plain"
  }

  /** The request handed to the client for a resolved body. */
  function RequestFor(opt: Options, content: Value, serialize: Value -> Value, stringify: Value -> Value): (o: Outgoing)
    ensures o.verb == opt.verb && o.url == opt.url && o.followRedirect == opt.followRedirect
    ensures o.body == Encoded(content, serialize, stringify)
    ensures o.headers.Keys == opt.headers.Keys + {"content-type"}
    ensures forall k :: k in opt.headers ==> o.headers[k] == opt.headers[k]
    ensures "content-type" !in opt.headers ==> o.headers["content-type"] == Str(DefaultType(content))
  {
    Outgoing(opt.verb, opt.url, opt.followRedirect,
             MergeHeaders(map["content-type" := Str(DefaultType(content))], opt.headers),
             Encoded(content, serialize, stringify))
  }

  /** The context's fields once a response arrived: its status code and
      headers, and the parsed body when parsing succeeded. */
  function Answered(fields: map<string, Value>, resp: Incoming, parsed: Result<Value>): map<string, Value>
  {
    var answered := fields["code" := Num(resp.status)]["headers" := Obj(resp.headers)];
    if parsed.Ok? then answered["content" := parsed.value] else answered
  }

  /** The returned function. Missing options fail before anything is
      pushed; otherwise one step is pushed, the body resolved, the request
      sent, and the response recorded and parsed. Whatever fails first is
      the error. */
  method Apply(opt: Option<Options>, args: Context, resolved: Result<Value>, serialize: Value -> Value,
               stringify: Value -> Value, send: Outgoing -> Result<Incoming>, parsers: Parsers)
    returns (r: Result<Context>, sent: Option<Outgoing>)
    modifies args
    ensures opt.None? ==>
      && r == Err(Failure(CannotRead("method", "undefined"))) && sent.None?
      && args.fields == old(args.fields) && args.stack == old(args.stack)
    ensures opt.Some? ==> args.stack == Some(Entries(old(args.stack)) + ["request " + opt.value.url])
    ensures opt.Some? ==> (sent.Some? <==> ContentOf(opt.value.body, resolved).Ok?)
    ensures opt.Some? && sent.None? ==>
      r == Err(ContentOf(opt.value.body, resolved).error) && args.fields == old(args.fields)
    ensures sent.Some? ==>
      opt.Some? && sent.value == RequestFor(opt.value, ContentOf(opt.value.body, resolved).value, serialize, stringify)
    ensures sent.Some? && send(sent.value).Err? ==>
      r == Err(send(sent.value).error) && args.fields == old(args.fields)
    ensures sent.Some? && send(sent.value).Ok? ==>
      var resp := send(sent.value).value;
      var parsed := Decoded(resp, parsers);
      && args.fields == Answered(old(args.fields), resp, parsed)
      && (parsed.Err? ==> r == Err(parsed.error))
      && (parsed.Ok? ==> r == Ok(args))
  {
    sent := None;
    if opt.None? {
      return Err(Failure(CannotRead("method", "undefined"))), None;
    }
    var o := opt.value;
    args.Push("request " + o.url);
    var content := ContentOf(o.body, resolved);
    if content.Err? {
      return Err(content.error), None;
    }
    var out := RequestFor(o, content.value, serialize, stringify);
    sent := Some(out);
    var response := send(out);
    if response.Err? {
      return Err(response.error), sent;
    }
    var resp := response.value;
    args.Set("code", Num(resp.status));
    args.Set("headers", Obj(resp.headers));
    var parsed := Decoded(resp, parsers);
    if parsed.Err? {
      return Err(parsed.error), sent;
    }
    args.Set("content", parsed.value);
    r := Ok(args);
  }

  /** The caller's headers are sent as given, and a content type of the
      caller's overrides the default one; without one, an object body goes
      out as JSON, a Document as XML and anything else as plain text. */
  lemma {:induction false} ContentTypeChoice(opt: Options, content: Value, serialize: Value -> Value, stringify: Value -> Value)
    ensures var o := RequestFor(opt, content, serialize, stringify);
      && (forall k :: k in opt.headers ==> k in o.headers && o.headers[k] == opt.headers[k])
      && ("content-type" in opt.headers ==> o.headers["content-type"] == opt.headers["content-type"])
      && ("content-type" !in opt.headers && content.Obj? ==> o.headers["content-type"] == Str("application/json"))
      && ("content-type" !in opt.headers && content.Document? ==> o.headers["content-type"] == Str("application/xml"))
      && ("content-type" !in opt.headers && content.Str? ==> o.headers["content-type"] == Str("text/plain"))
  {
  }

  /** Options without `method` or `followRedirect` send a GET that does not
      follow redirections. */
  lemma {:induction false} Defaults(url: string)
    requires "http://" <= url
    ensures Construct(Obj(map["url" := Str(url)])).Ok?
    ensures var o := Construct(Obj(map["url" := Str(url)])).value.value;
      o.verb == "GET" && !o.followRedirect && o.headers == map[] && o.body == Undefined
  {
    var f := map["url" := Str(url)];
    assert Field(f, "method") == Undefined && Field(f, "body") == Undefined;
    assert Field(f, "headers") == Undefined && Field(f, "followRedirect") == Undefined;
    assert Accepts(f);
  }

  /** Joi accepts the text `"false"` as a boolean, but the options keep the
      text, which is truthy: the request then follows redirections. */
  lemma {:induction false} FalseTextFollowsRedirects(url: string)
    requires "http://" <= url
    ensures var r := Construct(Obj(map["url" := Str(url), "followRedirect" := Str("false")]));
      r.Ok? && r.value.Some? && r.value.value.followRedirect
  {
    var f := map["url" := Str(url), "followRedirect" := Str("false")];
    Text.LowerUnchanged("false");
    assert JoiBoolean(Field(f, "followRedirect"));
    assert Field(f, "method") == Undefined && Field(f, "body") == Undefined && Field(f, "headers") == Undefined;
    assert Accepts(f);
  }

  /** A url without scheme, and an unknown option, are refused. */
  lemma {:induction false} Refused()
    ensures Construct(Obj(map["url" := Str("localhost")])) == Err(Invalid("request action"))
    ensures Construct(Obj(map["url" := Str("http://a"), "timeout" := Num(1)])) == Err(Invalid("request action"))
  {
    assert !("https://" <= "localhost") by { assert "localhost"[0] != "https://"[0]; }
    assert !("http://" <= "localhost") by { assert "localhost"[0] != "http://"[0]; }
    assert "timeout" in map["url" := Str("http://a"), "timeout" := Num(1)].Keys;
  }
}
