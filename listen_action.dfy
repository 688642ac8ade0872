/** `src/actions/listen.js`: a server that answers one incoming request
    with a configured reply, then checks the request's path and method and
    records its parsed body and headers. The network is the parameter
    `arrival` (the request that came, or the error the server emitted). */
module ListenAction {
  import opened Outcomes
  import opened Objects
  import opened ActionContext
  import opened Http

  /** The option keys the schema knows; any other key is refused. */
  const Keys: set<string> := {"port", "url", "method", "body", "headers", "code"}

  /** What the option schema accepts in an object. */
  predicate Accepts(fields: map<string, Value>)
  {
    && fields.Keys <= Keys
    && Field(fields, "port").Num?
    && Field(fields, "url").Str? && "/" <= Field(fields, "url").s
    && MethodOk(Field(fields, "method"))
    && BodyOk(Field(fields, "body"))
    && HeadersOk(Field(fields, "headers"))
    && (Field(fields, "code") == Undefined || Field(fields, "code").Num?)
  }

  /** The options once checked, with their defaults applied. */
  datatype Options = Options(port: int, url: string, verb: string, body: Value, headers: map<string, Value>, code: int)

  /** `opt.code || 200`. */
  function StatusOf(v: Value): (c: int)
    ensures v.Num? && v.n != 0 ==> c == v.n
    ensures !(v.Num? && v.n != 0) ==> c == 200
  {
    if v.Num? && v.n != 0 then v.n else 200
  }

  /** `Joi.assert(opt, schema, 'listen action')` followed by `opt.method`:
      missing options pass the schema but fail when the method is read. */
  function Construct(opt: Value): (r: Result<Options>)
    ensures r.Ok? <==> opt.Obj? && Accepts(opt.fields)
    ensures opt == Undefined ==> r == Err(Failure(CannotRead("method", "undefined")))
    ensures opt != Undefined && r.Err? ==> r.error == Invalid("listen action")
    ensures r.Ok? ==>
      && Num(r.value.port) == opt.fields["port"] && Str(r.value.url) == opt.fields["url"]
      && r.value.verb == MethodOf(Field(opt.fields, "method")) && r.value.verb in Methods
      && r.value.body == Field(opt.fields, "body")
      && r.value.headers == CallerHeaders(Field(opt.fields, "headers"))
      && r.value.code == StatusOf(Field(opt.fields, "code"))
  {
    if opt == Undefined then Err(Failure(CannotRead("method", "undefined")))
    else if opt.Obj? && Accepts(opt.fields) then
      Ok(Options(opt.fields["port"].n, opt.fields["url"].s, MethodOf(Field(opt.fields, "method")), Field(opt.fields, "body"),
                 CallerHeaders(Field(opt.fields, "headers")), StatusOf(Field(opt.fields, "code"))))
    else Err(Invalid("listen action"))
  }

  /** The default reply headers for a resolved body: its content type, or
      `text/plain` for any other truthy body, or none. */
  function Defaults(content: Value): (d: map<string, Value>)
    ensures Encoding(content).Some? ==> d == map["content-type" := Str(Encoding(content).value)]
    ensures Encoding(content).None? && Truthy(content) ==> d == map["content-type" := Str("text/plain")]
    ensures Encoding(content).None? && !Truthy(content) ==> d == map[]
  {
    match Encoding(content)
    case Some(t) => map["content-type" := Str(t)]
    case None => if Truthy(content) then map["content-type" := Str("text/plain")] else map[]
  }

  /** The reply the server sends. */
  datatype Reply = Reply(code: int, headers: map<string, Value>, body: Value)

  function ReplyFor(opt: Options, content: Value, serialize: Value -> Value, stringify: Value -> Value): (reply: Reply)
    ensures reply.code == opt.code && reply.body == Encoded(content, serialize, stringify)
    ensures reply.headers.Keys == opt.headers.Keys + Defaults(content).Keys
    ensures forall k :: k in opt.headers ==> reply.headers[k] == opt.headers[k]
  {
    Reply(opt.code, MergeHeaders(Defaults(content), opt.headers), Encoded(content, serialize, stringify))
  }

  /** The server, open from when it is created until it is closed. */
  class Server {
    var listening: bool

    constructor()
      ensures listening
    {
      listening := true;
    }

    /** `server.close()`. */
    method Close()
      modifies this
      ensures !listening
    {
      listening := false;
    }
  }

  /** The checks on the request that came: the path first, then the
      method, then the body is parsed by its content type. */
  function Received(opt: Options, req: Incoming, parsers: Parsers, inspect: Value -> string): (r: Result<Value>)
    ensures r.Ok? ==> req.path == opt.url && req.verb == opt.verb && r == Decoded(req, parsers)
    ensures req.path != opt.url ==>
      r == Err(Failure(Failed("Unexpected url", NotEqual(Str(req.path), Str(opt.url), inspect))))
    ensures req.path == opt.url && req.verb != opt.verb ==>
      r == Err(Failure(Failed("Unexpected method", NotEqual(Str(req.verb), Str(opt.verb), inspect))))
    ensures req.path == opt.url && req.verb == opt.verb ==> r == Decoded(req, parsers)
  {
    if req.path != opt.url then Err(Failure(Failed("Unexpected url", NotEqual(Str(req.path), Str(opt.url), inspect))))
    else if req.verb != opt.verb then Err(Failure(Failed("Unexpected method", NotEqual(Str(req.verb), Str(opt.verb), inspect))))
    else Decoded(req, parsers)
  }

  /** The returned function. One step is pushed and the body resolved;
      then a server is started, and closed again on every path. A request
      that arrives is answered before it is checked. */
  method Apply(opt: Options, args: Context, resolved: Result<Value>, serialize: Value -> Value, stringify: Value -> Value,
               arrival: Result<Incoming>, parsers: Parsers, inspect: Value -> string)
    returns (r: Result<Context>, reply: Option<Reply>, server: Server?)
    modifies args
    ensures args.stack == Some(Entries(old(args.stack)) + ["listen to " + opt.verb + " " + opt.url])
    ensures server != null <==> ContentOf(opt.body, resolved).Ok?
    ensures server != null ==> fresh(server) && !server.listening
    ensures server == null ==> r == Err(ContentOf(opt.body, resolved).error) && reply.None? && args.fields == old(args.fields)
    ensures server != null && arrival.Err? ==> r == Err(arrival.error) && reply.None? && args.fields == old(args.fields)
    ensures server != null && arrival.Ok? ==>
      && reply == Some(ReplyFor(opt, ContentOf(opt.body, resolved).value, serialize, stringify))
      && var got := Received(opt, arrival.value, parsers, inspect);
      && (got.Err? ==> r == Err(got.error) && args.fields == old(args.fields))
      && (got.Ok? ==> r == Ok(args) && args.fields == old(args.fields)["content" := got.value]["headers" := Obj(arrival.value.headers)])
  {
    args.Push("listen to " + opt.verb + " " + opt.url);
    var content := ContentOf(opt.body, resolved);
    if content.Err? {
      return Err(content.error), None, null;
    }
    server := new Server();
    if arrival.Err? {
      server.Close();
      return Err(arrival.error), None, server;
    }
    var req := arrival.value;
    reply := Some(ReplyFor(opt, content.value, serialize, stringify));
    var got := Received(opt, req, parsers, inspect);
    if got.Err? {
      server.Close();
      return Err(got.error), reply, server;
    }
    args.Set("content", got.value);
    args.Set("headers", Obj(req.headers));
    server.Close();
    r := Ok(args);
  }

  /** The reply's content type: the caller's when given; otherwise JSON
      for an object, XML for a Document, plain text for a non-empty string,
      and none for an empty body. */
  lemma {:induction false} ReplyContentType(opt: Options, content: Value, serialize: Value -> Value, stringify: Value -> Value)
    ensures var h := ReplyFor(opt, content, serialize, stringify).headers;
      && ("content-type" in opt.headers ==> h["content-type"] == opt.headers["content-type"])
      && ("content-type" !in opt.headers && content.Obj? ==> h["content-type"] == Str("application/json"))
      && ("content-type" !in opt.headers && content.Document? ==> h["content-type"] == Str("application/xml"))
      && ("content-type" !in opt.headers && content.Str? && content.s != "" ==> h["content-type"] == Str("text/plain"))
      && ("content-type" !in opt.headers && (content == Undefined || content == Str("")) ==> "content-type" !in h)
  {
  }

  /** A status code of 0, like a missing one, is sent as 200. */
  lemma ZeroCodeIs200()
    ensures StatusOf(Num(0)) == 200 && StatusOf(Undefined) == 200 && StatusOf(Num(201)) == 201
  {
  }

  /** A request on another path fails on its path, whatever its method. */
  lemma {:induction false} WrongPathFirst(opt: Options, req: Incoming, parsers: Parsers, inspect: Value -> string)
    requires req.path != opt.url && req.verb != opt.verb
    ensures Received(opt, req, parsers, inspect) ==
      Err(Failure("Unexpected url: expected " + inspect(Str(req.path)) + " to equal " + inspect(Str(opt.url))))
  {
    var (i1, i2) := (inspect(Str(req.path)), inspect(Str(opt.url)));
    assert "Unexpected url" + ": " + ("expected " + i1 + " to equal " + i2) == "Unexpected url: expected " + i1 + " to equal " + i2;
  }
}
