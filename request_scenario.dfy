/** `src/scenario/request.js`: the Request scenario, which loads and
    fills a body template, loads an XSD, sends one HTTP request, checks the
    status code and validates the response. File reading, Mustache
    rendering, XML parsing and validation and the HTTP client are
    parameters. */
module RequestScenario {
  import opened Outcomes
  import opened Text
  import opened Objects
  import opened ActionContext
  import opened Http

  /** An optional key that, when present, must be a non-empty string. */
  predicate OptionalString(v: Value)
  {
    v == Undefined || JoiString(v)
  }

  /** The declared fixture schema: `host` an http(s) URL prefix, `url` a
      non-empty string, `code` a number, `method` one of five, `body`,
      `bodyStr`, `contentType` and `xsd` strings when present, never both
      `body` and `bodyStr` nor both `xsd` and `xsdStr`; other keys are
      allowed. Absent fixtures pass the schema (the test unit refuses them
      first). */
  predicate SchemaAccepts(fixtures: Value)
  {
    fixtures == Undefined ||
    (fixtures.Obj? &&
     var f := fixtures.fields;
     && Field(f, "host").Str? && ("http://" <= Field(f, "host").s || "https://" <= Field(f, "host").s)
     && JoiString(Field(f, "url"))
     && MethodOk(Field(f, "method"))
     && OptionalString(Field(f, "body"))
     && OptionalString(Field(f, "bodyStr"))
     && Field(f, "code").Num?
     && OptionalString(Field(f, "contentType"))
     && OptionalString(Field(f, "xsd"))
     && !(Field(f, "body") != Undefined && Field(f, "bodyStr") != Undefined)
     && !(Field(f, "xsd") != Undefined && Field(f, "xsdStr") != Undefined))
  }

  /** `loadFromFile`: the file's text, or the read error's message behind
      a fixed prefix; `path.resolve` throws first, without that prefix, on
      a file that is not a string. */
  function LoadFromFile(file: Value, read: string -> Result<string>, inspect: Value -> string): (r: Result<Value>)
    ensures !file.Str? ==> r == Err(Failure(PathNotString(file, inspect)))
    ensures file.Str? && read(file.s).Ok? ==> r == Ok(Str(read(file.s).value))
    ensures file.Str? && read(file.s).Err? ==> r == Err(Failure("Failed to load file: " + Message(read(file.s).error)))
  {
    if !file.Str? then Err(Failure(PathNotString(file, inspect)))
    else match read(file.s)
      case Ok(text) => Ok(Str(text))
      case Err(e) => Err(Failure("Failed to load file: " + Message(e)))
  }

  /** A `body` that is a number is never read: `path.resolve` throws
      "Path must be a string. Received 1" for 1, with no prefix. */
  lemma {:induction false} NumberBodyNotLoaded(f: map<string, Value>, read: string -> Result<string>, inspect: Value -> string)
    requires "body" in f && f["body"] == Num(1) && inspect(Num(1)) == "1"
    ensures TemplateSource(f, read, inspect) == Err(Failure("Path must be a string. Received 1"))
  {
    assert Field(f, "body") == Num(1) && Truthy(Num(1));
    assert "Path must be a string. Received " + "1" == "Path must be a string. Received 1";
  }

  /** `compileTemplate`: no template gives no body and no error; otherwise
      the rendered text, or the error's message behind a fixed prefix. */
  function CompileTemplate(template: Value, context: Value, render: (Value, Value) -> Result<Value>): (r: Result<Value>)
    ensures !Truthy(template) ==> r == Ok(Undefined)
    ensures Truthy(template) && render(template, context).Ok? ==> r == render(template, context)
    ensures Truthy(template) && render(template, context).Err? ==>
      r == Err(Failure("Failed to compile mustache template: " + Message(render(template, context).error)))
  {
    if !Truthy(template) then Ok(Undefined)
    else match render(template, context)
      case Ok(body) => Ok(body)
      case Err(e) => Err(Failure("Failed to compile mustache template: " + Message(e)))
  }

  /** `compileXSD`: no XSD gives none; otherwise the parsed schema, or the
      error's message behind a fixed prefix. */
  function CompileXsd(xsd: Value, parse: Value -> Result<Value>): (r: Result<Value>)
    ensures !Truthy(xsd) ==> r == Ok(Undefined)
    ensures Truthy(xsd) && parse(xsd).Ok? ==> r == parse(xsd)
    ensures Truthy(xsd) && parse(xsd).Err? ==> r == Err(Failure("Failed to compile XSD: " + Message(parse(xsd).error)))
  {
    if !Truthy(xsd) then Ok(Undefined)
    else match parse(xsd)
      case Ok(schema) => Ok(schema)
      case Err(e) => Err(Failure("Failed to compile XSD: " + Message(e)))
  }

  /** `validateAgainstXSD`: without a schema the response passes as it
      came; with one it is parsed and validated, and its validation errors
      are listed one per line after a fixed first line. */
  function ValidateAgainstXsd(xml: Value, xsd: Value, parse: Value -> Result<Value>,
                              validate: (Value, Value) -> seq<string>): (r: Result<Value>)
    ensures !Truthy(xsd) ==> r == Ok(xml)
    ensures Truthy(xsd) && parse(xml).Err? ==> r == parse(xml)
    ensures Truthy(xsd) && parse(xml).Ok? && validate(parse(xml).value, xsd) == [] ==> r == parse(xml)
    ensures Truthy(xsd) && parse(xml).Ok? && validate(parse(xml).value, xsd) != [] ==>
      r == Err(Failure("Invalid XML response:\n" + Join(validate(parse(xml).value, xsd), "\n")))
  {
    if !Truthy(xsd) then Ok(xml)
    else match parse(xml)
      case Err(e) => Err(e)
      case Ok(doc) =>
        var errors := validate(doc, xsd);
        if errors == [] then Ok(doc) else Err(Failure("Invalid XML response:\n" + Join(errors, "\n")))
  }

  /** Where the template comes from: the `body` file when set, else the
      inline `bodyStr`. */
  function TemplateSource(f: map<string, Value>, read: string -> Result<string>, inspect: Value -> string): (r: Result<Value>)
    ensures Truthy(Field(f, "body")) ==> r == LoadFromFile(Field(f, "body"), read, inspect)
    ensures !Truthy(Field(f, "body")) ==> r == Ok(Field(f, "bodyStr"))
  {
    if Truthy(Field(f, "body")) then LoadFromFile(Field(f, "body"), read, inspect) else Ok(Field(f, "bodyStr"))
  }

  /** Where the XSD comes from: the `xsd` file when set, else `xsdStr`. */
  function XsdSource(f: map<string, Value>, read: string -> Result<string>, inspect: Value -> string): (r: Result<Value>)
    ensures Truthy(Field(f, "xsd")) ==> r == LoadFromFile(Field(f, "xsd"), read, inspect)
    ensures !Truthy(Field(f, "xsd")) ==> r == Ok(Field(f, "xsdStr"))
  {
    if Truthy(Field(f, "xsd")) then LoadFromFile(Field(f, "xsd"), read, inspect) else Ok(Field(f, "xsdStr"))
  }

  /** `v || d`. */
  function OrElse(v: Value, d: Value): (r: Value)
    ensures Truthy(v) ==> r == v
    ensures !Truthy(v) ==> r == d
  {
    if Truthy(v) then v else d
  }

  /** `a + b`: two strings are concatenated; for any other operands the
      language's conversions decide, and `plus` stands for them. */
  function Plus(a: Value, b: Value, plus: (Value, Value) -> Value): (r: Value)
    ensures a.Str? && b.Str? ==> r == Str(a.s + b.s)
    ensures !(a.Str? && b.Str?) ==> r == plus(a, b)
  {
    if a.Str? && b.Str? then Str(a.s + b.s) else plus(a, b)
  }

  /** The options `test()` hands to the HTTP client, as the JavaScript
      expressions compute them from whatever the fixtures hold. */
  datatype Request = Request(verb: Value, url: Value, followRedirect: bool, headers: map<string, Value>, body: Value)

  /** The request sent for the fixtures and a compiled body. */
  function RequestFor(f: map<string, Value>, body: Value, plus: (Value, Value) -> Value): (o: Request)
    ensures Truthy(Field(f, "method")) ==> o.verb == Field(f, "method")
    ensures !Truthy(Field(f, "method")) ==> o.verb == Str("GET")
    ensures Field(f, "host").Str? && Field(f, "url").Str? ==> o.url == Str(Field(f, "host").s + Field(f, "url").s)
    ensures !(Field(f, "host").Str? && Field(f, "url").Str?) ==> o.url == plus(Field(f, "host"), Field(f, "url"))
    ensures !o.followRedirect
    ensures o.headers.Keys == {"Content-Type"}
    ensures Truthy(Field(f, "contentType")) ==> o.headers["Content-Type"] == Field(f, "contentType")
    ensures !Truthy(Field(f, "contentType")) ==> o.headers["Content-Type"] == Str("text/plain")
    ensures o.body == body
  {
    Request(OrElse(Field(f, "method"), Str("GET")), Plus(Field(f, "host"), Field(f, "url"), plus), false,
            map["Content-Type" := OrElse(Field(f, "contentType"), Str("text/plain"))], body)
  }

  /** For fixtures the declared schema accepts, the request is the one the
      schema describes: one of the five methods, an http(s) URL made of
      `host` then `url`, and a textual content type. */
  lemma {:induction false} SchemaShapesRequest(f: map<string, Value>, body: Value, plus: (Value, Value) -> Value)
    requires SchemaAccepts(Obj(f))
    ensures var o := RequestFor(f, body, plus);
      && o.verb.Str? && o.verb.s in Methods
      && o.url == Str(f["host"].s + f["url"].s)
      && ("http://" <= o.url.s || "https://" <= o.url.s)
      && o.headers["Content-Type"].Str?
  {
    var host, url := f["host"].s, f["url"].s;
    assert (host + url)[..|host|] == host;
    if "http://" <= host {
      assert (host + url)[..|"http://"|] == host[..|"http://"|];
    } else {
      assert (host + url)[..|"https://"|] == host[..|"https://"|];
    }
  }

  /** The libraries the scenario calls (`read` is `fs.readFile` on the
      resolved path), JavaScript's `+` on operands that are not both
      strings, and Node's `util.inspect`, which `path` uses to show a path
      that is not a string. */
  datatype Libraries = Libraries(
    read: string -> Result<string>,
    render: (Value, Value) -> Result<Value>,
    parse: Value -> Result<Value>,
    validate: (Value, Value) -> seq<string>,
    send: Request -> Result<Incoming>,
    plus: (Value, Value) -> Value,
    inspect: Value -> string)

  /** What a run of `test()` sent, if it got that far, and what it settled
      with. */
  datatype Exchange = Exchange(sent: Option<Request>, result: Result<Value>)

  /** The checks in the HTTP client's callback. They throw inside the
      callback, so a failure escapes the test's promise instead of
      rejecting it. */
  function Answer(f: map<string, Value>, response: Result<Incoming>, chaiInspect: Value -> string,
                  describe: Error -> string): (r: Result<Value>)
    ensures response.Err? ==> r == Err(Escaped(Failed("Unexpected error", "expected " + describe(response.error) + " to not exist")))
    ensures response.Ok? && Num(response.value.status) != Field(f, "code") ==>
      r == Err(Escaped(Failed("Unexpected HTTP status code", NotEqual(Num(response.value.status), Field(f, "code"), chaiInspect))))
    ensures r.Ok? <==> response.Ok? && Num(response.value.status) == Field(f, "code")
    ensures r.Ok? ==> r.value == response.value.body
  {
    match response
    case Err(e) => Err(Escaped(Failed("Unexpected error", "expected " + describe(e) + " to not exist")))
    case Ok(resp) =>
      if Num(resp.status) != Field(f, "code") then
        Err(Escaped(Failed("Unexpected HTTP status code", NotEqual(Num(resp.status), Field(f, "code"), chaiInspect))))
      else Ok(resp.body)
  }

  /** `test()` on whatever fixtures the scenario holds: template, then
      body, then XSD, then the request, then validation; the first failure
      is the result and nothing after it happens. `chaiInspect` renders
      values as chai does; `lib.inspect` is Node's `util.inspect`. */
  function Test(f: map<string, Value>, lib: Libraries, chaiInspect: Value -> string, describe: Error -> string): (x: Exchange)
    ensures x.sent.Some? <==>
      && TemplateSource(f, lib.read, lib.inspect).Ok?
      && CompileTemplate(TemplateSource(f, lib.read, lib.inspect).value, Obj(f), lib.render).Ok?
      && XsdSource(f, lib.read, lib.inspect).Ok?
      && CompileXsd(XsdSource(f, lib.read, lib.inspect).value, lib.parse).Ok?
    ensures TemplateSource(f, lib.read, lib.inspect).Err? ==> x.result == TemplateSource(f, lib.read, lib.inspect)
    ensures TemplateSource(f, lib.read, lib.inspect).Ok?
            && CompileTemplate(TemplateSource(f, lib.read, lib.inspect).value, Obj(f), lib.render).Err? ==>
      x.result == CompileTemplate(TemplateSource(f, lib.read, lib.inspect).value, Obj(f), lib.render)
    ensures TemplateSource(f, lib.read, lib.inspect).Ok?
            && CompileTemplate(TemplateSource(f, lib.read, lib.inspect).value, Obj(f), lib.render).Ok?
            && XsdSource(f, lib.read, lib.inspect).Err? ==>
      x.result == XsdSource(f, lib.read, lib.inspect)
    ensures TemplateSource(f, lib.read, lib.inspect).Ok?
            && CompileTemplate(TemplateSource(f, lib.read, lib.inspect).value, Obj(f), lib.render).Ok?
            && XsdSource(f, lib.read, lib.inspect).Ok?
            && CompileXsd(XsdSource(f, lib.read, lib.inspect).value, lib.parse).Err? ==>
      x.result == CompileXsd(XsdSource(f, lib.read, lib.inspect).value, lib.parse)
    ensures x.sent.Some? ==>
      && x.sent.value == RequestFor(f, CompileTemplate(TemplateSource(f, lib.read, lib.inspect).value, Obj(f), lib.render).value, lib.plus)
      && var answer := Answer(f, lib.send(x.sent.value), chaiInspect, describe);
      && (answer.Err? ==> x.result == answer)
      && (answer.Ok? ==>
            x.result == ValidateAgainstXsd(answer.value, CompileXsd(XsdSource(f, lib.read, lib.inspect).value, lib.parse).value, lib.parse, lib.validate))
    ensures x.result.Ok? ==> x.sent.Some? && Num(lib.send(x.sent.value).value.status) == Field(f, "code")
  {
    match TemplateSource(f, lib.read, lib.inspect)
    case Err(e) => Exchange(None, Err(e))
    case Ok(template) =>
      match CompileTemplate(template, Obj(f), lib.render)
      case Err(e) => Exchange(None, Err(e))
      case Ok(body) =>
        match XsdSource(f, lib.read, lib.inspect)
        case Err(e) => Exchange(None, Err(e))
        case Ok(source) =>
          match CompileXsd(source, lib.parse)
          case Err(e) => Exchange(None, Err(e))
          case Ok(xsd) =>
            var out := RequestFor(f, body, lib.plus);
            match Answer(f, lib.send(out), chaiInspect, describe)
            case Err(e) => Exchange(Some(out), Err(e))
            case Ok(xml) => Exchange(Some(out), ValidateAgainstXsd(xml, xsd, lib.parse, lib.validate))
  }

  /** Fixtures with neither `body` nor `bodyStr` send no body, and without
      an XSD the response body is the result as it came. */
  lemma {:induction false} BareRequest(f: map<string, Value>, lib: Libraries, chaiInspect: Value -> string, describe: Error -> string)
    requires Field(f, "body") == Undefined && Field(f, "bodyStr") == Undefined
    requires Field(f, "xsd") == Undefined && Field(f, "xsdStr") == Undefined
    ensures var x := Test(f, lib, chaiInspect, describe);
      && x.sent.Some? && x.sent.value.body == Undefined
      && x.sent.value.verb == OrElse(Field(f, "method"), Str("GET"))
      && (lib.send(x.sent.value).Ok? && Num(lib.send(x.sent.value).value.status) == Field(f, "code") ==>
            x.result == Ok(lib.send(x.sent.value).value.body))
  {
    assert TemplateSource(f, lib.read, lib.inspect) == Ok(Undefined);
    assert XsdSource(f, lib.read, lib.inspect) == Ok(Undefined);
  }

  /** A response with another status code never yields a result. */
  lemma {:induction false} WrongStatusEscapes(f: map<string, Value>, lib: Libraries, chaiInspect: Value -> string, describe: Error -> string)
    requires var x := Test(f, lib, chaiInspect, describe);
      x.sent.Some? && lib.send(x.sent.value).Ok? && Num(lib.send(x.sent.value).value.status) != Field(f, "code")
    ensures Test(f, lib, chaiInspect, describe).result.Err? && Test(f, lib, chaiInspect, describe).result.error.Escaped?
  {
  }

  /** Fixtures without a `code` (which the schema would refuse, but which
      nothing checks) never pass: whatever the server answers, the status
      check fails. */
  lemma {:induction false} MissingCodeNeverPasses(f: map<string, Value>, lib: Libraries, chaiInspect: Value -> string, describe: Error -> string)
    requires Field(f, "code") == Undefined
    ensures Test(f, lib, chaiInspect, describe).result.Err?
  {
  }

  /** A minimal fixture with an extra key passes the schema. */
  lemma SchemaAllowsExtraKeys()
    ensures SchemaAccepts(Obj(map["host" := Str("http://h"), "url" := Str("/a"), "code" := Num(200), "extra" := Bool(true)]))
  {
    var ok := map["host" := Str("http://h"), "url" := Str("/a"), "code" := Num(200), "extra" := Bool(true)];
    assert Field(ok, "method") == Undefined && Field(ok, "body") == Undefined && Field(ok, "bodyStr") == Undefined;
    assert Field(ok, "contentType") == Undefined && Field(ok, "xsd") == Undefined && Field(ok, "xsdStr") == Undefined;
  }

  /** `body` together with `bodyStr` is refused. */
  lemma SchemaRefusesBodyWithBodyStr()
    ensures !SchemaAccepts(Obj(map["host" := Str("http://h"), "url" := Str("/a"), "code" := Num(200),
                                   "body" := Str("b.tpl"), "bodyStr" := Str("x")]))
  {
    var both := map["host" := Str("http://h"), "url" := Str("/a"), "code" := Num(200), "body" := Str("b.tpl"), "bodyStr" := Str("x")];
    assert Field(both, "body") != Undefined && Field(both, "bodyStr") != Undefined;
  }

  /** `xsd` together with `xsdStr` is refused. */
  lemma SchemaRefusesXsdWithXsdStr()
    ensures !SchemaAccepts(Obj(map["host" := Str("http://h"), "url" := Str("/a"), "code" := Num(200),
                                   "xsd" := Str("s.xsd"), "xsdStr" := Num(1)]))
  {
    var schemas := map["host" := Str("http://h"), "url" := Str("/a"), "code" := Num(200), "xsd" := Str("s.xsd"), "xsdStr" := Num(1)];
    assert Field(schemas, "xsd") != Undefined && Field(schemas, "xsdStr") != Undefined;
  }

  /** The schema's exclusions: `body` with `bodyStr`, and `xsd` with
      `xsdStr`, are refused; a minimal fixture with extra keys passes. */
  lemma {:induction false} SchemaExamples()
    ensures SchemaAccepts(Obj(map["host" := Str("http://h"), "url" := Str("/a"), "code" := Num(200), "extra" := Bool(true)]))
    ensures !SchemaAccepts(Obj(map["host" := Str("http://h"), "url" := Str("/a"), "code" := Num(200),
                                   "body" := Str("b.tpl"), "bodyStr" := Str("x")]))
    ensures !SchemaAccepts(Obj(map["host" := Str("http://h"), "url" := Str("/a"), "code" := Num(200),
                                   "xsd" := Str("s.xsd"), "xsdStr" := Num(1)]))
    ensures !SchemaAccepts(Obj(map["host" := Str("http://h"), "url" := Str("/a")]))
  {
    SchemaAllowsExtraKeys();
    SchemaRefusesBodyWithBodyStr();
    SchemaRefusesXsdWithXsdStr();
    assert Field(map["host" := Str("http://h"), "url" := Str("/a")], "code") == Undefined;
  }
}
