/** What `src/actions/request.js` and `src/actions/listen.js` share: the
    accepted methods, the key-wise header merge and the choice of how a
    received body is parsed from its content type. */
module Http {
  import opened Outcomes
  import opened Text
  import opened Objects

  /** The methods both option schemas accept. */
  const Methods: set<string> := {"GET", "POST", "PUT", "HEAD", "DELETE"}

  /** `Joi.string().valid(...)` on an optional `method`. */
  predicate MethodOk(v: Value)
  {
    v == Undefined || (v.Str? && v.s in Methods)
  }

  /** `opt.method || 'GET'` once the schema accepted it. */
  function MethodOf(v: Value): (r: string)
    ensures r in Methods || (v.Str? && r == v.s)
    ensures MethodOk(v) ==> r in Methods
    ensures !Truthy(v) ==> r == "GET"
  {
    if v.Str? && v.s != "" then v.s else "GET"
  }

  /** `_.assign({}, defaults, caller)`: every default header is sent
      unless the caller gives the same key, whose value then wins. */
  function MergeHeaders(defaults: map<string, Value>, caller: map<string, Value>): (r: map<string, Value>)
    ensures r.Keys == defaults.Keys + caller.Keys
    ensures forall k :: k in caller ==> r[k] == caller[k]
    ensures forall k :: k in defaults && k !in caller ==> r[k] == defaults[k]
  {
    defaults + caller
  }

  /** `opt.headers || {}`, the caller's headers as a key set. */
  function CallerHeaders(v: Value): (r: map<string, Value>)
    ensures v.Obj? ==> r == v.fields
    ensures !v.Obj? ==> r == map[]
  {
    if v.Obj? then v.fields else map[]
  }

  /** How a received body is turned into `content`. */
  datatype ParseKind = AsXml | AsJson | AsIs

  /** The text the content-type regular expressions are tested against:
      a missing header is the string "undefined". */
  function HeaderText(v: Value): (r: string)
    ensures v.Str? ==> r == v.s
    ensures !v.Str? ==> r == "undefined"
  {
    if v.Str? then v.s else "undefined"
  }

  /** `/\/xml|\+xml/` is tested first, then `/\/json|\+json/`. */
  function ParseKindFor(contentType: string): (k: ParseKind)
    ensures k == AsXml <==> Contains(contentType, "/xml") || Contains(contentType, "+xml")
    ensures k == AsJson <==> !(Contains(contentType, "/xml") || Contains(contentType, "+xml")) &&
                             (Contains(contentType, "/json") || Contains(contentType, "+json"))
  {
    if Contains(contentType, "/xml") || Contains(contentType, "+xml") then AsXml
    else if Contains(contentType, "/json") || Contains(contentType, "+json") then AsJson
    else AsIs
  }

  /** The XML test wins over the JSON one: a type naming both is parsed as XML. */
  lemma XmlBeforeJson()
    ensures ParseKindFor("application/xml+json") == AsXml
  {
    ContainsAt("application/xml+json", "/xml", 11);
  }

  /** A missing content type leaves the body as it came. */
  lemma {:induction false} MissingTypeIsRaw()
    ensures ParseKindFor(HeaderText(Undefined)) == AsIs
  {
    var u := HeaderText(Undefined);
    assert u == "undefined";
    assert forall i :: 0 <= i < |u| ==> u[i] != '/' && u[i] != '+';
    NotContains("undefined", "/xml", 0);
    NotContains("undefined", "+xml", 0);
    NotContains("undefined", "/json", 0);
    NotContains("undefined", "+json", 0);
  }

  /** A text in which some character of the marker never occurs does not
      contain the marker. */
  lemma {:induction false} NotContains(s: string, marker: string, j: nat)
    requires j < |marker|
    requires forall i :: 0 <= i < |s| ==> s[i] != marker[j]
    ensures !Contains(s, marker)
    decreases |s|
  {
    if j < |s| {
      assert s[j] != marker[j];
    }
    if |s| > 0 {
      NotContains(s[1..], marker, j);
    }
  }

  /** The two parsers a body can go through; each may throw. */
  datatype Parsers = Parsers(xml: Value -> Result<Value>, json: Value -> Result<Value>)

  /** The body after parsing by kind. */
  function ParseBody(kind: ParseKind, body: Value, parsers: Parsers): (r: Result<Value>)
    ensures kind == AsIs ==> r == Ok(body)
    ensures kind == AsXml ==> r == parsers.xml(body)
    ensures kind == AsJson ==> r == parsers.json(body)
  {
    match kind
    case AsXml => parsers.xml(body)
    case AsJson => parsers.json(body)
    case AsIs => Ok(body)
  }

  /** What `Joi.alternatives(Joi.string(), Joi.object(), Joi.func())`
      accepts for an optional `body`. */
  predicate BodyOk(v: Value)
  {
    v == Undefined || JoiString(v) || JoiObject(v) || v.Func?
  }

  /** What `Joi.object()` accepts for optional `headers`. */
  predicate HeadersOk(v: Value)
  {
    v == Undefined || JoiObject(v)
  }

  /** The content type a body to send implies: a Document is XML, any
      other object (`_.isObject`) is JSON, anything else implies none. */
  function Encoding(content: Value): (t: Option<string>)
    ensures t == Some("application/xml") <==> content.Document?
    ensures t == Some("application/json") <==> IsObjectLike(content) && !content.Document?
    ensures t.None? <==> !IsObjectLike(content)
  {
    if content.Document? then Some("application/xml")
    else if IsObjectLike(content) then Some("application/json")
    else None
  }

  /** The body sent: a Document serialized (`toString(true)`), any other
      object through `JSON.stringify`, anything else as it is. */
  function Encoded(content: Value, serialize: Value -> Value, stringify: Value -> Value): (b: Value)
    ensures content.Document? ==> b == serialize(content)
    ensures IsObjectLike(content) && !content.Document? ==> b == stringify(content)
    ensures !IsObjectLike(content) ==> b == content
  {
    if content.Document? then serialize(content)
    else if IsObjectLike(content) then stringify(content)
    else content
  }

  /** A request as handed to the HTTP client. */
  datatype Outgoing = Outgoing(verb: string, url: string, followRedirect: bool,
                               headers: map<string, Value>, body: Value)

  /** A response (or, for `listen`, a received request) as the client or
      the server hands it back. */
  datatype Incoming = Incoming(status: int, path: string, verb: string,
                               headers: map<string, Value>, body: Value)

  /** The content type of a received message. */
  function ContentType(m: Incoming): (t: string)
    ensures "content-type" in m.headers && m.headers["content-type"].Str? ==> t == m.headers["content-type"].s
    ensures !("content-type" in m.headers && m.headers["content-type"].Str?) ==> t == "undefined"
  {
    HeaderText(Field(m.headers, "content-type"))
  }

  /** A received body parsed by the message's content type. */
  function Decoded(m: Incoming, parsers: Parsers): (r: Result<Value>)
    ensures ParseKindFor(ContentType(m)) == AsIs ==> r == Ok(m.body)
    ensures ParseKindFor(ContentType(m)) == AsXml ==> r == parsers.xml(m.body)
    ensures ParseKindFor(ContentType(m)) == AsJson ==> r == parsers.json(m.body)
  {
    ParseBody(ParseKindFor(ContentType(m)), m.body, parsers)
  }

  /** A JSON message is parsed as JSON. */
  lemma {:induction false} JsonIsParsed(m: Incoming, parsers: Parsers)
    requires "content-type" in m.headers && m.headers["content-type"] == Str("application/json")
    ensures Decoded(m, parsers) == parsers.json(m.body)
  {
    assert ContentType(m) == "application/json";
    JsonKind();
  }

  lemma {:induction false} JsonKind()
    ensures ParseKindFor("application/json") == AsJson
  {
    JsonMarker();
    NoXmlMarker();
    NoPlusXmlMarker();
  }

  lemma {:induction false} JsonMarker()
    ensures Contains("application/json", "/json")
  {
    ContainsAt("application/json", "/json", 11);
  }

  lemma {:induction false} NoXmlMarker()
    ensures !Contains("application/json", "/xml")
  {
    NotContains("application/json", "/xml", 1);
  }

  lemma {:induction false} NoPlusXmlMarker()
    ensures !Contains("application/json", "+xml")
  {
    NotContains("application/json", "+xml", 0);
  }
}
