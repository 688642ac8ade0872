/** `src/actions/expect-content-to-include.js`: an assertion that the
    context's `content` includes a text, or matches a pattern, which returns
    the context untouched. Pattern matching is the parameter `matches`. */
module ExpectContent {
  import opened Outcomes
  import opened Text
  import opened Objects
  import opened ActionContext

  /** What the expectation was built with. */
  datatype Element = Substring(text: string) | Pattern(pattern: nat)

  /** `Joi.alternatives().try(Joi.string(), Joi.object().type(RegExp)).required()`. */
  function Construct(element: Value): (r: Result<Element>)
    ensures r.Ok? <==> JoiString(element) || element.RegExp?
    ensures r.Ok? && element.Str? ==> r.value == Substring(element.s)
    ensures r.Ok? && element.RegExp? ==> r.value == Pattern(element.re)
    ensures r.Err? ==> r.error == Invalid("content expectation")
  {
    if JoiString(element) then Ok(Substring(element.s))
    else if element.RegExp? then Ok(Pattern(element.re))
    else Err(Invalid("content expectation"))
  }

  /** The element as chai shows it. */
  function AsValue(e: Element): (v: Value)
  {
    match e
    case Substring(t) => Str(t)
    case Pattern(p) => RegExp(p)
  }

  /** chai's `include` on a string (a substring) or an array (a member). */
  predicate Includes(content: Value, text: string)
  {
    (content.Str? && Contains(content.s, text)) || (content.Arr? && Str(text) in content.items)
  }

  /** A string element means `includes`, a pattern `matches`. */
  predicate Holds(e: Element, content: Value, matches: (nat, Value) -> bool)
  {
    match e
    case Substring(t) => Includes(content, t)
    case Pattern(p) => matches(p, content)
  }

  function Prefix(args: Context): string
    reads args
  {
    PrintContext("unexpected content", args.stack)
  }

  /** chai's type check before `include`, which throws without the
      assertion's message: only arrays, objects and strings are accepted. */
  function NotIncludable(content: Value): string
  {
    "object tested must be an array, an object, or a string, but " + GetType(content) + " given"
  }

  /** `include` on an object that passed the type check calls its
      `indexOf`, which an object does not have. */
  const NoIndexOf := "obj.indexOf is not a function"

  /** The returned function: the same context iff a `content` key is
      present and its value (`undefined` included) includes, or matches,
      the element; otherwise a failure naming what was missing after the
      prefix, or, for a text element and a content that is neither a string
      nor an array, the error chai throws first. */
  function Check(e: Element, args: Context, matches: (nat, Value) -> bool, inspect: Value -> string): (r: Result<Context>)
    reads args
    ensures r.Ok? <==> "content" in args.fields && Holds(e, args.fields["content"], matches)
    ensures r.Ok? ==> r.value == args
    ensures "content" !in args.fields ==>
      r == Err(Failure(Failed(Prefix(args), NoProperty(args.AsValue(), "content", inspect))))
    ensures "content" in args.fields && e.Substring? && (args.fields["content"].Str? || args.fields["content"].Arr?)
            && !Holds(e, args.fields["content"], matches) ==>
      r == Err(Failure(Failed(Prefix(args), NotIncluded(args.fields["content"], AsValue(e), inspect))))
    ensures "content" in args.fields && e.Substring? && GetType(args.fields["content"]) == "object" ==>
      r == Err(Failure(NoIndexOf))
    ensures "content" in args.fields && e.Substring? && GetType(args.fields["content"]) !in {"array", "object", "string"} ==>
      r == Err(Failure(NotIncludable(args.fields["content"])))
    ensures "content" in args.fields && !Holds(e, args.fields["content"], matches) && e.Pattern? ==>
      r == Err(Failure(Failed(Prefix(args), NoMatch(args.fields["content"], AsValue(e), inspect))))
  {
    var content := args.Get("content");
    if "content" !in args.fields then Err(Failure(Failed(Prefix(args), NoProperty(args.AsValue(), "content", inspect))))
    else if e.Substring? && GetType(content) == "object" then Err(Failure(NoIndexOf))
    else if e.Substring? && !content.Str? && !content.Arr? then Err(Failure(NotIncludable(content)))
    else if Holds(e, content, matches) then Ok(args)
    else if e.Substring? then Err(Failure(Failed(Prefix(args), NotIncluded(content, AsValue(e), inspect))))
    else Err(Failure(Failed(Prefix(args), NoMatch(content, AsValue(e), inspect))))
  }

  /** A number content and a text element: chai's type check fails, and
      its message carries no context. */
  lemma {:induction false} NumberIsNotIncludable(args: Context, text: string, n: int, matches: (nat, Value) -> bool, inspect: Value -> string)
    requires "content" in args.fields && args.fields["content"] == Num(n)
    ensures Check(Substring(text), args, matches, inspect)
         == Err(Failure("object tested must be an array, an object, or a string, but number given"))
  {
    assert GetType(Num(n)) == "number";
    assert Check(Substring(text), args, matches, inspect) == Err(Failure(NotIncludable(Num(n))));
    assert "object tested must be an array, an object, or a string, but " + "number" + " given"
        == "object tested must be an array, an object, or a string, but number given";
  }

  /** A `content` key that holds `undefined` is there: a text element meets
      chai's type check, which names `undefined`, while a pattern is handed
      the `undefined` value and passes whenever it matches it. */
  lemma {:induction false} UndefinedContentIsChecked(args: Context, text: string, p: nat, matches: (nat, Value) -> bool, inspect: Value -> string)
    requires "content" in args.fields && args.fields["content"] == Undefined
    ensures Check(Substring(text), args, matches, inspect)
         == Err(Failure("object tested must be an array, an object, or a string, but undefined given"))
    ensures Check(Pattern(p), args, matches, inspect).Ok? <==> matches(p, Undefined)
  {
    assert GetType(Undefined) == "undefined";
    assert Check(Substring(text), args, matches, inspect) == Err(Failure(NotIncludable(Undefined)));
    assert "object tested must be an array, an object, or a string, but " + "undefined" + " given"
        == "object tested must be an array, an object, or a string, but undefined given";
  }

  /** A string content passes a text element iff the text occurs in it. */
  lemma {:induction false} TextIsSubstring(args: Context, text: string, content: string, matches: (nat, Value) -> bool, inspect: Value -> string)
    requires "content" in args.fields && args.fields["content"] == Str(content)
    ensures Check(Substring(text), args, matches, inspect).Ok? <==> exists i: nat :: OccursAt(content, text, i)
  {
    assert args.Get("content") == Str(content);
    ContainsIff(content, text);
  }

  /** The example of the tests: "this contains yeah, really" includes "yeah". */
  lemma {:induction false} AcceptsContainedText(args: Context, matches: (nat, Value) -> bool, inspect: Value -> string)
    requires args.fields == map["content" := Str("this contains yeah, really")]
    ensures Check(Substring("yeah"), args, matches, inspect) == Ok(args)
  {
    assert args.Get("content") == Str("this contains yeah, really");
    assert "this contains yeah, really"[14..18] == "yeah";
    ContainsAt("this contains yeah, really", "yeah", 14);
  }

  /** Without any context, a missing content reads
      "\nunexpected content: expected {} to have a property 'content'". */
  lemma {:induction false} MissingContentMessage(e: Element, args: Context, matches: (nat, Value) -> bool, inspect: Value -> string)
    requires args.fields == map[] && args.stack == None
    requires inspect(Obj(map[])) == "{}"
    ensures Check(e, args, matches, inspect) ==
      Err(Failure("\nunexpected content: " + "expected {} to have a property 'content'"))
  {
    assert args.AsValue() == Obj(map[]);
    assert Prefix(args) == "\n" + "unexpected content";
    assert "\n" + "unexpected content" + ": " + ("expected " + "{}" + " to have a property '" + "content" + "'")
        == "\nunexpected content: " + "expected {} to have a property 'content'";
  }

  /** With steps on the stack, a text that is not included reads
      "\nwhen s1\nthen s2…" followed by the assertion. */
  lemma {:induction false} NotIncludedMessage(args: Context, text: string, matches: (nat, Value) -> bool, inspect: Value -> string)
    requires "content" in args.fields && (args.fields["content"].Str? || args.fields["content"].Arr?)
    requires !Includes(args.fields["content"], text)
    requires Join(Entries(args.stack), "\nthen ") != ""
    ensures Check(Substring(text), args, matches, inspect) ==
      Err(Failure("\nwhen " + Join(Entries(args.stack), "\nthen ") + "\nunexpected content: " + "expected "
                  + inspect(args.fields["content"]) + " to include " + inspect(Str(text))))
  {
    var j := Join(Entries(args.stack), "\nthen ");
    assert Prefix(args) == "\nwhen " + j + "\n" + "unexpected content";
    var (i1, i2) := (inspect(args.fields["content"]), inspect(Str(text)));
    assert "\nwhen " + j + "\n" + "unexpected content" + ": " + ("expected " + i1 + " to include " + i2)
        == "\nwhen " + j + "\nunexpected content: " + "expected " + i1 + " to include " + i2;
  }
}
