/** `src/actions/expect-to-match-xsd.js`: validation of the context's
    `content` against an XSD. The expectation keeps two closure variables
    between calls, the XSD (a function is called once and replaced by what
    it yields, a string by its parsed document) and the saved working
    directory; the process-wide working directory is an object of its own.
    Parsing, validation and `dirname` + `chdir` are parameters. */
module ExpectXsd {
  import opened Outcomes
  import opened Text
  import opened Objects
  import opened ActionContext

  /** What `Joi.alternatives().try(Joi.string(), Joi.object().type(Document), Joi.func())` accepts. */
  predicate Accepts(xsd: Value)
  {
    JoiString(xsd) || xsd.Document? || xsd.Func?
  }

  /** The check made when the expectation is built. */
  function Construct(xsd: Value): (r: Result<Value>)
    ensures r.Ok? <==> Accepts(xsd)
    ensures r.Ok? ==> r.value == xsd
    ensures r.Err? ==> r.error == Invalid("matchXsd expectation")
  {
    if Accepts(xsd) then Ok(xsd) else Err(Invalid("matchXsd expectation"))
  }

  /** The XML library: parsing a string into a Document (or throwing) and
      validating a document against a schema (error messages, or a throw). */
  datatype Libxml = Libxml(parse: string -> Result<Value>, validate: (Value, Value) -> Result<seq<string>>)

  /** The process, whose working directory `process.chdir` changes. */
  class Process {
    var cwd: string

    constructor(cwd: string)
      ensures this.cwd == cwd
    {
      this.cwd := cwd;
    }
  }

  /** A string is parsed; any other value is used as it is. */
  function ParseIfString(v: Value, lib: Libxml): (r: Result<Value>)
    ensures v.Str? ==> r == lib.parse(v.s)
    ensures !v.Str? ==> r == Ok(v)
  {
    if v.Str? then lib.parse(v.s) else Ok(v)
  }

  /** The closure's XSD once a call got as far as parsing it. */
  function XsdAfterParse(source: Value, lib: Libxml): (r: Value)
    ensures ParseIfString(source, lib).Ok? ==> r == ParseIfString(source, lib).value
    ensures ParseIfString(source, lib).Err? ==> r == source
  {
    match ParseIfString(source, lib)
    case Ok(d) => d
    case Err(_) => source
  }

  /** The message of a failed validation: the context, then the error
      messages joined by newlines and trimmed. */
  function InvalidXml(stack: Option<seq<string>>, errors: seq<string>): string
  {
    Failed(PrintContext("invalid XML", stack), Trim(Join(errors, "\n")))
  }

  /** From the XSD source and the content on: parse both, check the content
      is a Document, validate, and yield the Document that becomes the new
      content. */
  function Validate(source: Value, content: Value, stack: Option<seq<string>>, lib: Libxml, inspect: Value -> string): (r: Result<Value>)
    ensures ParseIfString(source, lib).Err? ==> r == ParseIfString(source, lib)
    ensures ParseIfString(source, lib).Ok? && ParseIfString(content, lib).Err? ==> r == ParseIfString(content, lib)
    ensures r.Ok? ==> r.value.Document? && Ok(r.value) == ParseIfString(content, lib)
    ensures r.Ok? ==> lib.validate(ParseIfString(source, lib).value, r.value) == Ok([])
    ensures content.Document? && r.Ok? ==> r.value == content
    ensures ParseIfString(source, lib).Ok? && ParseIfString(content, lib).Ok? && !ParseIfString(content, lib).value.Document? ==>
      r == Err(Failure(NotDocument(ParseIfString(content, lib).value, inspect)))
    ensures ParseIfString(source, lib).Ok? && ParseIfString(content, lib).Ok? && ParseIfString(content, lib).value.Document? ==>
      var errors := lib.validate(ParseIfString(source, lib).value, ParseIfString(content, lib).value);
      && (errors.Err? ==> r == Err(errors.error))
      && (errors.Ok? && |errors.value| > 0 ==> r == Err(Failure(InvalidXml(stack, errors.value))))
      && (errors.Ok? && |errors.value| == 0 ==> r == ParseIfString(content, lib))
  {
    match ParseIfString(source, lib)
    case Err(e) => Err(e)
    case Ok(schema) =>
      match ParseIfString(content, lib)
      case Err(e) => Err(e)
      case Ok(xml) =>
        if !xml.Document? then Err(Failure(NotDocument(xml, inspect)))
        else match lib.validate(schema, xml)
          case Err(e) => Err(e)
          case Ok(errors) =>
            if |errors| > 0 then Err(Failure(InvalidXml(stack, errors))) else Ok(xml)
  }

  /** Whether a call gets past the content check (a `content` key, even
      one holding `undefined`), so that the directory change is attempted
      and the XSD is read from what the promise yielded. */
  predicate Reaches(xsd: Value, resolved: Result<Value>, fields: map<string, Value>)
  {
    Resolve(xsd, resolved).Ok? && "content" in fields
  }

  /** Whether a call that reaches the directory change also gets past it. */
  predicate Entered(xsd: Value, resolved: Result<Value>, fields: map<string, Value>, enter: Value -> Result<string>)
  {
    Reaches(xsd, resolved, fields) && !(Truthy(Field(fields, "path")) && enter(fields["path"]).Err?)
  }

  /** Whether a call saves the working directory: it reaches the directory
      change and the context has a `path`. */
  predicate Saves(xsd: Value, resolved: Result<Value>, fields: map<string, Value>)
  {
    Reaches(xsd, resolved, fields) && Truthy(Field(fields, "path"))
  }

  /** What one call settles with: the new content, or the error. The
      promise's rejection comes first, then the content check, then the
      directory change, then `result.content`, then validation. */
  function Outcome(xsd: Value, resolved: Result<Value>, fields: map<string, Value>, stack: Option<seq<string>>,
                   enter: Value -> Result<string>, lib: Libxml, inspect: Value -> string): (r: Result<Value>)
    ensures Resolve(xsd, resolved).Err? ==> r == Err(Resolve(xsd, resolved).error)
    ensures Resolve(xsd, resolved).Ok? && "content" !in fields ==>
      r == Err(Failure(Failed(PrintContext("no content to validate", stack), NoProperty(Shown(fields, stack), "content", inspect))))
    ensures Saves(xsd, resolved, fields) && enter(fields["path"]).Err? ==> r == Err(enter(fields["path"]).error)
    ensures Entered(xsd, resolved, fields, enter) && ReadProperty(Resolve(xsd, resolved).value, "content").Err? ==>
      r == Err(ReadProperty(Resolve(xsd, resolved).value, "content").error)
    ensures Entered(xsd, resolved, fields, enter) && ReadProperty(Resolve(xsd, resolved).value, "content").Ok? ==>
      r == Validate(ReadProperty(Resolve(xsd, resolved).value, "content").value, fields["content"], stack, lib, inspect)
  {
    match Resolve(xsd, resolved)
    case Err(e) => Err(e)
    case Ok(result) =>
      if "content" !in fields then
        Err(Failure(Failed(PrintContext("no content to validate", stack), NoProperty(Shown(fields, stack), "content", inspect))))
      else if Truthy(Field(fields, "path")) && enter(fields["path"]).Err? then Err(enter(fields["path"]).error)
      else match ReadProperty(result, "content")
        case Err(e) => Err(e)
        case Ok(source) => Validate(source, fields["content"], stack, lib, inspect)
  }

  /** The closure's XSD after a call: replaced only once `result.content`
      was read. */
  function XsdAfter(xsd: Value, resolved: Result<Value>, fields: map<string, Value>, enter: Value -> Result<string>, lib: Libxml): (r: Value)
    ensures !Entered(xsd, resolved, fields, enter) ==> r == xsd
    ensures Entered(xsd, resolved, fields, enter) && ReadProperty(Resolve(xsd, resolved).value, "content").Err? ==> r == xsd
    ensures Entered(xsd, resolved, fields, enter) && ReadProperty(Resolve(xsd, resolved).value, "content").Ok? ==>
      r == XsdAfterParse(ReadProperty(Resolve(xsd, resolved).value, "content").value, lib)
  {
    if !Entered(xsd, resolved, fields, enter) then xsd
    else match ReadProperty(Resolve(xsd, resolved).value, "content")
      case Err(_) => xsd
      case Ok(source) => XsdAfterParse(source, lib)
  }

  /** The working directory a call leaves behind, as written: the closure
      variable `cwd` is only assigned when the context has a `path`, but
      it is restored whenever it is set, including on later calls without
      a `path`. */
  function CwdAfterAsWritten(saved: Option<string>, before: string, saves: bool): (r: string)
    ensures saves ==> r == before
    ensures !saves && saved.Some? ==> r == saved.value
    ensures !saves && saved.None? ==> r == before
  {
    if saves then before else if saved.Some? then saved.value else before
  }

  /** The directory is restored whenever the call saves it itself, or no
      earlier call saved another one. */
  lemma {:induction false} RestoredWithoutStaleCwd(saved: Option<string>, before: string, saves: bool)
    requires saves || saved.None? || saved == Some(before)
    ensures CwdAfterAsWritten(saved, before, saves) == before
  {
  }

  /** A call with a `path` from "/a", then a change of directory to "/b"
      elsewhere, then a call without `path`: the second call moves the
      process back to "/a". */
  lemma StaleCwdRestored()
    ensures CwdAfterAsWritten(Some("/a"), "/b", false) == "/a" != "/b"
  {
  }

  /** The expectation as written, with its two closure variables. */
  class XsdExpectation {
    var xsd: Value
    var cwd: Option<string>

    constructor(xsd: Value)
      requires Accepts(xsd)
      ensures this.xsd == xsd && cwd == None
    {
      this.xsd := xsd;
      cwd := None;
    }

    /** The returned function, as written. */
    method Apply(args: Context, process: Process, resolved: Result<Value>, enter: Value -> Result<string>,
                 lib: Libxml, inspect: Value -> string) returns (r: Result<Context>)
      modifies this, args, process
      ensures var o := Outcome(old(xsd), resolved, old(args.fields), old(args.stack), enter, lib, inspect);
        && (o.Ok? ==> r == Ok(args) && args.fields == old(args.fields)["content" := o.value])
        && (o.Err? ==> r == Err(o.error) && args.fields == old(args.fields))
      ensures args.stack == old(args.stack)
      ensures xsd == XsdAfter(old(xsd), resolved, old(args.fields), enter, lib)
      ensures cwd == (if Saves(old(xsd), resolved, old(args.fields)) then Some(old(process.cwd)) else old(cwd))
      ensures process.cwd == CwdAfterAsWritten(old(cwd), old(process.cwd), Saves(old(xsd), resolved, old(args.fields)))
    {
      var result := Resolve(xsd, resolved);
      if result.Err? {
        Restore(process);
        return Err(result.error);
      }
      if "content" !in args.fields {
        Restore(process);
        return Err(Failure(Failed(PrintContext("no content to validate", args.stack),
                                  NoProperty(Shown(args.fields, args.stack), "content", inspect))));
      }
      var path := args.Get("path");
      if Truthy(path) {
        cwd := Some(process.cwd);
        var entered := enter(path);
        if entered.Err? {
          Restore(process);
          return Err(entered.error);
        }
        process.cwd := entered.value;
      }
      var source := ReadProperty(result.value, "content");
      if source.Err? {
        Restore(process);
        return Err(source.error);
      }
      xsd := XsdAfterParse(source.value, lib);
      var outcome := Validate(source.value, args.Get("content"), args.stack, lib, inspect);
      Restore(process);
      if outcome.Err? {
        return Err(outcome.error);
      }
      args.Set("content", outcome.value);
      r := Ok(args);
    }

    /** `if (cwd) process.chdir(cwd)`. */
    method Restore(process: Process)
      modifies process
      ensures cwd.Some? ==> process.cwd == cwd.value
      ensures cwd.None? ==> process.cwd == old(process.cwd)
    {
      if cwd.Some? {
        process.cwd := cwd.value;
      }
    }

    /** The returned function with the saved directory kept per call: the
        working directory after the call is always the one before it. */
    method ApplyRestoring(args: Context, process: Process, resolved: Result<Value>, enter: Value -> Result<string>,
                          lib: Libxml, inspect: Value -> string) returns (r: Result<Context>)
      modifies this, args, process
      ensures var o := Outcome(old(xsd), resolved, old(args.fields), old(args.stack), enter, lib, inspect);
        && (o.Ok? ==> r == Ok(args) && args.fields == old(args.fields)["content" := o.value])
        && (o.Err? ==> r == Err(o.error) && args.fields == old(args.fields))
      ensures args.stack == old(args.stack)
      ensures xsd == XsdAfter(old(xsd), resolved, old(args.fields), enter, lib)
      ensures cwd == old(cwd)
      ensures process.cwd == old(process.cwd)
    {
      var result := Resolve(xsd, resolved);
      if result.Err? {
        return Err(result.error);
      }
      if "content" !in args.fields {
        return Err(Failure(Failed(PrintContext("no content to validate", args.stack),
                                  NoProperty(Shown(args.fields, args.stack), "content", inspect))));
      }
      var saved: Option<string> := None;
      var path := args.Get("path");
      if Truthy(path) {
        saved := Some(process.cwd);
        var entered := enter(path);
        if entered.Err? {
          process.cwd := saved.value;
          return Err(entered.error);
        }
        process.cwd := entered.value;
      }
      var source := ReadProperty(result.value, "content");
      if source.Err? {
        if saved.Some? {
          process.cwd := saved.value;
        }
        return Err(source.error);
      }
      xsd := XsdAfterParse(source.value, lib);
      var outcome := Validate(source.value, args.Get("content"), args.stack, lib, inspect);
      if saved.Some? {
        process.cwd := saved.value;
      }
      if outcome.Err? {
        return Err(outcome.error);
      }
      args.Set("content", outcome.value);
      r := Ok(args);
    }
  }

  /** A content that is already a valid Document is kept as that very
      document, and every other field of the context is left alone. */
  lemma {:induction false} DocumentKept(xsd: Value, resolved: Result<Value>, fields: map<string, Value>, stack: Option<seq<string>>,
                                        enter: Value -> Result<string>, lib: Libxml, inspect: Value -> string)
    requires "content" in fields && fields["content"].Document?
    requires Outcome(xsd, resolved, fields, stack, enter, lib, inspect).Ok?
    ensures Outcome(xsd, resolved, fields, stack, enter, lib, inspect).value == fields["content"]
    ensures fields["content" := Outcome(xsd, resolved, fields, stack, enter, lib, inspect).value] == fields
  {
  }

  /** A content that is not a Document, and is not a string that parses to
      one, always fails. */
  lemma {:induction false} NonDocumentFails(xsd: Value, resolved: Result<Value>, fields: map<string, Value>, stack: Option<seq<string>>,
                                            enter: Value -> Result<string>, lib: Libxml, inspect: Value -> string)
    requires "content" in fields && !fields["content"].Document?
    requires fields["content"].Str? ==> !(lib.parse(fields["content"].s).Ok? && lib.parse(fields["content"].s).value.Document?)
    ensures Outcome(xsd, resolved, fields, stack, enter, lib, inspect).Err?
  {
  }

  /** An XSD given as a function whose promise resolves to nothing: once
      the content check passes, reading `result.content` throws, and the
      closure keeps the function for the next call. */
  lemma {:induction false} UnresolvedXsdThrows(xsd: Value, fields: map<string, Value>, stack: Option<seq<string>>,
                                               enter: Value -> Result<string>, lib: Libxml, inspect: Value -> string)
    requires xsd.Func? && "content" in fields && !Truthy(Field(fields, "path"))
    ensures Outcome(xsd, Ok(Undefined), fields, stack, enter, lib, inspect)
         == Err(Failure("Cannot read property 'content' of undefined"))
    ensures XsdAfter(xsd, Ok(Undefined), fields, enter, lib) == xsd
  {
    assert Entered(xsd, Ok(Undefined), fields, enter);
    assert CannotRead("content", "undefined") == "Cannot read property 'content' of undefined";
  }

  /** A `content` key that holds `undefined` passes the content check: with
      a `path`, the directory is saved and changed, the closure's XSD is
      replaced by the one the promise yielded, and the call then fails with
      `NotDocument` on `undefined` ("expected undefined to be an instance of
      Document"). */
  lemma {:induction false} UndefinedContentNotDocument(xsd: Value, resolved: Result<Value>, fields: map<string, Value>, stack: Option<seq<string>>,
                                                       enter: Value -> Result<string>, lib: Libxml, inspect: Value -> string)
    requires Resolve(xsd, resolved).Ok? && ReadProperty(Resolve(xsd, resolved).value, "content").Ok?
    requires ParseIfString(ReadProperty(Resolve(xsd, resolved).value, "content").value, lib).Ok?
    requires "content" in fields && fields["content"] == Undefined
    requires "path" in fields && Truthy(fields["path"]) && enter(fields["path"]).Ok?
    ensures Saves(xsd, resolved, fields)
    ensures XsdAfter(xsd, resolved, fields, enter, lib) == XsdAfterParse(ReadProperty(Resolve(xsd, resolved).value, "content").value, lib)
    ensures Outcome(xsd, resolved, fields, stack, enter, lib, inspect) == Err(Failure(NotDocument(Undefined, inspect)))
  {
    assert Entered(xsd, resolved, fields, enter);
    var source := ReadProperty(Resolve(xsd, resolved).value, "content").value;
    assert Validate(source, Undefined, stack, lib, inspect) == Err(Failure(NotDocument(Undefined, inspect)));
  }
}
