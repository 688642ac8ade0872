/** `src/actions/expect-status-code.js`: an assertion that the context
    holds the expected status code, which returns the context untouched. */
module ExpectStatusCode {
  import opened Outcomes
  import opened Objects
  import opened ActionContext
  import Text

  /** `Joi.assert(code, Joi.number().required(), ...)`. */
  function Construct(code: Value): (r: Result<int>)
    ensures r.Ok? <==> code.Num?
    ensures r.Ok? ==> r.value == code.n
    ensures r.Err? ==> r.error == Invalid("statusCode expectation")
  {
    if code.Num? then Ok(code.n) else Err(Invalid("statusCode expectation"))
  }

  /** The assertion prefix, with the steps that led here. */
  function Prefix(args: Context): string
    reads args
  {
    PrintContext("unexpected status code", args.stack)
  }

  /** The returned function: the very same context when `code` equals the
      expected value; a missing `code` key and a different value (`undefined`
      included) fail with distinct messages after the prefix. */
  function Check(expected: int, args: Context, inspect: Value -> string): (r: Result<Context>)
    reads args
    ensures r.Ok? <==> "code" in args.fields && args.fields["code"] == Num(expected)
    ensures r.Ok? ==> r.value == args
    ensures "code" !in args.fields ==>
      r == Err(Failure(Failed(Prefix(args), NoProperty(args.AsValue(), "code", inspect))))
    ensures "code" in args.fields && args.fields["code"] != Num(expected) ==>
      r == Err(Failure(Failed(Prefix(args), NotEqual(args.fields["code"], Num(expected), inspect))))
  {
    var code := args.Get("code");
    if "code" !in args.fields then Err(Failure(Failed(Prefix(args), NoProperty(args.AsValue(), "code", inspect))))
    else if code != Num(expected) then Err(Failure(Failed(Prefix(args), NotEqual(code, Num(expected), inspect))))
    else Ok(args)
  }

  /** Without any context, a missing code reads
      "\nunexpected status code: expected {} to have a property 'code'". */
  lemma {:induction false} MissingCodeMessage(args: Context, expected: int, inspect: Value -> string)
    requires args.fields == map[] && args.stack == None
    requires inspect(Obj(map[])) == "{}"
    ensures Check(expected, args, inspect) ==
      Err(Failure("\nunexpected status code: " + "expected {} to have a property 'code'"))
  {
    assert args.AsValue() == Obj(map[]);
    assert Prefix(args) == "\n" + "unexpected status code";
    assert "\n" + "unexpected status code" + ": " == "\nunexpected status code: ";
    assert "expected " + "{}" + " to have a property '" + "code" + "'" == "expected {} to have a property 'code'";
  }

  /** A `code` key that holds `undefined` is there, so the comparison runs
      and fails: "expected undefined to equal 200" after the prefix. */
  lemma {:induction false} UndefinedCodeMessage(args: Context, inspect: Value -> string)
    requires args.fields == map["code" := Undefined] && args.stack == None
    requires inspect(Undefined) == "undefined" && inspect(Num(200)) == "200"
    ensures Check(200, args, inspect) ==
      Err(Failure("\nunexpected status code: " + "expected undefined to equal 200"))
  {
    assert args.fields["code"] != Num(200);
    assert Prefix(args) == "\n" + "unexpected status code";
    assert "\n" + "unexpected status code" + ": " == "\nunexpected status code: ";
    assert "expected " + "undefined" + " to equal " + "200" == "expected undefined to equal 200";
  }

  /** With steps on the stack, a wrong code reads "\nwhen s1\nthen s2…"
      followed by the assertion and what was expected. */
  lemma {:induction false} WrongCodeMessage(args: Context, expected: int, got: int, inspect: Value -> string)
    requires "code" in args.fields && args.fields["code"] == Num(got) && got != expected
    requires Text.Join(Entries(args.stack), "\nthen ") != ""
    ensures Check(expected, args, inspect) ==
      Err(Failure("\nwhen " + Text.Join(Entries(args.stack), "\nthen ") + "\nunexpected status code: " + "expected "
                  + inspect(Num(got)) + " to equal " + inspect(Num(expected))))
  {
    var j := Text.Join(Entries(args.stack), "\nthen ");
    assert Prefix(args) == "\nwhen " + j + "\n" + "unexpected status code";
    assert Failed(Prefix(args), NotEqual(Num(got), Num(expected), inspect)) ==
      "\nwhen " + j + "\n" + "unexpected status code" + ": " + ("expected " + inspect(Num(got)) + " to equal " + inspect(Num(expected)));
    var (i1, i2) := (inspect(Num(got)), inspect(Num(expected)));
    assert "\nwhen " + j + "\n" + "unexpected status code" + ": " + ("expected " + i1 + " to equal " + i2)
        == "\nwhen " + j + "\nunexpected status code: " + "expected " + i1 + " to equal " + i2;
  }
}
