/**
 * The grading route, `POST /api/execute` (app/api/execute/route.ts): it
 * checks the request, then runs the test cases one after another, each
 * as one Judge0 submission, and reports one entry per case. Judge0
 * itself is the parameter `judge0`, a function from the submission the
 * route sends to the HTTP outcome it gets back.
 */
module ExecuteRoute {
  import opened Wrappers
  import opened JsText
  import opened Json
  import opened JsonCodec
  import opened JsonRoundTrip
  import opened JsonParseShape
  import opened Harness
  import opened Judge0Api

  // ================================================================ JUDGE0_LANGUAGE_IDS

  /** The route's own language table. */
  const LanguageIds: map<string, nat> := map["javascript" := 63, "python" := 71, "java" := 62]

  /** The Judge0 id of a language, from the table's own entries only. */
  function LanguageId(key: string): Option<nat> {
    if key in LanguageIds then Some(LanguageIds[key]) else None
  }

  /** Exactly the three tags have an id, and every id is a usable (truthy) number. */
  lemma LanguageIdExact(key: string)
    ensures LanguageId(key).Some? <==> key == "javascript" || key == "python" || key == "java"
    ensures LanguageId(key) == Some(63) <==> key == "javascript"
    ensures LanguageId(key) == Some(71) <==> key == "python"
    ensures LanguageId(key) == Some(62) <==> key == "java"
  {
    assert LanguageIds.Keys == {"javascript", "python", "java"};
  }

  /** What the property read `JUDGE0_LANGUAGE_IDS[key]` finds on the object literal. */
  datatype Property = OwnEntry(id: nat) | Inherited(name: string)

  /** Members every object literal inherits from `Object.prototype`. */
  const ObjectPrototypeMembers: set<string> := {
    "constructor", "__proto__", "hasOwnProperty", "isPrototypeOf",
    "propertyIsEnumerable", "toLocaleString", "toString", "valueOf",
    "__defineGetter__", "__defineSetter__", "__lookupGetter__", "__lookupSetter__"
  }

  /** The lookup as the route writes it: an own entry, else an inherited member, else `undefined`. */
  function LanguageLookupAsWritten(key: string): Option<Property> {
    if key in LanguageIds then Some(OwnEntry(LanguageIds[key]))
    else if key in ObjectPrototypeMembers then Some(Inherited(key))
    else None
  }

  /** `!languageId` is false: a non-zero id, or an inherited function or object, both truthy. */
  predicate PassesGuardAsWritten(key: string) {
    match LanguageLookupAsWritten(key)
    case None => false
    case Some(OwnEntry(id)) => id != 0
    case Some(Inherited(_)) => true
  }

  /** The guard as written lets `"constructor"` through although no language has that name. */
  lemma InheritedNamePassesGuard()
    ensures PassesGuardAsWritten("constructor") && LanguageId("constructor").None?
  {
  }

  /** Away from the inherited names, the written guard and the corrected lookup agree. */
  lemma GuardAgreesOffPrototype(key: string)
    requires key !in ObjectPrototypeMembers
    ensures PassesGuardAsWritten(key) <==> LanguageId(key).Some?
  {
  }

  // ================================================================ the Judge0 call

  /** The body `{language_id, source_code, stdin: ''}` and the two RapidAPI headers. */
  datatype Submission = Submission(host: string, apiKey: string, languageId: nat, sourceCode: Json, stdin: string)

  /** The fetch either throws, answers with a non-2xx status and a body text, or answers with Judge0's JSON. */
  datatype HttpReply = Failed(message: string) | NotOk(text: string) | Replied(reply: Judge0Reply)

  /** One entry of the report; `expected` is None where the test case has no `output`. */
  datatype TestResult = TestResult(passed: bool, expected: Option<Json>, actual: Json, testCase: int)

  const MissingStatus := "Cannot read properties of undefined (reading 'id')"

  /**
   * The submission for one case: the language tag must convert to a
   * property key, the table must have an id for it, and the code must
   * wrap without throwing.
   */
  function SubmissionFor(code: Json, language: Option<Json>, testCase: Json, host: string, apiKey: string)
    : (r: Result<Submission, string>)
    ensures r.Ok? ==> LanguageId(Interpolated(language)) == Some(r.value.languageId)
    ensures r.Ok? ==> r.value.stdin == "" && r.value.host == host && r.value.apiKey == apiKey
    ensures r.Ok? ==> WrapCodeWithTest(code, language, testCase) == Ok(r.value.sourceCode)
    ensures !Convertible(language) ==> r == Err(NoPrimitive)
    ensures Convertible(language) && LanguageId(Interpolated(language)).None? ==>
      r == Err("Language " + Interpolated(language) + " not supported")
    ensures Convertible(language) && LanguageId(Interpolated(language)).Some? && WrapCodeWithTest(code, language, testCase).Err? ==>
      r == Err(WrapCodeWithTest(code, language, testCase).error)
    ensures testCase.JNull? ==> r.Err?
  {
    var key := Interpolated(language);
    if !Convertible(language) then Err(NoPrimitive)
    else
      match LanguageId(key)
      case None => Err("Language " + key + " not supported")
      case Some(id) =>
        match WrapCodeWithTest(code, language, testCase)
        case Err(e) => Err(e)
        case Ok(source) => Ok(Submission(host, apiKey, id, source, ""))
  }

  /**
   * The value compared for an accepted run: trimmed stdout parsed as
   * JSON; absent or blank output reads as `null`, and text that is not
   * JSON stays a string.
   */
  function Normalize(stdout: Option<string>): (r: Json)
    ensures stdout.None? || Trim(stdout.value) == "" ==> r == JNull
    ensures stdout.Some? && Trim(stdout.value) != "" && Parse(Trim(stdout.value)).None? ==> r == JStr(Trim(stdout.value))
    ensures stdout.Some? && Trim(stdout.value) != "" && Parse(Trim(stdout.value)).Some? ==> r == Parse(Trim(stdout.value)).value
    ensures WellFormed(r)
  {
    var text := if stdout.Some? then Trim(stdout.value) else "";
    ParseWellFormed(text);
    if text == "" then JNull
    else
      match Parse(text)
      case Some(v) => v
      case None => JStr(text)
  }

  /** `JSON.stringify(actual) === JSON.stringify(expected)`; an undefined `expected` never matches. */
  predicate Passed(actual: Json, expected: Option<Json>)
    ensures expected.None? ==> !Passed(actual, expected)
    ensures expected == Some(actual) ==> Passed(actual, expected)
  {
    expected.Some? && Stringify(actual) == Stringify(expected.value)
  }

  /** The value an accepted run yields, or the message thrown for every other status. */
  function StatusOutcome(reply: Judge0Reply): (r: Result<Json, string>)
    ensures r.Ok? <==> StatusId(reply) == Some(3)
    ensures r.Ok? ==> r.value == Normalize(reply.stdout)
    ensures reply.status.None? ==> r == Err(MissingStatus)
    ensures StatusId(reply) == Some(6) ==>
      r == Err("Compilation error: " + Or(reply.compileOutput, "Unknown compilation error"))
    ensures StatusId(reply) == Some(11) ==>
      r == Err("Runtime error: " + Or(reply.stderr, Or(reply.message, "Unknown runtime error")))
    ensures reply.status.Some? && reply.status.value.id !in {Some(3), Some(6), Some(11)} ==>
      r == Err(Or(reply.stderr, Or(reply.status.value.description, "Execution failed")))
  {
    if reply.status.None? then Err(MissingStatus)
    else
      var id := reply.status.value.id;
      if id == Some(3) then Ok(Normalize(reply.stdout))
      else if id == Some(6) then Err("Compilation error: " + Or(reply.compileOutput, "Unknown compilation error"))
      else if id == Some(11) then Err("Runtime error: " + Or(reply.stderr, Or(reply.message, "Unknown runtime error")))
      else Err(Or(reply.stderr, Or(reply.status.value.description, "Execution failed")))
  }

  /** What one HTTP outcome makes of test case number `testNumber`. */
  function ReplyOutcome(http: HttpReply, testCase: Json, testNumber: int): (r: Result<TestResult, string>)
    ensures r.Ok? <==> http.Replied? && StatusId(http.reply) == Some(3)
    ensures r.Ok? ==> r.value.testCase == testNumber && r.value.expected == Get(testCase, "output")
    ensures r.Ok? ==> r.value.actual == Normalize(http.reply.stdout)
    ensures http.Failed? ==> r == Err(http.message)
    ensures http.NotOk? ==> r == Err("Judge0 API request failed: " + http.text)
    ensures http.Replied? && StatusId(http.reply) != Some(3) ==> r == Err(StatusOutcome(http.reply).error)
  {
    match http
    case Failed(m) => Err(m)
    case NotOk(text) => Err("Judge0 API request failed: " + text)
    case Replied(reply) =>
      match StatusOutcome(reply)
      case Err(e) => Err(e)
      case Ok(actual) =>
        var expected := Get(testCase, "output");
        Ok(TestResult(Passed(actual, expected), expected, actual, testNumber))
  }

  /** `executeWithJudge0`: the entry for one case, or the message it throws. */
  function Grade(code: Json, language: Option<Json>, testCase: Json, testNumber: int,
                 host: string, apiKey: string, judge0: Submission -> HttpReply): (r: Result<TestResult, string>)
    ensures testCase.JNull? ==> r.Err?
  {
    match SubmissionFor(code, language, testCase, host, apiKey)
    case Err(e) => Err(e)
    case Ok(submission) => ReplyOutcome(judge0(submission), testCase, testNumber)
  }

  /** The entry the loop pushes for the non-null test case at index `i`. */
  function CaseResult(code: Json, language: Option<Json>, testCase: Json, i: nat,
                      host: string, apiKey: string, judge0: Submission -> HttpReply): (r: TestResult)
    ensures r.testCase == i + 1 && r.expected == Get(testCase, "output")
  {
    match Grade(code, language, testCase, i + 1, host, apiKey, judge0)
    case Ok(result) => result
    case Err(m) => TestResult(false, Get(testCase, "output"), JStr("Error: " + m), i + 1)
  }

  /** The fallback text `'null'` reads back as `null`. */
  lemma ParseNullText()
    ensures Parse("null") == Some(JNull)
  {
  }

  /** `executeWithJudge0`, step by step: `actualOutput` is set only for an accepted run. */
  method ExecuteWithJudge0(code: Json, language: Option<Json>, testCase: Json, testNumber: int,
                           host: string, apiKey: string, judge0: Submission -> HttpReply)
    returns (r: Result<TestResult, string>)
    ensures r == Grade(code, language, testCase, testNumber, host, apiKey, judge0)
  {
    var submission := SubmissionFor(code, language, testCase, host, apiKey);
    if submission.Err? {
      return Err(submission.error);
    }
    var response := judge0(submission.value);
    assert Grade(code, language, testCase, testNumber, host, apiKey, judge0) == ReplyOutcome(response, testCase, testNumber);
    if response.Failed? {
      return Err(response.message);
    }
    if response.NotOk? {
      return Err("Judge0 API request failed: " + response.text);
    }
    var result := response.reply;
    if result.status.None? {
      return Err(MissingStatus);
    }
    var id := result.status.value.id;
    var actual: Json;
    if id == Some(3) {
      var trimmed := if result.stdout.Some? then Trim(result.stdout.value) else "";
      var output := if trimmed != "" then trimmed else "null";
      ParseNullText();
      var parsed := Parse(output);
      if parsed.Some? {
        actual := parsed.value;
      } else {
        actual := JStr(trimmed);
      }
    } else if id == Some(6) {
      return Err("Compilation error: " + Or(result.compileOutput, "Unknown compilation error"));
    } else if id == Some(11) {
      return Err("Runtime error: " + Or(result.stderr, Or(result.message, "Unknown runtime error")));
    } else {
      return Err(Or(result.stderr, Or(result.status.value.description, "Execution failed")));
    }
    var expected := Get(testCase, "output");
    var passed := expected.Some? && Stringify(actual) == Stringify(expected.value);
    return Ok(TestResult(passed, expected, actual, testNumber));
  }

  // ================================================================ POST

  /**
   * The request body: JSON, or text `request.json()` rejects with a
   * message. A body `request.json()` parsed never repeats a member name
   * (`ParseWellFormed`), which is what `Post` requires of it.
   */
  datatype Request = Unreadable(message: string) | Body(body: Json)

  /** `JUDGE0_API_KEY` and `JUDGE0_HOST`. */
  datatype Env = Env(judge0Key: Option<string>, judge0Host: Option<string>)

  datatype Reply = Failure(status: int, error: string) | Graded(results: seq<TestResult>)

  const CodeRequired := "Code and test cases are required"
  const NotConfigured := "Judge0 API not configured. Add JUDGE0_API_KEY and JUDGE0_HOST to environment variables."
  const NullBody := "Cannot destructure property 'code' of '(intermediate value)' as it is null."
  const NullCase := "Cannot read properties of null (reading 'output')"

  predicate Configured(env: Env) {
    env.judge0Key.Some? && env.judge0Key.value != "" && env.judge0Host.Some? && env.judge0Host.value != ""
  }

  /**
   * `testCases[0]`, …, `testCases[testCases.length - 1]`: the elements of
   * an array, the characters of a string; other values have no length.
   */
  function CaseList(testCases: Json): (r: seq<Json>)
    ensures testCases.JArr? ==> r == testCases.items
    ensures testCases.JStr? ==> |r| == |testCases.s| && forall i | 0 <= i < |r| :: r[i] == JStr([testCases.s[i]])
    ensures !testCases.JArr? && !testCases.JStr? ==> r == []
  {
    match testCases
    case JArr(items) => items
    case JStr(s) => seq(|s|, i requires 0 <= i < |s| => JStr([s[i]]))
    case _ => []
  }

  /** The message of an error that escapes the handler, or the fallback for an empty one. */
  function ErrorText(message: string): string {
    if message == "" then "Failed to execute code" else message
  }

  /**
   * The handler. A bad request or a missing configuration is answered
   * before any case runs; otherwise the report has one entry per case,
   * in order, unless a `null` case makes the handler itself throw.
   */
  method Post(request: Request, env: Env, judge0: Submission -> HttpReply) returns (reply: Reply)
    requires request.Body? ==> WellFormed(request.body)
    ensures request.Unreadable? ==> reply == Failure(500, ErrorText(request.message))
    ensures request.Body? && request.body.JNull? ==> reply == Failure(500, NullBody)
    ensures request.Body? && !request.body.JNull? ==>
      var code, testCases := Get(request.body, "code"), Get(request.body, "testCases");
      if !TruthyOpt(code) || !TruthyOpt(testCases) then reply == Failure(400, CodeRequired)
      else if !Configured(env) then reply == Failure(500, NotConfigured)
      else
        var cases := CaseList(testCases.value);
        if JNull in cases then reply == Failure(500, NullCase)
        else
          && reply.Graded?
          && |reply.results| == |cases|
          && forall i | 0 <= i < |cases| ::
               reply.results[i] == CaseResult(code.value, Get(request.body, "language"), cases[i], i,
                                              env.judge0Host.value, env.judge0Key.value, judge0)
  {
    if request.Unreadable? {
      return Failure(500, ErrorText(request.message));
    }
    var body := request.body;
    if body.JNull? {
      return Failure(500, NullBody);
    }
    var code, language, testCases := Get(body, "code"), Get(body, "language"), Get(body, "testCases");
    if !TruthyOpt(code) || !TruthyOpt(testCases) {
      return Failure(400, CodeRequired);
    }
    if !Configured(env) {
      return Failure(500, NotConfigured);
    }
    var graded := RunCases(code.value, language, CaseList(testCases.value), env.judge0Host.value, env.judge0Key.value, judge0);
    if graded.None? {
      return Failure(500, NullCase);
    }
    return Graded(graded.value);
  }

  /**
   * The `for` loop over the cases: one entry per case, in order. A `null`
   * case whose run fails makes the `catch` block itself throw, and that
   * ends the loop (None).
   */
  method RunCases(code: Json, language: Option<Json>, cases: seq<Json>,
                  host: string, apiKey: string, judge0: Submission -> HttpReply)
    returns (r: Option<seq<TestResult>>)
    ensures r.None? <==> JNull in cases
    ensures r.Some? ==> |r.value| == |cases|
    ensures r.Some? ==> forall i | 0 <= i < |cases| :: r.value[i] == CaseResult(code, language, cases[i], i, host, apiKey, judge0)
  {
    var results: seq<TestResult> := [];
    var i := 0;
    while i < |cases|
      invariant 0 <= i <= |cases| && |results| == i
      invariant forall j | 0 <= j < i :: !cases[j].JNull?
      invariant forall j | 0 <= j < i :: results[j] == CaseResult(code, language, cases[j], j, host, apiKey, judge0)
    {
      var testCase := cases[i];
      var result := ExecuteWithJudge0(code, language, testCase, i + 1, host, apiKey, judge0);
      if result.Ok? {
        results := results + [result.value];
      } else {
        if testCase.JNull? {
          // the catch block reads `testCase.output` and throws again
          return None;
        }
        results := results + [TestResult(false, Get(testCase, "output"), JStr("Error: " + result.error), i + 1)];
      }
      i := i + 1;
    }
    return Some(results);
  }

  // ================================================================ properties

  /**
   * A program that prints a well-formed value, with any whitespace around
   * it, is read back as exactly that value.
   */
  lemma NormalizePrinted(v: Json, lead: string, pad: string)
    requires WellFormed(v) && AllWhitespace(lead) && AllWhitespace(pad)
    ensures Normalize(Some(lead + Stringify(v) + pad)) == v
  {
    var text := Stringify(v);
    StringifyEdges(v);
    assert lead + text + pad == lead + (text + pad);
    assert (text + pad)[0] == text[0];
    TrimStartOfWhitespace(lead, text + pad);
    TrimEndPadding(text, pad);
    ParseStringify(v);
  }

  /** Trimming the output first changes nothing: `Normalize` trims, and trimming twice is trimming once. */
  lemma NormalizeTrim(stdout: Option<string>)
    ensures Normalize(Some(if stdout.Some? then Trim(stdout.value) else "")) == Normalize(stdout)
  {
    if stdout.Some? {
      TrimIdempotent(stdout.value);
    } else {
      TrimEmptyIff("");
    }
  }

  /** Output that is not JSON is compared as the trimmed text itself. */
  lemma NormalizeNonJson(text: string, lead: string, pad: string)
    requires text != [] && Trimmed(text) && Parse(text).None?
    requires AllWhitespace(lead) && AllWhitespace(pad)
    ensures Normalize(Some(lead + text + pad)) == JStr(text)
  {
    assert lead + text + pad == lead + (text + pad);
    assert (text + pad)[0] == text[0];
    TrimStartOfWhitespace(lead, text + pad);
    TrimEndPadding(text, pad);
  }

  /**
   * A JavaScript driver that finds none of its functions prints
   * `undefined`, which is compared as the string "undefined".
   */
  lemma NormalizeUndefined()
    ensures Normalize(Some("undefined\n")) == JStr("undefined")
  {
    assert "undefined\n" == [] + "undefined" + "\n";
    NormalizeNonJson("undefined", [], "\n");
  }

  /** The digit `d` followed by the text `rest`, which starts with no digit, reads as that digit's value. */
  lemma ParseDigit(d: char, rest: string)
    requires IsDigit(d) && rest != [] && !IsDigit(rest[0]) && rest[0] != '.' && rest[0] != 'e' && rest[0] != 'E'
    ensures ParseValue([d] + rest) == Some((JNum(DigitValue(d)), rest))
  {
    var u := [d] + rest;
    assert u[0] == d && u[..1] == [d] && u[1..] == rest;
    assert SkipWs(u) == u;
    assert TakeDigits(rest) == ([], rest);
    assert TakeDigits(u) == ([d], rest);
    assert [d][..0] == [];
    assert DecimalValue([d]) == DigitValue(d);
  }

  /** Python's `json.dumps` separates items with `", "`: such output still parses as the list. */
  lemma ParseSpacedList()
    ensures Parse("[0, 1]") == Some(JArr([JNum(0), JNum(1)]))
  {
    ParseDigit('0', ", 1]");
    ParseDigit('1', "]");
    assert ['0'] + ", 1]" == "0, 1]";
    assert ['1'] + "]" == "1]";
    assert SkipWs(", 1]") == ", 1]";
    assert ", 1]"[1..] == " 1]";
    assert SkipWs(" 1]") == SkipWs("1]") by {
      assert " 1]"[1..] == "1]";
    }
    assert SkipWs("1]") == "1]";
    assert ParseValue(" 1]") == Some((JNum(1), "]"));
    assert SkipWs("]") == "]" && "]"[1..] == [];
    assert ParseElements(" 1]") == Some(([JNum(1)], ""));
    assert ParseElements("0, 1]") == Some(([JNum(0)] + [JNum(1)], ""));
    assert [JNum(0)] + [JNum(1)] == [JNum(0), JNum(1)];
    assert SkipWs("0, 1]") == "0, 1]";
    assert ParseArray("0, 1]") == Some((JArr([JNum(0), JNum(1)]), ""));
    assert SkipWs("[0, 1]") == "[0, 1]" && "[0, 1]"[1..] == "0, 1]";
    assert ParseValue("[0, 1]") == Some((JArr([JNum(0), JNum(1)]), ""));
    assert SkipWs("") == "";
  }

  /** Output whose trimmed text parses, with any whitespace around it, reads back as the parsed value. */
  lemma NormalizeParses(lead: string, text: string, pad: string, v: Json)
    requires text != [] && Trimmed(text) && Parse(text) == Some(v)
    requires AllWhitespace(lead) && AllWhitespace(pad)
    ensures Normalize(Some(lead + text + pad)) == v
  {
    assert lead + text + pad == lead + (text + pad);
    assert (text + pad)[0] == text[0];
    TrimStartOfWhitespace(lead, text + pad);
    TrimEndPadding(text, pad);
  }

  /** Python's `json.dumps` separates items with `", "`: such output still reads back as the list. */
  lemma NormalizeSpacedList()
    ensures Normalize(Some("[0, 1]" + "\n")) == JArr([JNum(0), JNum(1)])
  {
    var printed, v := "[0, 1]", JArr([JNum(0), JNum(1)]);
    assert Trimmed(printed) by {
      assert printed[0] == '[' && printed[|printed| - 1] == ']';
    }
    assert AllWhitespace("\n") && AllWhitespace([]);
    ParseSpacedList();
    NormalizeParses([], printed, "\n", v);
    assert [] + printed + "\n" == printed + "\n";
  }

  /** For well-formed values, comparing serialisations is comparing values; an absent `output` never matches. */
  lemma PassedIff(actual: Json, expected: Option<Json>)
    requires WellFormed(actual) && (expected.Some? ==> WellFormed(expected.value))
    ensures Passed(actual, expected) <==> expected == Some(actual)
  {
    if expected.Some? {
      StringifyInjective(actual, expected.value);
    }
  }

  /** The comparison is strict: element order, key order and number-versus-string all count. */
  lemma ComparisonIsStrict()
    ensures !Passed(JArr([JNum(1), JNum(2)]), Some(JArr([JNum(2), JNum(1)])))
    ensures !Passed(JObj([Field("a", JNum(1)), Field("b", JNum(2))]), Some(JObj([Field("b", JNum(2)), Field("a", JNum(1))])))
    ensures !Passed(JNum(1), Some(JStr("1")))
  {
    var a := JArr([JNum(1), JNum(2)]);
    var b := JArr([JNum(2), JNum(1)]);
    assert a != b by { assert a.items[0] != b.items[0]; }
    PassedIff(a, Some(b));
    var o := JObj([Field("a", JNum(1)), Field("b", JNum(2))]);
    var p := JObj([Field("b", JNum(2)), Field("a", JNum(1))]);
    assert UniqueKeys(o.fields) && UniqueKeys(p.fields);
    assert o != p by { assert o.fields[0] != p.fields[0]; }
    PassedIff(o, Some(p));
    PassedIff(JNum(1), Some(JStr("1")));
  }

  /**
   * For an accepted run and a well-formed expected output, the case
   * passes exactly when what the program printed reads back as that output.
   */
  lemma AcceptedPassesIff(reply: Judge0Reply, testCase: Json, testNumber: int, expected: Json)
    requires StatusId(reply) == Some(3)
    requires Get(testCase, "output") == Some(expected) && WellFormed(expected)
    ensures ReplyOutcome(Replied(reply), testCase, testNumber).Ok?
    ensures ReplyOutcome(Replied(reply), testCase, testNumber).value.passed <==> Normalize(reply.stdout) == expected
  {
    PassedIff(Normalize(reply.stdout), Some(expected));
  }

  /** A program that prints the expected output, with any surrounding whitespace, passes. */
  lemma PrintingExpectedPasses(reply: Judge0Reply, testCase: Json, testNumber: int, expected: Json, lead: string, pad: string)
    requires StatusId(reply) == Some(3) && reply.stdout == Some(lead + Stringify(expected) + pad)
    requires AllWhitespace(lead) && AllWhitespace(pad)
    requires Get(testCase, "output") == Some(expected) && WellFormed(expected)
    ensures ReplyOutcome(Replied(reply), testCase, testNumber) == Ok(TestResult(true, Some(expected), expected, testNumber))
  {
    NormalizePrinted(expected, lead, pad);
    AcceptedPassesIff(reply, testCase, testNumber, expected);
  }

  /** An unsupported language is reported without calling Judge0 at all. */
  lemma UnsupportedNeverSubmits(code: Json, language: Option<Json>, testCase: Json, testNumber: int,
                                host: string, apiKey: string, judge0: Submission -> HttpReply, other: Submission -> HttpReply)
    requires Convertible(language) && LanguageId(Interpolated(language)).None?
    ensures Grade(code, language, testCase, testNumber, host, apiKey, judge0)
         == Grade(code, language, testCase, testNumber, host, apiKey, other)
         == Err("Language " + Interpolated(language) + " not supported")
  {
  }

  /**
   * A language tag, or for `javascript` and `java` a code value, that
   * `String` cannot convert (an object with its own `toString` member)
   * makes the case fail with the `TypeError`, whatever Judge0 would answer.
   */
  lemma UnconvertibleNeverSubmits(code: Json, language: Option<Json>, testCase: Json, i: nat,
                                  host: string, apiKey: string, judge0: Submission -> HttpReply)
    requires !testCase.JNull?
    requires !Convertible(language) || (language in {Some(JStr("javascript")), Some(JStr("java"))} && !Displayable(code))
    ensures CaseResult(code, language, testCase, i, host, apiKey, judge0)
         == TestResult(false, Get(testCase, "output"), JStr("Error: " + NoPrimitive), i + 1)
  {
    if Convertible(language) {
      assert LanguageId(Interpolated(language)).Some? by {
        LanguageIdExact(Interpolated(language));
      }
    }
  }

  /** `{"toString": 0}`, as code, cannot be converted to text. */
  lemma OwnToStringUnconvertible()
    ensures !Displayable(JObj([Field("toString", JNum(0))]))
  {
    assert Lookup([Field("toString", JNum(0))], "toString") == Some(JNum(0));
  }

  /**
   * A case passes only when its program was submitted, Judge0 accepted
   * the run and the case names an expected output; every other outcome
   * becomes a failed entry whose `actual` is the error text.
   */
  lemma PassedOnlyWhenAccepted(code: Json, language: Option<Json>, testCase: Json, i: nat,
                               host: string, apiKey: string, judge0: Submission -> HttpReply)
    ensures var r := CaseResult(code, language, testCase, i, host, apiKey, judge0);
      r.passed ==>
        && SubmissionFor(code, language, testCase, host, apiKey).Ok?
        && judge0(SubmissionFor(code, language, testCase, host, apiKey).value).Replied?
        && StatusId(judge0(SubmissionFor(code, language, testCase, host, apiKey).value).reply) == Some(3)
        && Get(testCase, "output").Some?
    ensures var g := Grade(code, language, testCase, i + 1, host, apiKey, judge0);
      g.Err? ==> CaseResult(code, language, testCase, i, host, apiKey, judge0)
                 == TestResult(false, Get(testCase, "output"), JStr("Error: " + g.error), i + 1)
  {
  }

  /** The compilation-error diagnostic carries the compiler's output. */
  lemma CompileDiagnosticHasOutput(reply: Judge0Reply)
    requires StatusId(reply) == Some(6) && reply.compileOutput.Some? && reply.compileOutput.value != ""
    ensures Includes("Error: " + StatusOutcome(reply).error, reply.compileOutput.value)
  {
    var out := reply.compileOutput.value;
    IncludesMiddle("Error: " + "Compilation error: ", out, "");
    assert "Error: " + "Compilation error: " + out + "" == "Error: " + StatusOutcome(reply).error;
  }

  /**
   * A submitted case that Judge0 does not accept gets a failed entry whose
   * `actual` is the route's diagnostic for the reply (for a compilation
   * error, one that carries the compiler's output: `CompileDiagnosticHasOutput`).
   */
  lemma RejectedRunReportsDiagnostic(code: Json, language: Option<Json>, testCase: Json, i: nat,
                                     host: string, apiKey: string, judge0: Submission -> HttpReply)
    requires SubmissionFor(code, language, testCase, host, apiKey).Ok?
    requires var http := judge0(SubmissionFor(code, language, testCase, host, apiKey).value);
      http.Replied? && StatusId(http.reply) != Some(3)
    ensures var reply := judge0(SubmissionFor(code, language, testCase, host, apiKey).value).reply;
      CaseResult(code, language, testCase, i, host, apiKey, judge0)
        == TestResult(false, Get(testCase, "output"), JStr("Error: " + StatusOutcome(reply).error), i + 1)
  {
    var submission := SubmissionFor(code, language, testCase, host, apiKey);
    var http := judge0(submission.value);
    assert Grade(code, language, testCase, i + 1, host, apiKey, judge0) == ReplyOutcome(http, testCase, i + 1);
  }
}
