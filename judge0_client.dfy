/**
 * The client helper `executeCode` (lib/judge0.ts): it submits one program
 * to Judge0 and turns the reply into a `{success, output, error}` record.
 * The axios call is the parameter `post`, a function from the request the
 * helper makes to what axios resolves or rejects with.
 */
module Judge0Client {
  import opened Wrappers
  import opened JsText
  import opened Json
  import opened Judge0Api
  import ExecuteRoute

  /** The helper's `language` parameter, typed as a key of `LANGUAGE_IDS`. */
  datatype Language = JavaScript | Python | Java

  /** `LANGUAGE_IDS`. */
  function LanguageId(language: Language): nat {
    match language
    case JavaScript => 63
    case Python => 71
    case Java => 62
  }

  /** The key under which `LANGUAGE_IDS` holds a language. */
  function Tag(language: Language): string {
    match language
    case JavaScript => "javascript"
    case Python => "python"
    case Java => "java"
  }

  /** The table gives each language its own id, and it is the grading route's table. */
  lemma LanguageTableAgrees(language: Language, other: Language)
    ensures LanguageId(language) == LanguageId(other) <==> language == other
    ensures ExecuteRoute.LanguageId(Tag(language)) == Some(LanguageId(language))
    ensures ExecuteRoute.LanguageIds.Keys == set l: Language :: Tag(l)
  {
    assert ExecuteRoute.LanguageIds.Keys == {"javascript", "python", "java"};
    assert Tag(JavaScript) == "javascript" && Tag(Python) == "python" && Tag(Java) == "java";
  }

  /** `RAPIDAPI_KEY` and `JUDGE0_HOST`. */
  datatype ClientEnv = ClientEnv(rapidApiKey: Option<string>, judge0Host: Option<string>)

  const SubmissionsUrl := "https://judge0-ce.p.rapidapi.com/submissions?base64_encoded=false&wait=true"
  const DefaultHost := "judge0-ce.p.rapidapi.com"
  const KeyMissing := "RapidAPI key not configured"

  /** The POST the helper makes: its url, body and RapidAPI headers. */
  datatype ClientRequest = ClientRequest(url: string, sourceCode: string, languageId: nat, stdin: string,
                                         apiKey: string, host: string)

  /** axios either resolves with Judge0's reply or rejects with an error (its response's `message`, its own `message`). */
  datatype AxiosOutcome = Data(reply: Judge0Reply) | Rejected(responseMessage: Option<string>, message: Option<string>)

  /** The record `executeCode` resolves with; `time` and `memory` are set only for an accepted run. */
  datatype ExecResult = ExecResult(success: bool, output: string, error: Option<string>,
                                   time: Option<string>, memory: Option<int>)

  /** The request for a configured key: the input defaults to '' and the host to RapidAPI's. */
  function RequestFor(code: string, language: Language, input: Option<string>, apiKey: string, host: Option<string>)
    : (r: ClientRequest)
    ensures r.languageId == LanguageId(language) && r.sourceCode == code && r.apiKey == apiKey
    ensures r.stdin == (if input.Some? then input.value else "")
    ensures host.Some? && host.value != "" ==> r.host == host.value
    ensures host.None? || host == Some("") ==> r.host == DefaultHost
  {
    var stdin := if input.Some? then input.value else "";
    ClientRequest(SubmissionsUrl, code, LanguageId(language), stdin, apiKey, Or(host, DefaultHost))
  }

  /** The `catch` block: the error becomes a failed record, never an exception. */
  function Caught(responseMessage: Option<string>, message: Option<string>): (r: ExecResult)
    ensures !r.success && r.output == "" && r.time.None? && r.memory.None?
    ensures r.error == Some(Or(responseMessage, Or(message, "Execution failed")))
    ensures r.error.value != ""
  {
    ExecResult(false, "", Some(Or(responseMessage, Or(message, "Execution failed"))), None, None)
  }

  /** A failed record with the given message. */
  function Failure(error: string): ExecResult {
    ExecResult(false, "", Some(error), None, None)
  }

  /** The status chain: one record per status id; a reply without a status throws inside the `try`. */
  function Classify(reply: Judge0Reply): (r: ExecResult)
    ensures r.success <==> StatusId(reply) == Some(3)
    ensures r.success ==> r.output == (if reply.stdout.Some? then Trim(reply.stdout.value) else "")
    ensures r.success ==> Trimmed(r.output) && r.error.None? && r.time == reply.time && r.memory == reply.memory
    ensures !r.success ==> r.output == "" && r.error.Some? && r.time.None? && r.memory.None?
  {
    if reply.status.None? then Caught(None, Some(ExecuteRoute.MissingStatus))
    else
      var id := reply.status.value.id;
      if id == Some(3) then
        ExecResult(true, if reply.stdout.Some? then Trim(reply.stdout.value) else "", None, reply.time, reply.memory)
      else if id == Some(6) then Failure("Compilation Error: " + Or(reply.stderr, "Unknown error"))
      else if id == Some(5) then Failure("Time Limit Exceeded (>5 seconds)")
      else if id == Some(11) || id == Some(12) then Failure("Runtime Error: " + Or(reply.stderr, "Unknown error"))
      else Failure("Error: " + Shown(reply.status.value.description))
  }

  /**
   * `executeCode`: without a key it throws before any request; otherwise
   * it always resolves, with the classified reply or the caught error.
   */
  function ExecuteCode(code: string, language: Language, input: Option<string>, env: ClientEnv,
                       post: ClientRequest -> AxiosOutcome): (r: Result<ExecResult, string>)
    ensures r.Err? <==> env.rapidApiKey in {None, Some("")}
    ensures r.Err? ==> r.error == KeyMissing
  {
    if env.rapidApiKey.None? || env.rapidApiKey.value == "" then Err(KeyMissing)
    else
      match post(RequestFor(code, language, input, env.rapidApiKey.value, env.judge0Host))
      case Rejected(responseMessage, message) => Ok(Caught(responseMessage, message))
      case Data(reply) => Ok(Classify(reply))
  }

  // ================================================================ properties

  /** A missing key is reported the same whatever Judge0 would have answered: no request is made. */
  lemma KeyMissingMakesNoRequest(code: string, language: Language, input: Option<string>, env: ClientEnv,
                                 post: ClientRequest -> AxiosOutcome, other: ClientRequest -> AxiosOutcome)
    requires env.rapidApiKey.None? || env.rapidApiKey == Some("")
    ensures ExecuteCode(code, language, input, env, post) == ExecuteCode(code, language, input, env, other) == Err(KeyMissing)
  {
  }

  /** With a key, the helper succeeds exactly on an accepted reply, and a failed request is a failed record. */
  lemma SuccessOnlyWhenAccepted(code: string, language: Language, input: Option<string>, env: ClientEnv,
                                post: ClientRequest -> AxiosOutcome)
    requires env.rapidApiKey.Some? && env.rapidApiKey.value != ""
    ensures var r := ExecuteCode(code, language, input, env, post);
      var outcome := post(RequestFor(code, language, input, env.rapidApiKey.value, env.judge0Host));
      && r.Ok?
      && (r.value.success <==> outcome.Data? && StatusId(outcome.reply) == Some(3))
      && (!r.value.success ==> r.value.output == "" && r.value.error.Some?)
  {
  }

  /** The messages of the status chain, one lemma per branch, from the reply alone. */
  lemma ClassifyMessages(reply: Judge0Reply)
    requires reply.status.Some?
    ensures reply.status.value.id == Some(6) ==> Classify(reply).error == Some("Compilation Error: " + Or(reply.stderr, "Unknown error"))
    ensures reply.status.value.id == Some(5) ==> Classify(reply).error == Some("Time Limit Exceeded (>5 seconds)")
    ensures reply.status.value.id in {Some(11), Some(12)} ==> Classify(reply).error == Some("Runtime Error: " + Or(reply.stderr, "Unknown error"))
    ensures reply.status.value.id !in {Some(3), Some(5), Some(6), Some(11), Some(12)} ==>
      Classify(reply).error == Some("Error: " + Shown(reply.status.value.description))
  {
  }

  /** The helper and the grading route accept the same replies, and fail alike on a reply without a status. */
  lemma ClientAcceptsAsRoute(reply: Judge0Reply)
    ensures Classify(reply).success <==> ExecuteRoute.StatusOutcome(reply).Ok?
    ensures reply.status.None? ==> Classify(reply).error == Some(ExecuteRoute.StatusOutcome(reply).error)
  {
  }

  /** For an accepted run, the route's value is the helper's output read as JSON. */
  lemma ClientOutputAsRouteValue(reply: Judge0Reply)
    requires StatusId(reply) == Some(3)
    ensures ExecuteRoute.StatusOutcome(reply) == Ok(ExecuteRoute.Normalize(Some(Classify(reply).output)))
  {
    var output := if reply.stdout.Some? then Trim(reply.stdout.value) else "";
    assert Classify(reply).output == output;
    ExecuteRoute.NormalizeTrim(reply.stdout);
    assert ExecuteRoute.StatusOutcome(reply) == Ok(ExecuteRoute.Normalize(reply.stdout));
  }

  /**
   * The two read different fields for a compilation error: the helper
   * reports `stderr`, the route `compile_output`.
   */
  lemma CompileErrorFieldsDiffer()
    ensures var reply := Judge0Reply(Some(Status(Some(6), Some("Compilation Error"))), None, None,
                                     Some("Main.java:3: error"), None, None, None);
      && Classify(reply).error == Some("Compilation Error: " + "Unknown error")
      && ExecuteRoute.StatusOutcome(reply) == Err("Compilation error: " + "Main.java:3: error")
  {
  }
}
