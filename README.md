# Code-practice grading core, in Dafny

The application is a coding-interview practice site. A candidate writes a
solution in JavaScript, Python or Java. The site grades it against the
problem's test cases on Judge0, a remote code-execution service, and then
shows feedback. This project models the three server-side pieces that do
that work and proves properties of them.

- **The grading route** (`POST /api/execute`, module `ExecuteRoute`):
  - checks the request body and the Judge0 configuration;
  - wraps the candidate's code in a per-language test driver (module `Harness`);
  - submits one program per test case;
  - reads the printed output back as JSON (`JSON.parse` with the `'null'`
    and raw-text fallbacks; modules `Json`, `JsonCodec`);
  - compares it with the expected output through `JSON.stringify`;
  - reports one entry per case, in order.

  `POST` and its per-case loop (`Post`, `RunCases`) and `executeWithJudge0`
  (`ExecuteWithJudge0`) are methods, as the source builds its results with
  `push` and `let actualOutput`. Each one is proved against the specification
  functions `CaseResult`, `Grade`, `ReplyOutcome` and `StatusOutcome`.
- **The Judge0 client helper** (`executeCode` in lib/judge0.ts, module
  `Judge0Client`):
  - its language table;
  - the missing-key exception;
  - the request it makes;
  - the classification of Judge0's status into a
    `{success, output, error, time, memory}` record;
  - its `catch` block.
- **The feedback route** (`POST /api/feedback`, module `FeedbackRoute`):
  - counts the passed results;
  - builds one of three canned messages with `+=` (the method
    `BuildFeedback`, proved equal to `TierMessage`);
  - lets a non-empty OpenAI completion replace that message;
  - answers with a fixed fallback when anything throws.

Judge0, axios and the OpenAI client are parameters of the methods and
functions that call them: `judge0: Submission -> HttpReply`,
`post: ClientRequest -> AxiosOutcome` and `complete: string -> Option<string>`.
Environment variables are parameters too.

Values follow JavaScript's reading of the request body:
- `Json` has integer numbers and objects with ordered members.
- An absent property is `None`.
- `Truthy` is JavaScript truthiness.
- `DisplayString` is what `${v}` inserts, for the values `Displayable` admits.
  - An object with its own `toString` member cannot be converted to text. `JSON.parse` never makes that member callable, so `${v}`, `String(v)` and a property lookup by `v` throw the `TypeError` `NoPrimitive`. The same holds for an array that holds such an object, through `join`.
  - `Convertible` extends this to a property that may be absent.

`JsonCodec.Stringify` and `JsonCodec.Parse` model `JSON.stringify` and
`JSON.parse` on that fragment. `JsonRoundTrip.ParseStringify` proves they are
inverse on well-formed values.

## Model

| member | source | states |
|---|---|---|
| ExecuteRoute.LanguageIdExact | app/api/execute/route.ts:3-7 | exactly `javascript`, `python` and `java` have an id: 63, 71 and 62 respectively, each in both directions |
| ExecuteRoute.InheritedNamePassesGuard | app/api/execute/route.ts:55-59 | as written, the lookup plus `!languageId` guard lets the key `constructor` through, although no language has that name |
| ExecuteRoute.GuardAgreesOffPrototype | app/api/execute/route.ts:55-59 | for every key that is not an `Object.prototype` member name, the written guard passes exactly when the table has an own entry |
| ExecuteRoute.SubmissionFor | app/api/execute/route.ts:55-79 | a tag that cannot be converted to a property key throws the `TypeError`; an unsupported tag gives `Language <tag> not supported`; for a supported tag a wrapping error is passed on unchanged, and otherwise the submission carries the tag's id, exactly the program `wrapCodeWithTest` returns, an empty stdin and the configured host and key; a `null` test case is never submitted |
| ExecuteRoute.StatusOutcome | app/api/execute/route.ts:87-105 | a reply yields a value exactly when its status id is 3, and that value is the normalised stdout; a missing status throws the `TypeError`; status 6 throws `Compilation error: ` with `compile_output` or `Unknown compilation error`; status 11 throws `Runtime error: ` with `stderr`, else `message`, else `Unknown runtime error`; any other status throws `stderr`, else the description, else `Execution failed` |
| ExecuteRoute.ReplyOutcome | app/api/execute/route.ts:82-114 | a case gets an entry exactly when the HTTP call answered OK with status 3, and the entry carries the case number, `testCase.output` as expected and the normalised stdout as actual; a failed fetch throws its own message, a non-OK answer throws `Judge0 API request failed: ` plus the body text, and a rejected run throws `StatusOutcome`'s message |
| ExecuteRoute.Grade | app/api/execute/route.ts:54-115 | `executeWithJudge0` on a `null` test case always throws |
| ExecuteRoute.ExecuteWithJudge0 | app/api/execute/route.ts:54-115 | the method (lookup and wrap through `SubmissionFor`, then fetch, `!ok`, the status chain, `actualOutput` with its `'null'` and raw-text fallbacks, and `passed`, step by step) returns exactly `Grade`'s outcome |
| ExecuteRoute.CaseResult | app/api/execute/route.ts:30-41 | the entry pushed for the case at index i is numbered i+1 and carries `testCase.output` as expected, whether the run succeeded or threw |
| ExecuteRoute.CaseList | app/api/execute/route.ts:29-30 | `testCases[i]` for i below `testCases.length`: the items of an array, the one-character strings of a string, nothing for values without a length |
| ExecuteRoute.Post | app/api/execute/route.ts:9-52 | for a body as `request.json()` parses it (no repeated member names): an unreadable body gives 500 with its message (or `Failed to execute code`); a `null` body gives 500; a falsy `code` or `testCases` gives 400; a missing key or host gives 500; a `null` case gives 500; otherwise the report has one `CaseResult` per case, in input order |
| ExecuteRoute.RunCases | app/api/execute/route.ts:27-42 | the loop ends early exactly when some case is `null`; otherwise entry i is the `CaseResult` of case i, for every i, and there are as many entries as cases |
| ExecuteRoute.ParseNullText | app/api/execute/route.ts:94-95 | the fallback text `'null'` parses to `null` |
| ExecuteRoute.NormalizePrinted | app/api/execute/route.ts:92-98 | a program that prints a well-formed value, padded with any whitespace, is read back as exactly that value |
| ExecuteRoute.Normalize | app/api/execute/route.ts:92-98 | absent or blank stdout reads as `null`; trimmed text that `JSON.parse` accepts reads as the parsed value; trimmed text that is not JSON stays that text, as a string; the value compared never has duplicate object keys |
| ExecuteRoute.NormalizeTrim | app/api/execute/route.ts:94 | trimming stdout before normalising changes nothing |
| ExecuteRoute.NormalizeNonJson | app/api/execute/route.ts:96-98 | output that is not JSON is compared as the trimmed text itself, a string |
| ExecuteRoute.NormalizeUndefined | app/api/execute/route.ts:94-98 | a JavaScript driver that prints `undefined` is compared as the string "undefined" |
| ExecuteRoute.NormalizeParses | app/api/execute/route.ts:92-98 | output whose trimmed text `JSON.parse` accepts, with any whitespace before and after it, is compared as the parsed value |
| ExecuteRoute.NormalizeSpacedList | app/api/execute/route.ts:94-95 | a Python driver printing `[0, 1]` (items separated by a comma and a space) is compared as the list 0, 1 |
| ExecuteRoute.Passed | app/api/execute/route.ts:107 | an absent `output` never matches; every value matches itself |
| ExecuteRoute.PassedIff | app/api/execute/route.ts:107 | for well-formed values, equal serialisations mean equal values, and an absent `output` never matches |
| ExecuteRoute.ComparisonIsStrict | app/api/execute/route.ts:107 | `[1,2]` does not match `[2,1]`, `{a,b}` does not match `{b,a}`, and `1` does not match `"1"` |
| ExecuteRoute.AcceptedPassesIff | app/api/execute/route.ts:92-107 | for an accepted run and a well-formed expected output, the case passes exactly when stdout reads back as that output |
| ExecuteRoute.PrintingExpectedPasses | app/api/execute/route.ts:92-114 | an accepted program that prints the expected output's JSON, with any surrounding whitespace, gets a passing entry whose actual is the expected value |
| ExecuteRoute.UnsupportedNeverSubmits | app/api/execute/route.ts:55-59 | for a convertible but unsupported language the outcome does not depend on Judge0 at all, and is the `not supported` message |
| ExecuteRoute.UnconvertibleNeverSubmits | app/api/execute/route.ts:33-39 | a language, or for `javascript` and `java` a code value, that cannot be converted to text gives a failed entry whose actual is `Error: Cannot convert object to primitive value`, whatever Judge0 would answer |
| ExecuteRoute.OwnToStringUnconvertible | app/api/execute/route.ts:122 | the code value `{"toString": 0}` cannot be converted to text |
| ExecuteRoute.PassedOnlyWhenAccepted | app/api/execute/route.ts:31-41 | a passing entry implies the case was submitted, Judge0 answered with status 3, and the case has an `output`; a thrown error becomes a failed entry with `actual` "Error: message" |
| ExecuteRoute.CompileDiagnosticHasOutput | app/api/execute/route.ts:99-100 | the entry text for a compilation error contains the compiler's output whole |
| ExecuteRoute.RejectedRunReportsDiagnostic | app/api/execute/route.ts:34-41 | a submitted case that Judge0 answers with a status other than 3 gets a failed entry whose actual is `Error: ` plus `StatusOutcome`'s message |
| Harness.WrapCodeWithTest | app/api/execute/route.ts:117-215 | wrapping fails exactly for a `null` test case, for `javascript`, `python` or `java` code that cannot be converted to text (the `TypeError`), for Python code without `includes`, or for Java without an input or with an unconvertible `target`; `javascript` gives `JsHarness` of the code and input, `python` gives `PyHarness`'s program, `java` gives `JavaHarness` around `generateJavaTestCode`'s text; every other tag yields the code unchanged |
| Harness.HasTypingImport | app/api/execute/route.ts:156 | `code.includes(...)` is defined exactly on strings and arrays |
| Harness.JsHarness | app/api/execute/route.ts:120-151 | the JavaScript program contains the line `const input = <JSON of input>;`, and the candidate's (trimmed, non-empty) code whole, and the whole probe chain built from the driver's probe table |
| Harness.JsChainOrder | app/api/execute/route.ts:129-145 | in the JavaScript driver's own probe table, the arm for probe k comes after exactly the arms of the probes before it; only the first arm opens the `if` |
| Harness.PyHarnessShape | app/api/execute/route.ts:154-194 | with no typing import of its own, the program is the prepended typing import, the code as written, then the driver with its trailing whitespace dropped; with its own import, the program is the code and the driver, trimmed, with nothing prepended |
| Harness.PyImportAdded | app/api/execute/route.ts:156-160 | without its own typing import, the program starts with `from typing import List, Optional`, then the code as written |
| Harness.PyImportKept | app/api/execute/route.ts:156-160 | with its own typing import, nothing is prepended to the code |
| Harness.PyHarness | app/api/execute/route.ts:154-194 | the program fails exactly when `code.includes` does (with its error) or the code cannot be converted to text (with the `TypeError`); otherwise it contains the line `input_data = <JSON of input>` |
| Harness.PyHarnessImportsTyping | app/api/execute/route.ts:155-160 | every Python program contains `from typing import`, either the code's own or the one added |
| Harness.PyHarnessRunsChain | app/api/execute/route.ts:166-189 | every Python program contains the whole branch chain built from the driver's branch table, inside its `try` |
| Harness.PyChainOrder | app/api/execute/route.ts:172-189 | in the Python driver's own branch table, the arm for branch k comes after exactly the arms of the branches before it; only the first arm is an `if` |
| Harness.JavaHarness | app/api/execute/route.ts:197-211 | the Java program is the `java.util` import, the code as written, then the `Main` class with its trailing whitespace dropped |
| Harness.JavaArrayLiteral | app/api/execute/route.ts:221 | the initialiser is `JSON.stringify(nums)` character by character with brackets turned into braces, and has no brackets left |
| Harness.JavaArrayLiteralInverse | app/api/execute/route.ts:221 | for an integer array, turning the braces back into brackets recovers the JSON text |
| Harness.JavaArrayLiteralInjective | app/api/execute/route.ts:221 | two integer arrays get the same initialiser exactly when they are equal |
| Harness.JavaTestCode | app/api/execute/route.ts:217-229 | the test code fails exactly when the input is absent or `null`, or a two-sum `target` cannot be converted to text (the `TypeError`); without a truthy `nums` and a defined `target` it is `System.out.println("[]");`; with them it declares `int[] nums = <initialiser>;` and `int target = <target>;` |
| Harness.JavaProgramDeclaresInput | app/api/execute/route.ts:197-225 | for a two-sum input, the submitted Java program contains the `nums` and `target` declarations |
| JsonRoundTrip.ParseStringify | app/api/execute/route.ts:107 | `JSON.parse(JSON.stringify(v))` gives back `v` for every well-formed value |
| JsonRoundTrip.StringifyInjective | app/api/execute/route.ts:107 | two well-formed values serialise alike exactly when they are equal |
| JsonParseShape.ParseWellFormed | app/api/execute/route.ts:95 | every value `JSON.parse` returns has distinct keys in every object |
| JsText.TrimEmptyIff | app/api/execute/route.ts:94 | trimming gives the empty string exactly for all-whitespace text, which is what sends output to `'null'` |
| Judge0Client.LanguageTableAgrees | lib/judge0.ts:6-10 | the client's table gives each language its own id, has the same keys as the route's table, and gives the same ids |
| Judge0Client.RequestFor | lib/judge0.ts:39-56 | the request carries the language's id, the code, the input (default `''`) and the key; the host is the configured one when set and non-empty, else RapidAPI's default |
| Judge0Client.Caught | lib/judge0.ts:98-105 | a caught error becomes a failed record with empty output and no time or memory, whose error is the response's `message`, else the error's message, else `Execution failed` (never empty) |
| Judge0Client.Classify | lib/judge0.ts:58-97 | success holds exactly for status 3; a success's output is the trimmed stdout (or `''`), with no error and Judge0's time and memory; a failure has empty output and an error |
| Judge0Client.ExecuteCode | lib/judge0.ts:23-106 | the helper throws exactly when the key is unset or empty, with `RapidAPI key not configured` |
| Judge0Client.KeyMissingMakesNoRequest | lib/judge0.ts:34-36 | without a key, the outcome does not depend on what Judge0 would answer |
| Judge0Client.SuccessOnlyWhenAccepted | lib/judge0.ts:38-105 | with a key, the helper always resolves, and succeeds exactly when Judge0 answered with status 3 |
| Judge0Client.ClassifyMessages | lib/judge0.ts:69-97 | the compile, time-limit, runtime (11 and 12) and other-status messages, one per branch |
| Judge0Client.ClientAcceptsAsRoute | lib/judge0.ts:61-68 | the helper and the grading route accept exactly the same replies |
| Judge0Client.ClientOutputAsRouteValue | lib/judge0.ts:65 | for an accepted run, the route's value is the helper's output, normalised |
| Judge0Client.CompileErrorFieldsDiffer | lib/judge0.ts:69-75 | on a compilation error, the helper reports `stderr` while the route reports `compile_output`, so the same reply gives different messages |
| FeedbackRoute.CountPassed | app/api/feedback/route.ts:7 | the number of results with a truthy `passed` is defined exactly when no result is `null`, and is at most the number of results |
| FeedbackRoute.Counts | app/api/feedback/route.ts:7-8 | a missing or `null` `testResults` counts 0 of 0; an array with no `null` counts its truthy `passed` results against its length; the passed count never exceeds the total; counting throws exactly for a non-array or a `null` element |
| FeedbackRoute.CountsTier | app/api/feedback/route.ts:7-36 | for an array of results, the all-passed tier is chosen exactly when every result passed, and keep-going exactly when there is at least one result and none passed |
| FeedbackRoute.AllPassedMessageIff | app/api/feedback/route.ts:7-21 | the message shown without a completion is the all-passed message exactly when every result passed |
| FeedbackRoute.CountPassedAppend | app/api/feedback/route.ts:7 | counting a concatenation adds the counts of its parts |
| FeedbackRoute.AllPassedIff | app/api/feedback/route.ts:7 | the count equals the total exactly when every result passed |
| FeedbackRoute.NonePassedIff | app/api/feedback/route.ts:7 | the count is 0 exactly when no result passed |
| FeedbackRoute.ChooseTier | app/api/feedback/route.ts:13-36 | all-passed exactly when the counts are equal; keep-going exactly when none of at least one passed; for counts that can occur (p ≤ t), on-the-right-track exactly when 0 < p < t |
| FeedbackRoute.BuildFeedback | app/api/feedback/route.ts:11-36 | the message built line by line with `+=` is the tier's canned message |
| FeedbackRoute.TierMessage | app/api/feedback/route.ts:13-36 | each canned message is non-empty, opens with its tier's emoji, and differs from the fallback |
| FeedbackRoute.TierMessageReports | app/api/feedback/route.ts:13-28 | the all-passed message contains the total; the partial message contains `passed/total` |
| FeedbackRoute.PartialMessageInjective | app/api/feedback/route.ts:23 | two partial messages are equal only for equal counts |
| FeedbackRoute.AllPassedMessageInjective | app/api/feedback/route.ts:14 | two all-passed messages are equal only for equal totals |
| FeedbackRoute.Prompt | app/api/feedback/route.ts:46-61 | for a language and code that convert to text, the prompt contains the submitted code as `${code}` renders it, and the counts as `passed/total` |
| FeedbackRoute.Post | app/api/feedback/route.ts:3-84 | the feedback is never empty; an unreadable or `null` body, or counts that throw, give the fallback; otherwise a configured key, with a language and code that convert to text, lets a non-empty completion replace the tier message (an unconvertible one throws inside the inner `try` and keeps the tier message), and without a key the tier message is returned |

## Left out

- Numbers are integers.
  - Fractions, exponents and `-0` are not modelled in `Json` or `JsonCodec`.
  - Magnitude is not modelled: `JSON.parse` rounds an integer above 2^53 to the nearest double, and `JSON.stringify` prints 1e21 and above in exponent form. The model keeps every integer exact and prints it in decimal.
  - `JSON.stringify` of a non-finite number is not modelled.
  - The test data of the problems is all integers.
- JavaScript strings are modelled as sequences of characters, not UTF-16 code units.
  - Surrogate pairs, `\u` escapes of surrogates, and `length`/indexing in code units are not modelled.
- Objects keep their members in insertion order.
  - JavaScript's rule that integer-like keys come first in ascending order is not modelled.
- `CaseList`: a `testCases` value that is an object with its own `length` property is read as having no cases. JavaScript would index it as `testCases[0]`, `testCases[1]`, … and this is not modelled.
- `Judge0Api.Shown`: Judge0's reply fields are `Option<string>`, so a `null` field and an absent field are both `None`.
  - That is exact for `||`, where both are falsy.
  - It is not exact for `${…}`: the source prints a `null` status description as `null`, and `Shown` prints `undefined`.
  - `Json.Interpolated` works on request values, where `null` is `JNull` and prints as `null`. Only an absent value prints as `undefined`.
- `ExecuteRoute.MissingStatus`: a reply without a `status` throws the `undefined` form of the `TypeError`. The source would say `null` for a `status: null`, which the model does not tell apart from a missing one.
  - The error texts of JavaScript's `TypeError`s (`MissingStatus`, `NullCase`) are the V8 messages, taken as constants.
- `ExecuteRoute.SubmissionFor`, `ExecuteRoute.Grade`, `ExecuteRoute.ExecuteWithJudge0` and `ExecuteRoute.Post` use the corrected own-entry lookup `LanguageId` from the finding below.
  - For the twelve `Object.prototype` member names (`constructor`, `toString`, …) they report `Language <tag> not supported`.
  - The source as written lets those names through. It submits the unwrapped code. The request carries no `language_id`, since `JSON.stringify` drops a function; for `__proto__` it carries `{}`.
  - Only `InheritedNamePassesGuard` models that path.
- The test drivers are modelled as the program text submitted to Judge0. What that program does when run (which probe matches, what it prints) is Judge0's and the language runtime's business. It reaches the model only through the `judge0` parameter.
- The `fetch`, axios and OpenAI calls are function parameters.
  - Headers other than host and key, the `model`, `max_tokens` and `temperature` options, and the awaiting are not modelled.
  - Console logging is not modelled.
- `FeedbackRoute.Post`: a completion that throws, and one with no content, are both `None`.
- `Judge0Client.Classify`: the helper's `time` and `memory` are passed through as Judge0 sent them. A missing `status` is modelled as the caught `TypeError`, with that error's text.
- Where the code and the design description disagree, the model follows the code:
  - a non-JSON output is compared as the trimmed text, with no `true`/`false`, numeric or bracket-splitting fallbacks;
  - objects compare with key order mattering, because the comparison is on serialisations;
  - the route treats only status 11 as a runtime error and has no time-limit branch;
  - an unsupported language gives a failed entry per case, not a request error;
  - transport failures become failed entries;
  - a `null` test case ends the whole request with status 500.

## Findings

| source | as written | input that shows it | evidently intended | confidence | as-written member | corrected member |
|---|---|---|---|---|---|---|
| app/api/execute/route.ts:55-58 | `JUDGE0_LANGUAGE_IDS[language]` reads through the object literal's prototype, so `!languageId` is false for names such as `constructor` or `toString` | `language: "constructor"` is let through the guard: there is no `Language constructor not supported` error, the `language_id` is a function, which `JSON.stringify` drops, so the request carries no `language_id` (for `__proto__`, it carries `{}`), and the code is left unwrapped | only the table's own three entries are languages (an own-property lookup); every other tag is reported as not supported | high; not executed | ExecuteRoute.InheritedNamePassesGuard | ExecuteRoute.LanguageIdExact |
