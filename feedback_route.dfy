/**
 * The feedback route, `POST /api/feedback` (app/api/feedback/route.ts):
 * it counts the passed results, picks one of three canned messages, and
 * lets an OpenAI completion replace that message when one is configured
 * and answers. The completion is the parameter `complete`, a function
 * from the prompt to the text it returns (None when the call fails or
 * returns no content).
 */
module FeedbackRoute {
  import opened Wrappers
  import opened JsText
  import opened Json
  import opened Judge0Api

  // ================================================================ counting

  /** `r.passed` is truthy. */
  predicate ResultPassed(r: Json) {
    TruthyOpt(Get(r, "passed"))
  }

  /**
   * `results.filter(r => r.passed).length`: the number of passed results,
   * or None where a `null` element makes reading `passed` throw.
   */
  function CountPassed(results: seq<Json>): (r: Option<nat>)
    ensures r.Some? <==> JNull !in results
    ensures r.Some? ==> r.value <= |results|
  {
    if results == [] then Some(0)
    else if results[0].JNull? then None
    else
      assert forall i | 1 <= i < |results| :: results[i] == results[1..][i - 1];
      assert JNull in results[1..] ==> JNull in results;
      match CountPassed(results[1..])
      case None => None
      case Some(n) => Some(n + if ResultPassed(results[0]) then 1 else 0)
  }

  /**
   * `passedCount` and `totalTests`: a missing or `null` `testResults`
   * counts 0 of 0; a value with no `filter` method makes the handler throw
   * (None), as does a `null` result.
   */
  function Counts(testResults: Option<Json>): (r: Option<(nat, nat)>)
    ensures testResults == None || testResults == Some(JNull) ==> r == Some((0, 0))
    ensures r.Some? ==> r.value.0 <= r.value.1
    ensures r.None? <==>
      testResults.Some? && !testResults.value.JNull? && (!testResults.value.JArr? || JNull in testResults.value.items)
    ensures testResults.Some? && testResults.value.JArr? && JNull !in testResults.value.items ==>
      r == Some((CountPassed(testResults.value.items).value, |testResults.value.items|))
  {
    if testResults.None? || testResults.value.JNull? then Some((0, 0))
    else if !testResults.value.JArr? then None
    else
      var results := testResults.value.items;
      match CountPassed(results)
      case None => None
      case Some(passed) => Some((passed, |results|))
  }

  /** Counting a concatenation adds the counts of its parts. */
  lemma {:induction false} CountPassedAppend(a: seq<Json>, b: seq<Json>)
    requires JNull !in a && JNull !in b
    ensures JNull !in a + b
    ensures CountPassed(a + b).Some? && CountPassed(a + b).value == CountPassed(a).value + CountPassed(b).value
  {
    if a == [] {
      assert a + b == b;
    } else {
      assert (a + b)[1..] == a[1..] + b;
      assert JNull !in a[1..] by {
        assert forall i | 0 <= i < |a| - 1 :: a[1..][i] == a[i + 1];
      }
      CountPassedAppend(a[1..], b);
      assert (a + b)[0] == a[0];
    }
  }

  /** Every result passed exactly when the count reaches the total. */
  lemma {:induction false} AllPassedIff(results: seq<Json>)
    requires JNull !in results
    ensures CountPassed(results) == Some(|results|) <==> forall i | 0 <= i < |results| :: ResultPassed(results[i])
  {
    if results != [] {
      var tail := results[1..];
      assert forall i | 1 <= i < |results| :: results[i] == tail[i - 1];
      assert JNull !in tail by {
        assert forall i | 0 <= i < |tail| :: tail[i] == results[i + 1];
      }
      AllPassedIff(tail);
    }
  }

  /** No result passed exactly when the count is zero. */
  lemma {:induction false} NonePassedIff(results: seq<Json>)
    requires JNull !in results
    ensures CountPassed(results) == Some(0) <==> forall i | 0 <= i < |results| :: !ResultPassed(results[i])
  {
    if results != [] {
      var tail := results[1..];
      assert forall i | 1 <= i < |results| :: results[i] == tail[i - 1];
      assert JNull !in tail by {
        assert forall i | 0 <= i < |tail| :: tail[i] == results[i + 1];
      }
      NonePassedIff(tail);
    }
  }

  // ================================================================ the three tiers

  datatype Tier = AllPassed | Partial | KeepGoing

  /** The `if … else if … else` on the two counts. */
  function ChooseTier(passedCount: nat, totalTests: nat): (r: Tier)
    ensures r == AllPassed <==> passedCount == totalTests
    ensures passedCount <= totalTests ==> (r == Partial <==> 0 < passedCount < totalTests)
    ensures r == KeepGoing <==> passedCount == 0 < totalTests
  {
    if passedCount == totalTests then AllPassed
    else if passedCount > 0 then Partial
    else KeepGoing
  }

  const AllPassedOpening := "🎉 Excellent work! All "

  /** The all-pass message after the total. */
  const AllPassedRest :=
    " test cases passed!\n\n"
    + "Your solution demonstrates:\n"
    + "• Correct logic and implementation\n"
    + "• Good code structure\n\n"
    + "Consider reviewing:\n"
    + "• Time complexity: Could this be optimized?\n"
    + "• Space complexity: Are you using extra memory efficiently?\n"
    + "• Edge cases: What happens with empty inputs?"

  const PartialOpening := "👍 You're on the right track! "

  /** The partial message after `passed/total`. */
  const PartialRest :=
    " test cases passed.\n\n"
    + "Your code handles some cases correctly, but there are edge cases to consider:\n"
    + "• Check boundary conditions\n"
    + "• Review your algorithm logic for the failing cases\n"
    + "• Add console.log statements to debug\n\n"
    + "Tip: Look at the input/output of failing test cases to identify the pattern."

  const KeepGoingFirst := "💪 Keep going! Let's debug this together.\n\n"

  const KeepGoingMessage := KeepGoingFirst + KeepGoingRest

  const KeepGoingRest :=
    "Common issues to check:\n"
    + "• Are you returning the correct data type?\n"
    + "• Is your function signature correct?\n"
    + "• Have you handled the base case?\n\n"
    + "Tip: Try running through the logic manually with the test input."

  /** The canned message for the two counts. */
  function TierMessage(passedCount: nat, totalTests: nat): (r: string)
    ensures r != [] && r[0] == TierEmoji(ChooseTier(passedCount, totalTests))
    ensures r != Fallback
  {
    FirstOfAppend("💡 ", FallbackRest, 0);
    match ChooseTier(passedCount, totalTests)
    case AllPassed =>
      var d := NatToDecimal(totalTests);
      FirstOfAppend(AllPassedOpening, d, 0);
      FirstOfAppend(AllPassedOpening + d, AllPassedRest, 0);
      AllPassedOpening + d + AllPassedRest
    case Partial =>
      var d := NatToDecimal(passedCount);
      FirstOfAppend(PartialOpening, d, 0);
      FirstOfAppend(PartialOpening + d, "/", 0);
      FirstOfAppend(PartialOpening + d + "/", NatToDecimal(totalTests), 0);
      FirstOfAppend(PartialOpening + d + "/" + NatToDecimal(totalTests), PartialRest, 0);
      PartialOpening + d + "/" + NatToDecimal(totalTests) + PartialRest
    case KeepGoing =>
      FirstOfAppend(KeepGoingFirst, KeepGoingRest, 0);
      KeepGoingMessage
  }

  /** Appending pieces one at a time is appending their concatenation. */
  lemma Gather8(x: string, a1: string, a2: string, a3: string, a4: string, a5: string, a6: string, a7: string, a8: string)
    ensures x + a1 + a2 + a3 + a4 + a5 + a6 + a7 + a8 == x + (a1 + a2 + a3 + a4 + a5 + a6 + a7 + a8)
  {
  }

  lemma Gather6(x: string, a1: string, a2: string, a3: string, a4: string, a5: string, a6: string)
    ensures x + a1 + a2 + a3 + a4 + a5 + a6 == x + (a1 + a2 + a3 + a4 + a5 + a6)
  {
  }

  /** `let feedback`, built line by line with `+=`. */
  method BuildFeedback(passedCount: nat, totalTests: nat) returns (feedback: string)
    ensures feedback == TierMessage(passedCount, totalTests)
  {
    feedback := "";
    if passedCount == totalTests {
      feedback := AllPassedOpening + NatToDecimal(totalTests) + " test cases passed!\n\n";
      feedback := feedback + "Your solution demonstrates:\n";
      feedback := feedback + "• Correct logic and implementation\n";
      feedback := feedback + "• Good code structure\n\n";
      feedback := feedback + "Consider reviewing:\n";
      feedback := feedback + "• Time complexity: Could this be optimized?\n";
      feedback := feedback + "• Space complexity: Are you using extra memory efficiently?\n";
      feedback := feedback + "• Edge cases: What happens with empty inputs?";
      Gather8(AllPassedOpening + NatToDecimal(totalTests), " test cases passed!\n\n",
        "Your solution demonstrates:\n", "• Correct logic and implementation\n", "• Good code structure\n\n",
        "Consider reviewing:\n", "• Time complexity: Could this be optimized?\n",
        "• Space complexity: Are you using extra memory efficiently?\n", "• Edge cases: What happens with empty inputs?");
    } else if passedCount > 0 {
      feedback := PartialOpening + NatToDecimal(passedCount) + "/" + NatToDecimal(totalTests) + " test cases passed.\n\n";
      feedback := feedback + "Your code handles some cases correctly, but there are edge cases to consider:\n";
      feedback := feedback + "• Check boundary conditions\n";
      feedback := feedback + "• Review your algorithm logic for the failing cases\n";
      feedback := feedback + "• Add console.log statements to debug\n\n";
      feedback := feedback + "Tip: Look at the input/output of failing test cases to identify the pattern.";
      Gather6(PartialOpening + NatToDecimal(passedCount) + "/" + NatToDecimal(totalTests), " test cases passed.\n\n",
        "Your code handles some cases correctly, but there are edge cases to consider:\n",
        "• Check boundary conditions\n", "• Review your algorithm logic for the failing cases\n",
        "• Add console.log statements to debug\n\n",
        "Tip: Look at the input/output of failing test cases to identify the pattern.");
    } else {
      feedback := "💪 Keep going! Let's debug this together.\n\n";
      feedback := feedback + "Common issues to check:\n";
      feedback := feedback + "• Are you returning the correct data type?\n";
      feedback := feedback + "• Is your function signature correct?\n";
      feedback := feedback + "• Have you handled the base case?\n\n";
      feedback := feedback + "Tip: Try running through the logic manually with the test input.";
    }
  }

  /** The emoji each tier opens with. */
  function TierEmoji(tier: Tier): char {
    match tier
    case AllPassed => '🎉'
    case Partial => '👍'
    case KeepGoing => '💪'
  }

  const Fallback := "💡 " + FallbackRest

  const FallbackRest := "Focus on the test cases that are failing. Compare your output with the expected output to identify the issue!"

  /** Regrouping a five-part text around its middle three parts. */
  lemma GroupMiddle(o: string, a: string, b: string, c: string, r: string)
    ensures o + a + b + c + r == o + (a + b + c) + r
  {
  }

  /** The all-pass message reports the total, the partial one `passed/total`. */
  lemma TierMessageReports(passedCount: nat, totalTests: nat)
    ensures ChooseTier(passedCount, totalTests) == AllPassed ==>
      Includes(TierMessage(passedCount, totalTests), NatToDecimal(totalTests))
    ensures ChooseTier(passedCount, totalTests) == Partial ==>
      Includes(TierMessage(passedCount, totalTests), NatToDecimal(passedCount) + "/" + NatToDecimal(totalTests))
  {
    match ChooseTier(passedCount, totalTests)
    case AllPassed =>
      IncludesMiddle(AllPassedOpening, NatToDecimal(totalTests), AllPassedRest);
    case Partial =>
      GroupMiddle(PartialOpening, NatToDecimal(passedCount), "/", NatToDecimal(totalTests), PartialRest);
      IncludesMiddle(PartialOpening, NatToDecimal(passedCount) + "/" + NatToDecimal(totalTests), PartialRest);
    case KeepGoing =>
  }

  /** Decimal text followed by a non-digit can be read back. */
  lemma ReadNumber(n: nat, m: nat, rest: string, rest': string)
    requires rest != [] && !IsDigit(rest[0]) && rest' != [] && !IsDigit(rest'[0])
    requires NatToDecimal(n) + rest == NatToDecimal(m) + rest'
    ensures n == m && rest == rest'
  {
    TakeDigitsOf(NatToDecimal(n), rest);
    TakeDigitsOf(NatToDecimal(m), rest');
    DecimalValueOfNat(n);
    DecimalValueOfNat(m);
  }

  /** Dropping a common prefix from equal texts leaves equal texts. */
  lemma DropPrefix(p: string, a: string, b: string)
    requires p + a == p + b
    ensures a == b
  {
    assert a == (p + a)[|p|..];
    assert b == (p + b)[|p|..];
  }

  /** A number between a fixed opening and a text that starts with a non-digit can be read back. */
  lemma ReadBetween(o: string, n: nat, m: nat, rest: string, rest': string)
    requires rest != [] && !IsDigit(rest[0]) && rest' != [] && !IsDigit(rest'[0])
    requires o + NatToDecimal(n) + rest == o + NatToDecimal(m) + rest'
    ensures n == m && rest == rest'
  {
    assert o + NatToDecimal(n) + rest == o + (NatToDecimal(n) + rest);
    assert o + NatToDecimal(m) + rest' == o + (NatToDecimal(m) + rest');
    DropPrefix(o, NatToDecimal(n) + rest, NatToDecimal(m) + rest');
    ReadNumber(n, m, rest, rest');
  }

  lemma Tail3(x: string, a: string, b: string, c: string)
    ensures x + a + b + c == x + (a + b + c)
  {
  }

  /** Two numbers, a separator between them, can be read back. */
  lemma ReadPair(o: string, sep: string, rest: string, p: nat, t: nat, p': nat, t': nat)
    requires sep != [] && !IsDigit(sep[0]) && rest != [] && !IsDigit(rest[0])
    requires o + NatToDecimal(p) + sep + NatToDecimal(t) + rest == o + NatToDecimal(p') + sep + NatToDecimal(t') + rest
    ensures p == p' && t == t'
  {
    Tail3(o + NatToDecimal(p), sep, NatToDecimal(t), rest);
    Tail3(o + NatToDecimal(p'), sep, NatToDecimal(t'), rest);
    FirstOfAppend(sep, NatToDecimal(t), 0);
    FirstOfAppend(sep + NatToDecimal(t), rest, 0);
    FirstOfAppend(sep, NatToDecimal(t'), 0);
    FirstOfAppend(sep + NatToDecimal(t'), rest, 0);
    ReadBetween(o, p, p', sep + NatToDecimal(t) + rest, sep + NatToDecimal(t') + rest);
    ReadBetween(sep, t, t', rest, rest);
  }

  /** The partial message gives back both counts. */
  lemma PartialMessageInjective(p: nat, t: nat, p': nat, t': nat)
    requires ChooseTier(p, t) == Partial && ChooseTier(p', t') == Partial
    requires TierMessage(p, t) == TierMessage(p', t')
    ensures p == p' && t == t'
  {
    assert PartialRest[0] == ' ';
    ReadPair(PartialOpening, "/", PartialRest, p, t, p', t');
  }

  /** The all-pass message gives back the total. */
  lemma AllPassedMessageInjective(t: nat, t': nat)
    requires TierMessage(t, t) == TierMessage(t', t')
    ensures t == t'
  {
    assert AllPassedRest[0] == ' ';
    ReadBetween(AllPassedOpening, t, t', AllPassedRest, AllPassedRest);
  }

  /**
   * For an array of results with no `null`, the tier follows the results
   * themselves: all passed, none of at least one passed, or some of each.
   */
  lemma CountsTier(results: seq<Json>)
    requires JNull !in results
    ensures Counts(Some(JArr(results))).Some?
    ensures var (passedCount, totalTests) := Counts(Some(JArr(results))).value;
      && (ChooseTier(passedCount, totalTests) == AllPassed <==> forall i | 0 <= i < |results| :: ResultPassed(results[i]))
      && (ChooseTier(passedCount, totalTests) == KeepGoing <==>
            results != [] && forall i | 0 <= i < |results| :: !ResultPassed(results[i]))
  {
    var passedCount := CountPassed(results).value;
    assert Counts(Some(JArr(results))).value == (passedCount, |results|);
    AllPassedIff(results);
    NonePassedIff(results);
  }

  /**
   * Without a completion, the feedback for an array of results with no
   * `null` is the all-passed message for that many results exactly when
   * every result passed.
   */
  lemma AllPassedMessageIff(results: seq<Json>)
    requires JNull !in results
    ensures var (passedCount, totalTests) := Counts(Some(JArr(results))).value;
      TierMessage(passedCount, totalTests) == TierMessage(|results|, |results|)
      <==> forall i | 0 <= i < |results| :: ResultPassed(results[i])
  {
    CountsTier(results);
    var (passedCount, totalTests) := Counts(Some(JArr(results))).value;
  }

  // ================================================================ the completion

  function PromptHead(language: Option<Json>): string {
    "You are an expert coding interview coach. Analyze this " + Interpolated(language)
    + " code and provide constructive feedback.\n\nCode:\n```" + Interpolated(language) + "\n"
  }

  function PromptTail(passedCount: nat, totalTests: nat): string {
    ResultsLead + NatToDecimal(passedCount) + "/" + NatToDecimal(totalTests) + PromptClosing
  }

  const ResultsLead := "\n```\n\nTest Results: "

  const PromptClosing :=
    " tests passed\n\n"
    + "Provide feedback on:\n"
    + "1. Code correctness and logic\n"
    + "2. Time and space complexity\n"
    + "3. Code readability and best practices\n"
    + "4. Potential improvements or alternative approaches\n\n"
    + "Keep the feedback concise (3-5 sentences) and encouraging."

  /**
   * The prompt sent to the completion: the language, the code and the
   * counts. It exists only where `${language}` and `${code}` convert.
   */
  function Prompt(language: Option<Json>, code: Option<Json>, passedCount: nat, totalTests: nat): (r: string)
    requires Convertible(language) && Convertible(code)
    ensures Includes(r, Interpolated(code))
    ensures Includes(r, NatToDecimal(passedCount) + "/" + NatToDecimal(totalTests))
  {
    var head := PromptHead(language);
    var tail := PromptTail(passedCount, totalTests);
    var counts := NatToDecimal(passedCount) + "/" + NatToDecimal(totalTests);
    IncludesMiddle(head, Interpolated(code), tail);
    GroupMiddle(ResultsLead, NatToDecimal(passedCount), "/", NatToDecimal(totalTests), PromptClosing);
    IncludesMiddle(ResultsLead, counts, PromptClosing);
    IncludesAfter(head + Interpolated(code), tail, counts);
    head + Interpolated(code) + tail
  }

  // ================================================================ POST

  /**
   * The request body: JSON, or text `request.json()` rejects. A parsed
   * body never repeats a member name, which is what `Post` requires of it.
   */
  datatype FeedbackRequest = Unreadable | Body(body: Json)

  /** `process.env.OPENAI_API_KEY` is truthy. */
  predicate OpenAiConfigured(openAiKey: Option<string>) {
    openAiKey.Some? && openAiKey.value != ""
  }

  /**
   * The handler: the fallback where anything throws; otherwise the tier
   * message, which a non-empty completion replaces when a key is set and
   * the prompt can be built (the inner `catch` keeps the message when
   * `${language}` or `${code}` throws).
   */
  method Post(request: FeedbackRequest, openAiKey: Option<string>, complete: string -> Option<string>)
    returns (feedback: string)
    requires request.Body? ==> WellFormed(request.body)
    ensures feedback != []
    ensures request.Unreadable? || request.body.JNull? ==> feedback == Fallback
    ensures request.Body? && !request.body.JNull? ==>
      match Counts(Get(request.body, "testResults"))
      case None => feedback == Fallback
      case Some((passedCount, totalTests)) =>
        var message := TierMessage(passedCount, totalTests);
        if OpenAiConfigured(openAiKey) && Convertible(Get(request.body, "language")) && Convertible(Get(request.body, "code")) then
          feedback == Or(complete(Prompt(Get(request.body, "language"), Get(request.body, "code"), passedCount, totalTests)), message)
        else feedback == message
  {
    if request.Unreadable? || request.body.JNull? {
      return Fallback;
    }
    var body := request.body;
    var code, language, testResults := Get(body, "code"), Get(body, "language"), Get(body, "testResults");
    var counts := Counts(testResults);
    if counts.None? {
      return Fallback;
    }
    var (passedCount, totalTests) := counts.value;
    feedback := BuildFeedback(passedCount, totalTests);
    if OpenAiConfigured(openAiKey) && Convertible(language) && Convertible(code) {
      var completion := complete(Prompt(language, code, passedCount, totalTests));
      feedback := Or(completion, feedback);
    }
  }
}
