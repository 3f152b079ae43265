/**
 * The programs the grading route submits to Judge0: the user's code with
 * a test driver appended (`wrapCodeWithTest` and `generateJavaTestCode` in
 * app/api/execute/route.ts). Only the text is modelled; what the
 * programs print once Judge0 runs them is not.
 */
module Harness {
  import opened Wrappers
  import opened JsText
  import opened Json
  import opened JsonCodec
  import opened JsonRoundTrip

  /** `${JSON.stringify(input)}`: an absent input prints as `undefined`. */
  function InputText(input: Option<Json>): string {
    if input.Some? then Stringify(input.value) else "undefined"
  }

  function Concat(parts: seq<string>): string {
    if parts == [] then "" else parts[0] + Concat(parts[1..])
  }

  /** Concatenation splits around any one of its parts. */
  lemma {:induction false} ConcatAt(parts: seq<string>, k: nat)
    requires k < |parts|
    ensures Concat(parts) == Concat(parts[..k]) + parts[k] + Concat(parts[k + 1..])
    decreases k
  {
    if k == 0 {
      assert parts[..0] == [] && parts[1..] == parts[k + 1..];
    } else {
      var tail := parts[1..];
      ConcatAt(tail, k - 1);
      assert tail[..k - 1] == parts[1..k] && tail[k..] == parts[k + 1..];
      assert parts[..k][0] == parts[0] && parts[..k][1..] == parts[1..k];
      Associate(parts[0], Concat(parts[1..k]) + parts[k], Concat(parts[k + 1..]));
      Associate(parts[0], Concat(parts[1..k]), parts[k]);
    }
  }

  function JoinWith(parts: seq<string>, sep: string): string {
    if parts == [] then ""
    else if |parts| == 1 then parts[0]
    else parts[0] + sep + JoinWith(parts[1..], sep)
  }

  lemma {:induction false} TrimStartOfWhitespace(a: string, t: string)
    requires AllWhitespace(a) && t != [] && !IsWhitespace(t[0])
    ensures TrimStart(a + t) == t
  {
    if a == [] {
      assert a + t == t;
      TrimStartOfTrimmed(t);
    } else {
      assert (a + t)[1..] == a[1..] + t;
      TrimStartOfWhitespace(a[1..], t);
    }
  }

  lemma TrimKeepsWhole(s: string, t: string, a: string, c: string)
    requires t != [] && !IsWhitespace(t[0]) && !IsWhitespace(t[|t| - 1])
    requires s == a + t + c
    ensures Includes(Trim(s), t)
  {
    Associate(a, t, c);
    var a' := TrimStartBefore(a, t + c);
    Associate(a', t, c);
    LastOfAppend(a', t);
    var c' := TrimEndAfter(a' + t, c);
    IncludesMiddle(a', t, c');
  }


  /** Trimming the start of `a + u`, where `u` starts with a visible character, leaves `u` whole. */
  lemma TrimStartBefore(a: string, u: string) returns (a': string)
    requires u != [] && !IsWhitespace(u[0])
    ensures TrimStart(a + u) == a' + u
  {
    if AllWhitespace(a) {
      TrimStartOfWhitespace(a, u);
      a' := [];
      assert a' + u == u;
    } else {
      TrimStartAppend(a, u);
      a' := TrimStart(a);
    }
  }

  /** Trimming the end of `v + c`, where `v` ends with a visible character, leaves `v` whole. */
  lemma TrimEndAfter(v: string, c: string) returns (c': string)
    requires v != [] && !IsWhitespace(v[|v| - 1])
    ensures TrimEnd(v + c) == v + c'
  {
    if AllWhitespace(c) {
      TrimEndPadding(v, c);
      c' := [];
      assert v + c' == v;
    } else {
      TrimEndAppend(v, c);
      c' := TrimEnd(c);
    }
  }

  /** Where `s` includes `t`, the text before and the text after that occurrence. */
  lemma {:induction false} IncludesSplit(s: string, t: string) returns (a: string, c: string)
    requires Includes(s, t)
    ensures s == a + t + c
    decreases |s|
  {
    if t <= s {
      a, c := [], s[|t|..];
      assert s == t + c;
    } else {
      var a', c' := IncludesSplit(s[1..], t);
      a, c := [s[0]] + a', c';
      assert s == [s[0]] + s[1..];
    }
  }

  /** `a + (m + c) + d`, regrouped around `m`. */
  lemma Regroup(a: string, m: string, c: string, d: string)
    ensures a + (m + c) + d == a + m + (c + d)
  {
    Associate(a, m + c, d);
    Associate(m, c, d);
    Associate(a, m, c + d);
  }

  /**
   * A program that opens with whitespace and then a visible `v` keeps
   * everything from `v` on, up to the end of the driver `q`, which loses
   * only its trailing whitespace.
   */
  lemma LeadShape(w: string, v: string, x: string, q: string, i: nat)
    requires AllWhitespace(w) && v != [] && !IsWhitespace(v[0])
    requires i < |q| && !IsWhitespace(q[i])
    ensures Trim(w + v + x + q) == v + x + TrimEnd(q)
  {
    var u := v + x + q;
    Associate(w, v, x);
    Associate(w, v + x, q);
    assert u[0] == v[0];
    TrimStartOfWhitespace(w, u);
    assert q[i] == q[i];
    TrimEndAppend(v + x, q);
  }

  /** `Stringify` output and `undefined` neither start nor end with whitespace. */
  lemma InputTextEdges(input: Option<Json>)
    ensures InputText(input) != [] && Trimmed(InputText(input))
  {
    if input.Some? {
      StringifyEdges(input.value);
    }
  }

  // ================================================================ JavaScript

  /** A function the JavaScript driver may call, and the arguments it passes. */
  datatype Probe = Probe(name: string, args: string)

  /** The functions the JavaScript driver looks for, in the order it looks. */
  const JsProbes: seq<Probe> := [
    Probe("twoSum", "input.nums, input.target"),
    Probe("isValid", "input.s"),
    Probe("containsDuplicate", "input.nums"),
    Probe("maxSubArray", "input.nums"),
    Probe("lengthOfLongestSubstring", "input.s"),
    Probe("reverseList", "input.head"),
    Probe("mergeTwoLists", "input.list1, input.list2"),
    Probe("maxDepth", "input.root")
  ]

  function JsGuard(name: string): string {
    "typeof " + name + " !== 'undefined'"
  }

  /** One arm of the `if … else if` chain: the test for `p` and its call. */
  function JsArm(first: bool, p: Probe): string {
    (if first then "  if (" else "  } else if (") + JsGuard(p.name) + ") {\n"
    + "    result = " + p.name + "(" + p.args + ");\n"
  }

  function JsArms(probes: seq<Probe>): seq<string> {
    seq(|probes|, i requires 0 <= i < |probes| => JsArm(i == 0, probes[i]))
  }

  /** The chain that calls the first of `probes` that is defined. */
  function JsChain(probes: seq<Probe>): string {
    Concat(JsArms(probes)) + "  }"
  }

  function JsInputLine(input: Option<Json>): string {
    "const input = " + InputText(input) + ";"
  }

  const JsPreamble := "\n\n// Test execution\n"

  const JsTryOpen :=
    "let result;\n"
    + "\n"
    + "try {\n"

  const JsTryClose :=
    "\n"
    + "  \n"
    + "  console.log(JSON.stringify(result));\n"
    + "} catch (error) {\n"
    + "  console.log(JSON.stringify({ error: error.message }));\n"
    + "}"

  /** The driver after the input line: the `try` block around the chain. */
  const JsAfterInput := "\n" + JsTryOpen + JsChain(JsProbes) + JsTryClose + ("\n" + "    ")

  /** The driver after the user's code. */
  function JsDriver(input: Option<Json>): string {
    JsPreamble + JsInputLine(input) + JsAfterInput
  }

  /** The JavaScript program: the code, then the driver, trimmed. */
  function JsHarness(code: string, input: Option<Json>): (r: string)
    ensures Includes(r, JsInputLine(input))
    ensures code != [] && Trimmed(code) ==> Includes(r, code)
    ensures Includes(r, JsChain(JsProbes))
  {
    InputLinesEdges(input);
    JsChainInProgram(code, input);
    WholeInTrim("\n" + code, JsPreamble, JsInputLine(input), JsAfterInput);
    if code != [] && Trimmed(code) then
      TrimKeepsWhole("\n" + code + JsDriver(input), code, "\n", JsDriver(input));
      Trim("\n" + code + JsDriver(input))
    else Trim("\n" + code + JsDriver(input))
  }

  // ================================================================ Python

  /** One branch of the Python driver: the input keys it needs and the methods it tries, in order. */
  datatype Branch = Branch(keys: seq<string>, methods: seq<string>)

  /** The branches of the Python driver, in the order it tests them. */
  const PyBranches: seq<Branch> := [
    Branch(["nums", "target"], ["twoSum"]),
    Branch(["s"], ["isValid", "lengthOfLongestSubstring"]),
    Branch(["nums"], ["containsDuplicate", "maxSubArray"]),
    Branch(["head"], ["reverseList"]),
    Branch(["list1", "list2"], ["mergeTwoLists"]),
    Branch(["root"], ["maxDepth"])
  ]

  function PyCondition(keys: seq<string>): string {
    JoinWith(seq(|keys|, k requires 0 <= k < |keys| => "'" + keys[k] + "' in input_data"), " and ")
  }

  function PyArgs(keys: seq<string>): string {
    JoinWith(seq(|keys|, k requires 0 <= k < |keys| => "input_data['" + keys[k] + "']"), ", ")
  }

  function PyCall(m: string, keys: seq<string>): string {
    "result = solution." + m + "(" + PyArgs(keys) + ")\n"
  }

  /** A branch's body: the one method it calls, or a `hasattr` chain over several. */
  function PyBody(b: Branch): string {
    if |b.methods| == 1 then "        " + PyCall(b.methods[0], b.keys)
    else Concat(seq(|b.methods|, j requires 0 <= j < |b.methods| =>
      "        " + (if j == 0 then "if " else "elif ")
      + "hasattr(solution, '" + b.methods[j] + "'):\n"
      + "            " + PyCall(b.methods[j], b.keys)))
  }

  function PyArm(first: bool, b: Branch): string {
    "    " + (if first then "if " else "elif ") + PyCondition(b.keys) + ":\n" + PyBody(b)
  }

  function PyArms(branches: seq<Branch>): seq<string> {
    seq(|branches|, i requires 0 <= i < |branches| => PyArm(i == 0, branches[i]))
  }

  /** The chain that runs the first branch whose keys the input has. */
  function PyChain(branches: seq<Branch>): string {
    Concat(seq(|branches|, i requires 0 <= i < |branches| => PyArm(i == 0, branches[i])))
  }

  function PyInputLine(input: Option<Json>): string {
    "input_data = " + InputText(input)
  }

  const PyPreamble :=
    "\n\n# Test execution\n"
    + "import json\n"
    + "import sys\n"
    + "\n"

  const PyTryOpen :=
    "try:\n"
    + "    solution = Solution()\n"
    + "    result = None\n"
    + "    \n"

  const PyTryClose :=
    "    \n"
    + "    print(json.dumps(result))\n"
    + "except Exception as e:\n"
    + "    print(json.dumps({\"error\": str(e)}), file=sys.stderr)"

  /** The driver after the input line: the `try` block around the chain. */
  const PyAfterInput := ("\n" + "\n") + PyTryOpen + PyChain(PyBranches) + PyTryClose + ("\n" + "    ")

  /** The driver after the user's code. */
  function PyDriver(input: Option<Json>): string {
    PyPreamble + PyInputLine(input) + PyAfterInput
  }

  const TypingMarker := "from typing import"
  const TypingImport := "from typing import List, Optional\n\n"

  /**
   * `code.includes('from typing import')`: a string searches its text, an
   * array its elements; on any other value `includes` is not a function.
   */
  function HasTypingImport(code: Json): (r: Result<bool, string>)
    ensures r.Err? <==> !code.JStr? && !code.JArr?
  {
    match code
    case JStr(s) => Ok(Includes(s, TypingMarker))
    case JArr(items) => Ok(JStr(TypingMarker) in items)
    case _ => Err("code.includes is not a function")
  }

  /** The Python program: the `typing` import unless the code has one, the code, then the driver, trimmed. */
  function PyHarness(code: Json, input: Option<Json>): (r: Result<string, string>)
    ensures r.Err? <==> HasTypingImport(code).Err? || !Displayable(code)
    ensures HasTypingImport(code).Err? ==> r == Err(HasTypingImport(code).error)
    ensures HasTypingImport(code).Ok? && !Displayable(code) ==> r == Err(NoPrimitive)
    ensures r.Ok? ==> Includes(r.value, PyInputLine(input))
  {
    match HasTypingImport(code)
    case Err(e) => Err(e)
    case Ok(has) =>
      if !Displayable(code) then Err(NoPrimitive)
      else
        var lead := "\n" + (if has then "" else TypingImport) + DisplayString(code);
        InputLinesEdges(input);
        WholeInTrim(lead, PyPreamble, PyInputLine(input), PyAfterInput);
        Ok(Trim(lead + PyDriver(input)))
  }

  // ================================================================ Java

  /** `JSON.stringify(nums)` with every `[` turned into `{` and every `]` into `}`: a Java array initialiser. */
  function JavaArrayLiteral(nums: Json): (r: string)
    ensures |r| == |Stringify(nums)|
    ensures forall i | 0 <= i < |r| :: r[i] == Brace(Stringify(nums)[i])
    ensures '[' !in r && ']' !in r
  {
    ReplaceAll(ReplaceAll(Stringify(nums), '[', '{'), ']', '}')
  }

  /** The character the initialiser shows for a character of the JSON text. */
  function Brace(c: char): char {
    if c == '[' then '{' else if c == ']' then '}' else c
  }

  /** Turns the braces of an initialiser back into brackets. */
  function Unbrace(s: string): string {
    ReplaceAll(ReplaceAll(s, '{', '['), '}', ']')
  }

  /** A JSON array whose elements are all numbers: the `nums` of a `twoSum` test. */
  predicate IntArray(v: Json) {
    v.JArr? && forall i | 0 <= i < |v.items| :: v.items[i].JNum?
  }

  /** The decimal text of an integer has no braces. */
  lemma DecimalNoBraces(n: int)
    ensures '{' !in IntToDecimal(n) && '}' !in IntToDecimal(n)
  {
    var d := NatToDecimal(if n < 0 then -n else n);
    assert forall i | 0 <= i < |d| :: IsDigit(d[i]);
    if n < 0 {
      assert IntToDecimal(n) == "-" + d;
    }
  }

  /** The JSON text of a list of numbers has no braces. */
  lemma {:induction false} IntItemsNoBraces(items: seq<Json>)
    requires forall i | 0 <= i < |items| :: items[i].JNum?
    ensures '{' !in StringifyItems(items) && '}' !in StringifyItems(items)
  {
    if items != [] {
      DecimalNoBraces(items[0].n);
      if |items| > 1 {
        IntItemsNoBraces(items[1..]);
      }
    }
  }

  /** Brackets turned into braces and back give the text back, when it had no braces of its own. */
  lemma BraceRoundTrip(s: string)
    requires '{' !in s && '}' !in s
    ensures Unbrace(ReplaceAll(ReplaceAll(s, '[', '{'), ']', '}')) == s
  {
    var u := Unbrace(ReplaceAll(ReplaceAll(s, '[', '{'), ']', '}'));
    assert forall i | 0 <= i < |s| :: u[i] == s[i] by {
      forall i | 0 <= i < |s|
        ensures u[i] == s[i]
      {
        assert s[i] != '{' && s[i] != '}';
      }
    }
  }

  /** The initialiser of an integer array turns back into its JSON text. */
  lemma JavaArrayLiteralInverse(nums: Json)
    requires IntArray(nums)
    ensures Unbrace(JavaArrayLiteral(nums)) == Stringify(nums)
  {
    IntItemsNoBraces(nums.items);
    BraceRoundTrip(Stringify(nums));
  }

  /** Two integer arrays get the same initialiser exactly when they are the same array. */
  lemma JavaArrayLiteralInjective(a: Json, b: Json)
    requires IntArray(a) && IntArray(b)
    ensures JavaArrayLiteral(a) == JavaArrayLiteral(b) <==> a == b
  {
    if JavaArrayLiteral(a) == JavaArrayLiteral(b) {
      JavaArrayLiteralInverse(a);
      JavaArrayLiteralInverse(b);
      StringifyInjective(a, b);
    }
  }

  /** The line declaring the test's array, `int[] nums = {…};`. */
  function JavaNumsLine(nums: Json): string {
    "int[] nums = " + JavaArrayLiteral(nums) + ";"
  }

  /** The line declaring the test's target, `int target = …;`. */
  function JavaTargetLine(target: Json): string {
    "int target = " + DisplayString(target) + ";"
  }

  const JavaCallLines :=
    "\n"
    + "        int[] result = solution.twoSum(nums, target);\n"
    + "        System.out.println(java.util.Arrays.toString(result));\n"
    + "    "

  const JavaEmptyTest := "System.out.println(\"[]\");"

  /** `input.nums` is truthy and `input.target` is defined: the test calls `twoSum`. */
  predicate HasTwoSumInput(input: Json) {
    TruthyOpt(Get(input, "nums")) && Get(input, "target").Some?
  }

  /** Two indented lines followed by more text: the text includes each line. */
  lemma TwoLines(indent: string, a: string, b: string, tail: string)
    ensures Includes(indent + a + indent + b + tail, a)
    ensures Includes(indent + a + indent + b + tail, b)
  {
    IncludesMiddle(indent, a, indent + b + tail);
    assert indent + a + (indent + b + tail) == indent + a + indent + b + tail;
    IncludesMiddle(indent + a + indent, b, tail);
  }

  /**
   * `generateJavaTestCode(input)`: a `twoSum` call when `input.nums` is
   * truthy and `input.target` is defined, otherwise a line printing `[]`.
   * Reading `nums` of an absent or `null` input throws, and so does
   * `${input.target}` for a target `String` cannot convert.
   */
  function JavaTestCode(input: Option<Json>): (r: Result<string, string>)
    ensures r.Err? <==>
      input.None? || input.value.JNull? || (HasTwoSumInput(input.value) && !Displayable(Get(input.value, "target").value))
    ensures input.Some? && !input.value.JNull? && HasTwoSumInput(input.value) && !Displayable(Get(input.value, "target").value) ==>
      r == Err(NoPrimitive)
    ensures r.Ok? && !HasTwoSumInput(input.value) ==> r.value == JavaEmptyTest
    ensures r.Ok? && HasTwoSumInput(input.value) ==>
      && Includes(r.value, JavaNumsLine(Get(input.value, "nums").value))
      && Includes(r.value, JavaTargetLine(Get(input.value, "target").value))
  {
    if input.None? then Err("Cannot read properties of undefined (reading 'nums')")
    else if input.value.JNull? then Err("Cannot read properties of null (reading 'nums')")
    else if HasTwoSumInput(input.value) && !Displayable(Get(input.value, "target").value) then Err(NoPrimitive)
    else if HasTwoSumInput(input.value) then
      var numsLine := JavaNumsLine(Get(input.value, "nums").value);
      var targetLine := JavaTargetLine(Get(input.value, "target").value);
      TwoLines("\n        ", numsLine, targetLine, JavaCallLines);
      Ok("\n        " + numsLine + "\n        " + targetLine + JavaCallLines)
    else Ok(JavaEmptyTest)
  }

  const JavaPreamble :=
    "\n\npublic class Main {\n"
    + "    public static void main(String[] args) {\n"
    + "        Solution solution = new Solution();\n"
    + "        \n"
    + "        // Parse input\n"
    + "        "

  const JavaAfterTest :=
    "\n"
    + "    }\n"
    + "}\n"
    + "    "

  /** The `Main` class after the user's code, running `test`. */
  function JavaDriver(test: string): string {
    JavaPreamble + test + JavaAfterTest
  }

  /** The Java program: the imports, the code, then a `Main` class running the test, trimmed. */
  const JavaImports := "import java.util.*;\n\n"

  function JavaHarness(code: string, test: string): (r: string)
    ensures r == JavaImports + code + TrimEnd(JavaDriver(test))
  {
    DriverVisibleAt(JavaPreamble, test, JavaAfterTest);
    LeadShape("\n", JavaImports, code, JavaDriver(test), 2);
    Trim("\n" + JavaImports + code + JavaDriver(test))
  }

  // ================================================================ wrapCodeWithTest

  /** The language tags that get a test driver. */
  const HarnessTags: set<Option<Json>> := {Some(JStr("javascript")), Some(JStr("python")), Some(JStr("java"))}

  /**
   * The source submitted for one test case: the program for a supported
   * language tag, and the code value itself, unchanged, for any other.
   * Reading `input` of a `null` test case throws.
   */
  function WrapCodeWithTest(code: Json, language: Option<Json>, testCase: Json): (r: Result<Json, string>)
    ensures r.Err? <==>
      || testCase.JNull?
      || (language in HarnessTags && !Displayable(code))
      || (language == Some(JStr("python")) && !code.JStr? && !code.JArr?)
      || (language == Some(JStr("java")) && JavaTestCode(Get(testCase, "input")).Err?)
    ensures !testCase.JNull? && language in {Some(JStr("javascript")), Some(JStr("java"))} && !Displayable(code) ==>
      r == Err(NoPrimitive)
    ensures !testCase.JNull? && language == Some(JStr("python")) && PyHarness(code, Get(testCase, "input")).Err? ==>
      r == Err(PyHarness(code, Get(testCase, "input")).error)
    ensures !testCase.JNull? && language == Some(JStr("java")) && Displayable(code) && JavaTestCode(Get(testCase, "input")).Err? ==>
      r == Err(JavaTestCode(Get(testCase, "input")).error)
    ensures r.Ok? && language in HarnessTags ==> r.value.JStr?
    ensures language !in HarnessTags && !testCase.JNull? ==> r == Ok(code)
    ensures r.Ok? && language == Some(JStr("javascript")) ==>
      r.value == JStr(JsHarness(DisplayString(code), Get(testCase, "input")))
    ensures r.Ok? && language == Some(JStr("python")) ==>
      r.value == JStr(PyHarness(code, Get(testCase, "input")).value)
    ensures r.Ok? && language == Some(JStr("java")) ==>
      r.value == JStr(JavaHarness(DisplayString(code), JavaTestCode(Get(testCase, "input")).value))
  {
    var input := Get(testCase, "input");
    if testCase.JNull? then Err("Cannot read properties of null (reading 'input')")
    else if language in {Some(JStr("javascript")), Some(JStr("java"))} && !Displayable(code) then Err(NoPrimitive)
    else if language == Some(JStr("javascript")) then Ok(JStr(JsHarness(DisplayString(code), input)))
    else if language == Some(JStr("python")) then
      match PyHarness(code, input)
      case Err(e) => Err(e)
      case Ok(h) => Ok(JStr(h))
    else if language == Some(JStr("java")) then
      match JavaTestCode(input)
      case Err(e) => Err(e)
      case Ok(test) => Ok(JStr(JavaHarness(DisplayString(code), test)))
    else Ok(code)
  }

  // ================================================================ properties

  /** A visible-edged `t` inside the tail of a program survives the program's trimming. */
  lemma WholeInTrim(x: string, p: string, t: string, q: string)
    requires t != [] && !IsWhitespace(t[0]) && !IsWhitespace(t[|t| - 1])
    ensures Includes(Trim(x + (p + t + q)), t)
  {
    Associate(x, p + t, q);
    Associate(x, p, t);
    TrimKeepsWhole(x + (p + t + q), t, x + p, q);
  }

  /** `head + tail` with visible edges where both pieces have them. */
  lemma VisibleEdges(head: string, tail: string)
    requires head != [] && !IsWhitespace(head[0])
    requires tail != [] && !IsWhitespace(tail[|tail| - 1])
    ensures (head + tail)[0] == head[0] && (head + tail)[|head + tail| - 1] == tail[|tail| - 1]
  {
  }

  /** The driver starts with a blank line and a comment: its third character is visible. */
  lemma DriverVisibleAt(preamble: string, x: string, q: string)
    requires 2 < |preamble| && !IsWhitespace(preamble[2])
    ensures 2 < |preamble + x + q| && !IsWhitespace((preamble + x + q)[2])
  {
    assert (preamble + x + q)[2] == preamble[2];
  }

  /** What includes `a + m + b` includes `m`. */
  lemma InnerOfIncluded(s: string, a: string, m: string, b: string)
    requires Includes(s, a + m + b)
    ensures Includes(s, m)
  {
    var p, q := IncludesSplit(s, a + m + b);
    assert s == (p + a) + m + (b + q);
    IncludesMiddle(p + a, m, b + q);
  }

  /** A block with visible edges in the driver survives trimming, and so does whatever it encloses. */
  lemma EnclosedInTrim(x: string, pre: string, open: string, inner: string, close: string, post: string)
    requires open != [] && !IsWhitespace(open[0]) && close != [] && !IsWhitespace(close[|close| - 1])
    ensures Includes(Trim(x + (pre + (open + inner + close) + post)), inner)
  {
    FirstOfAppend(open, inner, 0);
    FirstOfAppend(open + inner, close, 0);
    LastOfAppend(open + inner, close);
    WholeInTrim(x, pre, open + inner + close, post);
    InnerOfIncluded(Trim(x + (pre + (open + inner + close) + post)), open, inner, close);
  }

  /** The driver, regrouped around its `try` block. */
  lemma AroundTryBlock(head: string, gap: string, open: string, inner: string, close: string, post: string)
    ensures head + (gap + open + inner + close + post) == (head + gap) + (open + inner + close) + post
  {
  }

  lemma JsTryEdges()
    ensures JsTryOpen != [] && JsTryOpen[0] == 'l'
    ensures JsTryClose != [] && JsTryClose[|JsTryClose| - 1] == '}'
  {
  }

  lemma PyTryEdges()
    ensures PyTryOpen != [] && PyTryOpen[0] == 't'
    ensures PyTryClose != [] && PyTryClose[|PyTryClose| - 1] == ')'
  {
  }

  /** The JavaScript program carries the whole probe chain. */
  lemma JsChainInProgram(code: string, input: Option<Json>)
    ensures Includes(Trim("\n" + code + JsDriver(input)), JsChain(JsProbes))
  {
    var chain := JsChain(JsProbes);
    var head := JsPreamble + JsInputLine(input);
    JsTryEdges();
    EnclosedInTrim("\n" + code, head + "\n", JsTryOpen, chain, JsTryClose, "\n" + "    ");
    AroundTryBlock(head, "\n", JsTryOpen, chain, JsTryClose, "\n" + "    ");
  }

  /** The Python program carries the whole branch chain. */
  lemma PyChainInProgram(lead: string, input: Option<Json>)
    ensures Includes(Trim(lead + PyDriver(input)), PyChain(PyBranches))
  {
    var chain := PyChain(PyBranches);
    var head := PyPreamble + PyInputLine(input);
    PyTryEdges();
    EnclosedInTrim(lead, head + ("\n" + "\n"), PyTryOpen, chain, PyTryClose, "\n" + "    ");
    AroundTryBlock(head, "\n" + "\n", PyTryOpen, chain, PyTryClose, "\n" + "    ");
  }

  /** Every Python program runs the driver's branch chain, after the input line. */
  lemma PyHarnessRunsChain(code: Json, input: Option<Json>)
    requires PyHarness(code, input).Ok?
    ensures Includes(PyHarness(code, input).value, PyChain(PyBranches))
  {
    var lead := "\n" + (if HasTypingImport(code).value then "" else TypingImport) + DisplayString(code);
    PyChainInProgram(lead, input);
  }

  /** Without its own `typing` import, the Python program starts with the prepended one, then the code as written. */
  lemma PyImportAdded(code: Json, input: Option<Json>)
    requires HasTypingImport(code) == Ok(false) && Displayable(code)
    ensures PyHarness(code, input) == Ok(TypingImport + DisplayString(code) + TrimEnd(PyDriver(input)))
  {
    DriverVisibleAt(PyPreamble, PyInputLine(input), PyAfterInput);
    LeadShape("\n", TypingImport, DisplayString(code), PyDriver(input), 2);
  }

  /** A leading line break, and nothing put after it, are trimmed away. */
  lemma LeadingNewline(x: string, d: string)
    ensures Trim("\n" + "" + x + d) == Trim(x + d)
  {
    assert ("\n" + "" + x + d)[1..] == x + d;
  }

  /** With its own `typing` import, nothing is prepended: the program is the code and the driver, trimmed. */
  lemma PyImportKept(code: Json, input: Option<Json>)
    requires HasTypingImport(code) == Ok(true) && Displayable(code)
    ensures PyHarness(code, input) == Ok(Trim(DisplayString(code) + PyDriver(input)))
  {
    LeadingNewline(DisplayString(code), PyDriver(input));
  }

  /** The Python program prepends the `typing` import exactly when the code has none of its own. */
  lemma PyHarnessShape(code: Json, input: Option<Json>)
    requires PyHarness(code, input).Ok?
    ensures HasTypingImport(code) == Ok(false) ==>
      PyHarness(code, input) == Ok(TypingImport + DisplayString(code) + TrimEnd(PyDriver(input)))
    ensures HasTypingImport(code) == Ok(true) ==>
      PyHarness(code, input) == Ok(Trim(DisplayString(code) + PyDriver(input)))
  {
    if HasTypingImport(code) == Ok(false) {
      PyImportAdded(code, input);
    } else {
      PyImportKept(code, input);
    }
  }

  /** A visible-edged line of the test survives the trimming of the program that embeds the test. */
  lemma LineInDriver(x: string, pre: string, test: string, post: string, line: string)
    requires line != [] && !IsWhitespace(line[0]) && !IsWhitespace(line[|line| - 1])
    requires Includes(test, line)
    ensures Includes(Trim(x + (pre + test + post)), line)
  {
    var a, b := IncludesSplit(test, line);
    Associate(x, pre + test, post);
    Associate(x, pre, test);
    MarkerInCode(x + pre, a, line, b, post);
  }

  /** `o + v + ";"`, for an `o` that opens with a visible character, begins and ends with one. */
  lemma DeclarationEdges(o: string, v: string)
    requires o != [] && !IsWhitespace(o[0])
    ensures var line := o + v + ";"; line != [] && !IsWhitespace(line[0]) && !IsWhitespace(line[|line| - 1])
  {
    FirstOfAppend(o, v, 0);
    FirstOfAppend(o + v, ";", 0);
  }

  /** `int[] nums = …;` begins and ends with visible characters. */
  lemma JavaNumsLineVisible(nums: Json)
    ensures JavaNumsLine(nums) != [] && !IsWhitespace(JavaNumsLine(nums)[0])
    ensures !IsWhitespace(JavaNumsLine(nums)[|JavaNumsLine(nums)| - 1])
  {
    assert "int[] nums = "[0] == 'i';
    DeclarationEdges("int[] nums = ", JavaArrayLiteral(nums));
  }

  /** `int target = …;` begins and ends with visible characters. */
  lemma JavaTargetLineVisible(target: Json)
    ensures JavaTargetLine(target) != [] && !IsWhitespace(JavaTargetLine(target)[0])
    ensures !IsWhitespace(JavaTargetLine(target)[|JavaTargetLine(target)| - 1])
  {
    assert "int target = "[0] == 'i';
    DeclarationEdges("int target = ", DisplayString(target));
  }

  /** The Java program sent for a test case, written out around its test code. */
  lemma JavaProgramText(code: Json, testCase: Json)
    requires !testCase.JNull? && Displayable(code) && JavaTestCode(Get(testCase, "input")).Ok?
    ensures WrapCodeWithTest(code, Some(JStr("java")), testCase)
      == Ok(JStr(Trim(("\n" + JavaImports + DisplayString(code))
                      + (JavaPreamble + JavaTestCode(Get(testCase, "input")).value + JavaAfterTest))))
  {
  }

  /**
   * The Java program sent for a `twoSum` input declares the test's array,
   * as its brace initialiser, and its target.
   */
  lemma JavaProgramDeclaresInput(code: Json, testCase: Json)
    requires !testCase.JNull? && Displayable(code) && Get(testCase, "input").Some? && HasTwoSumInput(Get(testCase, "input").value)
    requires Displayable(Get(Get(testCase, "input").value, "target").value)
    ensures var input := Get(testCase, "input").value;
      var r := WrapCodeWithTest(code, Some(JStr("java")), testCase);
      && r.Ok? && r.value.JStr?
      && Includes(r.value.s, JavaNumsLine(Get(input, "nums").value))
      && Includes(r.value.s, JavaTargetLine(Get(input, "target").value))
  {
    var input := Get(testCase, "input");
    var test := JavaTestCode(input).value;
    var nums, target := Get(input.value, "nums").value, Get(input.value, "target").value;
    JavaProgramText(code, testCase);
    JavaNumsLineVisible(nums);
    JavaTargetLineVisible(target);
    LineInDriver("\n" + JavaImports + DisplayString(code), JavaPreamble, test, JavaAfterTest, JavaNumsLine(nums));
    LineInDriver("\n" + JavaImports + DisplayString(code), JavaPreamble, test, JavaAfterTest, JavaTargetLine(target));
  }

  /** `const input = <JSON>;` and `input_data = <JSON>` begin and end with visible characters. */
  lemma InputLinesEdges(input: Option<Json>)
    ensures JsInputLine(input) != [] && !IsWhitespace(JsInputLine(input)[0])
    ensures !IsWhitespace(JsInputLine(input)[|JsInputLine(input)| - 1])
    ensures PyInputLine(input) != [] && !IsWhitespace(PyInputLine(input)[0])
    ensures !IsWhitespace(PyInputLine(input)[|PyInputLine(input)| - 1])
  {
    InputTextEdges(input);
    var t := InputText(input);
    VisibleEdges("const input = ", t);
    VisibleEdges("const input = " + t, ";");
    VisibleEdges("input_data = ", t);
  }

  /** Where an array holds the string `m`, `String(array)` shows `m` between commas. */
  lemma {:induction false} DisplayItemsSplit(items: seq<Json>, m: string) returns (a: string, c: string)
    requires JStr(m) in items
    ensures DisplayItems(items) == a + m + c
  {
    var rest := if |items| == 1 then "" else "," + DisplayItems(items[1..]);
    assert DisplayItems(items) == (if items[0].JNull? then "" else DisplayString(items[0])) + rest;
    if items[0] == JStr(m) {
      a, c := [], rest;
      assert DisplayItems(items) == m + rest;
    } else {
      assert JStr(m) in items[1..];
      var a', c' := DisplayItemsSplit(items[1..], m);
      var h := if items[0].JNull? then "" else DisplayString(items[0]);
      a, c := h + "," + a', c';
      Associate(",", a' + m, c');
      Associate(",", a', m);
      Associate(h, "," + (a' + m), c');
      Associate(h, ",", a' + m);
      Associate(h + ",", a', m);
    }
  }

  /** A visible-edged `m` inside the code survives the program's trimming. */
  lemma MarkerInCode(w: string, a: string, m: string, c: string, d: string)
    requires m != [] && !IsWhitespace(m[0]) && !IsWhitespace(m[|m| - 1])
    ensures Includes(Trim(w + (a + m + c) + d), m)
  {
    Associate(a, m, c);
    Regroup(w, a, m + c, d);
    Associate(w + a, m + c, d);
    Regroup(w + a, m, c, d);
    TrimKeepsWhole(w + (a + m + c) + d, m, w + a, c + d);
  }

  /** A visible-edged `m` at the head of the prepended text survives the program's trimming. */
  lemma MarkerInLead(w: string, m: string, tail: string, x: string, d: string)
    requires m != [] && !IsWhitespace(m[0]) && !IsWhitespace(m[|m| - 1])
    ensures Includes(Trim(w + (m + tail) + x + d), m)
  {
    Regroup(w, m, tail, x);
    Associate(w + m, tail + x, d);
    TrimKeepsWhole(w + (m + tail) + x + d, m, w, tail + x + d);
  }

  /** Code that imports from `typing` itself keeps that import in the Python program. */
  lemma PyTypingKept(code: Json, input: Option<Json>)
    requires HasTypingImport(code) == Ok(true) && Displayable(code)
    ensures Includes(PyHarness(code, input).value, TypingMarker)
  {
    TypingMarkerKept(code, PyDriver(input));
    PyImportKept(code, input);
  }

  /** Code that imports from `typing` keeps the marker once the driver is appended and the text trimmed. */
  lemma TypingMarkerKept(code: Json, driver: string)
    requires HasTypingImport(code) == Ok(true)
    ensures Includes(Trim(DisplayString(code) + driver), TypingMarker)
  {
    var a, c := TypingMarkerSplit(code);
    MarkerKept(DisplayString(code), driver, a, TypingMarker, c);
  }

  /** Code that imports from `typing` shows the marker between two pieces of its text. */
  lemma TypingMarkerSplit(code: Json) returns (a: string, c: string)
    requires HasTypingImport(code) == Ok(true)
    ensures DisplayString(code) == a + TypingMarker + c
  {
    if code.JStr? {
      a, c := IncludesSplit(code.s, TypingMarker);
    } else {
      a, c := DisplayItemsSplit(code.items, TypingMarker);
    }
  }

  /** A visible-edged `m` inside `s` survives trimming `s + d`. */
  lemma MarkerKept(s: string, d: string, a: string, m: string, c: string)
    requires s == a + m + c
    requires m != [] && !IsWhitespace(m[0]) && !IsWhitespace(m[|m| - 1])
    ensures Includes(Trim(s + d), m)
  {
    Associate(a + m, c, d);
    TrimKeepsWhole(s + d, m, a, c + d);
  }

  /** Code that does not import from `typing` gets the import prepended. */
  lemma PyTypingAdded(code: Json, input: Option<Json>)
    requires HasTypingImport(code) == Ok(false) && Displayable(code)
    ensures Includes(PyHarness(code, input).value, TypingMarker)
  {
    assert TypingImport == TypingMarker + " List, Optional\n\n";
    MarkerInLead("\n", TypingMarker, " List, Optional\n\n", DisplayString(code), PyDriver(input));
  }

  /** The Python program always mentions `from typing import`: the code's own import, or the one prepended. */
  lemma PyHarnessImportsTyping(code: Json, input: Option<Json>)
    requires PyHarness(code, input).Ok?
    ensures Includes(PyHarness(code, input).value, TypingMarker)
  {
    if HasTypingImport(code).value {
      PyTypingKept(code, input);
    } else {
      PyTypingAdded(code, input);
    }
  }

  /** A chain of arms splits around its `k`-th arm. */
  lemma JsChainSplit(probes: seq<Probe>, k: nat)
    requires k < |probes|
    ensures JsChain(probes)
      == Concat(JsArms(probes[..k])) + JsArm(k == 0, probes[k]) + Concat(JsArms(probes)[k + 1..]) + "  }"
  {
    ConcatAt(JsArms(probes), k);
    assert JsArms(probes)[..k] == JsArms(probes[..k]);
  }

  lemma PyChainSplit(branches: seq<Branch>, k: nat)
    requires k < |branches|
    ensures PyChain(branches)
      == Concat(PyArms(branches[..k])) + PyArm(k == 0, branches[k]) + Concat(PyArms(branches)[k + 1..])
  {
    var arms := PyArms(branches);
    assert PyChain(branches) == Concat(arms) by {
      assert seq(|branches|, i requires 0 <= i < |branches| => PyArm(i == 0, branches[i])) == arms;
    }
    ConcatAt(arms, k);
    assert arms[..k] == PyArms(branches[..k]);
  }

  /**
   * The JavaScript driver's chain tests the probes in table order: the arm
   * for probe `k` comes after exactly the arms for the probes before it,
   * and only the first arm opens the `if`.
   */
  lemma JsChainOrder(k: nat)
    requires k < |JsProbes|
    ensures JsChain(JsProbes)
      == Concat(JsArms(JsProbes[..k])) + JsArm(k == 0, JsProbes[k]) + Concat(JsArms(JsProbes)[k + 1..]) + "  }"
  {
    JsChainSplit(JsProbes, k);
  }

  /** The Python driver's chain tests the branches in table order, in the same sense. */
  lemma PyChainOrder(k: nat)
    requires k < |PyBranches|
    ensures PyChain(PyBranches)
      == Concat(PyArms(PyBranches[..k])) + PyArm(k == 0, PyBranches[k]) + Concat(PyArms(PyBranches)[k + 1..])
  {
    PyChainSplit(PyBranches, k);
  }
}
