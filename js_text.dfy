/**
 * The JavaScript string built-ins the grading code relies on:
 * `String.prototype.trim`, `String.prototype.includes`, a global
 * single-character `replace`, and the decimal text of an integer
 * (what `String(n)` and a template `${n}` produce for an integral number).
 */
module JsText {

  /** WhiteSpace and LineTerminator code points, the set `trim` removes (ECMAScript section 22.1.3.32). */
  predicate IsWhitespace(c: char) {
    || c == '\t' || c == '\n' || c == '\U{B}' || c == '\U{C}' || c == '\r' || c == ' '
    || c == '\U{A0}' || c == '\U{1680}' || ('\U{2000}' <= c <= '\U{200A}')
    || c == '\U{2028}' || c == '\U{2029}' || c == '\U{202F}' || c == '\U{205F}'
    || c == '\U{3000}' || c == '\U{FEFF}'
  }

  predicate AllWhitespace(s: string) {
    forall i | 0 <= i < |s| :: IsWhitespace(s[i])
  }

  /** `s` neither starts nor ends with whitespace. */
  predicate Trimmed(s: string) {
    s == [] || (!IsWhitespace(s[0]) && !IsWhitespace(s[|s| - 1]))
  }

  /** Drops the leading whitespace: the result is the suffix after a run of whitespace. */
  function TrimStart(s: string): (r: string)
    ensures |r| <= |s| && r == s[|s| - |r|..]
    ensures AllWhitespace(s[..|s| - |r|])
    ensures r == [] || !IsWhitespace(r[0])
  {
    if s != [] && IsWhitespace(s[0]) then TrimStart(s[1..]) else s
  }

  /** Drops the trailing whitespace: the result is the prefix before a run of whitespace. */
  function TrimEnd(s: string): (r: string)
    ensures |r| <= |s| && r == s[..|r|]
    ensures AllWhitespace(s[|r|..])
    ensures r == [] || !IsWhitespace(r[|r| - 1])
  {
    if s != [] && IsWhitespace(s[|s| - 1]) then TrimEnd(s[..|s| - 1]) else s
  }

  /** `s.trim()`. */
  function Trim(s: string): (r: string)
    ensures Trimmed(r)
  {
    var t := TrimStart(s);
    var r := TrimEnd(t);
    assert r != [] ==> r[0] == t[0];
    r
  }

  lemma TrimStartOfTrimmed(s: string)
    requires s == [] || !IsWhitespace(s[0])
    ensures TrimStart(s) == s
  {
  }

  lemma TrimEndOfTrimmed(s: string)
    requires s == [] || !IsWhitespace(s[|s| - 1])
    ensures TrimEnd(s) == s
  {
  }

  /** A string that neither starts nor ends with whitespace is its own trim. */
  lemma TrimOfTrimmed(s: string)
    requires Trimmed(s)
    ensures Trim(s) == s
  {
    TrimStartOfTrimmed(s);
    TrimEndOfTrimmed(s);
  }

  /** Trimming twice is trimming once. */
  lemma TrimIdempotent(s: string)
    ensures Trim(Trim(s)) == Trim(s)
  {
    TrimOfTrimmed(Trim(s));
  }

  /** A whitespace-only string trims to the empty string, and only such a string does. */
  lemma TrimEmptyIff(s: string)
    ensures Trim(s) == [] <==> AllWhitespace(s)
  {
    var t := TrimStart(s);
    var r := TrimEnd(t);
    assert Trim(s) == r;
    if !AllWhitespace(s) {
      assert forall i | 0 <= i < |s| - |t| :: s[..|s| - |t|][i] == s[i];
      assert forall i | |r| <= i < |t| :: t[|r|..][i - |r|] == t[i];
    }
  }

  /** Leading whitespace before a string that contains a non-whitespace character is all `trimStart` removes. */
  lemma {:induction false} TrimStartAppend(a: string, b: string)
    requires !AllWhitespace(a)
    ensures TrimStart(a + b) == TrimStart(a) + b
  {
    if IsWhitespace(a[0]) {
      assert (a + b)[1..] == a[1..] + b;
      assert !AllWhitespace(a[1..]) by {
        var i :| 0 <= i < |a| && !IsWhitespace(a[i]);
        assert i > 0 && !IsWhitespace(a[1..][i - 1]);
      }
      TrimStartAppend(a[1..], b);
    }
  }

  /** Whitespace padding after a string that ends in a non-whitespace character is all `trimEnd` removes. */
  lemma {:induction false} TrimEndPadding(a: string, pad: string)
    requires a != [] && !IsWhitespace(a[|a| - 1])
    requires AllWhitespace(pad)
    ensures TrimEnd(a + pad) == a
  {
    if pad == [] {
      assert a + pad == a;
      TrimEndOfTrimmed(a);
    } else {
      assert (a + pad)[..|a + pad| - 1] == a + pad[..|pad| - 1];
      TrimEndPadding(a, pad[..|pad| - 1]);
    }
  }

  /** Whitespace after a string is all `trimEnd` removes, once something after it is not whitespace. */
  lemma {:induction false} TrimEndAppend(a: string, b: string)
    requires !AllWhitespace(b)
    ensures TrimEnd(a + b) == a + TrimEnd(b)
    decreases |b|
  {
    var n := |b| - 1;
    if IsWhitespace(b[n]) {
      assert (a + b)[..|a + b| - 1] == a + b[..n];
      assert !AllWhitespace(b[..n]) by {
        var i :| 0 <= i < |b| && !IsWhitespace(b[i]);
        assert i < n && !IsWhitespace(b[..n][i]);
      }
      TrimEndAppend(a, b[..n]);
    } else {
      TrimEndOfTrimmed(b);
      TrimEndOfTrimmed(a + b);
    }
  }

  /** Trimming text with something visible on both sides of `x` leaves `x` in place. */
  lemma TrimAround(p: string, x: string, q: string)
    requires !AllWhitespace(p) && !AllWhitespace(q)
    ensures Trim(p + x + q) == TrimStart(p) + x + TrimEnd(q)
  {
    assert p + x + q == p + (x + q);
    TrimStartAppend(p, x + q);
    assert TrimStart(p) + (x + q) == TrimStart(p) + x + q;
    TrimEndAppend(TrimStart(p) + x, q);
  }

  // ================================================================ concatenation

  lemma Associate(a: string, b: string, c: string)
    ensures a + b + c == a + (b + c)
  {
  }

  /** The first characters of `a + b` are those of `a`. */
  lemma FirstOfAppend(a: string, b: string, i: nat)
    requires i < |a|
    ensures (a + b)[i] == a[i]
  {
  }

  /** The last character of `a + b` is that of a non-empty `b`. */
  lemma LastOfAppend(a: string, b: string)
    requires b != []
    ensures (a + b)[|a + b| - 1] == b[|b| - 1]
  {
  }

  /** `s.includes(t)`: `t` occurs in `s` at some position. */
  predicate Includes(s: string, t: string)
    decreases |s|
  {
    t <= s || (s != [] && Includes(s[1..], t))
  }

  /** Whatever surrounds it, a string includes itself. */
  lemma {:induction false} IncludesMiddle(a: string, t: string, b: string)
    ensures Includes(a + t + b, t)
    decreases |a|
  {
    if a == [] {
      assert a + t + b == t + b;
      assert t <= t + b;
    } else {
      assert (a + t + b)[1..] == a[1..] + t + b;
      IncludesMiddle(a[1..], t, b);
    }
  }

  /** Text put in front of a string keeps every occurrence in it. */
  lemma {:induction false} IncludesAfter(x: string, s: string, t: string)
    requires Includes(s, t)
    ensures Includes(x + s, t)
    decreases |x|
  {
    if x != [] {
      assert (x + s)[1..] == x[1..] + s;
      IncludesAfter(x[1..], s, t);
    } else {
      assert x + s == s;
    }
  }

  /** Removing leading whitespace never removes an occurrence of a text that starts with a non-whitespace character. */
  lemma {:induction false} IncludesAfterTrimStart(s: string, t: string)
    requires t != [] && !IsWhitespace(t[0])
    requires Includes(s, t)
    ensures Includes(TrimStart(s), t)
    decreases |s|
  {
    if s != [] && IsWhitespace(s[0]) {
      assert !(t <= s);
      IncludesAfterTrimStart(s[1..], t);
    }
  }

  /** `s.replace(/x/g, y)` for a single character `x`: every `x` becomes `y`, nothing else moves. */
  function ReplaceAll(s: string, x: char, y: char): (r: string)
    ensures |r| == |s|
    ensures forall i | 0 <= i < |s| :: r[i] == (if s[i] == x then y else s[i])
  {
    if s == [] then [] else [if s[0] == x then y else s[0]] + ReplaceAll(s[1..], x, y)
  }

  // ---------------------------------------------------------------- decimal text

  predicate IsDigit(c: char) {
    '0' <= c <= '9'
  }

  function DigitChar(d: nat): (c: char)
    requires d < 10
    ensures IsDigit(c) && c as int - '0' as int == d
  {
    ['0', '1', '2', '3', '4', '5', '6', '7', '8', '9'][d]
  }

  function DigitValue(c: char): (d: nat)
    requires IsDigit(c)
    ensures d < 10
  {
    c as int - '0' as int
  }

  predicate AllDigits(s: string) {
    forall i | 0 <= i < |s| :: IsDigit(s[i])
  }

  /** The decimal digits of `n`, most significant first, without leading zeros. */
  function NatToDecimal(n: nat): (r: string)
    ensures r != [] && AllDigits(r)
    ensures r[0] == '0' <==> n == 0
  {
    if n < 10 then [DigitChar(n)] else NatToDecimal(n / 10) + [DigitChar(n % 10)]
  }

  /** `String(n)` for an integer `n`. */
  function IntToDecimal(n: int): (r: string)
    ensures r != [] && (r[0] == '-' || IsDigit(r[0])) && IsDigit(r[|r| - 1])
  {
    if n < 0 then "-" + NatToDecimal(-n) else NatToDecimal(n)
  }

  /** The value of a string of decimal digits. */
  function DecimalValue(s: string): nat
    requires AllDigits(s)
  {
    if s == [] then 0 else 10 * DecimalValue(s[..|s| - 1]) + DigitValue(s[|s| - 1])
  }

  /** Reading back the decimal text of `n` gives `n`. */
  lemma {:induction false} DecimalValueOfNat(n: nat)
    ensures DecimalValue(NatToDecimal(n)) == n
  {
    if n >= 10 {
      var s := NatToDecimal(n);
      assert s[..|s| - 1] == NatToDecimal(n / 10);
      DecimalValueOfNat(n / 10);
    }
  }

  /** The longest prefix of digits of `s`, and what follows it. */
  function TakeDigits(s: string): (r: (string, string))
    ensures AllDigits(r.0) && s == r.0 + r.1
    ensures r.1 == [] || !IsDigit(r.1[0])
  {
    if s != [] && IsDigit(s[0]) then
      var (ds, rest) := TakeDigits(s[1..]);
      ([s[0]] + ds, rest)
    else
      ([], s)
  }

  /** Digits followed by something that is not a digit split exactly there. */
  lemma {:induction false} TakeDigitsOf(ds: string, rest: string)
    requires AllDigits(ds)
    requires rest == [] || !IsDigit(rest[0])
    ensures TakeDigits(ds + rest) == (ds, rest)
  {
    if ds != [] {
      assert (ds + rest)[1..] == ds[1..] + rest;
      TakeDigitsOf(ds[1..], rest);
      assert (ds + rest)[0] == ds[0] && IsDigit(ds[0]);
      assert [ds[0]] + ds[1..] == ds;
    } else {
      assert ds + rest == rest;
    }
  }
}
