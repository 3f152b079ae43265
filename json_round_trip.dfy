/**
 * What the codec guarantees: `JSON.parse(JSON.stringify(v))` gives `v`
 * back for every well-formed value, so two well-formed values have the
 * same serialisation exactly when they are equal; and `JSON.parse` only
 * ever builds well-formed values.
 */
module JsonRoundTrip {
  import opened Wrappers
  import opened JsText
  import opened Json
  import opened JsonCodec

  /** What may follow a value inside a document: nothing, or the next separator or closing bracket. */
  predicate Terminator(rest: string) {
    rest == [] || rest[0] == ',' || rest[0] == ']' || rest[0] == '}'
  }

  /** A serialisation starts with the first character of its token and never with or after whitespace. */
  lemma StringifyEdges(v: Json)
    ensures Stringify(v) != [] && Trimmed(Stringify(v))
    ensures !IsJsonWhitespace(Stringify(v)[0])
    ensures Stringify(v)[0] == (match v
      case JNull => 'n'
      case JBool(b) => if b then 't' else 'f'
      case JNum(n) => Stringify(v)[0]
      case JStr(_) => '"'
      case JArr(_) => '['
      case JObj(_) => '{')
    ensures v.JNum? ==> Stringify(v)[0] == '-' || IsDigit(Stringify(v)[0])
  {
  }

  // ---------------------------------------------------------------- strings

  lemma HexDigitValue(d: nat)
    requires d < 16
    ensures HexValue(HexDigit(d)) == Some(d)
  {
  }

  /** The escape `JSON.stringify` writes for `c` reads back as `c`. */
  lemma EscapeRoundTrip(c: char, rest: string)
    requires EscapeChar(c)[0] == '\\'
    ensures ParseEscape(EscapeChar(c)[1..] + rest) == Some((c, rest))
  {
    if c < ' ' && c != '\U{8}' && c != '\U{C}' && c != '\n' && c != '\r' && c != '\t' {
      ControlEscapeRoundTrip(c, rest);
    }
  }

  /** A control character without a short escape is written `\u00XY` and reads back. */
  lemma ControlEscapeRoundTrip(c: char, rest: string)
    requires c < ' ' && c != '\U{8}' && c != '\U{C}' && c != '\n' && c != '\r' && c != '\t'
    ensures ParseEscape(EscapeChar(c)[1..] + rest) == Some((c, rest))
  {
    var e := EscapeChar(c)[1..] + rest;
    var hi, lo := c as int / 16, c as int % 16;
    assert e == ['u', '0', '0', HexDigit(hi), HexDigit(lo)] + rest;
    HexDigitValue(hi);
    HexDigitValue(lo);
    assert ParseHex4(e[1..]) == Some(c as int);
    assert e[5..] == rest;
  }

  /** A quoted string reads back as the string, and the text after the closing quote is left unread. */
  lemma {:induction false} StringRoundTrip(s: string, rest: string)
    ensures ParseStringBody(EscapeString(s) + "\"" + rest) == Some((s, rest))
  {
    if s == [] {
      assert EscapeString(s) + "\"" + rest == "\"" + rest;
    } else {
      var tail := EscapeString(s[1..]) + "\"" + rest;
      assert EscapeString(s) == EscapeChar(s[0]) + EscapeString(s[1..]);
      Reassociate3(EscapeChar(s[0]), EscapeString(s[1..]), "\"", rest);
      StringRoundTrip(s[1..], rest);
      CharStep(s[0], tail, s[1..], rest);
      assert [s[0]] + s[1..] == s;
    }
  }

  lemma Reassociate3(a: string, b: string, c: string, d: string)
    ensures a + b + c + d == a + (b + c + d)
  {
  }

  /** One written character, then the rest of a string literal that reads back. */
  lemma CharStep(c: char, tail: string, cs: string, rest: string)
    requires ParseStringBody(tail) == Some((cs, rest))
    ensures ParseStringBody(EscapeChar(c) + tail) == Some(([c] + cs, rest))
  {
    var text := EscapeChar(c) + tail;
    if EscapeChar(c)[0] == '\\' {
      assert text[0] == '\\' && text[1..] == EscapeChar(c)[1..] + tail;
      EscapeRoundTrip(c, tail);
    } else {
      assert EscapeChar(c) == [c] && c >= ' ';
      assert text[0] == c && text[1..] == tail;
    }
  }

  // ---------------------------------------------------------------- numbers

  /** The digits of `m` read back as `m` when nothing number-like follows them. */
  lemma MagnitudeRoundTrip(m: nat, rest: string)
    requires Terminator(rest)
    ensures ParseMagnitude(NatToDecimal(m) + rest) == Some((m, rest))
  {
    var ds := NatToDecimal(m);
    var u := ds + rest;
    assert u[0] == ds[0];
    DecimalValueOfNat(m);
    if ds[0] == '0' {
      assert ds == "0";
      assert u[..1] == ds && u[1..] == rest;
    } else {
      TakeDigitsOf(ds, rest);
    }
  }

  lemma NegativeNumber(t: string, m: nat, rest: string)
    requires t != [] && t[0] == '-'
    requires ParseMagnitude(t[1..]) == Some((m, rest))
    ensures ParseNumber(t) == Some((JNum(0 - m), rest))
  {
  }

  lemma NonNegativeNumber(t: string, m: nat, rest: string)
    requires t != [] && t[0] != '-'
    requires ParseMagnitude(t) == Some((m, rest))
    ensures ParseNumber(t) == Some((JNum(m), rest))
  {
  }

  /** The decimal text of `n` reads back as `n` when nothing number-like follows it. */
  lemma NumberRoundTrip(n: int, rest: string)
    requires Terminator(rest)
    ensures ParseNumber(IntToDecimal(n) + rest) == Some((JNum(n), rest))
  {
    var t := IntToDecimal(n) + rest;
    if n < 0 {
      var m: nat := -n;
      var u := NatToDecimal(m) + rest;
      assert t == "-" + u;
      assert t[0] == '-' && t[1..] == u;
      MagnitudeRoundTrip(m, rest);
      NegativeNumber(t, m, rest);
    } else {
      var m: nat := n;
      assert t == NatToDecimal(m) + rest;
      assert t[0] == NatToDecimal(m)[0] && t[0] != '-';
      MagnitudeRoundTrip(m, rest);
      NonNegativeNumber(t, m, rest);
    }
  }

  // ---------------------------------------------------------------- objects

  predicate KeyAbsent(acc: seq<Field>, key: string) {
    forall i | 0 <= i < |acc| :: acc[i].key != key
  }

  lemma {:induction false} PutNewKey(acc: seq<Field>, f: Field)
    requires KeyAbsent(acc, f.key)
    ensures Put(acc, f) == acc + [f]
  {
    if acc != [] {
      PutNewKey(acc[1..], f);
      assert [acc[0]] + (acc[1..] + [f]) == acc + [f];
    }
  }

  /** Merging members whose names are all distinct keeps them all, in order. */
  lemma {:induction false} CollapseDistinct(acc: seq<Field>, fs: seq<Field>)
    requires UniqueKeys(acc + fs)
    ensures Collapse(acc, fs) == acc + fs
    decreases fs
  {
    if fs != [] {
      var all := acc + fs;
      assert KeyAbsent(acc, fs[0].key) by {
        forall i | 0 <= i < |acc| ensures acc[i].key != fs[0].key {
          assert all[i] == acc[i] && all[|acc|] == fs[0];
        }
      }
      PutNewKey(acc, fs[0]);
      assert (acc + [fs[0]]) + fs[1..] == all;
      CollapseDistinct(acc + [fs[0]], fs[1..]);
    }
  }

  // ---------------------------------------------------------------- parser steps

  lemma ValueAtLiteral(s: string, word: string, v: Json)
    requires s != [] && !IsJsonWhitespace(s[0])
    requires word == (if s[0] == 'n' then "null" else if s[0] == 't' then "true" else "false")
    requires v == (if s[0] == 'n' then JNull else JBool(s[0] == 't'))
    requires s[0] == 'n' || s[0] == 't' || s[0] == 'f'
    ensures ParseValue(s) == ParseLiteral(s, word, v)
  {
  }

  lemma ValueAtString(s: string)
    requires s != [] && s[0] == '"'
    ensures ParseValue(s) == match ParseStringBody(s[1..])
      case None => None
      case Some((str, rest)) => Some((JStr(str), rest))
  {
  }

  lemma ValueAtArray(s: string)
    requires s != [] && s[0] == '['
    ensures ParseValue(s) == ParseArray(s[1..])
  {
    assert SkipWs(s) == s;
  }

  lemma ValueAtObject(s: string)
    requires s != [] && s[0] == '{'
    ensures ParseValue(s) == ParseObject(s[1..])
  {
    assert SkipWs(s) == s;
    assert s[0] != 'n' && s[0] != 't' && s[0] != 'f' && s[0] != '"' && s[0] != '[';
  }

  /** A text made of an opening mark, a body, a closing mark and what follows. */
  lemma Enclosed(text: string, open: string, body: string, close: string, rest: string)
    requires |open| == 1 && text == open + body + close + rest
    ensures text != [] && text[0] == open[0] && text[1..] == body + close + rest
  {
    assert text == open + (body + close + rest);
  }

  lemma ValueAtNumber(s: string)
    requires s != [] && (s[0] == '-' || IsDigit(s[0]))
    ensures ParseValue(s) == ParseNumber(s)
  {
    assert SkipWs(s) == s;
    if s[0] == '-' {
      assert ParseValue(s) == ParseNumber(s);
    } else {
      assert s[0] != 'n' && s[0] != 't' && s[0] != 'f' && s[0] != '"' && s[0] != '[' && s[0] != '{';
    }
  }

  lemma ElementsLast(s: string, v: Json, after: string)
    requires ParseValue(s) == Some((v, after))
    requires after != [] && after[0] == ']'
    ensures ParseElements(s) == Some(([v], after[1..]))
  {
    assert SkipWs(after) == after;
  }

  lemma ElementsMore(s: string, v: Json, after: string, vs: seq<Json>, rest: string)
    requires ParseValue(s) == Some((v, after))
    requires after != [] && after[0] == ','
    requires ParseElements(after[1..]) == Some((vs, rest))
    ensures ParseElements(s) == Some(([v] + vs, rest))
  {
    assert SkipWs(after) == after;
  }

  lemma MemberStep(s: string, key: string, valueText: string, v: Json, after: string)
    requires s != [] && s[0] == '"'
    requires ParseStringBody(s[1..]) == Some((key, ":" + valueText))
    requires ParseValue(valueText) == Some((v, after))
    ensures ParseMember(s) == Some((Field(key, v), after))
  {
    assert SkipWs(s) == s;
    assert SkipWs(":" + valueText) == ":" + valueText;
    assert (":" + valueText)[1..] == valueText;
  }

  lemma MembersLast(s: string, f: Field, after: string)
    requires ParseMember(s) == Some((f, after))
    requires after != [] && after[0] == '}'
    ensures ParseMembers(s) == Some(([f], after[1..]))
  {
    assert SkipWs(after) == after;
  }

  lemma MembersMore(s: string, f: Field, after: string, fs: seq<Field>, rest: string)
    requires ParseMember(s) == Some((f, after))
    requires after != [] && after[0] == ','
    requires ParseMembers(after[1..]) == Some((fs, rest))
    ensures ParseMembers(s) == Some(([f] + fs, rest))
  {
    assert SkipWs(after) == after;
  }

  // ---------------------------------------------------------------- values

  /**
   * Every well-formed value survives `JSON.stringify` then `JSON.parse`:
   * reading its serialisation followed by a separator gives the value
   * back and leaves the separator unread.
   */
  lemma {:induction false} ValueRoundTrip(v: Json, rest: string, text: string)
    requires WellFormed(v) && Terminator(rest)
    requires text == Stringify(v) + rest
    ensures ParseValue(text) == Some((v, rest))
    decreases v, 0
  {
    match v
    case JArr(items) =>
      Enclosed(text, "[", StringifyItems(items), "]", rest);
      ValueAtArray(text);
      ArrayRoundTrip(items, rest, text[1..]);
    case JObj(fields) =>
      Enclosed(text, "{", StringifyFields(fields), "}", rest);
      ValueAtObject(text);
      ObjectRoundTrip(fields, rest, text[1..]);
    case JNum(n) =>
      NumberValueRoundTrip(n, rest, text);
    case JStr(str) =>
      StringValueRoundTrip(str, rest, text);
    case _ =>
      LiteralRoundTrip(v, rest, text);
  }

  /** `ValueRoundTrip` for `null`, `true` and `false`. */
  lemma LiteralRoundTrip(v: Json, rest: string, text: string)
    requires (v.JNull? || v.JBool?) && text == Stringify(v) + rest
    ensures ParseValue(text) == Some((v, rest))
  {
    var word := Stringify(v);
    assert word <= text && text[|word|..] == rest;
    assert text[0] == word[0];
    ValueAtLiteral(text, word, v);
  }

  /** `ValueRoundTrip` for a number. */
  lemma NumberValueRoundTrip(n: int, rest: string, text: string)
    requires Terminator(rest) && text == IntToDecimal(n) + rest
    ensures ParseValue(text) == Some((JNum(n), rest))
  {
    StringifyEdges(JNum(n));
    assert text[0] == IntToDecimal(n)[0];
    ValueAtNumber(text);
    NumberRoundTrip(n, rest);
  }

  /** `ValueRoundTrip` for a string. */
  lemma StringValueRoundTrip(str: string, rest: string, text: string)
    requires text == Quote(str) + rest
    ensures ParseValue(text) == Some((JStr(str), rest))
  {
    Enclosed(text, "\"", EscapeString(str), "\"", rest);
    ValueAtString(text);
    StringRoundTrip(str, rest);
  }

  /** The inside of an array, then `]`, reads back as the array. */
  lemma {:induction false} ArrayRoundTrip(items: seq<Json>, rest: string, inner: string)
    requires forall i | 0 <= i < |items| :: WellFormed(items[i])
    requires inner == StringifyItems(items) + "]" + rest
    ensures ParseArray(inner) == Some((JArr(items), rest))
    decreases items, 2
  {
    if items == [] {
      assert inner == "]" + rest;
    } else {
      StringifyEdges(items[0]);
      assert inner[0] == Stringify(items[0])[0];
      assert SkipWs(inner) == inner;
      ItemsRoundTrip(items, rest, inner);
    }
  }

  /** The inside of an object with distinct names, then `}`, reads back as the object. */
  lemma {:induction false} ObjectRoundTrip(fields: seq<Field>, rest: string, inner: string)
    requires UniqueKeys(fields)
    requires forall i | 0 <= i < |fields| :: WellFormed(fields[i].value)
    requires inner == StringifyFields(fields) + "}" + rest
    ensures ParseObject(inner) == Some((JObj(fields), rest))
    decreases fields, 4
  {
    if fields == [] {
      assert inner == "}" + rest;
    } else {
      assert inner[0] == '"';
      assert SkipWs(inner) == inner;
      FieldsRoundTrip(fields, rest, inner);
      assert [] + fields == fields;
      CollapseDistinct([], fields);
    }
  }

  /** The elements of a well-formed array, then `]`, read back as the elements. */
  lemma {:induction false} ItemsRoundTrip(items: seq<Json>, rest: string, text: string)
    requires items != []
    requires forall i | 0 <= i < |items| :: WellFormed(items[i])
    requires text == StringifyItems(items) + "]" + rest
    ensures ParseElements(text) == Some((items, rest))
    decreases items, 1
  {
    if |items| > 1 {
      ItemsMore(items, rest, text);
    } else {
      var after := "]" + rest;
      ItemsTextLast(items, rest, text);
      ValueRoundTrip(items[0], after, text);
      assert [items[0]] == items;
      ElementsLast(text, items[0], after);
    }
  }

  /** `ItemsRoundTrip` when a comma follows the first element. */
  lemma {:induction false} ItemsMore(items: seq<Json>, rest: string, text: string)
    requires |items| > 1
    requires forall i | 0 <= i < |items| :: WellFormed(items[i])
    requires text == StringifyItems(items) + "]" + rest
    ensures ParseElements(text) == Some((items, rest))
    decreases items, 0
  {
    var tail := StringifyItems(items[1..]) + "]" + rest;
    var after := "," + tail;
    ItemsTextMore(items, rest, text);
    ValueRoundTrip(items[0], after, text);
    WellFormedTail(items);
    ItemsRoundTrip(items[1..], rest, tail);
    assert after[1..] == tail;
    assert [items[0]] + items[1..] == items;
    ElementsMore(text, items[0], after, items[1..], rest);
  }

  lemma AppendNothing(a: string, b: string, c: string)
    ensures a + "" + b + c == a + (b + c)
  {
    assert a + "" == a;
  }

  lemma Reassociate(a: string, b: string, c: string, d: string, e: string)
    ensures a + (b + c) + d + e == a + (b + (c + d + e))
  {
    assert b + c + d + e == b + (c + d + e);
  }

  /** A member's text: its quoted name, a colon, its value and what follows. */
  lemma MemberText(text: string, name: string, value: string, after: string)
    requires text == "\"" + name + "\"" + ":" + value + after
    ensures text != [] && text[0] == '"'
    ensures text[1..] == name + "\"" + (":" + (value + after))
  {
    assert text == "\"" + (name + "\"" + (":" + (value + after)));
  }

  /** The serialised elements, when there is one, split after it. */
  lemma ItemsTextLast(items: seq<Json>, rest: string, text: string)
    requires |items| == 1 && text == StringifyItems(items) + "]" + rest
    ensures text == Stringify(items[0]) + ("]" + rest)
  {
    var h := Stringify(items[0]);
    assert StringifyItems(items) == h + "";
    AppendNothing(h, "]", rest);
  }

  /** The serialised elements, when there are several, split after the first. */
  lemma ItemsTextMore(items: seq<Json>, rest: string, text: string)
    requires |items| > 1 && text == StringifyItems(items) + "]" + rest
    ensures text == Stringify(items[0]) + ("," + (StringifyItems(items[1..]) + "]" + rest))
  {
    var h, t := Stringify(items[0]), StringifyItems(items[1..]);
    assert StringifyItems(items) == h + ("," + t);
    Reassociate(h, ",", t, "]", rest);
  }

  /** The serialised members, when there is one, split after its value. */
  lemma FieldsTextLast(fields: seq<Field>, rest: string, text: string)
    requires |fields| == 1 && text == StringifyFields(fields) + "}" + rest
    ensures text == Quote(fields[0].key) + ":" + Stringify(fields[0].value) + ("}" + rest)
  {
    var h := Quote(fields[0].key) + ":" + Stringify(fields[0].value);
    assert StringifyFields(fields) == h + "";
    AppendNothing(h, "}", rest);
  }

  /** The serialised members, when there are several, split after the first value. */
  lemma FieldsTextMore(fields: seq<Field>, rest: string, text: string)
    requires |fields| > 1 && text == StringifyFields(fields) + "}" + rest
    ensures text == Quote(fields[0].key) + ":" + Stringify(fields[0].value)
      + ("," + (StringifyFields(fields[1..]) + "}" + rest))
  {
    var h, t := Quote(fields[0].key) + ":" + Stringify(fields[0].value), StringifyFields(fields[1..]);
    assert StringifyFields(fields) == h + ("," + t);
    Reassociate(h, ",", t, "}", rest);
  }

  lemma FieldValuesTail(fields: seq<Field>)
    requires fields != []
    requires forall i | 0 <= i < |fields| :: WellFormed(fields[i].value)
    ensures forall i | 0 <= i < |fields[1..]| :: WellFormed(fields[1..][i].value)
  {
  }

  lemma WellFormedTail(items: seq<Json>)
    requires items != []
    requires forall i | 0 <= i < |items| :: WellFormed(items[i])
    ensures forall i | 0 <= i < |items[1..]| :: WellFormed(items[1..][i])
  {
  }

  /** The members of an object with well-formed values, then `}`, read back as the members. */
  lemma {:induction false} FieldsRoundTrip(fields: seq<Field>, rest: string, text: string)
    requires fields != []
    requires forall i | 0 <= i < |fields| :: WellFormed(fields[i].value)
    requires text == StringifyFields(fields) + "}" + rest
    ensures ParseMembers(text) == Some((fields, rest))
    decreases fields, 3
  {
    if |fields| > 1 {
      FieldsMore(fields, rest, text);
    } else {
      var after := "}" + rest;
      FieldsTextLast(fields, rest, text);
      FirstMember(fields, after, text);
      assert [fields[0]] == fields;
      MembersLast(text, fields[0], after);
    }
  }

  /** `FieldsRoundTrip` when a comma follows the first member. */
  lemma {:induction false} FieldsMore(fields: seq<Field>, rest: string, text: string)
    requires |fields| > 1
    requires forall i | 0 <= i < |fields| :: WellFormed(fields[i].value)
    requires text == StringifyFields(fields) + "}" + rest
    ensures ParseMembers(text) == Some((fields, rest))
    decreases fields, 2
  {
    var tail := StringifyFields(fields[1..]) + "}" + rest;
    var after := "," + tail;
    FirstOfSeveral(fields, rest, text);
    FieldValuesTail(fields);
    FieldsRoundTrip(fields[1..], rest, tail);
    assert after[1..] == tail;
    assert [fields[0]] + fields[1..] == fields;
    MembersMore(text, fields[0], after, fields[1..], rest);
  }

  /** The first of several serialised members reads back, up to the comma after it. */
  lemma {:induction false} FirstOfSeveral(fields: seq<Field>, rest: string, text: string)
    requires |fields| > 1
    requires forall i | 0 <= i < |fields| :: WellFormed(fields[i].value)
    requires text == StringifyFields(fields) + "}" + rest
    ensures ParseMember(text) == Some((fields[0], "," + (StringifyFields(fields[1..]) + "}" + rest)))
    decreases fields, 1
  {
    FieldsTextMore(fields, rest, text);
    FirstMember(fields, "," + (StringifyFields(fields[1..]) + "}" + rest), text);
  }

  /** The first member of a serialised object reads back, up to what follows its value. */
  lemma {:induction false} FirstMember(fields: seq<Field>, after: string, text: string)
    requires fields != [] && WellFormed(fields[0].value) && Terminator(after)
    requires text == Quote(fields[0].key) + ":" + Stringify(fields[0].value) + after
    ensures ParseMember(text) == Some((fields[0], after))
    decreases fields, 0
  {
    var key, v := fields[0].key, fields[0].value;
    var valueText := Stringify(v) + after;
    var afterKey := ":" + valueText;
    assert Quote(key) == "\"" + EscapeString(key) + "\"";
    MemberText(text, EscapeString(key), Stringify(v), after);
    StringRoundTrip(key, afterKey);
    ValueRoundTrip(v, after, valueText);
    MemberStep(text, key, valueText, v, after);
  }

  /** `JSON.parse(JSON.stringify(v))` is `v` for every well-formed value. */
  lemma ParseStringify(v: Json)
    requires WellFormed(v)
    ensures Parse(Stringify(v)) == Some(v)
  {
    ValueRoundTrip(v, [], Stringify(v) + []);
    assert Stringify(v) + [] == Stringify(v);
  }

  /** Two well-formed values serialise alike exactly when they are equal. */
  lemma StringifyInjective(a: Json, b: Json)
    requires WellFormed(a) && WellFormed(b)
    ensures Stringify(a) == Stringify(b) <==> a == b
  {
    ParseStringify(a);
    ParseStringify(b);
  }
}
