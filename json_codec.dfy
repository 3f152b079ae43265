/**
 * `JSON.stringify` and `JSON.parse` on the integer subset of JSON.
 *
 * Stringify writes the compact form (no whitespace); Parse accepts the
 * JSON grammar with whitespace between tokens, returns None where
 * `JSON.parse` throws, and, like `JSON.parse`, lets a repeated member
 * name overwrite the earlier value in the earlier position.
 */
module JsonCodec {
  import opened Wrappers
  import opened JsText
  import opened Json

  // ================================================================ JSON.stringify

  function Stringify(v: Json): string {
    match v
    case JNull => "null"
    case JBool(b) => if b then "true" else "false"
    case JNum(n) => IntToDecimal(n)
    case JStr(s) => Quote(s)
    case JArr(items) => "[" + StringifyItems(items) + "]"
    case JObj(fields) => "{" + StringifyFields(fields) + "}"
  }

  /** The elements, separated by commas. */
  function StringifyItems(items: seq<Json>): string {
    if items == [] then ""
    else Stringify(items[0]) + (if |items| == 1 then "" else "," + StringifyItems(items[1..]))
  }

  /** The members `"key":value`, separated by commas. */
  function StringifyFields(fields: seq<Field>): string {
    if fields == [] then ""
    else
      Quote(fields[0].key) + ":" + Stringify(fields[0].value)
      + (if |fields| == 1 then "" else "," + StringifyFields(fields[1..]))
  }

  function Quote(s: string): string {
    "\"" + EscapeString(s) + "\""
  }

  function EscapeString(s: string): string {
    if s == [] then "" else EscapeChar(s[0]) + EscapeString(s[1..])
  }

  function HexDigit(d: nat): (c: char)
    requires d < 16
  {
    "0123456789abcdef"[d]
  }

  /** One character of a string literal as `JSON.stringify` writes it. */
  function EscapeChar(c: char): string {
    if c == '"' then "\\\""
    else if c == '\\' then "\\\\"
    else if c == '\U{8}' then "\\b"
    else if c == '\U{C}' then "\\f"
    else if c == '\n' then "\\n"
    else if c == '\r' then "\\r"
    else if c == '\t' then "\\t"
    else if c < ' ' then "\\u00" + [HexDigit(c as int / 16), HexDigit(c as int % 16)]
    else [c]
  }

  // ================================================================ JSON.parse

  /** The whitespace JSON allows between tokens. */
  predicate IsJsonWhitespace(c: char) {
    c == ' ' || c == '\t' || c == '\n' || c == '\r'
  }

  function SkipWs(s: string): (r: string)
    ensures |r| <= |s|
    ensures r == [] || !IsJsonWhitespace(r[0])
  {
    if s != [] && IsJsonWhitespace(s[0]) then SkipWs(s[1..]) else s
  }

  /** `JSON.parse(s)`: one value, optionally surrounded by whitespace, and nothing else. */
  function Parse(s: string): Option<Json> {
    match ParseValue(s)
    case None => None
    case Some((v, rest)) => if SkipWs(rest) == [] then Some(v) else None
  }

  /** Reads one value after optional whitespace; returns it and the unread rest of the text. */
  function ParseValue(s: string): (r: Option<(Json, string)>)
    ensures r.Some? ==> |r.value.1| < |s|
    decreases |s|, 1
  {
    var t := SkipWs(s);
    if t == [] then None
    else if t[0] == 'n' then ParseLiteral(t, "null", JNull)
    else if t[0] == 't' then ParseLiteral(t, "true", JBool(true))
    else if t[0] == 'f' then ParseLiteral(t, "false", JBool(false))
    else if t[0] == '"' then
      match ParseStringBody(t[1..])
      case None => None
      case Some((str, rest)) => Some((JStr(str), rest))
    else if t[0] == '[' then ParseArray(t[1..])
    else if t[0] == '{' then ParseObject(t[1..])
    else if t[0] == '-' || IsDigit(t[0]) then ParseNumber(t)
    else None
  }

  function ParseLiteral(t: string, word: string, v: Json): (r: Option<(Json, string)>)
    requires word != []
    ensures r.Some? ==> |r.value.1| < |t|
  {
    if word <= t then Some((v, t[|word|..])) else None
  }

  /**
   * An integer: an optional minus sign, then its magnitude.
   */
  function ParseNumber(t: string): (r: Option<(Json, string)>)
    ensures r.Some? ==> |r.value.1| < |t|
  {
    if t != [] && t[0] == '-' then
      match ParseMagnitude(t[1..])
      case None => None
      case Some((m, rest)) => Some((JNum(0 - m as int), rest))
    else
      match ParseMagnitude(t)
      case None => None
      case Some((m, rest)) => Some((JNum(m), rest))
  }

  /**
   * `0` or a digit sequence without a leading zero. A fraction or an
   * exponent after it is refused (None).
   */
  function ParseMagnitude(u: string): (r: Option<(nat, string)>)
    ensures r.Some? ==> |r.value.1| < |u|
  {
    if u == [] || !IsDigit(u[0]) then None
    else
      var split := if u[0] == '0' then (u[..1], u[1..]) else TakeDigits(u);
      var ds, rest := split.0, split.1;
      assert AllDigits(ds) && ds != [] && u == ds + rest;
      if rest != [] && (rest[0] == '.' || rest[0] == 'e' || rest[0] == 'E') then None
      else Some((DecimalValue(ds), rest))
  }

  function HexValue(c: char): Option<nat> {
    if '0' <= c <= '9' then Some(c as int - '0' as int)
    else if 'a' <= c <= 'f' then Some(c as int - 'a' as int + 10)
    else if 'A' <= c <= 'F' then Some(c as int - 'A' as int + 10)
    else None
  }

  /** Four hexadecimal digits. */
  function ParseHex4(s: string): (r: Option<nat>)
    ensures r.Some? ==> r.value < 0x10000
  {
    if |s| < 4 then None
    else match (HexValue(s[0]), HexValue(s[1]), HexValue(s[2]), HexValue(s[3]))
      case (Some(a), Some(b), Some(c), Some(d)) =>
        if a < 16 && b < 16 && c < 16 && d < 16 then Some(((a * 16 + b) * 16 + c) * 16 + d) else None
      case _ => None
  }

  /** The character an escape sequence stands for, after its backslash. */
  function ParseEscape(s: string): (r: Option<(char, string)>)
    ensures r.Some? ==> |r.value.1| < |s|
  {
    if s == [] then None
    else if s[0] == '"' then Some(('"', s[1..]))
    else if s[0] == '\\' then Some(('\\', s[1..]))
    else if s[0] == '/' then Some(('/', s[1..]))
    else if s[0] == 'b' then Some(('\U{8}', s[1..]))
    else if s[0] == 'f' then Some(('\U{C}', s[1..]))
    else if s[0] == 'n' then Some(('\n', s[1..]))
    else if s[0] == 'r' then Some(('\r', s[1..]))
    else if s[0] == 't' then Some(('\t', s[1..]))
    else if s[0] == 'u' then
      match ParseHex4(s[1..])
      case None => None
      case Some(code) =>
        // a UTF-16 surrogate half is not a character on its own
        if 0xD800 <= code <= 0xDFFF then None else Some((code as char, s[5..]))
    else None
  }

  /** The characters of a string literal after its opening quote, up to and including the closing quote. */
  function ParseStringBody(s: string): (r: Option<(string, string)>)
    ensures r.Some? ==> |r.value.1| < |s|
  {
    if s == [] then None
    else if s[0] == '"' then Some(([], s[1..]))
    else if s[0] == '\\' then
      match ParseEscape(s[1..])
      case None => None
      case Some((c, after)) =>
        match ParseStringBody(after)
        case None => None
        case Some((cs, rest)) => Some(([c] + cs, rest))
    else if s[0] < ' ' then None
    else
      match ParseStringBody(s[1..])
      case None => None
      case Some((cs, rest)) => Some(([s[0]] + cs, rest))
  }

  /** An array after its `[`. */
  function ParseArray(s: string): (r: Option<(Json, string)>)
    ensures r.Some? ==> |r.value.1| < |s|
    decreases |s|, 3
  {
    var t := SkipWs(s);
    if t != [] && t[0] == ']' then Some((JArr([]), t[1..]))
    else
      match ParseElements(t)
      case None => None
      case Some((items, rest)) => Some((JArr(items), rest))
  }

  /** One or more elements separated by commas, then the closing `]`. */
  function ParseElements(s: string): (r: Option<(seq<Json>, string)>)
    ensures r.Some? ==> |r.value.1| < |s|
    decreases |s|, 2
  {
    match ParseValue(s)
    case None => None
    case Some((v, after)) =>
      var u := SkipWs(after);
      if u != [] && u[0] == ',' then
        match ParseElements(u[1..])
        case None => None
        case Some((vs, rest)) => Some(([v] + vs, rest))
      else if u != [] && u[0] == ']' then Some(([v], u[1..]))
      else None
  }

  /** An object after its `{`; repeated names are merged as `JSON.parse` merges them. */
  function ParseObject(s: string): (r: Option<(Json, string)>)
    ensures r.Some? ==> |r.value.1| < |s|
    decreases |s|, 4
  {
    var t := SkipWs(s);
    if t != [] && t[0] == '}' then Some((JObj([]), t[1..]))
    else
      match ParseMembers(t)
      case None => None
      case Some((fields, rest)) => Some((JObj(Collapse([], fields)), rest))
  }

  /** One or more members separated by commas, then the closing `}`. */
  function ParseMembers(s: string): (r: Option<(seq<Field>, string)>)
    ensures r.Some? ==> |r.value.1| < |s|
    decreases |s|, 3
  {
    match ParseMember(s)
    case None => None
    case Some((f, after)) =>
      var w := SkipWs(after);
      if w != [] && w[0] == ',' then
        match ParseMembers(w[1..])
        case None => None
        case Some((fs, rest)) => Some(([f] + fs, rest))
      else if w != [] && w[0] == '}' then Some(([f], w[1..]))
      else None
  }

  /** One member `"name": value`. */
  function ParseMember(s: string): (r: Option<(Field, string)>)
    ensures r.Some? ==> |r.value.1| < |s|
    decreases |s|, 2
  {
    var t := SkipWs(s);
    if t == [] || t[0] != '"' then None
    else
      match ParseStringBody(t[1..])
      case None => None
      case Some((key, afterKey)) =>
        var u := SkipWs(afterKey);
        if u == [] || u[0] != ':' then None
        else
          match ParseValue(u[1..])
          case None => None
          case Some((v, after)) => Some((Field(key, v), after))
  }

  /** Assigns `f` into the object `acc`: an existing member keeps its place and takes the new value. */
  function Put(acc: seq<Field>, f: Field): (r: seq<Field>)
    ensures |r| == |acc| || r == acc + [f]
  {
    if acc == [] then [f]
    else if acc[0].key == f.key then [f] + acc[1..]
    else [acc[0]] + Put(acc[1..], f)
  }

  /** Assigns the members `fs`, in order, into the object `acc`. */
  function Collapse(acc: seq<Field>, fs: seq<Field>): seq<Field>
    decreases fs
  {
    if fs == [] then acc else Collapse(Put(acc, fs[0]), fs[1..])
  }
}
