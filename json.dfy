/**
 * JSON values as the grading code sees them after `request.json()` or
 * `JSON.parse`: numbers are integers, an object keeps its members in
 * insertion order (the order `JSON.stringify` writes them in).
 */
module Json {
  import opened Wrappers
  import opened JsText

  datatype Json =
    | JNull
    | JBool(b: bool)
    | JNum(n: int)
    | JStr(s: string)
    | JArr(items: seq<Json>)
    | JObj(fields: seq<Field>)

  datatype Field = Field(key: string, value: Json)

  /** JavaScript truthiness: `null`, `false`, `0` and `""` are falsy; every array and object is truthy. */
  predicate Truthy(v: Json) {
    match v
    case JNull => false
    case JBool(b) => b
    case JNum(n) => n != 0
    case JStr(s) => s != ""
    case JArr(_) => true
    case JObj(_) => true
  }

  /** JavaScript truthiness of a property read that may be `undefined`. */
  predicate TruthyOpt(v: Option<Json>) {
    v.Some? && Truthy(v.value)
  }

  /** The first member of `fields` named `key`. */
  function Lookup(fields: seq<Field>, key: string): (r: Option<Json>)
    ensures r.Some? <==> exists i | 0 <= i < |fields| :: fields[i].key == key
    ensures r.Some? ==> exists i | 0 <= i < |fields| :: fields[i] == Field(key, r.value)
  {
    if fields == [] then None
    else if fields[0].key == key then Some(fields[0].value)
    else
      var r := Lookup(fields[1..], key);
      assert forall i | 0 < i < |fields| :: fields[i] == fields[1..][i - 1];
      r
  }

  /**
   * `v.key` for a non-null value: a member of an object, `undefined`
   * (None) for every other kind of value, since none of the keys the
   * grading code reads is a property of arrays, strings, numbers or booleans.
   */
  function Get(v: Json, key: string): Option<Json> {
    if v.JObj? then Lookup(v.fields, key) else None
  }

  predicate HasKey(v: Json, key: string) {
    Get(v, key).Some?
  }

  predicate UniqueKeys(fields: seq<Field>) {
    forall i, j | 0 <= i < j < |fields| :: fields[i].key != fields[j].key
  }

  /** Every object in `v` has distinct member names, as every value `JSON.parse` builds does. */
  predicate WellFormed(v: Json) {
    match v
    case JArr(items) => forall i | 0 <= i < |items| :: WellFormed(items[i])
    case JObj(fields) => UniqueKeys(fields) && forall i | 0 <= i < |fields| :: WellFormed(fields[i].value)
    case _ => true
  }

  /**
   * `String(v)`, what a template literal `${v}` inserts, for a value
   * `Displayable` admits: arrays are joined with commas (a `null` element
   * contributes nothing) and an object reads `[object Object]`.
   */
  function DisplayString(v: Json): string {
    match v
    case JNull => "null"
    case JBool(b) => if b then "true" else "false"
    case JNum(n) => IntToDecimal(n)
    case JStr(s) => s
    case JArr(items) => DisplayItems(items)
    case JObj(_) => "[object Object]"
  }

  function DisplayItems(items: seq<Json>): string {
    if items == [] then ""
    else
      (if items[0].JNull? then "" else DisplayString(items[0]))
      + (if |items| == 1 then "" else "," + DisplayItems(items[1..]))
  }

  /**
   * `String(v)` succeeds. An object converts through the `toString` it
   * inherits; an own `toString` member hides it, and since `JSON.parse`
   * made that member it is no function, so no conversion is left and a
   * `TypeError` is thrown. An array converts each element, through `join`.
   */
  predicate Displayable(v: Json) {
    match v
    case JObj(fields) => Lookup(fields, "toString").None?
    case JArr(items) => forall i | 0 <= i < |items| :: Displayable(items[i])
    case _ => true
  }

  /** The `TypeError` V8 throws for an object that has no primitive value. */
  const NoPrimitive := "Cannot convert object to primitive value"

  /** `${v}` of a property read that may be `undefined` does not throw. */
  predicate Convertible(v: Option<Json>) {
    v.None? || Displayable(v.value)
  }

  /** `${v}` of a property read that may be `undefined`, where `Convertible` holds. */
  function Interpolated(v: Option<Json>): string {
    if v.Some? then DisplayString(v.value) else "undefined"
  }
}
