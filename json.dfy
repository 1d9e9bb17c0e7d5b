/**
 * JSON-like values as the gateway's TypeScript code sees them, with the
 * JavaScript notions the code relies on: truthiness (`||`, `!x`), property
 * access that throws on `undefined`/`null` (`a.b`) and optional chaining that
 * does not (`a?.b`).
 *
 * A JavaScript value that may be `undefined` is an `Option<Json>`, `None` being
 * `undefined`. Numbers are integers (see README, "Left out").
 */
module Json {

  import opened Wrappers
  import opened Strings

  datatype Json =
    | JNull
    | JBool(b: bool)
    | JNum(n: int)
    | JStr(s: string)
    | JArr(items: seq<Json>)
      /**
       * An object's own properties in key order. An object holds each key once
       * (`JSON.parse` keeps the last of repeated keys), as `UniqueFields` says.
       */
    | JObj(fields: seq<(string, Json)>)

  /** The TypeError raised by reading a property of `undefined` or `null`. */
  datatype TypeError = TypeError

  /** JavaScript truthiness of a defined value. */
  predicate Truthy(j: Json) {
    match j
    case JNull => false
    case JBool(b) => b
    case JNum(n) => n != 0
    case JStr(s) => s != ""
    case _ => true
  }

  /** Truthiness of a possibly undefined value. */
  predicate IsTruthy(v: Option<Json>) {
    v.Some? && Truthy(v.value)
  }

  /** `a || b`: `a` when truthy, else `b`. */
  function Or(a: Option<Json>, b: Json): (r: Json)
    ensures IsTruthy(a) ==> r == a.value
    ensures !IsTruthy(a) ==> r == b
  {
    if IsTruthy(a) then a.value else b
  }

  /** True when `v` is neither `undefined` nor `null`. */
  predicate Present(v: Option<Json>) {
    v.Some? && v.value != JNull
  }

  /** Index of the first field named `key`, or `|fields|` when there is none. */
  function FieldIndex(fields: seq<(string, Json)>, key: string): (i: nat)
    ensures i <= |fields|
    ensures i < |fields| ==> fields[i].0 == key
    ensures forall k :: 0 <= k < i ==> fields[k].0 != key
  {
    if |fields| == 0 then 0
    else if fields[0].0 == key then 0
    else 1 + FieldIndex(fields[1..], key)
  }

  /** No key of `fields` appears twice: the fields of a JavaScript object. */
  predicate UniqueFields(fields: seq<(string, Json)>) {
    forall i, j :: 0 <= i < j < |fields| ==> fields[i].0 != fields[j].0
  }

  /** In an object with unique keys, the property read finds the one field of that key. */
  lemma GetUnique(fields: seq<(string, Json)>, k: int)
    requires UniqueFields(fields) && 0 <= k < |fields|
    ensures Get(JObj(fields), fields[k].0) == Some(fields[k].1)
  {
    var i := FieldIndex(fields, fields[k].0);
    if i < k {
      assert false;
    }
  }

  /** The value of property `key` of a defined value (`undefined` on non-objects). */
  function Get(j: Json, key: string): Option<Json> {
    match j
    case JObj(fields) =>
      var i := FieldIndex(fields, key);
      if i < |fields| then Some(fields[i].1) else None
    case _ => None
  }

  /** The element at index `i` of a defined value (`undefined` on non-arrays). */
  function At(j: Json, i: nat): Option<Json> {
    match j
    case JArr(items) => if i < |items| then Some(items[i]) else None
    case _ => None
  }

  /** `v.key`: a TypeError when `v` is `undefined` or `null`. */
  function Dot(v: Option<Json>, key: string): (r: Result<Option<Json>, TypeError>)
    ensures r.Err? <==> !Present(v)
  {
    if Present(v) then Ok(Get(v.value, key)) else Err(TypeError)
  }

  /** `v[i]`: a TypeError when `v` is `undefined` or `null`. */
  function Index(v: Option<Json>, i: nat): (r: Result<Option<Json>, TypeError>)
    ensures r.Err? <==> !Present(v)
  {
    if Present(v) then Ok(At(v.value, i)) else Err(TypeError)
  }

  /** `v?.key`: `undefined` when `v` is `undefined` or `null`. */
  function OptDot(v: Option<Json>, key: string): (r: Option<Json>)
    ensures !Present(v) ==> r.None?
  {
    if Present(v) then Get(v.value, key) else None
  }

  /** `v?.[i]`. */
  function OptAt(v: Option<Json>, i: nat): (r: Option<Json>)
    ensures !Present(v) ==> r.None?
  {
    if Present(v) then At(v.value, i) else None
  }

  /** The string inside `v`, when `v` is a string. */
  function AsString(v: Option<Json>): Option<string> {
    if v.Some? && v.value.JStr? then Some(v.value.s) else None
  }

  /** The integer inside `v`, when `v` is a number. */
  function AsInt(v: Option<Json>): Option<int> {
    if v.Some? && v.value.JNum? then Some(v.value.n) else None
  }

  /** `String(v)` for a defined value. */
  function JsString(j: Json): string {
    match j
    case JNull => "null"
    case JBool(b) => if b then "true" else "false"
    case JNum(n) => IntToString(n)
    case JStr(s) => s
    case JArr(items) => JoinItems(items)
    case JObj(_) => "[object Object]"
  }

  /** `String(array)`: elements joined by ',', with `null` elements as ''. */
  function JoinItems(items: seq<Json>): string
    decreases items
  {
    if |items| == 0 then ""
    else
      var first := if items[0] == JNull then "" else JsString(items[0]);
      if |items| == 1 then first else first + "," + JoinItems(items[1..])
  }

  /** `ToNumber` of a value that is not a string, array or object. */
  function ToNumber(j: Json): int
    requires !j.JStr? && !j.JArr? && !j.JObj?
  {
    match j
    case JNull => 0
    case JBool(b) => if b then 1 else 0
    case JNum(n) => n
  }

  /**
   * `a + b`: string concatenation when either side is a string, an array or an
   * object (which convert to strings first), numeric addition otherwise.
   */
  function Plus(a: Json, b: Json): (r: Json)
    ensures a.JNum? && b.JNum? ==> r == JNum(a.n + b.n)
    ensures a.JStr? || b.JStr? ==> r == JStr(JsString(a) + JsString(b))
  {
    if a.JStr? || a.JArr? || a.JObj? || b.JStr? || b.JArr? || b.JObj? then JStr(JsString(a) + JsString(b))
    else JNum(ToNumber(a) + ToNumber(b))
  }
}
