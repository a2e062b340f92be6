/** Values produced by `JSON.parse`, and the few JavaScript operations the
    handlers apply to them: truthiness, `||`, property access and optional
    chaining. */
module Json {
  import opened Wrappers

  /** A parsed JSON value. A number is kept as the text JavaScript's
      Number::toString gives it, which is all the handlers ever observe of a
      number (its truthiness and `String(n)`). Objects are maps because
      `JSON.parse` keeps the last of duplicated keys. */
  datatype Json =
    | JNull
    | JBool(b: bool)
    | JNum(text: string)
    | JStr(s: string)
    | JArr(items: seq<Json>)
    | JObj(fields: map<string, Json>)

  /** A JavaScript value as the handlers see it: `None` is `undefined`. */
  type Value = Option<Json>

  /** JavaScript truthiness: `undefined`, `null`, `false`, `0` and `""` are
      falsy (JSON cannot produce `NaN`); arrays and objects are truthy. */
  predicate Truthy(v: Value): (b: bool)
    ensures b ==> !Nullish(v)
    ensures v.Some? && (v.value.JArr? || v.value.JObj?) ==> b
    ensures v.Some? && v.value.JStr? ==> (b <==> v.value.s != [])
  {
    match v
    case None => false
    case Some(j) =>
      match j
      case JNull => false
      case JBool(b) => b
      case JNum(t) => t != "0"
      case JStr(s) => s != ""
      case JArr(_) => true
      case JObj(_) => true
  }

  /** `a || b`: the first operand when it is truthy, otherwise the second. */
  function Or(a: Value, b: Value): (r: Value)
    ensures Truthy(r) <==> Truthy(a) || Truthy(b)
    ensures r == a || r == b
  {
    if Truthy(a) then a else b
  }

  /** `null` or `undefined`: the values on which `?.` stops and `.` throws. */
  predicate Nullish(v: Value) {
    v == None || v == Some(JNull)
  }

  /** `v.key` on a base that is not `null` (on `null` it throws). Only an
      object has the keys the handlers read; a string, number, boolean or
      array yields `undefined` for each of them. */
  function Get(v: Json, key: string): (r: Value)
    requires v != JNull
    ensures r.Some? <==> v.JObj? && key in v.fields
  {
    if v.JObj? && key in v.fields then Some(v.fields[key]) else None
  }

  /** `v?.key` */
  function Chain(v: Value, key: string): (r: Value)
    ensures Nullish(v) ==> r == None
  {
    if Nullish(v) then None else Get(v.value, key)
  }

  /** `v?.[0]`: the first element of an array, the first character of a
      string (the caller then reads a property of it, which is `undefined` on
      any string) or the property "0" of an object. */
  function ChainFirst(v: Value): (r: Value)
    ensures Nullish(v) ==> r == None
  {
    if Nullish(v) then None
    else
      match v.value
      case JArr(xs) => if |xs| > 0 then Some(xs[0]) else None
      case JStr(s) => if |s| > 0 then Some(JStr(s[..1])) else None
      case JObj(m) => if "0" in m then Some(m["0"]) else None
      case _ => None
  }

  /** `Array.isArray(v)` */
  predicate IsArray(v: Value) {
    v.Some? && v.value.JArr?
  }

  /** An object literal `{ key: value }` as the handlers build it for a reply. */
  function Single(key: string, value: Json): (r: Json)
    ensures r.JObj? && r.fields.Keys == {key} && r.fields[key] == value
  {
    JObj(map[key := value])
  }
}
