/**
 * Parsed JSON values, and the JavaScript tests the validator applies to them:
 * truthiness, `typeof x === 'string'`, `Array.isArray`, `Number.isInteger`
 * and property access (`undefined` for a missing property).
 */
module Json {
  import opened Wrappers

  datatype Json =
    | JNull
    | JBool(b: bool)
    | JNum(n: real)
    | JStr(s: string)
    | JArr(items: seq<Json>)
    | JObj(fields: map<string, Json>)

  /** `value.key` on a value that is not `null`: the property of an object, or `undefined` (None). */
  function Get(value: Json, key: string): (r: Option<Json>)
    ensures r.Some? <==> value.JObj? && key in value.fields
  {
    if value.JObj? && key in value.fields then Some(value.fields[key]) else None
  }

  /** JavaScript's `Boolean(x)`; `undefined` is None. */
  predicate Truthy(x: Option<Json>) {
    match x
    case None => false
    case Some(JNull) => false
    case Some(JBool(b)) => b
    case Some(JNum(n)) => n != 0.0
    case Some(JStr(s)) => s != ""
    case Some(JArr(_)) => true
    case Some(JObj(_)) => true
  }

  /** `x || fallback` */
  function OrElse(x: Option<Json>, fallback: Json): (r: Json)
    ensures Truthy(x) ==> Some(r) == x
    ensures !Truthy(x) ==> r == fallback
  {
    if Truthy(x) then x.value else fallback
  }

  predicate IsString(x: Option<Json>) {
    x.Some? && x.value.JStr?
  }

  predicate IsArray(x: Option<Json>) {
    x.Some? && x.value.JArr?
  }

  /** `Number.isInteger(x)` */
  predicate IsInteger(x: Option<Json>) {
    x.Some? && x.value.JNum? && x.value.n.Floor as real == x.value.n
  }
}
