/**
 * JSON values as JavaScript sees them after `JSON.parse`, with `undefined` as `None`,
 * JavaScript truthiness, `||`, and property reads through optional chaining (`v?.key`).
 */
module JsValue {
  import opened Wrappers

  datatype Json =
    | JNull
    | JBool(b: bool)
    | JNum(n: int)
    | JStr(s: string)
    | JArr(items: seq<Json>)
    | JObj(fields: map<string, Json>)

  /** `!!v`: false for undefined, null, false, 0 and the empty string. */
  predicate Truthy(v: Option<Json>) {
    match v
    case None => false
    case Some(JNull) => false
    case Some(JBool(b)) => b
    case Some(JNum(n)) => n != 0
    case Some(JStr(s)) => s != []
    case Some(_) => true
  }

  /** `a || b` */
  function Or(a: Option<Json>, b: Option<Json>): (r: Option<Json>)
    ensures Truthy(a) ==> r == a
    ensures !Truthy(a) ==> r == b
  {
    if Truthy(a) then a else b
  }

  /**
   * `v?.key`: an own property of an object, undefined otherwise (for undefined and null, and
   * for primitives and arrays, whose properties are not part of this model).
   */
  function Prop(v: Option<Json>, key: string): (r: Option<Json>)
    ensures r.Some? ==> v.Some? && v.value.JObj? && key in v.value.fields && r.value == v.value.fields[key]
  {
    match v
    case Some(JObj(fields)) => if key in fields then Some(fields[key]) else None
    case _ => None
  }

  /** undefined or null: the values whose property reads throw without optional chaining. */
  predicate IsNullish(v: Option<Json>) {
    v == None || v == Some(JNull)
  }
}
