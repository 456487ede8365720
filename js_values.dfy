/**
 * The JavaScript values that cross the boundaries of the modelled services:
 * whatever `JSON.parse` produces, and the result of reading a property of
 * such a value (which is `undefined` when the property is absent).
 */
module JsValues {

  /**
   * A value produced by `JSON.parse`. Numbers are kept as reals: no modelled
   * operation looks at their magnitude, only at whether they are zero.
   */
  datatype Json =
    | JNull
    | JBool(b: bool)
    | JNumber(n: real)
    | JString(s: string)
    | JArray(items: seq<Json>)
    | JObject(fields: map<string, Json>)

  /** The result of a property read: `undefined`, or a value. */
  datatype Prop = Undefined | Defined(value: Json)

  /**
   * `v.key` for a `v` that is not `null`. Only the own fields of parsed
   * objects are modelled; the keys read by this model (`tool_calls`, `name`)
   * are not built-in properties of arrays, strings, numbers or booleans, so
   * reading them from any of those gives `undefined`.
   */
  function Field(v: Json, key: string): Prop {
    if v.JObject? && key in v.fields then Defined(v.fields[key]) else Undefined
  }

  /** JavaScript truthiness of a property read, as `||` uses it. */
  predicate Truthy(p: Prop) {
    match p
    case Undefined => false
    case Defined(JNull) => false
    case Defined(JBool(b)) => b
    case Defined(JNumber(n)) => n != 0.0
    case Defined(JString(s)) => s != ""
    case Defined(_) => true
  }
}
