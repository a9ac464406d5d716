/**
 * The JavaScript values this core inspects, and the truthiness that its
 * `!x` tests apply to them.
 */
module Js {
  import opened Wrappers

  /** A JSON value as carried by a GraphQL response (numbers are integers here). */
  datatype Json =
    | JNull
    | JBool(b: bool)
    | JNumber(n: int)
    | JString(s: string)
    | JArray(items: seq<Json>)
    | JObject(fields: map<string, Json>)

  /** `!!v`: null, false, 0 and "" are falsy; every array and object, even an empty one, is truthy. */
  predicate Truthy(v: Json)
  {
    match v
    case JNull => false
    case JBool(b) => b
    case JNumber(n) => n != 0
    case JString(s) => s != ""
    case JArray(_) => true
    case JObject(_) => true
  }

  /** `!!obj.prop` for a property that may be missing (`None` is `undefined`). */
  predicate Present(v: Option<Json>)
  {
    v.Some? && Truthy(v.value)
  }

  /** `!!s` for a string that may be missing: both `undefined` and "" are falsy. */
  predicate StringPresent(s: Option<string>)
  {
    s.Some? && s.value != ""
  }
}
