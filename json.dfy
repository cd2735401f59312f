/**
 * The parsed JSON tree that `json_decode` produces with `JSON_OBJECT_AS_ARRAY`:
 * objects become string-keyed PHP arrays, lists become PHP lists.
 */
module Json {
  import opened Wrappers

  datatype Json =
    | JNull
    | JBool(b: bool)
    | JNumber(text: string)
    | JString(s: string)
    | JArray(items: seq<Json>)
    | JObject(fields: map<string, Json>)

  /** A value that satisfies PHP's `array` type: a decoded object or list. */
  predicate IsArray(j: Json) {
    j.JArray? || j.JObject?
  }

  /**
   * `$j[$key]` read under `??`: present only when `j` is an object holding `key`
   * with a value other than `null`; every other shape reads as absent.
   */
  function Get(j: Json, key: string): (r: Option<Json>)
    ensures r.Some? <==> j.JObject? && key in j.fields && j.fields[key] != JNull
    ensures r.Some? ==> r.value == j.fields[key] && r.value != JNull
  {
    match j
    case JObject(fields) => if key in fields && fields[key] != JNull then Some(fields[key]) else None
    case _ => None
  }
}
