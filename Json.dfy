/**
 The decoded JSON values that the API's schemas are applied to: the result of
 parsing an HTTP response body, or the JSON a request body serialises to.
 Numbers are kept abstract: no NaN and no integer/float split; an out-of-range
 literal such as `1e999`, which decodes to Infinity, is just a number here.
 There is no `undefined` member, which exists only before serialisation.
 */
module JsonValue {

  datatype Json =
    | JNull
    | JBool(b: bool)
    | JString(s: string)
    | JNumber(n: real)
    | JArray(items: seq<Json>)
    | JObject(members: map<string, Json>)

  /** An object with no members, `{}`. */
  function EmptyObject(): Json {
    JObject(map[])
  }
}
