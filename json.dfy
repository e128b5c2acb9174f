/** The values `response.json()` can decode, as Python sees them. */
module Json {

  /** A decoded JSON document. Objects become Python dicts; every JSON
      number is represented by an integer. */
  datatype Json =
    | JNull
    | JBool(b: bool)
    | JNumber(n: int)
    | JString(s: string)
    | JArray(items: seq<Json>)
    | JObject(fields: map<string, Json>)

  /** `d.get(key)`: the value under `key`, or `None` when the key is absent.
      A JSON `null` and a missing key are therefore indistinguishable. */
  function Get(fields: map<string, Json>, key: string): Json
  {
    if key in fields then fields[key] else JNull
  }
}
