/** The JSON values `json.loads` produces, as Python sees them. */
module Json {
  /**
   * `JObject` is a Python dict: key order is irrelevant to the pipeline and a
   * duplicated key keeps its last value, so a map is the faithful view.
   * `JNull` is what `json.loads("null")` returns, Python's `None`.
   */
  datatype Json =
    | JNull
    | JBool(b: bool)
    | JInt(i: int)
    | JFloat(f: real)
    | JString(s: string)
    | JArray(items: seq<Json>)
    | JObject(fields: map<string, Json>)

  /** `isinstance(data, dict) and k1 in data and k2 in data` */
  predicate HasKeys(data: Json, k1: string, k2: string) {
    data.JObject? && k1 in data.fields && k2 in data.fields
  }

  /** `data.get(key, default)` on a dict. */
  function Get(data: Json, key: string, default: Json): (r: Json)
    requires data.JObject?
    ensures key in data.fields ==> r == data.fields[key]
    ensures key !in data.fields ==> r == default
  {
    if key in data.fields then data.fields[key] else default
  }
}
