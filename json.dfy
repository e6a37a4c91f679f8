/** Parsed JSON values, as the extractors read API responses, and Python's dict.get. */
module Json {

  datatype Json =
    | JNull
    | JBool(b: bool)
    | JInt(i: int)
    | JFloat(f: real)
    | JString(s: string)
    | JArray(items: seq<Json>)
    | JObject(fields: map<string, Json>)

  /** dict.get(key): the value under `key`, or None (JSON null) when the key is absent. */
  function Get(fields: map<string, Json>, key: string): Json {
    GetOr(fields, key, JNull)
  }

  /** dict.get(key, default). */
  function GetOr(fields: map<string, Json>, key: string, default: Json): Json {
    if key in fields then fields[key] else default
  }
}
