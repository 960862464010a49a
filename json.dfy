/** JSON values as `json.loads` produces them. */
module Json {

  /** Integers and floats stay apart, as `json.loads` gives `int` for `1` and `float` for `1.0`. */
  datatype Json =
    | JNull
    | JBool(b: bool)
    | JInt(i: int)
    | JFloat(x: real)
    | JString(str: string)
    | JArray(items: seq<Json>)
    | JObject(fields: map<string, Json>)

  /** What `json.loads` returns for a text that starts with `{` and parses: a dictionary. */
  type JsonObject = map<string, Json>
}
