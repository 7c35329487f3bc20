/** A value as `json_decode` returns it (objects decoded as objects, not as
    associative arrays). Numbers are integers only. */
module Json {

  datatype Json =
    | JNull
    | JBool(b: bool)
    | JInt(i: int)
    | JString(s: string)
    | JArray(items: seq<Json>)
    | JObject(fields: map<string, Json>)
}
