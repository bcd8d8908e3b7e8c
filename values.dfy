/** JSON values, as the configuration file, tool schemas and tool-call
    arguments carry them. */
module Values {

  datatype Json =
    | JNull
    | JBool(b: bool)
    | JNumber(n: real)
    | JString(s: string)
    | JArray(items: seq<Json>)
    | JObject(fields: map<string, Json>)
}
