/** The JSON values the client builds and receives, as serde_json's `Value` holds them.
    Objects are keyed maps: serde_json's default `Map` keeps no insertion order. */
module Json {

  datatype Json =
    | JNull
    | JBool(b: bool)
    | JNum(n: int)
    | JStr(s: string)
    | JArr(items: seq<Json>)
    | JObj(fields: map<string, Json>)

}
