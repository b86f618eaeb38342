/** The JSON values the source builds as `Map<String, Object>` trees and reads back from config files. */
module Json {

  datatype JsonValue =
    | JNull
    | JBool(b: bool)
    | JInt(i: int)
    | JReal(r: real)
    | JStr(s: string)
    | JArray(items: seq<JsonValue>)
    | JObject(fields: map<string, JsonValue>)

  /** The marker written in place of a metric that cannot be read. */
  const DataUnavailable: string := "Data unavailable"
}
