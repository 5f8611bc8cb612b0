/** A parsed JSON document, as `JSON.parse` and `request.json()` produce it. An
    object's keys form a map: a key that is absent is `undefined` to JavaScript. */
module Json {

  datatype JsonValue =
    | JNull
    | JBool(b: bool)
    | JNumber(n: real)
    | JString(s: string)
    | JArray(items: seq<JsonValue>)
    | JObject(fields: map<string, JsonValue>)
}
