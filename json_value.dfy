/** The JSON values a request body can carry.  A POST /data body is parsed
    into a JSON object, whose fields become the stored `content`. */
module JsonValue {

  datatype Json =
    | JNull
    | JBool(b: bool)
    | JNumber(n: int)
    | JString(s: string)
    | JArray(items: seq<Json>)
    | JObject(fields: map<string, Json>)

  /** A JSON object: the shape of a request body and of an entry's content. */
  type Object = map<string, Json>

  /** Python's truthiness test `not item` on a dict: true exactly when the
      dict has no keys. */
  predicate IsEmptyObject(o: Object): (r: bool)
    ensures r <==> o == map[]
  {
    |o| == 0
  }
}
