/** The JSON values a request body can carry. */
module JsonValues {

  /**
   * A decoded JSON value. Numbers are kept as `real`; the service never does
   * arithmetic on them, it only compares the parsed coordinates.
   */
  datatype Json =
    | JNull
    | JBool(b: bool)
    | JNumber(n: real)
    | JString(s: string)
    | JArray(items: seq<Json>)
    | JObject(members: map<string, Json>)

  /** The empty JSON object `{}`. */
  const EmptyObject: Json := JObject(map[])
}
