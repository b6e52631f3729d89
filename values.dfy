/**
 * Decoded JSON values and the wrappers the rest of the model shares.
 * mcp_to_skill.py only ever works on what json.load hands it (dicts,
 * lists, strings, numbers, booleans and None); this module gives those a
 * Dafny shape.
 */
module JsonValues {

  datatype Option<+T> = None | Some(value: T)

  datatype Result<+T, +E> = Ok(value: T) | Err(error: E)

  /** A decoded JSON value. Numbers are only passed through, so an exact real stands for them. */
  datatype Json =
    | JNull
    | JBool(b: bool)
    | JNum(n: real)
    | JStr(s: string)
    | JArr(items: seq<Json>)
    | JObj(fields: map<string, Json>)

  /** A decoded JSON object: a server configuration, a schema, a call payload. */
  type Object = map<string, Json>

  /** Python truthiness of an optional string argument: None and "" are both false. */
  predicate Given(s: Option<string>) {
    s.Some? && s.value != ""
  }
}
