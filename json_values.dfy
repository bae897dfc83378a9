/** Decoded JSON values, as the provider sees them once `encoding/json` has parsed a document. */
module JsonValues {

  /**
   * A JSON value. Numbers keep their literal text: nothing in the model does
   * arithmetic on them, only the distinction "string or not" matters.
   */
  datatype Json =
    | JNull
    | JBool(b: bool)
    | JNumber(literal: string)
    | JString(s: string)
    | JArray(items: seq<Json>)
    | JObject(fields: map<string, Json>)

  /**
   * What `json.Unmarshal` leaves in a fresh Go `string` target, one still
   * holding "" (or a fresh `string` element of a map or slice), when handed
   * `j`: the string itself, and "" for any other kind of value, whose type
   * error the provider discards. A target that already held a string keeps
   * it on a type error; every target decoded into here is fresh.
   */
  function AsString(j: Json): (s: string)
  {
    if j.JString? then j.s else ""
  }
}
