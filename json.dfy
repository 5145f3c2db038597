/**
 * The generic JSON value that encoding/json decodes into an `interface{}`:
 * nil, bool, float64, string, []interface{} and map[string]interface{}.
 */
module JsonValues {

  datatype Json =
    | Null
    | Bool(b: bool)
    | Num(n: real)
    | String(s: string)
    | Array(items: seq<Json>)
    | Object(fields: map<string, Json>)

  /** A top-level JSON object that has the key `k`. */
  predicate HasKey(j: Json, k: string) {
    j.Object? && k in j.fields
  }
}
