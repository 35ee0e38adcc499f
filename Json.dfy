/**
 * JSON values as encoding/json decodes them into a Go `interface{}`:
 * strings, booleans, numbers, arrays ([]interface{}), objects
 * (map[string]interface{}) and null (the nil interface).
 */
module Json {

  datatype JsonValue =
    | JString(str: string)
    | JBool(b: bool)
    /** A number: the core never inspects one, only tells it apart from the other kinds. */
    | JOther
    | JArray(items: seq<JsonValue>)
    | JObject(fields: map<string, JsonValue>)
    | JNull

  datatype Option<+T> = None | Some(value: T)

  /** Go's `m[k]` on a map[string]interface{}: the nil interface (JSON null) when `k` is absent. */
  function Lookup(m: map<string, JsonValue>, k: string): JsonValue
  {
    if k in m then m[k] else JNull
  }

  /** Go's `m[k]` on a map whose values are maps: the nil (empty) map when `k` is absent. */
  function LookupMap<V>(m: map<string, map<string, V>>, k: string): map<string, V>
  {
    if k in m then m[k] else map[]
  }

  /** JSON strings of the given Go strings, element by element. */
  function Strings(ids: seq<string>): (r: seq<JsonValue>)
    ensures |r| == |ids|
    ensures forall i | 0 <= i < |ids| :: r[i] == JString(ids[i])
  {
    if ids == [] then [] else [JString(ids[0])] + Strings(ids[1..])
  }
}
