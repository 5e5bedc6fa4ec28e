/** A decoded JSON value as Go's `encoding/json` stores it in an `interface{}`:
    nil, bool, a `float64` number, string, `[]interface{}` and
    `map[string]interface{}`. A number is kept as its exact value; rounding to
    64 bits is not modelled. */
module Json {

  datatype Value =
    | Null
    | Bool(b: bool)
    | Number(n: real)
    | String(s: string)
    | Array(items: seq<Value>)
    | Object(fields: map<string, Value>)
}
