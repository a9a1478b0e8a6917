/**
 * A decoded JSON (or YAML) value, the model of Go's `any` as produced by `encoding/json`.
 * Go's `nil` interface is both JSON `null` and "no value": the core cannot tell them apart,
 * so both are `JNull`.
 */
module Json {

  datatype Value =
    | JObject(fields: map<string, Value>)
    | JArray(items: seq<Value>)
    | JString(s: string)
    | JNumber(n: real)
    | JBool(b: bool)
    | JNull
}
