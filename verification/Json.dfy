/** JSON-like values as the runtime passes them around (map[string]any in Go). */
module Json {
  type JsonMap = map<string, Value>

  // Number stands for the numeric Go types; Other for any value without a JSON form of its own.
  datatype Value =
    | Null
    | Bool(b: bool)
    | Text(s: string)
    | Number(n: real)
    | Other(rendered: string)
    | Array(items: seq<Value>)
    | Object(fields: JsonMap)
}
