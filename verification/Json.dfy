/** The parsed tree behind unstructured Kubernetes objects. */
module Json {

  datatype Json =
    | Null
    | Bool(b: bool)
    | Int(n: int)
    | Float(x: real)
    | Str(s: string)
    | List(items: seq<Json>)
    | Obj(fields: map<string, Json>)

  /** Reading a key of anything but an object that has it gives nothing. */
  function Field(j: Json, key: string): Json {
    if j.Obj? && key in j.fields then j.fields[key] else Null
  }

  /** A failed type assertion to a list gives the empty list. */
  function Items(j: Json): seq<Json> {
    if j.List? then j.items else []
  }

  /** A failed type assertion to a string gives the empty string. */
  function Chars(j: Json): string {
    if j.Str? then j.s else ""
  }
}
