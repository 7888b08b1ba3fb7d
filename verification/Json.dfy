/** Unstructured values: what Go code holds in an interface{} that came out of a JSON document. */
module Json {

  datatype Value =
    | Null
    | Bool(b: bool)
    | Num(n: int)
    | Str(s: string)       // a Go string: every char stands for one byte
    | Bytes(data: seq<int>)
    | List(items: seq<Value>)
    | Obj(fields: map<string, Value>)

  type Record = map<string, Value>

  /** convert.ToMapInterface: anything that is not a map reads as an empty (nil) map. */
  function ToMap(v: Value): Record {
    if v.Obj? then v.fields else map[]
  }

  function Field(r: Record, name: string): Value {
    if name in r then r[name] else Null
  }

  function Text(v: Value): string {
    if v.Str? then v.s else ""
  }

  predicate HasPrefix(s: string, prefix: string) {
    prefix <= s
  }
}
