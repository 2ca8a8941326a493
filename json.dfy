/** JSON-shaped values: the dictionaries the handler builds and what a profile decodes to. */
module Json {

  /** A JSON value. `Null` stands for Python's `None`; numbers are integers only. */
  datatype Value =
    | Null
    | Bool(b: bool)
    | Num(n: int)
    | Str(s: string)
    | Arr(items: seq<Value>)
    | Obj(fields: map<string, Value>)
}
