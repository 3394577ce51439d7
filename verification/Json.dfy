/** JSON values as `serde_json` holds them: an integer literal that fits 64 bits is an integer, every
    other number is a float. Equality of two numbers is equality of kind and value. */
module Json {
  import opened Wrappers

  datatype Number = PosInt(n: nat) | NegInt(i: int) | Float(r: real)

  datatype Value =
    | Null
    | Bool(b: bool)
    | Num(num: Number)
    | Str(s: string)
    | Arr(items: seq<Value>)
    | Obj(fields: map<string, Value>)

  /** A member of an object; nothing for any other value. */
  function Get(v: Value, key: string): Option<Value> {
    if v.Obj? && key in v.fields then Some(v.fields[key]) else None
  }

  function AsStr(v: Option<Value>): Option<string> {
    if v.Some? && v.value.Str? then Some(v.value.s) else None
  }

  function AsBool(v: Option<Value>): Option<bool> {
    if v.Some? && v.value.Bool? then Some(v.value.b) else None
  }
}
