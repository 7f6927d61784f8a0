/** JSON-shaped values as they travel through add-on files, patches and the
    conference API, and the keyed records every site entity is made of. */
module Json {

  datatype Option<+T> = None | Some(value: T)

  /** A parsed JSON value; `Undefined` is what JavaScript yields for a
      property an object does not have. Numbers are kept as reals and are
      only ever copied, never computed with. */
  datatype Value =
    | Undefined
    | Null
    | Bool(b: bool)
    | Num(n: real)
    | Str(s: string)
    | Arr(items: seq<Value>)
    | Obj(properties: map<string, Value>)

  /** JavaScript truthiness: `undefined`, `null`, `false`, `0` and `""` are falsy. */
  predicate Truthy(v: Value) {
    match v
    case Undefined => false
    case Null => false
    case Bool(b) => b
    case Num(n) => n != 0.0
    case Str(s) => s != ""
    case Arr(_) => true
    case Obj(_) => true
  }

  /** A site entity: the `key` every entity carries (a string by its type)
      and whatever other properties the record has. */
  datatype Record = Record(key: string, fields: map<string, Value>)

  /** Reading a property: a missing one reads as `undefined`. */
  function Get(r: Record, name: string): Value {
    if name in r.fields then r.fields[name] else Undefined
  }
}
