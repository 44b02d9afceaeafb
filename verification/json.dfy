/** JavaScript values as the coverage drivers hand them over, and the two
    object operations the plugin uses on them: reading a property and
    spreading an object into an object literal. */
module Json {

  datatype Option<+T> = None | Some(value: T)

  /** A JavaScript value. Numbers are kept as integers: the plugin never
      computes with them, it only moves them from one object to another. */
  datatype Value =
    | Undefined
    | Null
    | Bool(b: bool)
    | Num(n: int)
    | Str(s: string)
    | List(items: seq<Value>)
    | Object(fields: Fields)

  /** The own enumerable properties of a plain object. Property order plays
      no part in what the plugin does, so a map is enough. */
  type Fields = map<string, Value>

  /** `o.key`: a missing property reads as `undefined`. */
  function Get(o: Fields, key: string): Value
  {
    if key in o then o[key] else Undefined
  }

  /** The properties that `...v` contributes to an object literal: all those
      of an object, none for `undefined`, `null`, booleans and numbers. */
  function Spread(v: Value): Fields
  {
    if v.Object? then v.fields else map[]
  }
}
