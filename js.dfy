/** The few JavaScript values the scroller inspects: option values and what a
    plugin factory hands back. Only truthiness and the `!== false` test are
    ever applied to them. */
module Js {

  datatype Option<T> = None | Some(value: T)

  /** A JavaScript value; numbers are reals (NaN and the infinities are not modelled). */
  datatype Value =
    | Undefined
    | Null
    | Bool(b: bool)
    | Number(n: real)
    | Str(s: string)
    | Object(props: map<string, Value>)

  /** JavaScript's truthiness: what `if (v)` and `v || w` test. */
  predicate Truthy(v: Value)
  {
    match v
    case Undefined => false
    case Null => false
    case Bool(b) => b
    case Number(n) => n != 0.0
    case Str(s) => s != ""
    case Object(_) => true
  }

  /** An options object: a property missing from the map reads as `undefined`. */
  type Options = map<string, Value>

  function Get(o: Options, key: string): Value
  {
    if key in o then o[key] else Undefined
  }

  /** `v.key` for an arbitrary value: only objects carry properties here. */
  function Prop(v: Value, key: string): Value
  {
    if v.Object? then Get(v.props, key) else Undefined
  }
}
