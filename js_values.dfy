/** JavaScript values as the email service and its transports see them. */
module JsValues {

  /** A JavaScript value. `Undefined` is kept apart from the other falsy values
      (`Null`, `Bool(false)`, `Num(0)`, `Str("")`), so that a truthiness test
      and a `!== undefined` test can be told apart. `Opaque` stands for a host
      object the model does not look into, such as a required module. */
  datatype Value =
    | Undefined
    | Null
    | Bool(b: bool)
    | Num(n: int)
    | Str(s: string)
    | Arr(items: seq<Value>)
    | Obj(props: map<string, Value>)
    | Opaque(tag: string)

  datatype Option<T> = None | Some(value: T)

  /** JavaScript truthiness: `if (v)` takes its branch exactly when `Truthy(v)`. */
  predicate Truthy(v: Value) {
    match v
    case Undefined => false
    case Null => false
    case Bool(b) => b
    case Num(n) => n != 0
    case Str(s) => s != ""
    case _ => true
  }

  /** `o[key]` on a plain object: a missing key reads as `undefined`. */
  function Lookup(o: map<string, Value>, key: string): Value {
    if key in o then o[key] else Undefined
  }

  /** The own named properties of a value; only objects carry any. */
  function Props(v: Value): map<string, Value> {
    if v.Obj? then v.props else map[]
  }

  /** `v.key` for any value `v` that is not `undefined` or `null`. */
  function Get(v: Value, key: string): Value {
    Lookup(Props(v), key)
  }
}
