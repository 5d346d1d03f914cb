/** JavaScript values as they reach the request handlers and the entity
    decoders: parsed JSON request bodies, query parameters and entity payloads.
    Only the parts of JavaScript semantics the handlers rely on are modelled:
    truthiness, the `||` operator and property lookup. */
module Js {

  datatype Option<+T> = None | Some(value: T)

  /** A JavaScript value. Numbers are exact reals (NaN and IEEE rounding are
      not modelled); strings are sequences of Unicode scalar values. */
  datatype JsValue =
    | Undefined
    | Null
    | Bool(b: bool)
    | Num(n: real)
    | Str(s: string)
    | Arr(items: seq<JsValue>)
    | Obj(fields: map<string, JsValue>)

  /** JavaScript truthiness: `undefined`, `null`, `false`, `0` and `""` are
      falsy, every array and object (even an empty one) is truthy. */
  predicate Truthy(v: JsValue) {
    match v
    case Undefined => false
    case Null => false
    case Bool(b) => b
    case Num(n) => n != 0.0
    case Str(s) => s != ""
    case Arr(_) => true
    case Obj(_) => true
  }

  /** The expression `a || b`: the first operand if it is truthy, else the second. */
  function Or(a: JsValue, b: JsValue): JsValue {
    if Truthy(a) then a else b
  }

  /** Property access `o[k]` on a plain object; a missing key reads as `undefined`. */
  function Get(o: map<string, JsValue>, k: string): JsValue {
    if k in o then o[k] else Undefined
  }

  /** A computation that either yields a value or throws an error carrying
      `error.message`. */
  datatype Outcome<+T> = Ok(value: T) | Thrown(message: string)

  /** The JSON form of a list of strings. */
  function StrArray(xs: seq<string>): (v: JsValue)
    ensures v.Arr? && |v.items| == |xs|
    ensures forall i :: 0 <= i < |xs| ==> v.items[i] == Str(xs[i])
  {
    if xs == [] then Arr([]) else Arr([Str(xs[0])] + StrArray(xs[1..]).items)
  }
}
