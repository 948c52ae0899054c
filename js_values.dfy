/** The part of JavaScript's value model that the error responder's
    `isFormerror` test depends on: truthiness and `typeof`. The `in`
    operator and `=== true` appear directly in the error responder. */
module JsValues {

  /** A JavaScript value. Objects (plain objects, arrays, functions) are shown
      by their own enumerable properties; `callable` tells functions apart,
      which `typeof` reports as "function" rather than "object". */
  datatype JsValue =
    | Undefined
    | Null
    | Bool(b: bool)
    | Num(n: real)
    | NaN
    | Str(s: string)
    | BigInt(i: int)
    | Symbol
    | Obj(props: map<string, JsValue>, callable: bool)

  /** ToBoolean: the falsy values are undefined, null, false, 0 (and -0),
      NaN, the empty string and 0n; everything else is truthy. */
  predicate Truthy(v: JsValue)
    ensures !Truthy(v) <==> v in {Undefined, Null, Bool(false), Num(0.0), NaN, Str(""), BigInt(0)}
  {
    match v
    case Undefined => false
    case Null => false
    case Bool(b) => b
    case Num(n) => n != 0.0
    case NaN => false
    case Str(s) => s != ""
    case BigInt(i) => i != 0
    case Symbol => true
    case Obj(_, _) => true
  }

  /** The string the `typeof` operator yields; note that `typeof null` is "object". */
  function TypeOf(v: JsValue): (r: string)
    ensures r == "object" <==> v.Null? || (v.Obj? && !v.callable)
  {
    match v
    case Undefined => "undefined"
    case Null => "object"
    case Bool(_) => "boolean"
    case Num(_) => "number"
    case NaN => "number"
    case Str(_) => "string"
    case BigInt(_) => "bigint"
    case Symbol => "symbol"
    case Obj(_, callable) => if callable then "function" else "object"
  }
}
