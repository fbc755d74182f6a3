/**
 * The JavaScript values that request bodies and validator inputs are made of,
 * with the three operations the validators apply to them: truthiness (`!x`),
 * `typeof` and property access.
 */
module JsValues {

  /** A JSON-like JavaScript value; numbers are finite (NaN and Infinity are not modelled). */
  datatype JsValue =
    | Undefined
    | Null
    | Bool(b: bool)
    | Num(n: real)
    | Str(s: string)
    | Obj(props: map<string, JsValue>)

  /** `!!v`: false exactly for undefined, null, false, 0 and the empty string. */
  predicate Truthy(v: JsValue) {
    match v
    case Undefined => false
    case Null => false
    case Bool(b) => b
    case Num(n) => n != 0.0
    case Str(s) => s != []
    case Obj(_) => true
  }

  /** `typeof v`. */
  function TypeOf(v: JsValue): (t: string)
    ensures t == "string" <==> v.Str?
    ensures t == "number" <==> v.Num?
  {
    match v
    case Undefined => "undefined"
    case Null => "object"
    case Bool(_) => "boolean"
    case Num(_) => "number"
    case Str(_) => "string"
    case Obj(_) => "object"
  }

  /** `v[key]`: an own property of an object; undefined for everything else. */
  function Get(v: JsValue, key: string): JsValue {
    if v.Obj? && key in v.props then v.props[key] else Undefined
  }

  /** `v == null` (loose equality): true for null and undefined only. */
  predicate IsNullish(v: JsValue) {
    v.Null? || v.Undefined?
  }

  /** `Number.isInteger(v)`. */
  predicate IsInteger(v: JsValue) {
    v.Num? && v.n.Floor as real == v.n
  }
}
