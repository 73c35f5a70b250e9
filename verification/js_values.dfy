/**
 * The JavaScript values that the modelled code inspects: the primitives a
 * JSON body, a React prop or a contract call can hand over, JS truthiness
 * and strict equality, and the exceptions a `catch` clause can receive.
 *
 * Numbers are IEEE doubles in JavaScript; here a finite number is an exact
 * real, so rounding, `-0` and the loss of integer precision above 2^53 are
 * not modelled.
 */
module JsValues {

  /** `null`/`undefined` versus a present value, for props and state that are either. */
  datatype Option<+T> = None | Some(value: T)

  datatype Number = Finite(r: real) | NaN | PosInf | NegInf

  datatype JsValue =
    | Undefined
    | Null
    | Bool(b: bool)
    | Num(n: Number)
    | Str(s: string)

  /** A value thrown by `throw`: an `Error`-like object or any primitive. */
  datatype Thrown =
    | ErrorObject(message: JsValue, code: JsValue)
    | ThrownPrimitive(v: JsValue)

  /** The result of evaluating an expression that may throw. */
  datatype Completion<+T> = Normal(value: T) | Abrupt(reason: Thrown)

  /** The JavaScript number holding the integer `i`. */
  function Int(i: int): JsValue
  {
    Num(Finite(i as real))
  }

  predicate IsIntegral(r: real)
  {
    r.Floor as real == r
  }

  /** ToBoolean: the values `if (v)` and `v && …` treat as true. */
  predicate Truthy(v: JsValue)
  {
    match v
    case Undefined => false
    case Null => false
    case Bool(b) => b
    case Num(n) => !(n.NaN? || (n.Finite? && n.r == 0.0))
    case Str(s) => s != ""
  }

  /** `a === b` on primitives: numbers compare by value and NaN equals nothing. */
  predicate StrictEquals(a: JsValue, b: JsValue)
  {
    match (a, b)
    case (Num(x), Num(y)) =>
      || (x.Finite? && y.Finite? && x.r == y.r)
      || (x.PosInf? && y.PosInf?)
      || (x.NegInf? && y.NegInf?)
    case _ => a == b
  }

  /** `a || b` */
  function Or(a: JsValue, b: JsValue): JsValue
  {
    if Truthy(a) then a else b
  }
}
