/** JavaScript numbers as the timers use them, and the `Number(...)` coercion
    they apply to their arguments.

    A number is an extended real with a not-a-number value. The special values
    follow IEEE 754 (infinity minus infinity and zero times infinity are NaN,
    every comparison with NaN is false); finite arithmetic is exact. */
module JsNumber {

  datatype Num = NaN | NegInf | Fin(val: real) | PosInf {

    /** JavaScript `isNaN` on a number */
    predicate IsNaN() {
      NaN?
    }

    /** JavaScript `isFinite` on a number */
    predicate IsFinite() {
      Fin?
    }
  }

  function Neg(x: Num): Num {
    match x
    case NaN => NaN
    case NegInf => PosInf
    case Fin(a) => Fin(-a)
    case PosInf => NegInf
  }

  /** `x + y` */
  function Add(x: Num, y: Num): Num {
    match (x, y)
    case (NaN, _) => NaN
    case (_, NaN) => NaN
    case (Fin(a), Fin(b)) => Fin(a + b)
    case (Fin(_), _) => y
    case (_, Fin(_)) => x
    case _ => if x == y then x else NaN
  }

  /** `x - y` */
  function Sub(x: Num, y: Num): Num {
    Add(x, Neg(y))
  }

  /** `x * y` */
  function Mul(x: Num, y: Num): Num {
    match (x, y)
    case (NaN, _) => NaN
    case (_, NaN) => NaN
    case (Fin(a), Fin(b)) => Fin(a * b)
    case (Fin(a), _) => if a == 0.0 then NaN else if (a > 0.0) == y.PosInf? then PosInf else NegInf
    case (_, Fin(b)) => if b == 0.0 then NaN else if (b > 0.0) == x.PosInf? then PosInf else NegInf
    case _ => if x == y then PosInf else NegInf
  }

  /** `x / y`; a zero divisor is taken to be +0 */
  function Div(x: Num, y: Num): Num {
    match (x, y)
    case (NaN, _) => NaN
    case (_, NaN) => NaN
    case (Fin(a), Fin(b)) =>
      if b != 0.0 then Fin(a / b)
      else if a == 0.0 then NaN
      else if a > 0.0 then PosInf else NegInf
    case (Fin(_), _) => Fin(0.0)
    case (_, Fin(b)) => if (b >= 0.0) == x.PosInf? then PosInf else NegInf
    case _ => NaN
  }

  /** `x < y` */
  predicate Less(x: Num, y: Num) {
    match (x, y)
    case (Fin(a), Fin(b)) => a < b
    case (NegInf, Fin(_)) => true
    case (NegInf, PosInf) => true
    case (Fin(_), PosInf) => true
    case _ => false
  }

  /** `x <= y` */
  predicate AtMost(x: Num, y: Num) {
    Less(x, y) || (!x.NaN? && x == y)
  }

  /** Adding zero changes nothing, NaN included. */
  lemma AddZero(x: Num)
    ensures Add(x, Fin(0.0)) == x
  {
  }

  /** Division by a finite non-zero number is real division. */
  lemma DivFin(a: real, b: real)
    requires b != 0.0
    ensures Div(Fin(a), Fin(b)) == Fin(a / b)
  {
  }

  /** On numbers that are not NaN, `<=` is a total order and `>` is its
      complement, which is what keeps a queue sorted by `>` scans. */
  lemma OrderFacts(x: Num, y: Num, z: Num)
    requires !x.NaN? && !y.NaN? && !z.NaN?
    ensures AtMost(x, y) || AtMost(y, x)
    ensures AtMost(x, y) <==> !Less(y, x)
    ensures AtMost(x, y) && AtMost(y, z) ==> AtMost(x, z)
    ensures Less(x, y) && AtMost(y, z) ==> Less(x, z)
    ensures AtMost(x, x)
  {
  }

  /** The values a caller may pass where the timers expect a number or a
      date. `StrV` carries the number the string parses to, since JavaScript's
      string-to-number parsing is not part of this model. */
  datatype Value =
    | NumV(n: Num)
    | DateV(stamp: Num)
    | StrV(text: string, parsed: Num)
    | BoolV(b: bool)
    | NullV
    | UndefinedV

  /** JavaScript `Number(v)` */
  function ToNumber(v: Value): Num {
    match v
    case NumV(n) => n
    case DateV(t) => t
    case StrV(_, p) => p
    case BoolV(b) => if b then Fin(1.0) else Fin(0.0)
    case NullV => Fin(0.0)
    case UndefinedV => NaN
  }
}
