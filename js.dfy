/** JavaScript values the household tracker computes with: optional fields,
    IEEE numbers (as exact reals plus the three non-finite values) and the
    rounding of `Math.round`. */
module JsValues {

  /** A field that may be `null`/`undefined` (None) or hold a value. */
  datatype Option<T> = None | Some(value: T) {
    /** `x ?? fallback` */
    function GetOr(fallback: T): T {
      if Some? then value else fallback
    }
  }

  /** JavaScript truthiness of an optional string: absent and "" are falsy. */
  predicate Truthy(s: Option<string>) {
    s.Some? && s.value != ""
  }

  /** A JavaScript number: a finite value or one of +Infinity, -Infinity, NaN. */
  datatype JsNum = Fin(r: real) | PosInf | NegInf | NaN {
    /** `Number.isFinite(x)` */
    predicate IsFinite() { Fin? }

    /** `x > 0` (false for NaN) */
    predicate Positive() { (Fin? && r > 0.0) || PosInf? }

    /** `x >= k` for a finite k (false for NaN) */
    predicate AtLeast(k: real) { (Fin? && r >= k) || PosInf? }
  }

  /** `Math.min` and `Math.max` on integers */
  function Min(a: int, b: int): int { if a <= b then a else b }
  function Max(a: int, b: int): int { if a >= b then a else b }

  /** `Math.round(x)`: the nearest integer, halves rounded towards +Infinity. */
  function Round(x: real): (n: int)
    ensures x - 0.5 < n as real <= x + 0.5
  {
    (x + 0.5).Floor
  }

  /** `a / b` for a divisor that is `> 0` (a positive finite number or +Infinity). */
  function DivPositive(a: JsNum, b: JsNum): (q: JsNum)
    requires b.Positive()
    ensures a.Fin? && b.Fin? ==> q == Fin(a.r / b.r)
    ensures a.NaN? ==> q.NaN?
    ensures a.Fin? && b.PosInf? ==> q == Fin(0.0)
    ensures !a.Fin? && b.PosInf? ==> q.NaN?
    ensures a.Fin? && a.r >= 0.0 ==> q.Fin? && q.r >= 0.0
  {
    match (a, b)
    case (Fin(x), Fin(y)) => Fin(x / y)
    case (Fin(_), _) => Fin(0.0)
    case (PosInf, Fin(_)) => PosInf
    case (NegInf, Fin(_)) => NegInf
    case (_, _) => NaN
  }
}
