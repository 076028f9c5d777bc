/**
 * The part of IEEE-754 double arithmetic the metrics depend on: numpy divides a
 * float by zero without raising, producing an infinity or NaN, and NaN then flows
 * through comparisons, `min`, `max` and sums.  Rounding is not modelled: a finite
 * value is an exact real.  Signed zero is not modelled: every zero is +0.0.
 */
module Floats {

  datatype Num = Finite(v: real) | PosInf | NegInf | NaN

  /** numpy float division `a / b` of two finite values. */
  function Div(a: real, b: real): (q: Num)
    ensures q.NaN? <==> a == 0.0 && b == 0.0
    ensures q.Finite? <==> b != 0.0
    ensures q.Finite? ==> q.v * b == a
  {
    if b != 0.0 then Finite(a / b)
    else if a > 0.0 then PosInf
    else if a < 0.0 then NegInf
    else NaN
  }

  /** A non-negative value over a positive one is a finite non-negative value, at most 1 when the divisor is larger. */
  lemma DivNonNegative(a: real, b: real)
    requires a >= 0.0 && b > 0.0
    ensures Div(a, b).Finite? && Div(a, b).v >= 0.0
    ensures a <= b ==> Div(a, b).v <= 1.0
  {
  }

  lemma RatioTimes(a: real, b: real, q: real)
    requires b != 0.0 && q == a / b
    ensures q * b == a
  {
  }

  lemma RatioPositive(a: real, b: real)
    requires a > 0.0 && b > 0.0
    ensures a / b > 0.0
  {
  }

  lemma RatioOfSelf(a: real)
    requires a != 0.0
    ensures a / a == 1.0
  {
  }

  /** A ratio of a non-negative value to a larger positive one is at most 1. */
  lemma RatioAtMostOne(a: real, b: real)
    requires 0.0 <= a <= b && b > 0.0
    ensures a / b <= 1.0
  {
  }

  /** A quotient by a positive total of something no larger in magnitude lies in [-1, 1]. */
  lemma RatioWithinUnit(a: real, b: real)
    requires b > 0.0 && -b <= a <= b
    ensures -1.0 <= a / b <= 1.0
  {
    var q := a / b;
    assert q * b == a;
  }

  /** A part of a positive total, as a percentage: in [0, 100], 100 only for the whole, 0 only for nothing. */
  lemma PercentBounds(a: real, b: real)
    requires 0.0 <= a <= b && b > 0.0
    ensures 0.0 <= a / b * 100.0 <= 100.0
    ensures a / b * 100.0 == 100.0 <==> a == b
    ensures a / b * 100.0 == 0.0 <==> a == 0.0
  {
    RatioAtMostOne(a, b);
    RatioExtremes(a, b);
  }

  /** A count over a positive total is 1 exactly when they are equal, and 0 exactly when the count is. */
  lemma RatioExtremes(a: real, b: real)
    requires b > 0.0
    ensures a / b == 1.0 <==> a == b
    ensures a / b == 0.0 <==> a == 0.0
  {
  }

  function Sub(a: Num, b: Num): (d: Num)
    ensures d.Finite? <==> a.Finite? && b.Finite?
  {
    match (a, b)
    case (Finite(x), Finite(y)) => Finite(x - y)
    case (NaN, _) => NaN
    case (_, NaN) => NaN
    case (PosInf, PosInf) => NaN
    case (NegInf, NegInf) => NaN
    case (PosInf, _) => PosInf
    case (NegInf, _) => NegInf
    case (Finite(_), PosInf) => NegInf
    case (Finite(_), NegInf) => PosInf
  }

  function Neg(a: Num): Num {
    match a
    case Finite(x) => Finite(-x)
    case PosInf => NegInf
    case NegInf => PosInf
    case NaN => NaN
  }

  /** Float division `a / b` of two floats of any kind. */
  function Quot(a: Num, b: Num): (q: Num)
    ensures a.Finite? && b.Finite? ==> q == Div(a.v, b.v)
    ensures q.Finite? ==> a.Finite?
  {
    match (a, b)
    case (NaN, _) => NaN
    case (_, NaN) => NaN
    case (Finite(x), Finite(y)) => Div(x, y)
    case (Finite(_), _) => Finite(0.0)
    case (_, Finite(y)) => if y >= 0.0 then a else Neg(a)
    case (_, _) => NaN
  }

  /** Multiplication by a positive constant. */
  function Scale(a: Num, k: real): (r: Num)
    requires k > 0.0
    ensures r.Finite? <==> a.Finite?
    ensures a.Finite? ==> r.v == a.v * k
  {
    match a
    case Finite(x) => Finite(x * k)
    case _ => a
  }

  /** Addition of a finite constant. */
  function Shift(a: Num, c: real): (r: Num)
    ensures r.Finite? <==> a.Finite?
    ensures a.Finite? ==> r.v == a.v + c
  {
    match a
    case Finite(x) => Finite(x + c)
    case _ => a
  }

  /** Python's `a < b`: false whenever either side is NaN. */
  predicate Less(a: Num, b: Num)
  {
    match (a, b)
    case (NaN, _) => false
    case (_, NaN) => false
    case (Finite(x), Finite(y)) => x < y
    case (NegInf, NegInf) => false
    case (NegInf, _) => true
    case (_, PosInf) => !a.PosInf?
    case (_, _) => false
  }

  /** Python's builtin `min(a, b)`: keeps `a` unless `b < a`. */
  function PyMin(a: Num, b: Num): (r: Num)
    ensures r == a || r == b
    ensures a.NaN? ==> r.NaN?
  {
    if Less(b, a) then b else a
  }

  /** Python's builtin `max(a, b)`: keeps `a` unless `b > a`. */
  function PyMax(a: Num, b: Num): (r: Num)
    ensures r == a || r == b
    ensures a.NaN? ==> r.NaN?
  {
    if Less(a, b) then b else a
  }

  /** `min(max(a, lo), hi)` as the source writes its clamps: NaN passes through. */
  function PyClamp(a: Num, lo: real, hi: real): (r: Num)
    requires lo <= hi
    ensures a.NaN? <==> r.NaN?
    ensures r.Finite? ==> lo <= r.v <= hi
    ensures a.Finite? && lo <= a.v <= hi ==> r == a
  {
    PyMin(PyMax(a, Finite(lo)), Finite(hi))
  }

  /** A clamp of a finite real, the non-NaN case of `PyClamp`. */
  function Clamp(x: real, lo: real, hi: real): (r: real)
    requires lo <= hi
    ensures lo <= r <= hi
    ensures lo <= x <= hi ==> r == x
    ensures PyClamp(Finite(x), lo, hi) == Finite(r)
  {
    if x < lo then lo else if x > hi then hi else x
  }
}
