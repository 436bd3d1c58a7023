/**
 * The `float` arithmetic of the first-approximation finders
 * (firstApproxUtiles.cpp), where a zero divisor is not guarded against and
 * the comparisons that follow decide what happens to an infinite or NaN
 * quotient.  A value is finite, one of the two infinities, or NaN; finite
 * values are exact reals (no rounding, no overflow, no signed zero: a zero
 * divisor counts as +0).  The transcendental functions of `Funcs` are lifted
 * so that a non-finite argument gives NaN, except for the arc tangent, which
 * maps the infinities to plus or minus a right angle.
 */
module Floats {
  import N = Numerics

  datatype Flt = Fin(x: real) | PosInf | NegInf | NaN

  /** The sign of a value that is not NaN. */
  function SignOf(a: Flt): (s: int)
    requires !a.NaN?
    ensures -1 <= s <= 1
  {
    match a
    case Fin(x) => N.Sign(x)
    case PosInf => 1
    case NegInf => -1
  }

  /** The infinity of the sign `s`. */
  function InfOf(s: int): (r: Flt)
    ensures r.PosInf? <==> s > 0
    ensures r.NegInf? <==> s <= 0
  {
    if s > 0 then PosInf else NegInf
  }

  function Neg(a: Flt): (r: Flt)
    ensures r.NaN? <==> a.NaN?
    ensures a.Fin? ==> r == Fin(-a.x)
  {
    match a
    case Fin(x) => Fin(-x)
    case PosInf => NegInf
    case NegInf => PosInf
    case NaN => NaN
  }

  /** `a + b`: infinities absorb finite values, opposite infinities give NaN. */
  function Add(a: Flt, b: Flt): (r: Flt)
    ensures a.NaN? || b.NaN? ==> r.NaN?
    ensures a.Fin? && b.Fin? ==> r == Fin(a.x + b.x)
  {
    match (a, b)
    case (NaN, _) => NaN
    case (_, NaN) => NaN
    case (Fin(x), Fin(y)) => Fin(x + y)
    case (Fin(_), _) => b
    case (_, Fin(_)) => a
    case (_, _) => if a == b then a else NaN
  }

  function Sub(a: Flt, b: Flt): (r: Flt)
    ensures a.NaN? || b.NaN? ==> r.NaN?
    ensures a.Fin? && b.Fin? ==> r == Fin(a.x - b.x)
  {
    Add(a, Neg(b))
  }

  /** `a * b`: an infinity times zero is NaN, otherwise the signs multiply. */
  function Mul(a: Flt, b: Flt): (r: Flt)
    ensures a.NaN? || b.NaN? ==> r.NaN?
    ensures a.Fin? && b.Fin? ==> r == Fin(a.x * b.x)
  {
    if a.NaN? || b.NaN? then NaN
    else if a.Fin? && b.Fin? then Fin(a.x * b.x)
    else if SignOf(a) * SignOf(b) == 0 then NaN
    else InfOf(SignOf(a) * SignOf(b))
  }

  /**
   * `a / b`: a non-zero finite divisor divides; a zero divisor gives the
   * infinity of the numerator's sign, or NaN for `0 / 0`; a finite value over
   * an infinity is 0; an infinity over an infinity is NaN.
   */
  function Div(a: Flt, b: Flt): (r: Flt)
    ensures a.NaN? || b.NaN? ==> r.NaN?
    ensures a.Fin? && b.Fin? && b.x != 0.0 ==> r == Fin(a.x / b.x)
    ensures a.Fin? && b == Fin(0.0) ==> (r.NaN? <==> a.x == 0.0) && !r.Fin?
  {
    if a.NaN? || b.NaN? then NaN
    else if a.Fin? && b.Fin? then
      if b.x != 0.0 then Fin(a.x / b.x)
      else if a.x == 0.0 then NaN
      else InfOf(N.Sign(a.x))
    else if a.Fin? then Fin(0.0)
    else if b.Fin? then
      if b.x == 0.0 then a else InfOf(SignOf(a) * N.Sign(b.x))
    else NaN
  }

  function Abs(a: Flt): (r: Flt)
    ensures r.NaN? <==> a.NaN?
    ensures a.Fin? ==> r == Fin(N.Abs(a.x))
  {
    match a
    case Fin(x) => Fin(N.Abs(x))
    case NaN => NaN
    case _ => PosInf
  }

  /** `Math::Avg(a, b)`: half the sum. */
  function Avg(a: Flt, b: Flt): (r: Flt)
    ensures a.NaN? || b.NaN? ==> r.NaN?
    ensures a.Fin? && b.Fin? ==> r == Fin(N.Avg(a.x, b.x))
  {
    Div(Add(a, b), Fin(2.0))
  }

  /** `a < b`: false whenever either side is NaN. */
  predicate Lt(a: Flt, b: Flt) {
    match (a, b)
    case (Fin(x), Fin(y)) => x < y
    case (NegInf, Fin(_)) => true
    case (NegInf, PosInf) => true
    case (Fin(_), PosInf) => true
    case (_, _) => false
  }

  /** `a >= b`: false whenever either side is NaN. */
  predicate Ge(a: Flt, b: Flt) {
    !a.NaN? && !b.NaN? && !Lt(a, b)
  }

  /** Off NaN the comparisons are each other's negation; on NaN both fail. */
  lemma {:induction false} Comparisons(a: Flt, b: Flt)
    ensures !a.NaN? && !b.NaN? ==> (Lt(a, b) <==> !Ge(a, b))
    ensures a.NaN? || b.NaN? ==> !Lt(a, b) && !Ge(a, b) && !Lt(b, a) && !Ge(b, a)
    ensures Lt(a, b) ==> !Lt(b, a)
  {
  }

  function Cos(f: N.Funcs, a: Flt): (r: Flt)
    ensures r.Fin? <==> a.Fin?
    ensures a.Fin? ==> r.x == f.cos(a.x)
  {
    if a.Fin? then Fin(f.cos(a.x)) else NaN
  }

  function Sin(f: N.Funcs, a: Flt): (r: Flt)
    ensures r.Fin? <==> a.Fin?
    ensures a.Fin? ==> r.x == f.sin(a.x)
  {
    if a.Fin? then Fin(f.sin(a.x)) else NaN
  }

  function Tan(f: N.Funcs, a: Flt): (r: Flt)
    ensures r.Fin? <==> a.Fin?
    ensures a.Fin? ==> r.x == f.tan(a.x)
  {
    if a.Fin? then Fin(f.tan(a.x)) else NaN
  }

  /** The arc tangent is finite everywhere but on NaN. */
  function Atan(f: N.Funcs, a: Flt): (r: Flt)
    ensures r.Fin? <==> !a.NaN?
    ensures a.Fin? ==> r.x == f.atan(a.x)
  {
    match a
    case Fin(x) => Fin(f.atan(x))
    case PosInf => Fin(N.Pi / 2.0)
    case NegInf => Fin(-N.Pi / 2.0)
    case NaN => NaN
  }

  /** The square root: NaN below zero, `+inf` at `+inf`. */
  function Sqrt(f: N.Funcs, a: Flt): (r: Flt)
    ensures a.Fin? && a.x >= 0.0 ==> r == Fin(f.sqrt(a.x))
    ensures r.NaN? <==> a.NaN? || a.NegInf? || (a.Fin? && a.x < 0.0)
  {
    match a
    case Fin(x) => if x >= 0.0 then Fin(f.sqrt(x)) else NaN
    case PosInf => PosInf
    case _ => NaN
  }

  /** `|a - b| < d` holds only between finite values whose real distance is below `d`. */
  lemma CloseValues(a: Flt, b: Flt, d: real)
    requires Lt(Abs(Sub(a, b)), Fin(d))
    ensures a.Fin? && b.Fin? && N.Abs(a.x - b.x) < d
  {
  }
}
