/**
 * The older first approximation's finders (firstApproxUtiles.cpp): the
 * closed-form candidates for an elliptic transfer from radius `r0` at
 * angular position `Q0` to radius `r1` at `Q1` with launch direction `f0`,
 * and `TragectoryFinder`, which walks the arrival planet's clock until the
 * transfer's flight time agrees with the arrival time within a day.
 *
 * The finders work on `float`s and never guard a division, so they are
 * written over `Floats.Flt`; the inputs (positions, radii, angles, times
 * and the gravitational parameter) are finite.
 */
module FirstApproxUtiles {
  import N = Numerics
  import opened Floats
  import Kepler = KeplerOrbit
  import opened PlanetBases

  // ------------------------------------------------------------------ finders

  /** `FindPeriapsisAngle`: the apsidal angle `atan(num / den) - Q0`. */
  function PeriapsisAngle(f: N.Funcs, Q0: real, Q1: real, r0: real, r1: real, f0: real): (w: Flt)
    ensures !w.PosInf? && !w.NegInf?
    ensures r1 != 0.0 ==> (w.NaN? <==> 1.0 - f.cos(Q1 - Q0) == 0.0
                                        && (r0 - r1) / r1 * f.tan(Q0 - f0) - f.sin(Q1 - Q0) == 0.0)
  {
    var rFr := Div(Sub(Fin(r0), Fin(r1)), Fin(r1));
    var num := Sub(Fin(1.0), Cos(f, Fin(Q1 - Q0)));
    var den := Sub(Mul(rFr, Tan(f, Fin(Q0 - f0))), Sin(f, Fin(Q1 - Q0)));
    Sub(Atan(f, Div(num, den)), Fin(Q0))
  }

  /**
   * Off the newer code's near-equal-radius case, the finder's apsidal angle
   * is the one `KeplerOrbit.W` computes (`(r0 - r1) / r1` is `r0 / r1 - 1`).
   */
  lemma PeriapsisAngleIsW(f: N.Funcs, Q0: real, Q1: real, r0: real, r1: real, f0: real)
    requires r1 != 0.0 && !Kepler.Degenerate(r0, r1) && Kepler.WDen(f, r0, r1, Q0, Q1, f0) != 0.0
    ensures PeriapsisAngle(f, Q0, Q1, r0, r1, f0) == Fin(Kepler.W(f, r0, r1, Q0, Q1, f0))
  {
    RatioMinusOne(r0, r1);
    var rFr := Div(Sub(Fin(r0), Fin(r1)), Fin(r1));
    assert rFr == Fin(r0 / r1 - 1.0);
    var num := Sub(Fin(1.0), Cos(f, Fin(Q1 - Q0)));
    assert num == Fin(1.0 - f.cos(Q1 - Q0));
    var den := Sub(Mul(rFr, Tan(f, Fin(Q0 - f0))), Sin(f, Fin(Q1 - Q0)));
    assert den == Fin(Kepler.WDen(f, r0, r1, Q0, Q1, f0));
    assert Div(num, den) == Fin(num.x / den.x);
  }

  lemma RatioMinusOne(r0: real, r1: real)
    requires r1 != 0.0
    ensures (r0 - r1) / r1 == r0 / r1 - 1.0
  {
    var a, b := (r0 - r1) / r1, r0 / r1 - 1.0;
    N.DivTimes(r0 - r1, r1);
    N.DivTimes(r0, r1);
    assert b * r1 == r0 / r1 * r1 - r1;
    N.CancelFactor(a, b, r1);
  }

  /** The common denominator of eccentricity and parameter, `C0 r0 - C1 r1`. */
  function Den(f: N.Funcs, Q0: real, Q1: real, r0: real, r1: real, w: real): real {
    f.cos(Q0 + w) * r0 - f.cos(Q1 + w) * r1
  }

  /** The eccentricity `(r1 - r0) / (C0 r0 - C1 r1)` for a non-zero denominator. */
  function EccValue(f: N.Funcs, Q0: real, Q1: real, r0: real, r1: real, w: real): real
    requires Den(f, Q0, Q1, r0, r1, w) != 0.0
  {
    (r1 - r0) / Den(f, Q0, Q1, r0, r1, w)
  }

  /** The parameter `r0 r1 (C0 - C1) / (C0 r0 - C1 r1)` for a non-zero denominator. */
  function ParValue(f: N.Funcs, Q0: real, Q1: real, r0: real, r1: real, w: real): real
    requires Den(f, Q0, Q1, r0, r1, w) != 0.0
  {
    r0 * r1 * (f.cos(Q0 + w) - f.cos(Q1 + w)) / Den(f, Q0, Q1, r0, r1, w)
  }

  /** `FindEccentricity`: `-(r0 - r1) / (C0 r0 - C1 r1)`, infinite or NaN on a zero denominator. */
  function Eccentricity(f: N.Funcs, Q0: real, Q1: real, r0: real, r1: real, w: Flt): (e: Flt)
    ensures !w.Fin? ==> e.NaN?
    ensures w.Fin? && Den(f, Q0, Q1, r0, r1, w.x) != 0.0 ==> e == Fin(EccValue(f, Q0, Q1, r0, r1, w.x))
    ensures w.Fin? && Den(f, Q0, Q1, r0, r1, w.x) == 0.0 ==> !e.Fin? && (e.NaN? <==> r0 == r1)
  {
    var C0 := Cos(f, Add(Fin(Q0), w));
    var C1 := Cos(f, Add(Fin(Q1), w));
    var den := Sub(Mul(C0, Fin(r0)), Mul(C1, Fin(r1)));
    assert w.Fin? ==> den == Fin(Den(f, Q0, Q1, r0, r1, w.x));
    assert !w.Fin? ==> den.NaN?;
    Div(Neg(Sub(Fin(r0), Fin(r1))), den)
  }

  /** `FindParameter`: `r0 r1 (C0 - C1) / (C0 r0 - C1 r1)`. */
  function Parameter(f: N.Funcs, Q0: real, Q1: real, r0: real, r1: real, w: Flt): (p: Flt)
    ensures !w.Fin? ==> p.NaN?
    ensures w.Fin? && Den(f, Q0, Q1, r0, r1, w.x) != 0.0
            ==> p == Fin(ParValue(f, Q0, Q1, r0, r1, w.x))
    ensures w.Fin? && Den(f, Q0, Q1, r0, r1, w.x) == 0.0 ==> !p.Fin?
  {
    var C0 := Cos(f, Add(Fin(Q0), w));
    var C1 := Cos(f, Add(Fin(Q1), w));
    var den := Sub(Mul(C0, Fin(r0)), Mul(C1, Fin(r1)));
    assert w.Fin? ==> den == Fin(Den(f, Q0, Q1, r0, r1, w.x));
    assert !w.Fin? ==> den.NaN?;
    Div(Mul(Mul(Fin(r0), Fin(r1)), Sub(C0, C1)), den)
  }

  /** `FindPE`'s result: parameter, eccentricity and whether they were accepted. */
  datatype PE = PE(p: Flt, e: Flt, ok: bool)

  /**
   * The eccentricity test.  As written it rejects `e < 0 || e >= 1`, which
   * lets NaN through; the corrected test accepts only `0 <= e < 1`.
   */
  predicate RejectsE(asWritten: bool, e: Flt) {
    if asWritten then Lt(e, Fin(0.0)) || Ge(e, Fin(1.0))
    else !(Ge(e, Fin(0.0)) && Lt(e, Fin(1.0)))
  }

  /** The parameter test: as written `p < 0`, corrected "not `p >= 0`". */
  predicate RejectsP(asWritten: bool, p: Flt) {
    if asWritten then Lt(p, Fin(0.0)) else !Ge(p, Fin(0.0))
  }

  /** `FindPE`: the eccentricity and parameter for apsidal angle `w`, or `(0, 0, false)`. */
  function FindPE(f: N.Funcs, Q0: real, Q1: real, r0: real, r1: real, w: Flt, asWritten: bool): (r: PE)
    ensures r.ok <==> !RejectsE(asWritten, Eccentricity(f, Q0, Q1, r0, r1, w))
                      && !RejectsP(asWritten, Parameter(f, Q0, Q1, r0, r1, w))
    ensures r.ok ==> r.e == Eccentricity(f, Q0, Q1, r0, r1, w) && r.p == Parameter(f, Q0, Q1, r0, r1, w)
    ensures !r.ok ==> r == PE(Fin(0.0), Fin(0.0), false)
  {
    var e := Eccentricity(f, Q0, Q1, r0, r1, w);
    if RejectsE(asWritten, e) then PE(Fin(0.0), Fin(0.0), false)
    else
      var p := Parameter(f, Q0, Q1, r0, r1, w);
      if RejectsP(asWritten, p) then PE(Fin(0.0), Fin(0.0), false)
      else PE(p, e, true)
  }

  lemma ParameterForm(r0: real, r1: real, C0: real, C1: real, d: real)
    requires d != 0.0
    ensures r0 * r1 * (C0 - C1) / d == (C0 - C1) / d * r0 * r1
  {
    N.DivTimes(r0 * r1 * (C0 - C1), d);
    N.DivTimes(C0 - C1, d);
    var u := (C0 - C1) / d;
    assert (u * r0 * r1) * d == (u * d) * (r0 * r1);
    N.CancelFactor(r0 * r1 * (C0 - C1) / d, u * r0 * r1, d);
  }

  /**
   * The corrected `FindPE` accepts exactly a finite eccentricity in `[0, 1)`
   * with a finite non-negative parameter, and the accepted conic passes
   * through both points, at true anomalies `Q0 + w` and `Q1 + w`.
   */
  lemma FindPEEllipse(f: N.Funcs, Q0: real, Q1: real, r0: real, r1: real, w: real)
    ensures var r := FindPE(f, Q0, Q1, r0, r1, Fin(w), false);
            var d := Den(f, Q0, Q1, r0, r1, w);
            (r.ok <==> d != 0.0 && 0.0 <= EccValue(f, Q0, Q1, r0, r1, w) < 1.0
                       && ParValue(f, Q0, Q1, r0, r1, w) >= 0.0)
            && (r.ok ==> r.e.Fin? && r.p.Fin? && 0.0 <= r.e.x < 1.0 && r.p.x >= 0.0
                         && Kepler.OnConic(f, r.e.x, r.p.x, Q0 + w, r0)
                         && Kepler.OnConic(f, r.e.x, r.p.x, Q1 + w, r1))
  {
    if Den(f, Q0, Q1, r0, r1, w) != 0.0 {
      FindPEFinite(f, Q0, Q1, r0, r1, w);
      FinderConic(f, Q0, Q1, r0, r1, w);
    } else {
      NonFiniteRejected(Eccentricity(f, Q0, Q1, r0, r1, Fin(w)));
    }
  }

  lemma FindPEFinite(f: N.Funcs, Q0: real, Q1: real, r0: real, r1: real, w: real)
    requires Den(f, Q0, Q1, r0, r1, w) != 0.0
    ensures var r := FindPE(f, Q0, Q1, r0, r1, Fin(w), false);
            var e, p := EccValue(f, Q0, Q1, r0, r1, w), ParValue(f, Q0, Q1, r0, r1, w);
            (r.ok <==> 0.0 <= e < 1.0 && p >= 0.0)
            && (r.ok ==> r.e == Fin(e) && r.p == Fin(p))
  {
    FiniteTests(EccValue(f, Q0, Q1, r0, r1, w), ParValue(f, Q0, Q1, r0, r1, w));
  }

  /** On numbers the corrected tests are the intended comparisons. */
  lemma FiniteTests(e: real, p: real)
    ensures !RejectsE(false, Fin(e)) <==> 0.0 <= e < 1.0
    ensures !RejectsP(false, Fin(p)) <==> p >= 0.0
  {
  }

  lemma FinderConic(f: N.Funcs, Q0: real, Q1: real, r0: real, r1: real, w: real)
    requires Den(f, Q0, Q1, r0, r1, w) != 0.0
    ensures var e, p := EccValue(f, Q0, Q1, r0, r1, w), ParValue(f, Q0, Q1, r0, r1, w);
            Kepler.OnConic(f, e, p, Q0 + w, r0) && Kepler.OnConic(f, e, p, Q1 + w, r1)
  {
    var C0, C1 := f.cos(Q0 + w), f.cos(Q1 + w);
    ConicThrough(r0, r1, C0, C1, Den(f, Q0, Q1, r0, r1, w));
  }

  /** A non-finite eccentricity fails the corrected test. */
  lemma NonFiniteRejected(e: Flt)
    requires !e.Fin?
    ensures RejectsE(false, e)
  {
  }

  /** The algebra of `FindPEEllipse`: the finder's quotients solve the conic at both points. */
  lemma ConicThrough(r0: real, r1: real, C0: real, C1: real, d: real)
    requires d == C0 * r0 - C1 * r1 && d != 0.0
    ensures r0 * (1.0 + (r1 - r0) / d * C0) == r0 * r1 * (C0 - C1) / d
    ensures r1 * (1.0 + (r1 - r0) / d * C1) == r0 * r1 * (C0 - C1) / d
  {
    ParameterForm(r0, r1, C0, C1, d);
    Kepler.ConicFromQuotients(r0, r1, C0, C1, d, (r1 - r0) / d, r0 * r1 * (C0 - C1) / d);
  }

  /** Both tests agree wherever the eccentricity is a number or an infinity. */
  lemma FindPEVariantsAgree(f: N.Funcs, Q0: real, Q1: real, r0: real, r1: real, w: real)
    requires Den(f, Q0, Q1, r0, r1, w) != 0.0 || r0 != r1
    ensures FindPE(f, Q0, Q1, r0, r1, Fin(w), true) == FindPE(f, Q0, Q1, r0, r1, Fin(w), false)
  {
  }

  /**
   * As written, equal radii at equal positions give `0 / 0` for both the
   * eccentricity and the parameter, and `FindPE` accepts the NaNs; the
   * corrected test rejects them.
   */
  lemma FindPEAcceptsNaN(f: N.Funcs, w: real)
    ensures FindPE(f, 0.0, 0.0, 1.0, 1.0, Fin(w), true) == PE(NaN, NaN, true)
    ensures !FindPE(f, 0.0, 0.0, 1.0, 1.0, Fin(w), false).ok
  {
    assert Den(f, 0.0, 0.0, 1.0, 1.0, w) == 0.0;
  }

  /** `FindPEW`'s result: parameter, eccentricity, the apsidal angle used, and success. */
  datatype PEW = PEW(p: Flt, e: Flt, w: Flt, ok: bool)

  /** `FindPEW`: the apsidal angle `w`, then `w + pi`; the first accepted is returned. */
  function FindPEW(f: N.Funcs, Q0: real, Q1: real, r0: real, r1: real, f0: real, asWritten: bool): (r: PEW)
    ensures var w := PeriapsisAngle(f, Q0, Q1, r0, r1, f0);
            var first := FindPE(f, Q0, Q1, r0, r1, w, asWritten);
            var second := FindPE(f, Q0, Q1, r0, r1, Add(w, Fin(N.Pi)), asWritten);
            (r.ok <==> first.ok || second.ok)
            && (first.ok ==> r == PEW(first.p, first.e, w, true))
            && (!first.ok && second.ok ==> r == PEW(second.p, second.e, Add(w, Fin(N.Pi)), true))
            && (!r.ok ==> r == PEW(Fin(0.0), Fin(0.0), Fin(0.0), false))
  {
    var w := PeriapsisAngle(f, Q0, Q1, r0, r1, f0);
    var first := FindPE(f, Q0, Q1, r0, r1, w, asWritten);
    if first.ok then PEW(first.p, first.e, w, true)
    else
      var w2 := Add(w, Fin(N.Pi));
      var second := FindPE(f, Q0, Q1, r0, r1, w2, asWritten);
      if second.ok then PEW(second.p, second.e, w2, true)
      else PEW(Fin(0.0), Fin(0.0), Fin(0.0), false)
  }

  /** What an accepted pair of elements means: an ellipse through both points. */
  predicate EllipseThrough(f: N.Funcs, Q0: real, Q1: real, r0: real, r1: real, r: PEW) {
    r.w.Fin? && r.e.Fin? && r.p.Fin? && 0.0 <= r.e.x < 1.0 && r.p.x >= 0.0
    && Kepler.OnConic(f, r.e.x, r.p.x, Q0 + r.w.x, r0)
    && Kepler.OnConic(f, r.e.x, r.p.x, Q1 + r.w.x, r1)
  }

  /** With the corrected test, whatever `FindPEW` accepts is an ellipse through both points. */
  lemma FindPEWEllipse(f: N.Funcs, Q0: real, Q1: real, r0: real, r1: real, f0: real)
    ensures FindPEW(f, Q0, Q1, r0, r1, f0, false).ok ==> EllipseThrough(f, Q0, Q1, r0, r1, FindPEW(f, Q0, Q1, r0, r1, f0, false))
  {
    var w := PeriapsisAngle(f, Q0, Q1, r0, r1, f0);
    if w.Fin? {
      FindPEEllipse(f, Q0, Q1, r0, r1, w.x);
      FindPEEllipse(f, Q0, Q1, r0, r1, w.x + N.Pi);
    }
  }

  /**
   * As written, an arrival sample at the departure's radius and position
   * makes the apsidal angle `atan(0 / 0)`, and `FindPEW` reports success
   * with NaN elements; the corrected test finds no orbit there.
   */
  lemma FindPEWAcceptsNaN(f: N.Funcs, f0: real)
    requires f.cos(0.0) == 1.0 && f.sin(0.0) == 0.0
    ensures FindPEW(f, 0.0, 0.0, 1.0, 1.0, f0, true) == PEW(NaN, NaN, NaN, true)
    ensures !FindPEW(f, 0.0, 0.0, 1.0, 1.0, f0, false).ok
  {
    PeriapsisAngleZeroOverZero(f, f0);
    FindPEAtNaN(f, 0.0, 0.0, 1.0, 1.0);
    assert Add(NaN, Fin(N.Pi)) == NaN;
  }

  lemma PeriapsisAngleZeroOverZero(f: N.Funcs, f0: real)
    requires f.cos(0.0) == 1.0 && f.sin(0.0) == 0.0
    ensures PeriapsisAngle(f, 0.0, 0.0, 1.0, 1.0, f0) == NaN
  {
    assert Div(Sub(Fin(1.0), Fin(1.0)), Fin(1.0)) == Fin(0.0);
    assert Sub(Fin(1.0), Cos(f, Fin(0.0 - 0.0))) == Fin(0.0);
    assert Sin(f, Fin(0.0 - 0.0)) == Fin(0.0);
  }

  /** At a NaN angle the as-written tests accept NaN elements and the corrected ones reject them. */
  lemma FindPEAtNaN(f: N.Funcs, Q0: real, Q1: real, r0: real, r1: real)
    ensures FindPE(f, Q0, Q1, r0, r1, NaN, true) == PE(NaN, NaN, true)
    ensures !FindPE(f, Q0, Q1, r0, r1, NaN, false).ok
  {
    assert Eccentricity(f, Q0, Q1, r0, r1, NaN) == NaN;
    assert Parameter(f, Q0, Q1, r0, r1, NaN) == NaN;
  }

  /** `FindTime`: `sqrt(p^3 / M) (Q1 - Q0)`. */
  function FindTime(f: N.Funcs, Q0: real, Q1: real, M: real, p: Flt): (dt: Flt)
    ensures p.NaN? ==> dt.NaN?
  {
    Mul(Sqrt(f, Div(Mul(Mul(p, p), p), Fin(M))), Fin(Q1 - Q0))
  }

  /** For a finite parameter and a non-zero `M` the flight time is the real formula; it is never negative when the arrival lies ahead. */
  lemma FindTimeFinite(f: N.Funcs, Q0: real, Q1: real, M: real, p: real)
    requires N.SqrtLaws(f) && M > 0.0 && p >= 0.0
    ensures FindTime(f, Q0, Q1, M, Fin(p)) == Fin(f.sqrt(p * p * p / M) * (Q1 - Q0))
    ensures Q1 >= Q0 ==> FindTime(f, Q0, Q1, M, Fin(p)).x >= 0.0
  {
    assert p * p >= 0.0;
    assert p * p * p >= 0.0;
    QuotientNonNegative(p * p * p, M);
    assert Mul(Mul(Fin(p), Fin(p)), Fin(p)) == Fin(p * p * p);
    assert Div(Fin(p * p * p), Fin(M)) == Fin(p * p * p / M);
    var s := f.sqrt(p * p * p / M);
    assert Sqrt(f, Fin(p * p * p / M)) == Fin(s);
    assert s >= 0.0;
    if Q1 >= Q0 {
      assert s * (Q1 - Q0) >= 0.0;
    }
  }

  lemma QuotientNonNegative(a: real, b: real)
    requires a >= 0.0 && b > 0.0
    ensures a / b >= 0.0
  {
  }

  /** `FindVelocity`: `sqrt(M / p (e^2 + 2 e cos(Q + w) + 1))`. */
  function FindVelocity(f: N.Funcs, Q: real, w: Flt, e: Flt, p: Flt, M: real): Flt {
    Sqrt(f, Mul(Div(Fin(M), p), Add(Add(Mul(e, e), Mul(Mul(Fin(2.0), e), Cos(f, Add(Fin(Q), w)))), Fin(1.0))))
  }

  /** The square of the speed on the conic `(e, p)` at true anomaly `Q + w` about a centre of parameter `M`. */
  function SpeedSquared(f: N.Funcs, Q: real, w: real, e: real, p: real, M: real): real
    requires p != 0.0
  {
    M / p * (e * e + 2.0 * e * f.cos(Q + w) + 1.0)
  }

  /** On finite elements the finder's speed is the square root of `SpeedSquared`, with no NaN on the way. */
  lemma FindVelocityFinite(f: N.Funcs, Q: real, w: real, e: real, p: real, M: real)
    requires p != 0.0 && SpeedSquared(f, Q, w, e, p, M) >= 0.0
    ensures FindVelocity(f, Q, Fin(w), Fin(e), Fin(p), M) == Fin(f.sqrt(SpeedSquared(f, Q, w, e, p, M)))
  {
    var k := M / p;
    var s := e * e + 2.0 * e * f.cos(Q + w) + 1.0;
    assert Cos(f, Add(Fin(Q), Fin(w))) == Fin(f.cos(Q + w));
    assert Mul(Mul(Fin(2.0), Fin(e)), Cos(f, Add(Fin(Q), Fin(w)))) == Fin(2.0 * e * f.cos(Q + w));
    assert Add(Add(Mul(Fin(e), Fin(e)), Mul(Mul(Fin(2.0), Fin(e)), Cos(f, Add(Fin(Q), Fin(w))))), Fin(1.0)) == Fin(s);
    assert Div(Fin(M), Fin(p)) == Fin(k);
    assert k * s == SpeedSquared(f, Q, w, e, p, M);
    assert Mul(Fin(k), Fin(s)) == Fin(SpeedSquared(f, Q, w, e, p, M));
    assert Sqrt(f, Fin(SpeedSquared(f, Q, w, e, p, M))) == Fin(f.sqrt(SpeedSquared(f, Q, w, e, p, M)));
  }

  /** On a circle the finder's speed is the circular speed `sqrt(M / p)` wherever the planet is. */
  lemma FindVelocityCircle(f: N.Funcs, Q: real, w: real, p: real, M: real)
    requires p > 0.0 && M >= 0.0
    ensures FindVelocity(f, Q, Fin(w), Fin(0.0), Fin(p), M) == Fin(f.sqrt(M / p))
  {
    QuotientNonNegative(M, p);
    assert SpeedSquared(f, Q, w, 0.0, p, M) == M / p;
    FindVelocityFinite(f, Q, w, 0.0, p, M);
  }

  /** `FindVelAngle`: `Q + pi / 2 - atan(e sin(Q + w) / (e cos(Q + w) + 1))`. */
  function FindVelAngle(f: N.Funcs, Q: real, w: Flt, e: Flt): Flt {
    var num := Mul(e, Sin(f, Add(Fin(Q), w)));
    var den := Add(Mul(e, Cos(f, Add(Fin(Q), w))), Fin(1.0));
    Sub(Add(Fin(Q), Fin(N.Pi / 2.0)), Atan(f, Div(num, den)))
  }

  /** On a circle the velocity is perpendicular to the radius: `Q + pi / 2`. */
  lemma FindVelAngleCircle(f: N.Funcs, Q: real, w: real)
    requires f.atan(0.0) == 0.0
    ensures FindVelAngle(f, Q, Fin(w), Fin(0.0)) == Fin(Q + N.Pi / 2.0)
  {
  }

  // --------------------------------------------------------- trajectory finder

  /** `day`: the arrival-time tolerance and the first probe's offset, in seconds. */
  const Day: real := 86400.0

  /**
   * The finders `FindTragectory` calls, as values: `FindPEW(Q0, Q1, r0, r1, f0)`,
   * `FindTime(Q0, Q1, M, p)`, `FindVelocity(Q, w, e, p, M)` and
   * `FindVelAngle(Q, w, e)`.  A finder holds the ones `Finders` builds.
   */
  datatype Finders = Finders(pew: (real, real, real, real, real) -> PEW,
                             time: (real, real, real, Flt) -> Flt,
                             velocity: (real, Flt, Flt, Flt, real) -> Flt,
                             velAngle: (real, Flt, Flt) -> Flt)

  /** The finders above over the math library `f`, with the acceptance tests as written or corrected. */
  function TheFinders(f: N.Funcs, asWritten: bool): (r: Finders)
    ensures forall Q0, Q1, r0, r1, f0 :: r.pew(Q0, Q1, r0, r1, f0) == FindPEW(f, Q0, Q1, r0, r1, f0, asWritten)
    ensures forall Q0, Q1, M, p :: r.time(Q0, Q1, M, p) == FindTime(f, Q0, Q1, M, p)
    ensures forall Q, w, e, p, M :: r.velocity(Q, w, e, p, M) == FindVelocity(f, Q, w, e, p, M)
    ensures forall Q, w, e :: r.velAngle(Q, w, e) == FindVelAngle(f, Q, w, e)
  {
    Finders((Q0, Q1, r0, r1, f0) => FindPEW(f, Q0, Q1, r0, r1, f0, asWritten),
            (Q0, Q1, M, p) => FindTime(f, Q0, Q1, M, p),
            (Q, w, e, p, M) => FindVelocity(f, Q, w, e, p, M),
            (Q, w, e) => FindVelAngle(f, Q, w, e))
  }

  /** What a `TragectoryFinder` is built with: the departure state and the search window. */
  datatype Conf = Conf(f: N.Funcs, find: Finders, R0: N.Vec3, r0: real, Q0: real, t0: real, te: real, ts: real, M: real)

  /** The fields `FindTragectory` writes. */
  datatype Track = Track(f0: real, f1: Flt, v0: Flt, v1: Flt, t1: Flt,
                         R1: N.Vec3, r1: real, Q1: real, e: Flt, p: Flt, w: Flt)

  /** The fields a freshly built finder holds. */
  const Unset: Track := Track(0.0, Fin(0.0), Fin(0.0), Fin(0.0), Fin(0.0), N.Zero, 0.0, 0.0, Fin(0.0), Fin(0.0), Fin(0.0))

  /** One pass of the search loop: the new fields and whether the loop breaks with a solution. */
  datatype Step = Step(track: Track, done: bool)

  /**
   * One pass of `FindTragectory`'s `do` body for the probe time `s.t1`: look
   * the arrival planet up and try `FindPEW`; without an orbit step the clock
   * by `ts`; with one, compare the flight time's arrival `t2` with the probe
   * and either accept (speeds, arrival angle, `t1 = t2`) or move the probe
   * to `avg(t2, t1)`.
   */
  function Pass(c: Conf, eph: Flt -> N.Vec3, s: Track): Step {
    var s1 := Located(c, eph, s);
    var pew := c.find.pew(c.Q0, s1.Q1, c.r0, s1.r1, s1.f0);
    if !pew.ok then Step(s1.(t1 := Add(s.t1, Fin(c.ts))), false)
    else Settled(c, s1.(p := pew.p, e := pew.e, w := pew.w))
  }

  /** The arrival planet's position, radius and angular position at the probe time. */
  function Located(c: Conf, eph: Flt -> N.Vec3, s: Track): (r: Track)
    ensures r.f0 == s.f0 && r.t1 == s.t1
  {
    var R1 := eph(s.t1);
    s.(R1 := R1, r1 := N.Size(c.f, R1), Q1 := c.Q0 + c.f.angle2(c.R0, R1))
  }

  /** With elements found: accept the probe if the flight time arrives within a day of it, else move to the average. */
  function Settled(c: Conf, s: Track): (r: Step)
    ensures r.track.f0 == s.f0
  {
    var t2 := Add(Fin(c.t0), c.find.time(c.Q0, s.Q1, c.M, s.p));
    if Lt(Abs(Sub(t2, s.t1)), Fin(Day)) then
      Step(s.(v0 := c.find.velocity(c.Q0, s.w, s.e, s.p, c.M),
              v1 := c.find.velocity(s.Q1, s.w, s.e, s.p, c.M),
              f1 := c.find.velAngle(s.Q1, s.w, s.e),
              t1 := t2), true)
    else Step(s.(t1 := Avg(t2, s.t1)), false)
  }

  /**
   * What a run of the loop yields: whether a solution was found, whether the
   * loop ended within the pass budget, the final fields and the probe times
   * the arrival planet was set to, in order.
   */
  datatype Outcome = Outcome(found: bool, complete: bool, track: Track, probes: seq<Flt>)

  /**
   * The `do ... while (t1 < te)` loop over any pass function, from fields
   * `s`, for at most `fuel` passes: a breaking pass ends it with a solution,
   * otherwise it goes on while the new `t1` is below `te`.
   */
  function Drive(pass: Track -> Step, te: real, s: Track, fuel: nat): Outcome
    decreases fuel
  {
    if fuel == 0 then Outcome(false, false, s, [])
    else
      var st := pass(s);
      if st.done then Outcome(true, true, st.track, [s.t1])
      else if Lt(st.track.t1, Fin(te)) then Prefixed([s.t1], Drive(pass, te, st.track, fuel - 1))
      else Outcome(false, true, st.track, [s.t1])
  }

  function Prefixed(ps: seq<Flt>, o: Outcome): Outcome {
    o.(probes := ps + o.probes)
  }

  /** The fields the last pass of a run started from. */
  function LastInput(pass: Track -> Step, te: real, s: Track, fuel: nat): Track
    decreases fuel
  {
    if fuel <= 1 then s
    else
      var st := pass(s);
      if !st.done && Lt(st.track.t1, Fin(te)) then LastInput(pass, te, st.track, fuel - 1) else s
  }

  /** `Pass` over the configuration `c` and the arrival planet's ephemeris. */
  function PassOf(c: Conf, eph: Flt -> N.Vec3): Track -> Step {
    (t: Track) => Pass(c, eph, t)
  }

  /** `FindTragectory`'s loop from fields `s`. */
  function Run(c: Conf, eph: Flt -> N.Vec3, s: Track, fuel: nat): Outcome {
    Drive(PassOf(c, eph), c.te, s, fuel)
  }

  /**
   * How any run of the loop ends: the first probe is the starting time, every
   * later probe passed the `t1 < te` test, there is one probe per pass, a run
   * cut short used every pass and found nothing, one that stops without a
   * solution ends with `t1 < te` false, and the final fields are the last
   * pass's output from the last probe (a breaking one exactly when found).
   */
  lemma {:induction false} DriveFacts(pass: Track -> Step, te: real, s: Track, fuel: nat)
    ensures var o := Drive(pass, te, s, fuel);
            var last := LastInput(pass, te, s, fuel);
            && |o.probes| <= fuel
            && (fuel > 0 ==> |o.probes| > 0 && o.probes[0] == s.t1)
            && (forall i :: 1 <= i < |o.probes| ==> Lt(o.probes[i], Fin(te)))
            && (o.found ==> o.complete)
            && (!o.complete ==> |o.probes| == fuel && !o.found)
            && (o.complete && !o.found ==> !Lt(o.track.t1, Fin(te)))
            && (fuel > 0 ==> last.t1 == o.probes[|o.probes| - 1]
                             && pass(last).track == o.track && pass(last).done == o.found)
    decreases fuel
  {
    if fuel > 0 {
      var st := pass(s);
      if !st.done && Lt(st.track.t1, Fin(te)) {
        DriveFacts(pass, te, st.track, fuel - 1);
        var o' := Drive(pass, te, st.track, fuel - 1);
        var o := Drive(pass, te, s, fuel);
        assert o.probes == [s.t1] + o'.probes;
        if 0 < fuel - 1 {
          assert o.probes[1] == o'.probes[0] == st.track.t1;
        }
        assert forall i :: 2 <= i < |o.probes| ==> o.probes[i] == o'.probes[i - 1];
      }
    }
  }

  /** A pass function that keeps the launch angle gives a run that keeps it. */
  lemma {:induction false} DriveKeepsAngle(pass: Track -> Step, te: real, s: Track, fuel: nat)
    requires forall t :: pass(t).track.f0 == t.f0
    ensures Drive(pass, te, s, fuel).track.f0 == s.f0
    decreases fuel
  {
    if fuel > 0 && !pass(s).done && Lt(pass(s).track.t1, Fin(te)) {
      DriveKeepsAngle(pass, te, pass(s).track, fuel - 1);
    }
  }

  /**
   * What an accepted arrival satisfies: at the last probe time `tq` the
   * arrival planet stood at `R1`, `FindPEW` accepted the stored elements,
   * `t1` is the flight time's arrival and lies within a day of the probe,
   * and the speeds and arrival angle come from the elements.
   */
  predicate Arrived(c: Conf, eph: Flt -> N.Vec3, tq: Flt, s: Track) {
    && s.R1 == eph(tq)
    && s.r1 == N.Size(c.f, s.R1)
    && s.Q1 == c.Q0 + c.f.angle2(c.R0, s.R1)
    && c.find.pew(c.Q0, s.Q1, c.r0, s.r1, s.f0) == PEW(s.p, s.e, s.w, true)
    && s.t1 == Add(Fin(c.t0), c.find.time(c.Q0, s.Q1, c.M, s.p))
    && Lt(Abs(Sub(s.t1, tq)), Fin(Day))
    && s.v0 == c.find.velocity(c.Q0, s.w, s.e, s.p, c.M)
    && s.v1 == c.find.velocity(s.Q1, s.w, s.e, s.p, c.M)
    && s.f1 == c.find.velAngle(s.Q1, s.w, s.e)
  }

  /** A breaking pass arrives at its probe time; every pass keeps the launch angle. */
  lemma PassFacts(c: Conf, eph: Flt -> N.Vec3, s: Track)
    ensures Pass(c, eph, s).track.f0 == s.f0
    ensures Pass(c, eph, s).done ==> Arrived(c, eph, s.t1, Pass(c, eph, s).track)
  {
  }

  /**
   * `FindTragectory`'s loop: one probe per pass starting with `s.t1`, every
   * later probe below `te`, a stop without a solution at or past `te` (or on
   * NaN), the launch angle kept, and a solution arrives at the last probe.
   */
  lemma RunFacts(c: Conf, eph: Flt -> N.Vec3, s: Track, fuel: nat)
    ensures var o := Run(c, eph, s, fuel);
            && |o.probes| <= fuel
            && (fuel > 0 ==> |o.probes| > 0 && o.probes[0] == s.t1)
            && (forall i :: 1 <= i < |o.probes| ==> Lt(o.probes[i], Fin(c.te)))
            && o.track.f0 == s.f0
            && (o.found ==> o.complete)
            && (!o.complete ==> |o.probes| == fuel && !o.found)
            && (o.complete && !o.found ==> !Lt(o.track.t1, Fin(c.te)))
            && (o.found ==> |o.probes| > 0 && Arrived(c, eph, o.probes[|o.probes| - 1], o.track))
  {
    var pass := PassOf(c, eph);
    DriveFacts(pass, c.te, s, fuel);
    forall t | true
      ensures pass(t).track.f0 == t.f0
    {
      PassFacts(c, eph, t);
    }
    DriveKeepsAngle(pass, c.te, s, fuel);
    if fuel > 0 {
      PassFacts(c, eph, LastInput(pass, c.te, s, fuel));
    }
  }

  /** With the corrected finders, every found transfer is an ellipse through the departure point and the arrival planet's position. */
  lemma FoundIsEllipse(c: Conf, eph: Flt -> N.Vec3, s: Track, fuel: nat)
    requires c.find == TheFinders(c.f, false)
    ensures var o := Run(c, eph, s, fuel);
            o.found ==> EllipseThrough(c.f, c.Q0, o.track.Q1, c.r0, o.track.r1, PEW(o.track.p, o.track.e, o.track.w, true))
  {
    RunFacts(c, eph, s, fuel);
    var o := Run(c, eph, s, fuel);
    if o.found {
      FindPEWEllipse(c.f, c.Q0, o.track.Q1, c.r0, o.track.r1, o.track.f0);
    }
  }

  /**
   * As written, a probe where the arrival planet stands at the departure's
   * radius and direction (`Q0 = Q1 = 0`, `r0 = r1 = 1`) gets NaN elements
   * from `FindPEW`, a NaN flight time and so a NaN next probe.
   */
  lemma AsWrittenNaNStops(c: Conf, eph: Flt -> N.Vec3, s: Track)
    requires c.f.cos(0.0) == 1.0 && c.f.sin(0.0) == 0.0 && c.find == TheFinders(c.f, true)
    requires c.Q0 == 0.0 && c.r0 == 1.0 && c.f.angle2(c.R0, eph(s.t1)) == 0.0 && N.Size(c.f, eph(s.t1)) == 1.0
    ensures !Pass(c, eph, s).done && Pass(c, eph, s).track.t1 == NaN
  {
    AsWrittenAcceptsAtDeparture(c, eph, s);
    FinderTimeNaN(c, true, c.Q0, Located(c, eph, s).Q1, c.M);
    NaNElementsStop(c, eph, s);
  }

  /** As written, `FindPEW` accepts NaN elements for a probe at the departure's radius and direction. */
  lemma AsWrittenAcceptsAtDeparture(c: Conf, eph: Flt -> N.Vec3, s: Track)
    requires c.f.cos(0.0) == 1.0 && c.f.sin(0.0) == 0.0 && c.find == TheFinders(c.f, true)
    requires c.Q0 == 0.0 && c.r0 == 1.0 && c.f.angle2(c.R0, eph(s.t1)) == 0.0 && N.Size(c.f, eph(s.t1)) == 1.0
    ensures var s1 := Located(c, eph, s); c.find.pew(c.Q0, s1.Q1, c.r0, s1.r1, s1.f0) == PEW(NaN, NaN, NaN, true)
  {
    var s1 := Located(c, eph, s);
    LocatedAtDeparture(c, eph, s);
    FindPEWAtDeparture(c.f, c.Q0, s1.Q1, c.r0, s1.r1, s1.f0);
    FinderPEW(c, true, c.Q0, s1.Q1, c.r0, s1.r1, s1.f0);
  }

  /** Corrected, the same probe finds no elements and steps the clock on by `ts`. */
  lemma CorrectedStepsOn(c: Conf, eph: Flt -> N.Vec3, s: Track)
    requires c.f.cos(0.0) == 1.0 && c.f.sin(0.0) == 0.0 && c.find == TheFinders(c.f, false)
    requires c.Q0 == 0.0 && c.r0 == 1.0 && c.f.angle2(c.R0, eph(s.t1)) == 0.0 && N.Size(c.f, eph(s.t1)) == 1.0
    ensures !Pass(c, eph, s).done && Pass(c, eph, s).track.t1 == Add(s.t1, Fin(c.ts))
  {
    var s1 := Located(c, eph, s);
    LocatedAtDeparture(c, eph, s);
    FindPEWAtDeparture(c.f, c.Q0, s1.Q1, c.r0, s1.r1, s1.f0);
    FinderPEW(c, false, c.Q0, s1.Q1, c.r0, s1.r1, s1.f0);
    RejectedPassSteps(c, eph, s);
  }

  /**
   * So, as written, the search from such a probe ends after that one probe
   * without a solution, however far `te` lies ahead.
   */
  lemma AsWrittenRunStops(c: Conf, eph: Flt -> N.Vec3, s: Track, fuel: nat)
    requires c.f.cos(0.0) == 1.0 && c.f.sin(0.0) == 0.0 && c.find == TheFinders(c.f, true)
    requires c.Q0 == 0.0 && c.r0 == 1.0 && c.f.angle2(c.R0, eph(s.t1)) == 0.0 && N.Size(c.f, eph(s.t1)) == 1.0
    requires fuel > 0
    ensures var o := Run(c, eph, s, fuel);
            !o.found && o.complete && o.probes == [s.t1]
  {
    AsWrittenNaNStops(c, eph, s);
    NaNProbeStops(PassOf(c, eph), c.te, s, fuel);
  }

  /** A pass that leaves a NaN probe ends the loop there, without a solution. */
  lemma NaNProbeStops(pass: Track -> Step, te: real, s: Track, fuel: nat)
    requires fuel > 0 && !pass(s).done && pass(s).track.t1 == NaN
    ensures var o := Drive(pass, te, s, fuel);
            !o.found && o.complete && o.probes == [s.t1] && o.track.t1 == NaN
  {
  }

  /** The arrival planet at the departure's radius and direction. */
  lemma LocatedAtDeparture(c: Conf, eph: Flt -> N.Vec3, s: Track)
    requires c.Q0 == 0.0 && c.f.angle2(c.R0, eph(s.t1)) == 0.0 && N.Size(c.f, eph(s.t1)) == 1.0
    ensures Located(c, eph, s).Q1 == 0.0 && Located(c, eph, s).r1 == 1.0
  {
  }

  /** A pass whose `FindPEW` finds nothing steps the clock on by `ts`. */
  lemma RejectedPassSteps(c: Conf, eph: Flt -> N.Vec3, s: Track)
    requires var s1 := Located(c, eph, s); !c.find.pew(c.Q0, s1.Q1, c.r0, s1.r1, s1.f0).ok
    ensures !Pass(c, eph, s).done && Pass(c, eph, s).track.t1 == Add(s.t1, Fin(c.ts))
  {
  }

  /** A pass whose `FindPEW` accepts NaN elements leaves a NaN probe. */
  lemma NaNElementsStop(c: Conf, eph: Flt -> N.Vec3, s: Track)
    requires var s1 := Located(c, eph, s); c.find.pew(c.Q0, s1.Q1, c.r0, s1.r1, s1.f0) == PEW(NaN, NaN, NaN, true)
    requires c.find.time(c.Q0, Located(c, eph, s).Q1, c.M, NaN).NaN?
    ensures !Pass(c, eph, s).done && Pass(c, eph, s).track.t1 == NaN
  {
    var s2 := Located(c, eph, s).(p := NaN, e := NaN, w := NaN);
    assert !Settled(c, s2).done && Settled(c, s2).track.t1 == NaN;
  }

  /** `FindPEWAcceptsNaN` at arguments that equal its constants. */
  lemma FindPEWAtDeparture(f: N.Funcs, Q0: real, Q1: real, r0: real, r1: real, f0: real)
    requires f.cos(0.0) == 1.0 && f.sin(0.0) == 0.0
    requires Q0 == 0.0 && Q1 == 0.0 && r0 == 1.0 && r1 == 1.0
    ensures FindPEW(f, Q0, Q1, r0, r1, f0, true) == PEW(NaN, NaN, NaN, true)
    ensures !FindPEW(f, Q0, Q1, r0, r1, f0, false).ok
  {
    FindPEWAcceptsNaN(f, f0);
  }

  /** The finders' flight time is NaN for a NaN parameter. */
  lemma FinderTimeNaN(c: Conf, asWritten: bool, Q0: real, Q1: real, M: real)
    requires c.find == TheFinders(c.f, asWritten)
    ensures c.find.time(Q0, Q1, M, NaN).NaN?
  {
    assert c.find.time(Q0, Q1, M, NaN) == FindTime(c.f, Q0, Q1, M, NaN);
  }

  /** The finders' `pew` is `FindPEW` with their acceptance tests. */
  lemma FinderPEW(c: Conf, asWritten: bool, Q0: real, Q1: real, r0: real, r1: real, f0: real)
    requires c.find == TheFinders(c.f, asWritten)
    ensures c.find.pew(Q0, Q1, r0, r1, f0) == FindPEW(c.f, Q0, Q1, r0, r1, f0, asWritten)
  {
  }

  /** A found arrival time is finite and within a day of the last probe. */
  lemma FoundTimeIsClose(c: Conf, eph: Flt -> N.Vec3, s: Track, fuel: nat)
    ensures var o := Run(c, eph, s, fuel);
            o.found ==> var tq := o.probes[|o.probes| - 1];
                        o.track.t1.Fin? && tq.Fin? && N.Abs(o.track.t1.x - tq.x) < Day
  {
    RunFacts(c, eph, s, fuel);
    var o := Run(c, eph, s, fuel);
    if o.found {
      CloseValues(o.track.t1, o.probes[|o.probes| - 1], Day);
    }
  }

  /**
   * The loop's invariant: a finished loop has produced the whole run from
   * `start`; an unfinished one has found nothing yet and the rest of the run
   * is the run from the current fields with the passes left.
   */
  ghost predicate Resumes(pass: Track -> Step, te: real, start: Track, fuel: nat,
                          cur: Track, k: nat, probes: seq<Flt>, found: bool, complete: bool) {
    && (!complete ==> !found)
    && (complete ==> Drive(pass, te, start, fuel) == Outcome(found, true, cur, probes))
    && (!complete ==> Drive(pass, te, start, fuel) == Prefixed(probes, Drive(pass, te, cur, k)))
  }

  /** One pass keeps the invariant: the probe is recorded and the loop test is applied to the new `t1`. */
  lemma ResumesStep(pass: Track -> Step, te: real, start: Track, fuel: nat, cur: Track, k: nat, probes: seq<Flt>)
    requires k > 0 && Resumes(pass, te, start, fuel, cur, k, probes, false, false)
    ensures var st := pass(cur);
            Resumes(pass, te, start, fuel, st.track, k - 1, probes + [cur.t1],
                    st.done, st.done || !Lt(st.track.t1, Fin(te)))
  {
    var st := pass(cur);
    var next := Drive(pass, te, st.track, k - 1);
    assert Prefixed(probes, Prefixed([cur.t1], next)) == Prefixed(probes + [cur.t1], next);
  }

  /** `pass` is `Pass` for `c` and `eph`, stated so that it is only unfolded at a `Pass` term. */
  ghost predicate Fits(pass: Track -> Step, c: Conf, eph: Flt -> N.Vec3) {
    forall t {:trigger Pass(c, eph, t)} :: pass(t) == Pass(c, eph, t)
  }

  /**
   * `TragectoryFinder`: the departure state and window are fixed by the
   * constructor; `FindTragectory` writes the other fields.  The math library
   * and the finders it calls are fields as well.
   */
  class TragectoryFinder {
    const f: N.Funcs
    const find: Finders
    const R0: N.Vec3
    const r0: real
    const Q0: real
    const t0: real
    const te: real
    const ts: real
    const M: real
    var f0: real
    var f1: Flt
    var v0: Flt
    var v1: Flt
    var t1: Flt
    var R1: N.Vec3
    var r1: real
    var Q1: real
    var e: Flt
    var p: Flt
    var w: Flt

    function Settings(): Conf {
      Conf(f, find, R0, r0, Q0, t0, te, ts, M)
    }

    function Fields(): Track
      reads this
    {
      Track(f0, f1, v0, v1, t1, R1, r1, Q1, e, p, w)
    }

    /**
     * The constructor stores the departure state with its radius; every
     * other field is 0.  `asWritten` chooses `FindPEW`'s acceptance tests.
     */
    constructor (f: N.Funcs, asWritten: bool, R0: N.Vec3, Q0: real, t0: real, te: real, ts: real, M: real)
      ensures Settings() == Conf(f, TheFinders(f, asWritten), R0, N.Size(f, R0), Q0, t0, te, ts, M)
      ensures Fields() == Unset
    {
      this.f := f;
      find := TheFinders(f, asWritten);
      this.R0 := R0;
      r0 := N.Size(f, R0);
      this.Q0 := Q0;
      this.t0 := t0;
      this.te := te;
      this.ts := ts;
      this.M := M;
      f0, f1, v0, v1, t1 := 0.0, Fin(0.0), Fin(0.0), Fin(0.0), Fin(0.0);
      R1, r1, Q1 := N.Zero, 0.0, 0.0;
      e, p, w := Fin(0.0), Fin(0.0), Fin(0.0);
    }

    /** The copy `auto solver = finder` makes. */
    constructor Copy(other: TragectoryFinder)
      ensures Settings() == other.Settings() && Fields() == other.Fields()
    {
      f, find, R0, r0, Q0 := other.f, other.find, other.R0, other.r0, other.Q0;
      t0, te, ts, M := other.t0, other.te, other.ts, other.M;
      f0, f1, v0, v1, t1 := other.f0, other.f1, other.v0, other.v1, other.t1;
      R1, r1, Q1 := other.R1, other.r1, other.Q1;
      e, p, w := other.e, other.p, other.w;
    }

    /** One pass of the loop body: the arrival planet is set to the probe time `t1`. */
    method Probe(B: PlanetBase, ghost pass: Track -> Step) returns (done: bool)
      requires Fits(pass, Settings(), B.ephemeris)
      modifies this, B
      ensures Fields() == pass(old(Fields())).track && done == pass(old(Fields())).done
      ensures B.time == old(t1) && B.OnTime()
    {
      ghost var s := Fields();
      B.SetTime(t1);
      R1 := B.GetLocation();
      r1 := N.Size(f, R1);
      Q1 := Q0 + f.angle2(R0, R1);
      assert Fields() == Located(Settings(), B.ephemeris, s);
      var pew := find.pew(Q0, Q1, r0, r1, f0);
      if !pew.ok {
        t1 := Add(t1, Fin(ts));
        assert Fields() == Pass(Settings(), B.ephemeris, s).track;
        return false;
      }
      p, e, w := pew.p, pew.e, pew.w;
      ghost var s2 := Fields();
      done := Settle();
      assert Settled(Settings(), s2) == Pass(Settings(), B.ephemeris, s);
    }

    /** The rest of the pass once `FindPEW` has accepted the elements. */
    method Settle() returns (done: bool)
      modifies this
      ensures Fields() == Settled(Settings(), old(Fields())).track
      ensures done == Settled(Settings(), old(Fields())).done
    {
      var t2 := Add(Fin(t0), find.time(Q0, Q1, M, p));
      if Lt(Abs(Sub(t2, t1)), Fin(Day)) {
        v0 := find.velocity(Q0, w, e, p, M);
        v1 := find.velocity(Q1, w, e, p, M);
        f1 := find.velAngle(Q1, w, e);
        t1 := t2;
        return true;
      }
      t1 := Avg(t2, t1);
      return false;
    }

    /**
     * `FindTragectory(B, f0_)`: the launch angle is `f0_` and the first probe
     * is a day after departure; the loop runs for at most `fuel` passes.
     * `found` is the source's result and `complete` says the loop ended by
     * itself.  The arrival planet's clock is left at the last probe.
     */
    method FindTragectory(B: PlanetBase, f0_: real, fuel: nat) returns (found: bool, complete: bool)
      modifies this, B
      ensures var o := Run(Settings(), B.ephemeris, old(Fields()).(f0 := f0_, t1 := Fin(t0 + Day)), fuel);
              && Fields() == o.track && found == o.found && complete == o.complete
              && (|o.probes| > 0 ==> B.time == o.probes[|o.probes| - 1] && B.OnTime())
              && (|o.probes| == 0 ==> B.time == old(B.time) && B.location == old(B.location))
    {
      f0 := f0_;
      t1 := Fin(t0 + Day);
      found, complete := Search(B, PassOf(Settings(), B.ephemeris), fuel);
    }

    /** The `do ... while` loop of `FindTragectory`, over a pass function that is `Pass`. */
    method Search(B: PlanetBase, ghost pass: Track -> Step, fuel: nat) returns (found: bool, complete: bool)
      requires Fits(pass, Settings(), B.ephemeris)
      modifies this, B
      ensures var o := Drive(pass, te, old(Fields()), fuel);
              && Fields() == o.track && found == o.found && complete == o.complete
              && (|o.probes| > 0 ==> B.time == o.probes[|o.probes| - 1] && B.OnTime())
              && (|o.probes| == 0 ==> B.time == old(B.time) && B.location == old(B.location))
    {
      ghost var start := Fields();
      ghost var probes: seq<Flt> := [];
      found, complete := false, false;
      var k: nat := fuel;
      while k > 0 && !complete
        invariant k <= fuel
        invariant Resumes(pass, te, start, fuel, Fields(), k, probes, found, complete)
        invariant |probes| > 0 ==> B.time == probes[|probes| - 1] && B.OnTime()
        invariant |probes| == 0 ==> B.time == old(B.time) && B.location == old(B.location)
        decreases k
      {
        ghost var before := Fields();
        var done := Probe(B, pass);
        ResumesStep(pass, te, start, fuel, before, k, probes);
        probes := probes + [before.t1];
        k := k - 1;
        if done {
          found, complete := true, true;
        } else if !Lt(t1, Fin(te)) {
          complete := true;
        }
      }
    }
  }
}
