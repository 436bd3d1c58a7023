/**
 * The older Kepler relations (keplerOrbit.cpp).  Apart from working in
 * `float`, its `h`, `reorbit_v`, `epwqq`, `ep`, `qq`, `w`, `bf`, `a`, `M` and
 * `NZ` are the same expressions as the newer file's, and the model shares
 * `KeplerOrbit`'s definitions for them.  Two functions differ: `E` takes the
 * eccentric anomaly from the radius instead of the true anomaly, and `dt`
 * groups the radicand differently.
 */
module KeplerOrbitLegacy {
  import opened Wrappers
  import opened Numerics
  import opened KeplerOrbit

  /**
   * The older `E(q, r, e, a)`: the arc cosine of `(a - r) / a / e`, given the
   * same half-turn placement as the newer version.
   */
  function ELegacy(f: Funcs, qi: real, ri: real, e: real, a: real): (r: real)
    requires !Circular(e) ==> a != 0.0
    ensures Circular(e) ==> r == qi
  {
    if Circular(e) then qi
    else HalfTurnBranch(qi, f.acos((a - ri) / a / e))
  }

  /** The older eccentric anomaly also lies in the half turn of the true anomaly. */
  lemma ELegacyHalfTurn(f: Funcs, qi: real, ri: real, e: real, a: real)
    requires AcosRange(f)
    requires !Circular(e) ==> a != 0.0
    requires 0.0 <= qi < 4.0 * Pi
    ensures SameHalfTurn(qi, ELegacy(f, qi, ri, e, a))
  {
    if !Circular(e) {
      HalfTurnBranchWithin(qi, f.acos((a - ri) / a / e));
    }
  }

  /**
   * On the ellipse itself (a radius `r` with `r (1 + e cos q) = p` and the
   * semi-major axis `p / (1 - e^2)`) the older radius-based formula gives the
   * same eccentric anomaly as the newer anomaly-based one.
   */
  lemma ELegacyAgreesOnEllipse(f: Funcs, qi: real, ri: real, e: real, p: real)
    requires p != 0.0 && e * e != 1.0 && OnConic(f, e, p, qi, ri)
    ensures ConicFactor(f, e, qi) != 0.0 && A(e, p) != 0.0
    ensures ELegacy(f, qi, ri, e, A(e, p)) == E(f, qi, ri, e)
  {
    AxisTimesFactor(e, p);
    EllipseCosE(f, qi, ri, e, p);
    SameArccosArgument(f, qi, ri, e, A(e, p));
  }

  /** On the ellipse, the radius-based cosine is the anomaly-based one. */
  lemma EllipseCosE(f: Funcs, qi: real, ri: real, e: real, p: real)
    requires p != 0.0 && e * e != 1.0 && A(e, p) * (1.0 - e * e) == p && A(e, p) != 0.0
    requires OnConic(f, e, p, qi, ri)
    ensures ConicFactor(f, e, qi) != 0.0
    ensures !Circular(e) ==> (A(e, p) - ri) / A(e, p) / e == CosE(f, qi, e)
  {
    var c := f.cos(qi);
    ConicAt(f, e, p, qi, ri, c);
    if !Circular(e) {
      RadiusRatio(c, e, p, A(e, p), ri);
      CosEAt(f, qi, e, c);
    }
  }

  lemma ConicAt(f: Funcs, e: real, p: real, qi: real, ri: real, c: real)
    requires c == f.cos(qi) && p != 0.0 && OnConic(f, e, p, qi, ri)
    ensures ri * (1.0 + e * c) == p && ConicFactor(f, e, qi) == 1.0 + e * c && 1.0 + e * c != 0.0
  {
    FactorOfNonZero(ri, 1.0 + e * c, p);
  }

  lemma CosEAt(f: Funcs, qi: real, e: real, c: real)
    requires c == f.cos(qi) && 1.0 + e * c != 0.0
    ensures ConicFactor(f, e, qi) != 0.0 && CosE(f, qi, e) == (e + c) / (1.0 + e * c)
  {
    assert ConicFactor(f, e, qi) == 1.0 + e * c;
  }

  lemma FactorOfNonZero(x: real, y: real, p: real)
    requires x * y == p && p != 0.0
    ensures y != 0.0
  {
  }

  /** The two versions of `E` agree when their arc cosines are taken of the same number. */
  lemma SameArccosArgument(f: Funcs, qi: real, ri: real, e: real, a: real)
    requires !Circular(e) ==> a != 0.0 && ConicFactor(f, e, qi) != 0.0
    requires !Circular(e) ==> (a - ri) / a / e == CosE(f, qi, e)
    ensures ELegacy(f, qi, ri, e, a) == E(f, qi, ri, e)
  {
  }

  lemma AxisTimesFactor(e: real, p: real)
    requires p != 0.0 && e * e != 1.0
    ensures A(e, p) * (1.0 - e * e) == p && A(e, p) != 0.0
  {
    DivTimes(p, 1.0 - e * e);
  }

  /** The algebra behind `ELegacyAgreesOnEllipse`. */
  lemma RadiusRatio(c: real, e: real, p: real, a: real, r: real)
    requires e != 0.0 && p != 0.0 && e * e != 1.0
    requires a * (1.0 - e * e) == p && r * (1.0 + e * c) == p
    ensures a != 0.0 && 1.0 + e * c != 0.0
    ensures (a - r) / a / e == (e + c) / (1.0 + e * c)
  {
    NonZeroProduct(a, e);
    RadiusGap(c, e, p, a, r);
    ChainedDivision(a - r, a, e);
    CrossRatio(a - r, a * e, e + c, 1.0 + e * c);
  }

  lemma ChainedDivision(x: real, a: real, e: real)
    requires a != 0.0 && e != 0.0
    ensures x / a / e == x / (a * e)
  {
    NonZeroProduct(a, e);
    DivTimes(x / a, e);
    DivTimes(x, a);
    DivTimes(x, a * e);
    assert x / a / e * (a * e) == x;
    CancelFactor(x / a / e, x / (a * e), a * e);
  }

  /** `x / k == y / d` follows from `x d == y k`. */
  lemma CrossRatio(x: real, k: real, y: real, d: real)
    requires k != 0.0 && d != 0.0 && x * d == y * k
    ensures x / k == y / d
  {
    var u := x / k;
    DivTimes(x, k);
    assert u * d * k == y * k;
    CancelFactor(u * d, y, k);
    DivTimes(y, d);
    CancelFactor(u, y / d, d);
  }

  lemma NonZeroProduct(a: real, e: real)
    requires a != 0.0 && e != 0.0
    ensures a * e != 0.0
  {
  }

  /** `(a - r) (1 + e c) = a e (e + c)` on the ellipse. */
  lemma RadiusGap(c: real, e: real, p: real, a: real, r: real)
    requires a * (1.0 - e * e) == p && r * (1.0 + e * c) == p
    ensures a != 0.0 || p == 0.0
    ensures (a - r) * (1.0 + e * c) == (e + c) * (a * e)
  {
    assert (a - r) * (1.0 + e * c) == a * (1.0 + e * c) - p;
    assert a * (1.0 + e * c) - a * (1.0 - e * e) == (e + c) * (a * e);
  }

  /** The older radicand `a * a / GM * a`. */
  function DtLegacyRadicand(a: real, GM: real): real
    requires GM != 0.0
  {
    a * a / GM * a
  }

  /** The older `dt`: the same two arcs, with the radicand grouped as `a * a / GM * a`. */
  function DtLegacy(f: Funcs, M0: real, M1: real, a: real, GM: real, bf: bool): (r: Option<real>)
    ensures r.Some? <==> GM != 0.0 && DtLegacyRadicand(a, GM) >= 0.0
  {
    if GM == 0.0 || DtLegacyRadicand(a, GM) < 0.0 then None
    else
      var c := f.sqrt(DtLegacyRadicand(a, GM));
      Some(if bf then c * (0.0 * Pi + (M1 - M0)) else c * (2.0 * Pi - (M1 - M0)))
  }

  lemma CubeOverGM(a: real, GM: real)
    requires GM != 0.0
    ensures DtLegacyRadicand(a, GM) == DtRadicand(a, GM)
  {
    var u := a / GM;
    DivTimes(a, GM);
    DivTimes(a * a, GM);
    assert (a * a / GM) * GM == (a * u) * GM;
    CancelFactor(a * a / GM, a * u, GM);
  }

  /** Over the reals the two groupings agree, so both versions time an arc alike. */
  lemma DtLegacyAgrees(f: Funcs, M0: real, M1: real, a: real, GM: real, bf: bool)
    ensures DtLegacy(f, M0, M1, a, GM, bf) == Dt(f, M0, M1, a, GM, bf)
  {
    if GM != 0.0 {
      CubeOverGM(a, GM);
      if DtRadicand(a, GM) >= 0.0 {
        assert f.sqrt(DtLegacyRadicand(a, GM)) == f.sqrt(DtRadicand(a, GM));
        assert DtLegacy(f, M0, M1, a, GM, bf).value == Dt(f, M0, M1, a, GM, bf).value;
      }
    }
  }
}
