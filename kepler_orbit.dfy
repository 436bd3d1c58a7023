/**
 * Closed-form Kepler relations of the newer trajectory code
 * (trajectory/keplerOrbit.cpp): energy and speed, angle normalisation, the
 * ellipse through two points with a given launch direction (`epwqq` and its
 * parts), the semi-major axis, the eccentric anomaly and the flight time.
 * Divisions are only taken where the divisor is non-zero; a quotient that the
 * source lets become infinite or NaN and then tests is modelled as `None`.
 */
module KeplerOrbit {
  import opened Wrappers
  import opened Numerics

  // ---------------------------------------------------------------- energy

  /** `Kepler::h`: twice the specific orbital energy, `v^2 - 2 GM / r`. */
  function H(vi: real, ri: real, GM: real): real
    requires ri != 0.0
  {
    vi * vi - 2.0 * GM / ri
  }

  /** `Kepler::v(h, r, GM)`: the speed at radius `r` on an orbit of energy `h`. */
  function VFromH(f: Funcs, hi: real, ri: real, GM: real): real
    requires ri != 0.0
  {
    f.sqrt(hi + 2.0 * GM / ri)
  }

  /** `Kepler::v(v0, r0, r1, GM)`: the speed at `r1` of a body that moves at `v0` at `r0`. */
  function VAt(f: Funcs, v0: real, r0: real, r1: real, GM: real): real
    requires r0 != 0.0 && r1 != 0.0
  {
    f.sqrt(v0 * v0 - 2.0 * GM / r0 + 2.0 * GM / r1)
  }

  /** `Kepler::Elliptic::v(qi, e, p, GM)`: the speed at true anomaly `qi` on the conic `(e, p)`. */
  function EllipticV(f: Funcs, qi: real, e: real, p: real, GM: real): real
    requires p != 0.0
  {
    f.sqrt(GM / p * (1.0 + 2.0 * e * f.cos(qi) + e * e))
  }

  /** On a circle the conic speed is the circular speed at every anomaly, the one of energy `-GM / p`. */
  lemma EllipticVCircle(f: Funcs, qi: real, p: real, GM: real)
    requires p != 0.0
    ensures EllipticV(f, qi, 0.0, p, GM) == f.sqrt(GM / p)
    ensures EllipticV(f, qi, 0.0, p, GM) == VFromH(f, -GM / p, p, GM)
  {
    assert GM / p * (1.0 + 2.0 * 0.0 * f.cos(qi) + 0.0 * 0.0) == GM / p;
    assert -GM / p + 2.0 * GM / p == GM / p;
  }

  /** The speed recovered from the energy is the speed the energy was computed from. */
  lemma HVRoundTrip(f: Funcs, vi: real, ri: real, GM: real)
    requires SqrtLaws(f) && ri != 0.0 && vi >= 0.0
    ensures VFromH(f, H(vi, ri, GM), ri, GM) == vi
  {
    assert H(vi, ri, GM) + 2.0 * GM / ri == Sq(vi);
  }

  /** Between two points at the same radius the speed does not change. */
  lemma VEqualRadii(f: Funcs, v0: real, r: real, GM: real)
    requires SqrtLaws(f) && r != 0.0 && v0 >= 0.0
    ensures VAt(f, v0, r, r, GM) == v0
  {
    assert v0 * v0 - 2.0 * GM / r + 2.0 * GM / r == Sq(v0);
  }

  /** The two-radius speed is the speed at `r1` on the orbit with the energy found at `r0`. */
  lemma VAtConservesEnergy(f: Funcs, v0: real, r0: real, r1: real, GM: real)
    requires r0 != 0.0 && r1 != 0.0
    ensures VAt(f, v0, r0, r1, GM) == VFromH(f, H(v0, r0, GM), r1, GM)
  {
  }

  // ---------------------------------------------------------------- angles

  /** The angle of `k` whole turns. */
  function Turns(k: int): real {
    k as real * TwoPi
  }

  /** `NZ`: the angle brought into `[0, 2 pi)` by `f - 2 pi floor(f / 2 pi)`. */
  function NZ(x: real): (r: real)
    ensures 0.0 <= r < TwoPi
  {
    var n := (x / TwoPi).Floor;
    assert n as real <= x / TwoPi < n as real + 1.0;
    x - Turns(n)
  }

  /** `NZ` moves its argument by whole turns only. */
  lemma NZCongruent(x: real)
    ensures exists k :: NZ(x) == x - Turns(k)
  {
    var n := (x / TwoPi).Floor;
    assert NZ(x) == x - Turns(n);
  }

  /** An angle already in `[0, 2 pi)` is left alone. */
  lemma NZFixed(x: real)
    requires 0.0 <= x < TwoPi
    ensures NZ(x) == x
  {
    assert 0.0 <= x / TwoPi < 1.0;
    assert (x / TwoPi).Floor == 0;
  }

  /** Adding whole turns does not change the normalised angle. */
  lemma NZPeriodic(x: real, k: int)
    ensures NZ(x + Turns(k)) == NZ(x)
  {
    var q := x / TwoPi;
    assert (x + Turns(k)) / TwoPi == q + k as real;
    assert (q + k as real).Floor == q.Floor + k;
    assert Turns(q.Floor + k) == Turns(q.Floor) + Turns(k);
  }

  lemma NZIdempotent(x: real)
    ensures NZ(NZ(x)) == NZ(x)
  {
    NZFixed(NZ(x));
  }

  /**
   * `qq`: the true anomalies of the two end points for the apsidal angle `w`,
   * the second pushed one turn on when needed so that it comes after the first.
   */
  function QQ(Q0: real, Q1: real, w: real): (q: (real, real))
    ensures q.0 == NZ(Q0 + w)
    ensures q.0 < q.1 <= q.0 + TwoPi
    ensures q.1 == NZ(Q1 + w) || q.1 == NZ(Q1 + w) + TwoPi
  {
    var q0 := NZ(Q0 + w);
    var q1 := NZ(Q1 + w);
    if q1 > q0 then (q0, q1) else (q0, q1 + 2.0 * Pi)
  }

  /** The second anomaly is congruent to `Q1 + w` modulo a turn. */
  lemma QQCongruent(Q0: real, Q1: real, w: real)
    ensures NZ(QQ(Q0, Q1, w).1) == NZ(Q1 + w)
  {
    var n := NZ(Q1 + w);
    NZIdempotent(Q1 + w);
    if QQ(Q0, Q1, w).1 != n {
      NZPeriodic(n, 1);
      assert n + Turns(1) == QQ(Q0, Q1, w).1;
    }
  }

  /** `bf`: the launch direction `f0` points less than half a turn ahead of the position angle. */
  predicate Bf(Q0: real, f0: real) {
    NZ(f0 - Q0) < Pi
  }

  /** Whole turns added to the launch angle do not change the direction. */
  lemma BfPeriodic(Q0: real, f0: real, k: int)
    ensures Bf(Q0, f0 + Turns(k)) == Bf(Q0, f0)
  {
    assert f0 + Turns(k) - Q0 == (f0 - Q0) + Turns(k);
    NZPeriodic(f0 - Q0, k);
  }

  // ------------------------------------------------------------- the ellipse

  /** `r0 / r1 - 1` is within `10e-5` of 0: the two radii are (nearly) equal. */
  predicate Degenerate(r0: real, r1: real)
    requires r1 != 0.0
  {
    Equal(r0 / r1 - 1.0, 0.0, 0.0001)
  }

  /** The denominator of `w`'s arc tangent, which the source asserts to be non-zero. */
  function WDen(f: Funcs, r0: real, r1: real, Q0: real, Q1: real, f0: real): real
    requires r1 != 0.0
  {
    (r0 / r1 - 1.0) * f.tan(Q0 - f0) - f.sin(Q1 - Q0)
  }

  /**
   * `w`: the angle of the apsidal line.  For equal radii the answer is a right
   * angle on the side given by the sign of `Q0 - Q1` (or 0 when they coincide).
   */
  function W(f: Funcs, r0: real, r1: real, Q0: real, Q1: real, f0: real): (w: real)
    requires r1 != 0.0
    requires !Degenerate(r0, r1) ==> WDen(f, r0, r1, Q0, Q1, f0) != 0.0
    ensures Degenerate(r0, r1) && Q0 > Q1 ==> w == Pi / 2.0
    ensures Degenerate(r0, r1) && Q0 < Q1 ==> w == -Pi / 2.0
    ensures Degenerate(r0, r1) && Q0 == Q1 ==> w == 0.0
  {
    if !Degenerate(r0, r1) then
      f.atan((1.0 - f.cos(Q1 - Q0)) / WDen(f, r0, r1, Q0, Q1, f0)) - Q0
    else
      Pi / 2.0 * Sign(Q0 - Q1) as real
  }

  /**
   * `ep`: eccentricity and parameter of the conic through radius `r0` at anomaly
   * `q0` and radius `r1` at `q1`.  A zero denominator makes the source's
   * eccentricity infinite; that is `None` here.  Equal radii give the circle.
   */
  function EP(f: Funcs, r0: real, r1: real, q0: real, q1: real): (r: Option<(real, real)>)
    requires r1 != 0.0
    ensures Degenerate(r0, r1) ==> r == Some((0.0, r0))
    ensures r.None? <==> !Degenerate(r0, r1) && r0 * f.cos(q0) - r1 * f.cos(q1) == 0.0
  {
    if !Degenerate(r0, r1) then Quotients(r0, r1, f.cos(q0), f.cos(q1))
    else Some((0.0, r0))
  }

  /** `ep`'s two quotients for the radii and the cosines of the two anomalies, when the denominator is not zero. */
  function Quotients(r0: real, r1: real, C0: real, C1: real): (r: Option<(real, real)>)
    ensures r.None? <==> r0 * C0 - r1 * C1 == 0.0
    ensures r.Some? ==> r0 * (1.0 + r.value.0 * C0) == r.value.1 && r1 * (1.0 + r.value.0 * C1) == r.value.1
  {
    var den := r0 * C0 - r1 * C1;
    if den == 0.0 then None
    else
      ConicFromQuotients(r0, r1, C0, C1, den, (r1 - r0) / den, (C0 - C1) / den * r0 * r1);
      Some(((r1 - r0) / den, (C0 - C1) / den * r0 * r1))
  }

  /** The conic `r = p / (1 + e cos q)`, written without the division. */
  predicate OnConic(f: Funcs, e: real, p: real, q: real, radius: real) {
    radius * (1.0 + e * f.cos(q)) == p
  }

  /** The conic `ep` returns passes through the first point, and through the second unless the radii are equal. */
  lemma EPSolvesConic(f: Funcs, r0: real, r1: real, q0: real, q1: real, e: real, p: real)
    requires r1 != 0.0 && EP(f, r0, r1, q0, q1) == Some((e, p))
    ensures OnConic(f, e, p, q0, r0)
    ensures !Degenerate(r0, r1) ==> OnConic(f, e, p, q1, r1)
  {
    if Degenerate(r0, r1) {
      assert e == 0.0 && p == r0;
      assert e * f.cos(q0) == 0.0;
    }
  }

  /** The algebra behind `EPSolvesConic`: `ep`'s quotients satisfy the conic equation at both points. */
  lemma ConicFromQuotients(r0: real, r1: real, C0: real, C1: real, den: real, e: real, p: real)
    requires den == r0 * C0 - r1 * C1 && den != 0.0
    requires e == (r1 - r0) / den && p == (C0 - C1) / den * r0 * r1
    ensures r0 * (1.0 + e * C0) == p
    ensures r1 * (1.0 + e * C1) == p
  {
    DivTimes(r1 - r0, den);
    var u := (C0 - C1) / den;
    DivTimes(C0 - C1, den);
    assert p * den == (u * den) * (r0 * r1);
    ConicTimesDen(r0, r1, C0, C1, den, e, p);
  }

  lemma ConicTimesDen(r0: real, r1: real, C0: real, C1: real, den: real, e: real, p: real)
    requires den == r0 * C0 - r1 * C1 && den != 0.0
    requires e * den == r1 - r0 && p * den == (C0 - C1) * (r0 * r1)
    ensures r0 * (1.0 + e * C0) == p
    ensures r1 * (1.0 + e * C1) == p
  {
    assert r0 * (1.0 + e * C0) * den == r0 * den + r0 * C0 * (e * den);
    assert r0 * den + r0 * C0 * (r1 - r0) == (C0 - C1) * (r0 * r1);
    assert r1 * (1.0 + e * C1) * den == r1 * den + r1 * C1 * (e * den);
    assert r1 * den + r1 * C1 * (r1 - r0) == (C0 - C1) * (r0 * r1);
    CancelFactor(r0 * (1.0 + e * C0), p, den);
    CancelFactor(r1 * (1.0 + e * C1), p, den);
  }

  /** `_epwqq`: an accepted elliptic transfer. */
  datatype Ellipse = Ellipse(e: real, p: real, w: real, q0: real, q1: real)

  /** What one round of `epwqq`'s loop decides for the apsidal angle `wk`. */
  datatype Verdict = Stop | Next | Accept(ellipse: Ellipse)

  function Candidate(f: Funcs, r0: real, r1: real, Q0: real, Q1: real, wk: real): (v: Verdict)
    requires r1 != 0.0
    ensures v.Accept? ==> v.ellipse.w == wk && (v.ellipse.q0, v.ellipse.q1) == QQ(Q0, Q1, wk)
    ensures v.Accept? ==> EP(f, r0, r1, v.ellipse.q0, v.ellipse.q1) == Some((v.ellipse.e, v.ellipse.p))
    ensures v.Accept? ==> 0.0 <= v.ellipse.e < 0.99 && v.ellipse.p > 0.0
  {
    var (q0, q1) := QQ(Q0, Q1, wk);
    match EP(f, r0, r1, q0, q1)
    case None => Stop
    case Some((e, p)) =>
      if p <= 0.0 || Abs(e) > 1.0 then Stop
      else if 0.0 <= e < 0.99 then Accept(Ellipse(e, p, wk, q0, q1))
      else Next
  }

  /** The launch angle `f0` coincides with the position angle `Q0` within `10e-5`. */
  predicate AlongRadius(Q0: real, f0: real) {
    Equal(Q0, f0, 0.0001)
  }

  /**
   * `epwqq`: the ellipse through both points that leaves in direction `f0`.
   * The apsidal angle `w` is tried first and `w + pi` second; a parameter that
   * is not positive or an eccentricity beyond 1 ends the search.
   */
  function Epwqq(f: Funcs, r0: real, r1: real, Q0: real, Q1: real, f0: real): (r: Option<Ellipse>)
    requires r1 != 0.0
    requires !Degenerate(r0, r1) ==> WDen(f, r0, r1, Q0, Q1, f0) != 0.0
    ensures AlongRadius(Q0, f0) ==> r.None?
    ensures r.Some? ==> 0.0 <= r.value.e < 0.99 && r.value.p > 0.0
    ensures r.Some? ==> r.value.w == W(f, r0, r1, Q0, Q1, f0) || r.value.w == W(f, r0, r1, Q0, Q1, f0) + Pi
    ensures r.Some? ==> (r.value.q0, r.value.q1) == QQ(Q0, Q1, r.value.w)
    ensures r.Some? ==> EP(f, r0, r1, r.value.q0, r.value.q1) == Some((r.value.e, r.value.p))
  {
    if AlongRadius(Q0, f0) then None
    else
      var w0 := W(f, r0, r1, Q0, Q1, f0);
      match Candidate(f, r0, r1, Q0, Q1, w0)
      case Stop => None
      case Accept(el) => Some(el)
      case Next =>
        match Candidate(f, r0, r1, Q0, Q1, w0 + 1.0 * Pi)
        case Accept(el) => Some(el)
        case _ => None
  }

  /** `w` is tried before `w + pi`, and a stopping verdict on `w` leaves `w + pi` untried. */
  lemma EpwqqOrder(f: Funcs, r0: real, r1: real, Q0: real, Q1: real, f0: real)
    requires r1 != 0.0
    requires !Degenerate(r0, r1) ==> WDen(f, r0, r1, Q0, Q1, f0) != 0.0
    requires !AlongRadius(Q0, f0)
    ensures var v := Candidate(f, r0, r1, Q0, Q1, W(f, r0, r1, Q0, Q1, f0));
      (v.Accept? ==> Epwqq(f, r0, r1, Q0, Q1, f0) == Some(v.ellipse))
      && (v.Stop? ==> Epwqq(f, r0, r1, Q0, Q1, f0).None?)
  {
  }

  /** An accepted ellipse passes through both end points. */
  lemma EpwqqOnConic(f: Funcs, r0: real, r1: real, Q0: real, Q1: real, f0: real)
    requires r1 != 0.0
    requires !Degenerate(r0, r1) ==> WDen(f, r0, r1, Q0, Q1, f0) != 0.0
    requires Epwqq(f, r0, r1, Q0, Q1, f0).Some?
    ensures var el := Epwqq(f, r0, r1, Q0, Q1, f0).value;
      OnConic(f, el.e, el.p, el.q0, r0) && (!Degenerate(r0, r1) ==> OnConic(f, el.e, el.p, el.q1, r1))
  {
    var el := Epwqq(f, r0, r1, Q0, Q1, f0).value;
    EPSolvesConic(f, r0, r1, el.q0, el.q1, el.e, el.p);
  }

  // ---------------------------------------------------------------- timing

  /** `a`: the semi-major axis `p / (1 - e^2)`. */
  function A(e: real, p: real): (a: real)
    requires e * e != 1.0
    ensures a * (1.0 - e * e) == p
  {
    p / (1.0 - e * e)
  }

  /** An ellipse with a positive parameter has a positive semi-major axis at least as large as the parameter. */
  lemma APositive(e: real, p: real)
    requires p > 0.0 && 0.0 <= e < 1.0
    ensures e * e < 1.0
    ensures A(e, p) > 0.0
    ensures A(e, p) >= p
  {
    assert e * e <= e * 1.0;
    var d := 1.0 - e * e;
    assert 0.0 < d <= 1.0;
    assert A(e, p) * d == p;
  }

  /** `e` is within `10e-7` of 0: the orbit is taken as a circle. */
  predicate Circular(e: real) {
    Equal(e, 0.0, 0.000001)
  }

  /**
   * `E(q, r, e)`: the eccentric anomaly of the true anomaly `q`, taken in the
   * same half turn as `q` (up to two turns).  The radius is not used.
   */
  function E(f: Funcs, qi: real, ri: real, e: real): (r: real)
    requires !Circular(e) ==> ConicFactor(f, e, qi) != 0.0
    ensures Circular(e) ==> r == qi
  {
    if Circular(e) then qi
    else
      HalfTurnBranch(qi, f.acos(CosE(f, qi, e)))
  }

  /** The conic's factor `1 + e cos q`, the denominator of `E`'s cosine. */
  function ConicFactor(f: Funcs, e: real, qi: real): real {
    1.0 + e * f.cos(qi)
  }

  /** The cosine of the eccentric anomaly, `(e + cos q) / (1 + e cos q)`. */
  function CosE(f: Funcs, qi: real, e: real): real
    requires ConicFactor(f, e, qi) != 0.0
  {
    (e + f.cos(qi)) / ConicFactor(f, e, qi)
  }

  /** The four-way choice both versions of `E` make from the arc cosine `AC`. */
  function HalfTurnBranch(qi: real, AC: real): real {
    if qi < 1.0 * Pi then AC + 0.0 * Pi
    else if qi < 2.0 * Pi then -AC + 2.0 * Pi
    else if qi < 3.0 * Pi then AC + 2.0 * Pi
    else -AC + 4.0 * Pi
  }

  /** The half turn `[k pi, (k + 1) pi]` in which an angle of `[0, 4 pi)` lies. */
  predicate SameHalfTurn(qi: real, x: real) {
    (qi < Pi ==> 0.0 <= x <= Pi)
    && (Pi <= qi < 2.0 * Pi ==> Pi <= x <= 2.0 * Pi)
    && (2.0 * Pi <= qi < 3.0 * Pi ==> 2.0 * Pi <= x <= 3.0 * Pi)
    && (3.0 * Pi <= qi ==> 3.0 * Pi <= x <= 4.0 * Pi)
  }

  lemma HalfTurnBranchWithin(qi: real, AC: real)
    requires 0.0 <= AC <= Pi
    ensures SameHalfTurn(qi, HalfTurnBranch(qi, AC))
  {
  }

  /** The eccentric anomaly lies in the same half turn as the true anomaly it comes from. */
  lemma EHalfTurn(f: Funcs, qi: real, ri: real, e: real)
    requires AcosRange(f)
    requires !Circular(e) ==> ConicFactor(f, e, qi) != 0.0
    requires 0.0 <= qi < 4.0 * Pi
    ensures SameHalfTurn(qi, E(f, qi, ri, e))
  {
    if !Circular(e) {
      HalfTurnBranchWithin(qi, f.acos(CosE(f, qi, e)));
    }
  }

  /** `M`: the mean anomaly `E - e sin E`. */
  function M(f: Funcs, Ei: real, e: real): (m: real)
    ensures e == 0.0 ==> m == Ei
    ensures 0.0 <= e && -1.0 <= f.sin(Ei) <= 1.0 ==> Ei - e <= m <= Ei + e
  {
    var s := f.sin(Ei);
    assert 0.0 <= e && -1.0 <= s <= 1.0 ==> 0.0 <= e * (1.0 - s) && 0.0 <= e * (1.0 + s);
    Ei - e * s
  }

  /** The radicand `a^3 / GM` of `dt`'s factor, in the order the source evaluates it. */
  function DtRadicand(a: real, GM: real): real
    requires GM != 0.0
  {
    a / GM * a * a
  }

  /**
   * `dt`: the flight time between mean anomalies `M0` and `M1`, forward on the
   * short arc and the rest of the turn otherwise.  A zero `GM` or a negative
   * radicand leaves the source with an infinite or NaN value: `None` here.
   */
  function Dt(f: Funcs, M0: real, M1: real, a: real, GM: real, bf: bool): (r: Option<real>)
    ensures r.Some? <==> GM != 0.0 && DtRadicand(a, GM) >= 0.0
  {
    if GM == 0.0 || DtRadicand(a, GM) < 0.0 then None
    else
      var c := f.sqrt(DtRadicand(a, GM));
      Some(if bf then c * (0.0 * Pi + (M1 - M0)) else c * (2.0 * Pi - (M1 - M0)))
  }

  /** The short-arc and the long-arc time add up to one orbital period. */
  lemma DtArcsMakePeriod(f: Funcs, M0: real, M1: real, a: real, GM: real)
    requires GM != 0.0 && DtRadicand(a, GM) >= 0.0
    ensures Dt(f, M0, M1, a, GM, true).value + Dt(f, M0, M1, a, GM, false).value
      == TwoPi * f.sqrt(DtRadicand(a, GM))
  {
    var c := f.sqrt(DtRadicand(a, GM));
    assert c * (M1 - M0) + c * (2.0 * Pi - (M1 - M0)) == c * (2.0 * Pi);
  }

  /** With the mean anomalies less than a turn apart, both arcs take a non-negative time. */
  lemma DtNonNegative(f: Funcs, M0: real, M1: real, a: real, GM: real, bf: bool)
    requires SqrtLaws(f)
    requires GM != 0.0 && DtRadicand(a, GM) >= 0.0
    requires M0 <= M1 <= M0 + TwoPi
    ensures Dt(f, M0, M1, a, GM, bf).value >= 0.0
  {
    var c := f.sqrt(DtRadicand(a, GM));
    assert c >= 0.0;
    assert c * (M1 - M0) >= 0.0;
    assert c * (2.0 * Pi - (M1 - M0)) >= 0.0;
  }
}
