/**
 * The search for single Kepler arcs (blocks/link.cpp): solving one arc for a
 * given arrival time (`LinkAdapter::Find_t`), refining a bracketed root of
 * the mismatch `t - t1(t)` by bisection (`FindAsRoot`) or by a minimiser
 * (`FindMinimum`), and the scan over arrival times that feeds a window of
 * mismatch samples (`FindLinks`).  The minimiser's iterations and the
 * velocity geometry of `Fix2DParams`/`Fix3DParams` are given as oracles.
 */
module LinkSearch {
  import opened Wrappers
  import opened Numerics
  import opened KeplerOrbit
  import opened Links
  import opened Ephemerides
  import opened LinkWindow

  // ------------------------------------------------------------ configurations

  /** `ChechValue`: a NaN (here `None`) is refused with the message the source throws. */
  function CheckValue(v: Option<real>): (r: Result<real>)
    ensures r.Ok? <==> v.Some?
    ensures r.Ok? ==> r.value == v.value
    ensures r.Err? ==> r.error == "value cannot be NAN"
  {
    if v.None? then Err("value cannot be NAN") else Ok(v.value)
  }

  /**
   * `ScriptedLinkConfig`: departure point and velocity, a copy of the arrival
   * body's client (its connection and time), the scan range and tolerances,
   * and `GM`.  Only `t0` is checked for NaN by the source.
   */
  datatype ScriptedConfig = ScriptedConfig(
    RA: Vec3, VA: Vec3, bConn: Option<Driver>, bTime: Option<real>,
    t0: Option<real>, te: real, ts: real, tt: real, td: real, GM: real)

  /** `StaticLinkConfig`: both end points fixed. */
  datatype StaticConfig = StaticConfig(RA: Vec3, VA: Vec3, RB: Vec3, VB: Vec3, t0: Option<real>, GM: real)

  /** `ScriptedLinkConfig::SetA`: the departure point and velocity at `t0`. */
  function SetA(cfg: ScriptedConfig, script: Driver): (r: Result<ScriptedConfig>)
    ensures r.Ok? <==> cfg.t0.Some?
    ensures r.Err? ==> r.error == "value cannot be NAN"
    ensures r.Ok? ==> (r.value.RA, r.value.VA) == script.movement(cfg.t0.value)
    ensures r.Ok? ==> r.value.(RA := cfg.RA, VA := cfg.VA) == cfg
  {
    var t0 := CheckValue(cfg.t0);
    if t0.Err? then Err(t0.error)
    else
      var mv := script.movement(t0.value);
      Ok(cfg.(RA := mv.0, VA := mv.1))
  }

  /** `ScriptedLinkConfig::SetB`: connect the arrival body's client and set it to `t0`. */
  function SetB(cfg: ScriptedConfig, script: Driver): (r: Result<ScriptedConfig>)
    ensures r.Ok? <==> cfg.t0.Some?
    ensures r.Err? ==> r.error == "value cannot be NAN"
    ensures r.Ok? ==> Ready(r.value.bConn, r.value.bTime) && r.value.bTime == cfg.t0
    ensures r.Ok? ==> r.value.(bConn := cfg.bConn, bTime := cfg.bTime) == cfg
  {
    var t0 := CheckValue(cfg.t0);
    if t0.Err? then Err(t0.error)
    else Ok(cfg.(bConn := Some(script), bTime := Some(t0.value)))
  }

  /** `StaticLinkConfig::SetA`. */
  function StaticSetA(cfg: StaticConfig, script: Driver): (r: Result<StaticConfig>)
    ensures r.Ok? <==> cfg.t0.Some?
    ensures r.Err? ==> r.error == "value cannot be NAN"
    ensures r.Ok? ==> (r.value.RA, r.value.VA) == script.movement(cfg.t0.value)
    ensures r.Ok? ==> r.value.(RA := cfg.RA, VA := cfg.VA) == cfg
  {
    var t0 := CheckValue(cfg.t0);
    if t0.Err? then Err(t0.error)
    else
      var mv := script.movement(t0.value);
      Ok(cfg.(RA := mv.0, VA := mv.1))
  }

  // ------------------------------------------------------------ one arc

  /*
   * The fields of a `Link` in the groups the search writes together: the
   * departure state the constructor sets, the arrival point `Find_t` aims at,
   * the ellipse and anomalies `epwqq` and its followers compute, the timing,
   * and the velocities `FixParams` adds.
   */
  datatype Departure = Departure(t0: real, R0: Vec3, r0: real, Q0: real, f0: real, bf: bool)
  datatype Arrival = Arrival(R1: Vec3, r1: real, Q1: real)
  datatype Orbit = Orbit(e: real, p: real, w: real, q0: real, q1: real, a: real,
                         E0: real, E1: real, M0: real, M1: real)
  datatype Timing = Timing(dt: real, t1: real)
  datatype Velocities = Velocities(v0: real, v1: real, f1: real, V0: Vec3, V1: Vec3, W0: Vec3, W1: Vec3)

  const ZeroArrival: Arrival := Arrival(Zero, 0.0, 0.0)
  const ZeroOrbit: Orbit := Orbit(0.0, 0.0, 0.0, 0.0, 0.0, 0.0, 0.0, 0.0, 0.0, 0.0)
  const ZeroTiming: Timing := Timing(0.0, 0.0)
  const ZeroVelocities: Velocities := Velocities(0.0, 0.0, 0.0, Zero, Zero, Zero, Zero)

  /** The `Link` the groups make up. */
  function ToLink(d: Departure, r: Arrival, o: Orbit, tm: Timing, v: Velocities): Link {
    Link(d.R0, r.R1, v.V0, v.V1, v.W0, v.W1,
         d.r0, r.r1, d.f0, v.f1, v.v0, v.v1,
         d.t0, tm.t1, d.Q0, r.Q1, o.q0, o.q1,
         o.E0, o.E1, o.M0, o.M1,
         tm.dt, o.e, o.p, o.a, o.w, d.bf)
  }

  /** Apart from the departure state, a fresh link is the value-initialised `Link`. */
  lemma FreshLinkIsDefault(d: Departure)
    ensures ToLink(d, ZeroArrival, ZeroOrbit, ZeroTiming, ZeroVelocities)
      == DefaultLink.(t0 := d.t0, R0 := d.R0, r0 := d.r0, Q0 := d.Q0, f0 := d.f0, bf := d.bf)
  {
  }

  /**
   * Whether `epwqq`'s divisions are defined: a non-zero arrival radius and,
   * for unequal radii, a non-zero denominator of `w` (which the source only
   * asserts).
   */
  predicate Solvable(f: Funcs, d: Departure, r: Arrival) {
    r.r1 != 0.0 && (!Degenerate(d.r0, r.r1) ==> WDen(f, d.r0, r.r1, d.Q0, r.Q1, d.f0) != 0.0)
  }

  /** On an accepted ellipse the denominator `1 + e cos q` of `E` is positive. */
  lemma PositiveDenominator(f: Funcs, e: real, q: real)
    requires CosBounded(f) && 0.0 <= e < 0.99
    ensures ConicFactor(f, e, q) > 0.0
  {
    var c := f.cos(q);
    assert -1.0 <= c <= 1.0;
    assert e * (c + 1.0) >= 0.0;
    assert e * (c + 1.0) == e * c + e;
    assert ConicFactor(f, e, q) == 1.0 + e * c;
  }

  /** The axis, eccentric and mean anomalies of an accepted ellipse. */
  function OrbitOf(f: Funcs, d: Departure, r: Arrival, el: Ellipse): (o: Orbit)
    requires CosBounded(f) && 0.0 <= el.e < 0.99 && el.p > 0.0
    ensures (o.e, o.p, o.w, o.q0, o.q1) == (el.e, el.p, el.w, el.q0, el.q1)
    ensures o.a >= o.p > 0.0
  {
    PositiveDenominator(f, el.e, el.q0);
    PositiveDenominator(f, el.e, el.q1);
    APositive(el.e, el.p);
    var E0 := E(f, el.q0, d.r0, el.e);
    var E1 := E(f, el.q1, r.r1, el.e);
    Orbit(el.e, el.p, el.w, el.q0, el.q1, A(el.e, el.p), E0, E1, M(f, E0, el.e), M(f, E1, el.e))
  }

  /**
   * `LinkAdapter::Find_t`: fit the ellipse through both end points with
   * `epwqq`, then its axis, anomalies and flight time, and arrive at
   * `t0 + dt`.  The fields are written in that order, so a failure after the
   * ellipse was found leaves the new orbit and the old timing.
   */
  function Solve(f: Funcs, GM: real, d: Departure, r: Arrival, o: Orbit, tm: Timing): (s: (Orbit, Timing, bool))
    requires CosBounded(f)
    ensures s.2 ==> s.1.t1 == d.t0 + s.1.dt
    ensures !s.2 ==> s.1 == tm
    ensures !Solvable(f, d, r) ==> s == (o, tm, false)
  {
    if !Solvable(f, d, r) then (o, tm, false)
    else
      match Epwqq(f, d.r0, r.r1, d.Q0, r.Q1, d.f0)
      case None => (o, tm, false)
      case Some(el) =>
        var o2 := OrbitOf(f, d, r, el);
        match Dt(f, o2.M0, o2.M1, o2.a, GM, d.bf)
        case None => (o2, tm, false)
        case Some(dt) => (o2, Timing(dt, d.t0 + dt), true)
  }

  /**
   * A solved arc is the ellipse `epwqq` returns, through both end points (the
   * second one unless the radii are equal), with an eccentricity below 0.99,
   * a positive parameter, a semi-major axis at least that parameter, and a
   * flight time that `dt` computes from its mean anomalies.
   */
  lemma SolveSound(f: Funcs, GM: real, d: Departure, r: Arrival, o: Orbit, tm: Timing)
    requires CosBounded(f)
    requires Solve(f, GM, d, r, o, tm).2
    ensures var s := Solve(f, GM, d, r, o, tm);
      Solvable(f, d, r)
      && Epwqq(f, d.r0, r.r1, d.Q0, r.Q1, d.f0) == Some(Ellipse(s.0.e, s.0.p, s.0.w, s.0.q0, s.0.q1))
      && 0.0 <= s.0.e < 0.99 && s.0.p > 0.0 && s.0.a >= s.0.p
      && OnConic(f, s.0.e, s.0.p, s.0.q0, d.r0)
      && (!Degenerate(d.r0, r.r1) ==> OnConic(f, s.0.e, s.0.p, s.0.q1, r.r1))
      && Dt(f, s.0.M0, s.0.M1, s.0.a, GM, d.bf) == Some(s.1.dt)
  {
    EpwqqOnConic(f, d.r0, r.r1, d.Q0, r.Q1, d.f0);
  }

  /** Launching along the radius never gives an arc. */
  lemma SolveRefusesRadialLaunch(f: Funcs, GM: real, d: Departure, r: Arrival, o: Orbit, tm: Timing)
    requires CosBounded(f) && AlongRadius(d.Q0, d.f0)
    ensures !Solve(f, GM, d, r, o, tm).2
  {
  }

  /** Solving does not look at the previous orbit and timing, except to keep them on failure. */
  lemma SolveForgets(f: Funcs, GM: real, d: Departure, r: Arrival, o: Orbit, tm: Timing, o': Orbit, tm': Timing)
    requires CosBounded(f) && Solve(f, GM, d, r, o, tm).2
    ensures Solve(f, GM, d, r, o', tm') == Solve(f, GM, d, r, o, tm)
  {
  }

  /** What a link aims at and solves for: the arrival body's position at time `t`. */
  datatype LinkCtx = LinkCtx(f: Funcs, bConn: Option<Driver>, GM: real, VA: Vec3)

  /** The part of a `ScriptedLink` that the search changes, with the time of its arrival-body client. */
  datatype Search = Search(arr: Arrival, orbit: Orbit, timing: Timing, bTime: Option<real>)

  /** The arrival point for time `t`: the arrival body's position, seen from the departure point. */
  function AimAt(ctx: LinkCtx, d: Departure, t: real): (r: Arrival)
    ensures r.R1 == LocationAt(ctx.bConn, Some(t)) && r.r1 == Size(ctx.f, r.R1)
    ensures r.Q1 == d.Q0 + ctx.f.angle2Pos(d.R0, r.R1)
  {
    var R1 := LocationAt(ctx.bConn, Some(t));
    Arrival(R1, Size(ctx.f, R1), d.Q0 + ctx.f.angle2Pos(d.R0, R1))
  }

  /**
   * `ScriptedLink::Find_t(t)`: move the arrival body's client to `t`, aim at
   * its position and solve the arc.
   */
  function ProbeAt(ctx: LinkCtx, d: Departure, s: Search, t: real): (r: (Search, bool))
    requires CosBounded(ctx.f)
    ensures r.0.bTime == Some(t) && r.0.arr == AimAt(ctx, d, t)
    ensures r.1 ==> r.0.timing.t1 == d.t0 + r.0.timing.dt
  {
    var arr := AimAt(ctx, d, t);
    var (o, tm, ok) := Solve(ctx.f, ctx.GM, d, arr, s.orbit, s.timing);
    (Search(arr, o, tm, Some(t)), ok)
  }

  /** Solving again for the same arrival time changes nothing. */
  lemma ProbeAtIdempotent(ctx: LinkCtx, d: Departure, s: Search, t: real)
    requires CosBounded(ctx.f)
    ensures ProbeAt(ctx, d, ProbeAt(ctx, d, s, t).0, t) == ProbeAt(ctx, d, s, t)
  {
    var arr := AimAt(ctx, d, t);
    var r := Solve(ctx.f, ctx.GM, d, arr, s.orbit, s.timing);
    if r.2 {
      SolveForgets(ctx.f, ctx.GM, d, arr, s.orbit, s.timing, r.0, r.1);
    }
  }

  /**
   * Solving a link for an arrival time from a search state, as the
   * refinements see it: `FindAsRoot` and `FindMinimum` only call
   * `Find_t` and read `t1`.
   */
  type Probe = (Search, real) -> (Search, bool)

  /** `ScriptedLink::Find_t` as a probe. */
  function LinkProbe(ctx: LinkCtx, d: Departure): Probe
    requires CosBounded(ctx.f)
  {
    (s: Search, t: real) => ProbeAt(ctx, d, s, t)
  }

  /** A search state that probing at `T` leaves as it is, with success. */
  ghost predicate Settled(probe: Probe, s: Search, T: real) {
    probe(s, T) == (s, true)
  }

  /** A probe moves the arrival body's client to the time probed. */
  ghost predicate MovesClient(probe: Probe) {
    forall s, t :: probe(s, t).0.bTime == Some(t)
  }

  /** A successful probe leaves a state that probing again settles on. */
  ghost predicate SettlesOnSuccess(probe: Probe) {
    forall s, t :: probe(s, t).1 ==> Settled(probe, probe(s, t).0, t)
  }

  /** A search state that is its own successful solution at arrival time `T`. */
  ghost predicate SolvedAt(ctx: LinkCtx, d: Departure, s: Search, T: real)
    requires CosBounded(ctx.f)
  {
    Settled(LinkProbe(ctx, d), s, T)
  }

  /** A successful `Find_t` leaves the link solved for that time. */
  lemma ProbeAtSettles(ctx: LinkCtx, d: Departure, s: Search, t: real)
    requires CosBounded(ctx.f) && ProbeAt(ctx, d, s, t).1
    ensures SolvedAt(ctx, d, ProbeAt(ctx, d, s, t).0, t)
  {
    ProbeAtIdempotent(ctx, d, s, t);
  }

  /** `Find_t` has both properties the refinements rely on. */
  lemma LinkProbeLaws(ctx: LinkCtx, d: Departure)
    requires CosBounded(ctx.f)
    ensures MovesClient(LinkProbe(ctx, d)) && SettlesOnSuccess(LinkProbe(ctx, d))
  {
    var probe := LinkProbe(ctx, d);
    forall s, t | probe(s, t).1
      ensures Settled(probe, probe(s, t).0, t)
    {
      ProbeAtSettles(ctx, d, s, t);
    }
  }

  /**
   * A link solved at `T` has its client at `T`, ends at the arrival body's
   * position then, and is a sound arc there.
   */
  lemma SolvedAtMeaning(ctx: LinkCtx, d: Departure, s: Search, T: real)
    requires CosBounded(ctx.f) && SolvedAt(ctx, d, s, T)
    ensures s.bTime == Some(T) && s.arr.R1 == LocationAt(ctx.bConn, Some(T))
    ensures 0.0 <= s.orbit.e < 0.99 && s.orbit.p > 0.0 && s.orbit.a >= s.orbit.p
    ensures s.timing.t1 - d.t0 == s.timing.dt
    ensures OnConic(ctx.f, s.orbit.e, s.orbit.p, s.orbit.q0, d.r0)
    ensures !Degenerate(d.r0, s.arr.r1) ==> OnConic(ctx.f, s.orbit.e, s.orbit.p, s.orbit.q1, s.arr.r1)
  {
    SolveSound(ctx.f, ctx.GM, d, AimAt(ctx, d, T), s.orbit, s.timing);
  }

  /**
   * What `Fix2DParams` and the rotations of `Fix3DParams` compute from a
   * solved arc: the two speeds, the arrival flight-path angle and the two
   * velocity vectors in the global frame.
   */
  datatype Motion = Motion(v0: real, v1: real, f1: real, V0: Vec3, V1: Vec3)

  /** The velocity geometry, given as an oracle on the arc. */
  type MotionOf = (Departure, Arrival, Orbit) -> Motion

  /**
   * `FixParams` with `FixW01`: the motion, and the velocities relative to the
   * departure body (`VA`) and to the arrival body (`VB`).
   */
  function FixVelocities(m: Motion, VA: Vec3, VB: Vec3): (v: Velocities)
    ensures (v.v0, v.v1, v.f1, v.V0, v.V1) == (m.v0, m.v1, m.f1, m.V0, m.V1)
    ensures Sub(v.V0, VA) == v.W0 && Sub(v.V1, VB) == v.W1
  {
    Velocities(m.v0, m.v1, m.f1, m.V0, m.V1, Sub(m.V0, VA), Sub(m.V1, VB))
  }

  /** The relative velocities return the body's velocity when added back. */
  lemma RelativeVelocityRoundTrip(m: Motion, VA: Vec3, VB: Vec3)
    ensures var v := FixVelocities(m, VA, VB);
      Sub(v.V0, v.W0) == VA && Sub(v.V1, v.W1) == VB
  {
  }

  /** The departure state of `ScriptedLink`'s constructor; `Q0` stays 0. */
  function StartOf(f: Funcs, t0: real, RA: Vec3, f0: real): (d: Departure)
    ensures d.t0 == t0 && d.R0 == RA && d.r0 == Size(f, RA) && d.Q0 == 0.0
    ensures d.f0 == NZ(f0) && 0.0 <= d.f0 < TwoPi && (d.bf <==> NZ(f0) < Pi)
  {
    NZFixed(NZ(f0));
    assert NZ(f0) - 0.0 == NZ(f0);
    Departure(t0, RA, Size(f, RA), 0.0, NZ(f0), Bf(0.0, NZ(f0)))
  }

  /** The departure angle is normalised, so whole turns of the input do not matter. */
  lemma StartOfPeriodic(f: Funcs, t0: real, RA: Vec3, f0: real, k: int)
    ensures StartOf(f, t0, RA, f0 + Turns(k)) == StartOf(f, t0, RA, f0)
  {
    NZPeriodic(f0, k);
  }

  const FreshSearch: Search := Search(ZeroArrival, ZeroOrbit, ZeroTiming, None)

  // ------------------------------------------------------------ the link object

  class ScriptedLink {
    const ctx: LinkCtx
    const dep: Departure
    /** `Find_t` on this link's context and departure point. */
    const probe: Probe
    var arr: Arrival
    var orbit: Orbit
    var timing: Timing
    var vel: Velocities
    /** The time of the link's own copy of the arrival body's client. */
    var bTime: Option<real>

    /** `ScriptedLink(conf, f0)`. */
    constructor (f: Funcs, cfg: ScriptedConfig, f0: real)
      requires CosBounded(f) && cfg.t0.Some?
      ensures ctx == LinkCtx(f, cfg.bConn, cfg.GM, cfg.VA) && dep == StartOf(f, cfg.t0.value, cfg.RA, f0)
      ensures probe == LinkProbe(ctx, dep)
      ensures State() == FreshSearch.(bTime := cfg.bTime) && vel == ZeroVelocities
    {
      ctx := LinkCtx(f, cfg.bConn, cfg.GM, cfg.VA);
      dep := StartOf(f, cfg.t0.value, cfg.RA, f0);
      probe := LinkProbe(LinkCtx(f, cfg.bConn, cfg.GM, cfg.VA), StartOf(f, cfg.t0.value, cfg.RA, f0));
      arr, orbit, timing, vel := ZeroArrival, ZeroOrbit, ZeroTiming, ZeroVelocities;
      bTime := cfg.bTime;
    }

    /** A link object over a given departure state (the older file's constructor builds one). */
    constructor FromStart(ctx: LinkCtx, dep: Departure, bTime: Option<real>)
      requires CosBounded(ctx.f)
      ensures this.ctx == ctx && this.dep == dep && probe == LinkProbe(ctx, dep)
      ensures State() == FreshSearch.(bTime := bTime) && vel == ZeroVelocities
    {
      this.ctx := ctx;
      this.dep := dep;
      probe := LinkProbe(ctx, dep);
      arr, orbit, timing, vel := ZeroArrival, ZeroOrbit, ZeroTiming, ZeroVelocities;
      this.bTime := bTime;
    }

    function State(): Search
      reads this
    {
      Search(arr, orbit, timing, bTime)
    }

    function AsLink(): Link
      reads this
    {
      ToLink(dep, arr, orbit, timing, vel)
    }

    method FindT(t: real) returns (ok: bool)
      modifies this
      ensures (State(), ok) == probe(old(State()), t) && vel == old(vel)
    {
      var r := probe(State(), t);
      arr, orbit, timing, bTime := r.0.arr, r.0.orbit, r.0.timing, r.0.bTime;
      ok := r.1;
    }

    /** `FixParams`: the motion from the oracle, relative to `VA` and to where the client is now. */
    method FixParams(motion: MotionOf)
      modifies this
      ensures vel == FixVelocities(motion(dep, arr, orbit), ctx.VA, VelocityAt(ctx.bConn, bTime))
      ensures State() == old(State())
    {
      vel := FixVelocities(motion(dep, arr, orbit), ctx.VA, VelocityAt(ctx.bConn, bTime));
    }
  }

  // ------------------------------------------------------------ bisection

  /** The halvings left before an interval of length `d` is within `tol`. */
  function Halvings(d: real, tol: real): nat
    requires tol > 0.0
  {
    if d > 0.0 then CeilNat(d / tol) else 0
  }

  lemma HalvingShrinks(d: real, tol: real)
    requires tol > 0.0 && d / 2.0 > tol
    ensures Halvings(d / 2.0, tol) < Halvings(d, tol)
  {
    HalfQuotient(d, tol);
    CeilHalf(d / tol);
  }

  lemma HalfQuotient(d: real, tol: real)
    requires tol > 0.0 && d / 2.0 > tol
    ensures (d / 2.0) / tol == (d / tol) / 2.0 && d / tol > 2.0
  {
    var q := d / tol;
    DivTimes(d, tol);
    DivTimes(d / 2.0, tol);
    assert (d / 2.0) / tol * tol == (q / 2.0) * tol;
    CancelFactor((d / 2.0) / tol, q / 2.0, tol);
    assert q * tol > 2.0 * tol;
    ScaleOrder(2.0, q, tol);
  }

  lemma CeilHalf(x: real)
    requires x > 2.0
    ensures CeilNat(x / 2.0) < CeilNat(x)
  {
  }

  /** `x` lies between `a` and `b`, in either order. */
  predicate Between(x: real, a: real, b: real) {
    Min(a, b) <= x <= Max(a, b)
  }

  function Min(a: real, b: real): real { if a <= b then a else b }

  function Max(a: real, b: real): real { if a <= b then b else a }

  /** The bracket bisection keeps after probing the midpoint `tm` with mismatch `vm`. */
  function Keep(t0: real, t1: real, v0: real, tm: real, vm: real): (r: (real, real, real))
    requires tm == (t0 + t1) / 2.0
    ensures Abs(r.1 - r.0) == Abs(t1 - t0) / 2.0
    ensures Between(tm, t0, t1)
    ensures Min(t0, t1) <= Min(r.0, r.1) && Max(r.0, r.1) <= Max(t0, t1)
  {
    if Sign(v0) == Sign(vm) then (tm, t1, vm) else (t0, tm, v0)
  }

  /**
   * `FindAsRoot`: probe the midpoint; stop with success once the mismatch
   * `tm - t1` is within `DTOL`, with failure when a probe fails or the
   * bracket has shrunk to `TTOL`; otherwise keep the half whose ends differ
   * in sign.
   */
  function Bisect(probe: Probe, s: Search, t0: real, t1: real, v0: real, DTOL: real, TTOL: real): (r: (Search, bool))
    requires TTOL > 0.0
    decreases Halvings(Abs(t1 - t0), TTOL)
  {
    var tm := (t0 + t1) / 2.0;
    var (s1, ok) := probe(s, tm);
    if !ok then (s1, false)
    else
      var vm := tm - s1.timing.t1;
      if Equal(vm, 0.0, DTOL) then (s1, true)
      else
        var k := Keep(t0, t1, v0, tm, vm);
        if Abs(k.1 - k.0) > TTOL then
          HalvingShrinks(Abs(t1 - t0), TTOL);
          Bisect(probe, s1, k.0, k.1, k.2, DTOL, TTOL)
        else (s1, false)
  }

  /** Bisection leaves the client at a time inside the bracket. */
  lemma {:induction false} BisectInBracket(probe: Probe, s: Search, t0: real, t1: real, v0: real, DTOL: real, TTOL: real)
    requires TTOL > 0.0 && MovesClient(probe)
    ensures var r := Bisect(probe, s, t0, t1, v0, DTOL, TTOL);
      r.0.bTime.Some? && Between(r.0.bTime.value, t0, t1)
    decreases Halvings(Abs(t1 - t0), TTOL)
  {
    var tm := (t0 + t1) / 2.0;
    var (s1, ok) := probe(s, tm);
    if ok {
      var vm := tm - s1.timing.t1;
      if !Equal(vm, 0.0, DTOL) {
        var k := Keep(t0, t1, v0, tm, vm);
        if Abs(k.1 - k.0) > TTOL {
          HalvingShrinks(Abs(t1 - t0), TTOL);
          BisectInBracket(probe, s1, k.0, k.1, k.2, DTOL, TTOL);
        }
      }
    }
  }

  /**
   * A successful bisection leaves the link settled at the client's time,
   * with a mismatch within `DTOL`.
   */
  lemma {:induction false} BisectSound(probe: Probe, s: Search, t0: real, t1: real, v0: real, DTOL: real, TTOL: real)
    requires TTOL > 0.0 && MovesClient(probe) && SettlesOnSuccess(probe)
    ensures var r := Bisect(probe, s, t0, t1, v0, DTOL, TTOL);
      r.1 ==> r.0.bTime.Some? && Settled(probe, r.0, r.0.bTime.value)
              && Equal(r.0.bTime.value - r.0.timing.t1, 0.0, DTOL)
    decreases Halvings(Abs(t1 - t0), TTOL)
  {
    var tm := (t0 + t1) / 2.0;
    var (s1, ok) := probe(s, tm);
    if ok {
      var vm := tm - s1.timing.t1;
      if !Equal(vm, 0.0, DTOL) {
        var k := Keep(t0, t1, v0, tm, vm);
        if Abs(k.1 - k.0) > TTOL {
          HalvingShrinks(Abs(t1 - t0), TTOL);
          BisectSound(probe, s1, k.0, k.1, k.2, DTOL, TTOL);
        }
      }
    }
  }

  /** A bisection turn that keeps a bracket wider than `TTOL` continues on it. */
  lemma BisectContinues(probe: Probe, s: Search, t0: real, t1: real, v0: real, DTOL: real, TTOL: real,
                        s1: Search, k: (real, real, real))
    requires TTOL > 0.0 && probe(s, (t0 + t1) / 2.0) == (s1, true)
    requires !Equal((t0 + t1) / 2.0 - s1.timing.t1, 0.0, DTOL)
    requires k == Keep(t0, t1, v0, (t0 + t1) / 2.0, (t0 + t1) / 2.0 - s1.timing.t1) && Abs(k.1 - k.0) > TTOL
    ensures Halvings(Abs(k.1 - k.0), TTOL) < Halvings(Abs(t1 - t0), TTOL)
    ensures Bisect(probe, s, t0, t1, v0, DTOL, TTOL) == Bisect(probe, s1, k.0, k.1, k.2, DTOL, TTOL)
  {
    HalvingShrinks(Abs(t1 - t0), TTOL);
  }

  /** `FindAsRoot`'s do-while loop on the link object. */
  method FindAsRoot(link: ScriptedLink, t0: real, t1: real, v0: real, v1: real, DTOL: real, TTOL: real)
    returns (found: bool)
    requires TTOL > 0.0
    modifies link
    ensures (link.State(), found) == Bisect(link.probe, old(link.State()), t0, t1, v0, DTOL, TTOL)
    ensures link.vel == old(link.vel)
  {
    ghost var probe := link.probe;
    ghost var goal := Bisect(probe, link.State(), t0, t1, v0, DTOL, TTOL);
    var a, b, va, vb := t0, t1, v0, v1;
    while true
      invariant Bisect(probe, link.State(), a, b, va, DTOL, TTOL) == goal
      invariant link.vel == old(link.vel)
      decreases Halvings(Abs(b - a), TTOL)
    {
      var tm := (a + b) / 2.0;
      ghost var s := link.State();
      var ok := link.FindT(tm);
      ghost var s1 := link.State();
      assert probe(s, tm) == (s1, ok);
      if !ok {
        return false;
      }
      var vm := tm - link.timing.t1;
      if Equal(vm, 0.0, DTOL) {
        return true;
      }
      ghost var k := Keep(a, b, va, tm, vm);
      ghost var a0, b0, va0 := a, b, va;
      if Sign(va) == Sign(vm) {
        a, va := tm, vm;
      } else {
        b, vb := tm, vm;
      }
      assert (a, b, va) == k;
      if !(Abs(b - a) > TTOL) {
        return false;
      }
      BisectContinues(probe, s, a0, b0, va0, DTOL, TTOL, s1, k);
    }
  }

  // ------------------------------------------------------------ the minimiser

  /**
   * One run of the GSL simplex minimiser on `|t - t1(t)|`: the times at which
   * it evaluated the objective, in order, and whether it stopped at a value
   * within `DTOL`.  The run is fixed by its inputs, since the objective only
   * depends on the probed time.
   */
  datatype MinimiserRun = MinimiserRun(probes: seq<real>, found: bool)

  /** The minimiser, given the bracket, the mirrored end values and the two tolerances. */
  type Minimiser = (real, real, real, real, real, real) -> MinimiserRun

  /**
   * The link state after the objective was evaluated at `probes`: each
   * evaluation solves the link, except, in the newer version (`inRange`),
   * for times outside `[lo, hi]`, which give NaN without solving.
   */
  function RunProbes(probe: Probe, s: Search, probes: seq<real>, lo: real, hi: real, inRange: bool): Search
    decreases |probes|
  {
    if probes == [] then s
    else
      var before := RunProbes(probe, s, probes[..|probes| - 1], lo, hi, inRange);
      var t := probes[|probes| - 1];
      if inRange && !(lo <= t <= hi) then before else probe(before, t).0
  }

  /**
   * The minimiser leaves the client where it was or at one of the times it
   * evaluated; in the newer version that time lies in the bracket.
   */
  lemma {:induction false} RunProbesLands(probe: Probe, s: Search, probes: seq<real>, lo: real, hi: real, inRange: bool)
    requires MovesClient(probe)
    ensures var r := RunProbes(probe, s, probes, lo, hi, inRange);
      r == s || exists i :: 0 <= i < |probes| && r.bTime == Some(probes[i]) && (inRange ==> lo <= probes[i] <= hi)
    decreases |probes|
  {
    if probes != [] {
      var n := |probes| - 1;
      RunProbesLands(probe, s, probes[..n], lo, hi, inRange);
      var before := RunProbes(probe, s, probes[..n], lo, hi, inRange);
      if before != s && !(inRange && !(lo <= probes[n] <= hi)) {
        assert RunProbes(probe, s, probes, lo, hi, inRange).bTime == Some(probes[n]);
      } else if before != s {
        var i :| 0 <= i < n && before.bTime == Some(probes[..n][i]) && (inRange ==> lo <= probes[..n][i] <= hi);
        assert probes[..n][i] == probes[i];
      }
    }
  }

  /** `FindMinimum`: run the minimiser and let its objective evaluations move the link. */
  method FindMinimum(link: ScriptedLink, minimise: Minimiser, t0: real, t1: real, v0: real, v1: real,
                     DTOL: real, TTOL: real, inRange: bool)
    returns (found: bool)
    modifies link
    ensures var run := minimise(t0, t1, Abs(v0), Abs(v1), DTOL, TTOL);
      found == run.found
      && link.State() == RunProbes(link.probe, old(link.State()), run.probes, t0, t1, inRange)
    ensures link.vel == old(link.vel)
  {
    var run := minimise(t0, t1, Abs(v0), Abs(v1), DTOL, TTOL);
    ghost var probe := link.probe;
    ghost var s0 := link.State();
    for i := 0 to |run.probes|
      invariant link.State() == RunProbes(probe, s0, run.probes[..i], t0, t1, inRange)
      invariant link.vel == old(link.vel)
    {
      var t := run.probes[i];
      assert run.probes[..i + 1][..i] == run.probes[..i];
      if !inRange || (t0 <= t <= t1) {
        ghost var s := link.State();
        var _ := link.FindT(t);
        assert link.State() == probe(s, t).0;
      }
    }
    assert run.probes[..|run.probes|] == run.probes;
    return run.found;
  }

  // ------------------------------------------------------------ the scan

  /**
   * How a scan searches: `Math::Equal`'s default tolerance, which version of
   * the window and of the minimiser's objective it follows, the minimiser
   * and the velocity geometry.
   */
  datatype Policy = Policy(eps: real, legacy: bool, minimise: Minimiser, motion: MotionOf)

  /** The scan range `[t0, te)`, its step, and the tolerances handed to the refinements. */
  datatype ScanParams = ScanParams(t0: real, te: real, ts: real, tt: real, td: real, policy: Policy)

  /** The scan's preconditions: a positive step and a positive bisection tolerance. */
  predicate ScanReady(sp: ScanParams) {
    sp.ts > 0.0 && sp.td > 0.0
  }

  /** The window's tolerance, a tenth of the scan step. */
  function WindowTol(sp: ScanParams): real { sp.ts / 10.0 }

  /**
   * The number of scan times left from `t` on: the times `t, t + ts, ...`
   * below `te`.
   */
  function TimesLeft(sp: ScanParams, t: real): nat
    requires sp.ts > 0.0
  {
    StepsLeft(t, sp.te, sp.ts)
  }

  /** The number of scan times of the whole range. */
  function Samples(sp: ScanParams): nat
    requires sp.ts > 0.0
  {
    TimesLeft(sp, sp.t0)
  }

  /** Each step of the scan uses up exactly one of the times left. */
  lemma TimesLeftStep(sp: ScanParams, t: real)
    requires sp.ts > 0.0 && t < sp.te
    ensures TimesLeft(sp, t) >= 1 && TimesLeft(sp, t + sp.ts) == TimesLeft(sp, t) - 1
  {
    StepsLeftStep(t, sp.te, sp.ts);
  }

  /** A sample's number; NaN samples are never at the ends of a bracket that is refined. */
  function Delta(p: Point): real {
    p.delta.GetOr(0.0)
  }

  /** The outcome of one scan time: the link state, the window, and the link pushed, if any. */
  datatype StepOut = StepOut(search: Search, window: seq<Point>, pushed: Option<Link>)

  /** The mismatch `t - t1` a probe pushes into the window, NaN when it failed. */
  function Mismatch(t: real, s1: Search, ok: bool): Option<real> {
    if ok then Some(t - s1.timing.t1) else None
  }

  /** The pattern of a window and the bracket `GetRoot` gives for it. */
  function BracketOf(sp: ScanParams, w: seq<Point>): (Point, Point, Pattern)
    requires |w| == 3
  {
    Bracket(PatternFor(sp.policy.legacy, w[0], w[1], w[2], sp.policy.eps), w[0], w[1], w[2])
  }

  /**
   * One turn of the scan at time `t`: solve for `t` and push the mismatch (NaN
   * on failure); on a pattern, refine the bracket it gives (nothing to do for
   * a root, bisection for a sign change, the minimiser for an extremum) and
   * push the completed link (`fix`) when that succeeds.
   */
  function Step(probe: Probe, fix: Search -> Link, sp: ScanParams, s: Search, win: seq<Point>, t: real): (r: StepOut)
    requires ScanReady(sp) && |win| == 3
    ensures |r.window| == 3
  {
    var (s1, ok) := probe(s, t);
    var win1 := Shift(win, t, Mismatch(t, s1, ok), WindowTol(sp));
    if !ok then StepOut(s1, win1, None)
    else
      var (s2, pushed) := Refine(probe, fix, sp, s1, BracketOf(sp, win1));
      StepOut(s2, win1, pushed)
  }

  /**
   * The refinement of a bracket `b` from link state `s1`: nothing to do for a
   * root, bisection for a sign change, the minimiser for an extremum; the
   * link completed from the state it leaves, when that succeeds.
   */
  function Refine(probe: Probe, fix: Search -> Link, sp: ScanParams, s1: Search, b: (Point, Point, Pattern))
    : (r: (Search, Option<Link>))
    requires ScanReady(sp)
    ensures b.2 == NoPattern ==> r == (s1, None)
    ensures r.1.Some? ==> r.1.value == fix(r.0)
  {
    match b.2
    case NoPattern => (s1, None)
    case Root => (s1, Some(fix(s1)))
    case SignChange =>
      var (s2, found) := Bisect(probe, s1, b.0.time, b.1.time, Delta(b.0), sp.tt, sp.td);
      (s2, if found then Some(fix(s2)) else None)
    case Extremum =>
      var run := sp.policy.minimise(b.0.time, b.1.time, Abs(Delta(b.0)), Abs(Delta(b.1)), sp.tt, sp.td);
      var s2 := RunProbes(probe, s1, run.probes, b.0.time, b.1.time, !sp.policy.legacy);
      (s2, if run.found then Some(fix(s2)) else None)
  }

  /**
   * The links the scan pushes from time `t` on, starting from link state `s`
   * and window `win`, the time advancing by `ts` while it is below `te`.
   */
  function ScanFrom(probe: Probe, fix: Search -> Link, sp: ScanParams, s: Search, win: seq<Point>, t: real): seq<Link>
    requires ScanReady(sp) && |win| == 3
    decreases TimesLeft(sp, t)
  {
    if !(t < sp.te) then []
    else
      TimesLeftStep(sp, t);
      var out := Step(probe, fix, sp, s, win, t);
      Emitted(out) + ScanFrom(probe, fix, sp, out.search, out.window, t + sp.ts)
  }

  /** What one scan time adds to the links. */
  function Emitted(out: StepOut): (r: seq<Link>)
    ensures |r| <= 1
  {
    if out.pushed.Some? then [out.pushed.value] else []
  }

  /** At most one link per remaining scan time. */
  lemma {:induction false} ScanFromBound(probe: Probe, fix: Search -> Link, sp: ScanParams, s: Search, win: seq<Point>, t: real)
    requires ScanReady(sp) && |win| == 3
    ensures |ScanFrom(probe, fix, sp, s, win, t)| <= TimesLeft(sp, t)
    decreases TimesLeft(sp, t)
  {
    if t < sp.te {
      TimesLeftStep(sp, t);
      var out := Step(probe, fix, sp, s, win, t);
      ScanFromBound(probe, fix, sp, out.search, out.window, t + sp.ts);
    }
  }

  /**
   * A link pushed for a root or for a refined sign change completes a state
   * settled at the time its client was left at, with a mismatch within the
   * window's or the bisection's tolerance; one pushed for an extremum comes
   * from a minimiser run that reported success.
   */
  lemma StepSound(probe: Probe, fix: Search -> Link, sp: ScanParams, s: Search, win: seq<Point>, t: real)
    requires ScanReady(sp) && WindowConsistent(win, WindowTol(sp))
    requires MovesClient(probe) && SettlesOnSuccess(probe)
    ensures var r := Step(probe, fix, sp, s, win, t);
      var b := BracketOf(sp, r.window);
      WindowConsistent(r.window, WindowTol(sp))
      && (r.pushed.Some? ==>
            r.pushed.value == fix(r.search)
            && (b.2 == Root ==> Settled(probe, r.search, t) && Equal(t - r.search.timing.t1, 0.0, WindowTol(sp)))
            && (b.2 == SignChange ==>
                  r.search.bTime.Some? && Settled(probe, r.search, r.search.bTime.value)
                  && Equal(r.search.bTime.value - r.search.timing.t1, 0.0, sp.tt))
            && (b.2 == Extremum ==>
                  sp.policy.minimise(b.0.time, b.1.time, Abs(Delta(b.0)), Abs(Delta(b.1)), sp.tt, sp.td).found))
  {
    var (s1, ok) := probe(s, t);
    ShiftConsistent(win, t, Mismatch(t, s1, ok), WindowTol(sp));
    if ok {
      var win1 := Shift(win, t, Mismatch(t, s1, ok), WindowTol(sp));
      var b := BracketOf(sp, win1);
      if b.2 == Root {
        RootIsWithinTolerance(sp, win1, t, s1);
      } else if b.2 == SignChange {
        BisectSound(probe, s1, b.0.time, b.1.time, Delta(b.0), sp.tt, sp.td);
      }
    }
  }

  /** A root pattern means the newest mismatch is within the window's tolerance. */
  lemma RootIsWithinTolerance(sp: ScanParams, win1: seq<Point>, t: real, s1: Search)
    requires sp.ts > 0.0 && WindowConsistent(win1, WindowTol(sp))
    requires win1[0] == Point(DeduceState(Some(t - s1.timing.t1), WindowTol(sp)), Some(t - s1.timing.t1), t)
    requires BracketOf(sp, win1).2 == Root
    ensures Equal(t - s1.timing.t1, 0.0, WindowTol(sp))
  {
    ConsistentStates(win1, WindowTol(sp));
    PatternMeaning(win1[0], win1[1], win1[2], sp.policy.eps);
    LegacyPatternMeaning(win1[0], win1[1], win1[2], sp.policy.eps);
    DeduceStateBands(Some(t - s1.timing.t1), WindowTol(sp));
  }

  /** One more scan time: what it emits, followed by the rest of the scan, completes the goal. */
  lemma ScanAdvance(probe: Probe, fix: Search -> Link, sp: ScanParams, s: Search, win: seq<Point>, t: real,
                    pre: seq<Link>, goal: seq<Link>, s1: Search, win1: seq<Point>, pushed: Option<Link>,
                    links: seq<Link>)
    requires ScanReady(sp) && |win| == 3 && t < sp.te
    requires ScanRemains(probe, fix, sp, s, win, t, pre, goal)
    requires Step(probe, fix, sp, s, win, t) == StepOut(s1, win1, pushed)
    requires links == if pushed.Some? then pre + [pushed.value] else pre
    ensures |win1| == 3
    ensures ScanRemains(probe, fix, sp, s1, win1, t + sp.ts, links, goal)
  {
    var out := StepOut(s1, win1, pushed);
    ScanFromStep(probe, fix, sp, s, win, t, out);
    Associative(pre, Emitted(out), ScanFrom(probe, fix, sp, s1, win1, t + sp.ts));
  }

  lemma ScanFromStep(probe: Probe, fix: Search -> Link, sp: ScanParams, s: Search, win: seq<Point>, t: real,
                     out: StepOut)
    requires ScanReady(sp) && |win| == 3 && t < sp.te
    requires Step(probe, fix, sp, s, win, t) == out
    ensures |out.window| == 3
    ensures ScanFrom(probe, fix, sp, s, win, t) == Emitted(out) + ScanFrom(probe, fix, sp, out.search, out.window, t + sp.ts)
  {
  }

  lemma Associative(a: seq<Link>, b: seq<Link>, c: seq<Link>)
    ensures (a + b) + c == a + (b + c)
  {
  }

  /** The link `FixParams` completes from a search state, as it is pushed. */
  function Fixed(ctx: LinkCtx, d: Departure, motion: MotionOf, s: Search): Link {
    ToLink(d, s.arr, s.orbit, s.timing, FixVelocities(motion(d, s.arr, s.orbit), ctx.VA, VelocityAt(ctx.bConn, s.bTime)))
  }

  /** `FixParams` followed by reading the link, as a function of the search state. */
  function Fixer(ctx: LinkCtx, d: Departure, motion: MotionOf): Search -> Link {
    (s: Search) => Fixed(ctx, d, motion, s)
  }

  /**
   * A link completed from a state solved at `T` within `tol` leaves the
   * departure point at `t0`, reaches the arrival body's position at `T`
   * after `dt`, at a time within `tol` of `T`, on an ellipse through the
   * departure point, with the speeds relative to both bodies at their times.
   */
  lemma SolvedLinkMeetsBody(ctx: LinkCtx, d: Departure, motion: MotionOf, s: Search, T: real, tol: real)
    requires CosBounded(ctx.f) && SolvedAt(ctx, d, s, T) && Equal(T - s.timing.t1, 0.0, tol)
    ensures var l := Fixed(ctx, d, motion, s);
      l.t0 == d.t0 && l.R0 == d.R0 && l.R1 == LocationAt(ctx.bConn, Some(T))
      && l.t1 == l.t0 + l.dt && Equal(T - l.t1, 0.0, tol)
      && 0.0 <= l.e < 0.99 && l.p > 0.0 && OnConic(ctx.f, l.e, l.p, l.q0, d.r0)
      && l.W1 == Sub(l.V1, VelocityAt(ctx.bConn, Some(T)))
  {
    SolvedAtMeaning(ctx, d, s, T);
    FixedFields(ctx, d, motion, s);
  }

  /** Where the fields of a completed link come from. */
  lemma FixedFields(ctx: LinkCtx, d: Departure, motion: MotionOf, s: Search)
    ensures var l := Fixed(ctx, d, motion, s);
      l.t0 == d.t0 && l.R0 == d.R0 && l.R1 == s.arr.R1
      && (l.e, l.p, l.q0, l.q1, l.a, l.dt, l.t1) == (s.orbit.e, s.orbit.p, s.orbit.q0, s.orbit.q1, s.orbit.a, s.timing.dt, s.timing.t1)
      && l.W0 == Sub(l.V0, ctx.VA) && l.W1 == Sub(l.V1, VelocityAt(ctx.bConn, s.bTime))
  {
  }

  /** `FindLinks` for one departure angle, on a link object and a fresh window. */
  method ScanLink(link: ScriptedLink, sp: ScanParams) returns (links: seq<Link>)
    requires ScanReady(sp)
    modifies link
    ensures links == ScanFrom(link.probe, Fixer(link.ctx, link.dep, sp.policy.motion), sp,
                              old(link.State()), EmptyWindow, sp.t0)
  {
    var window := new RootWindowHelper(WindowTol(sp), sp.policy.eps, sp.policy.legacy);
    links := ScanWith(link, window, sp);
  }

  /** `FindLinks`' scan loop, on a link object and a window. */
  method ScanWith(link: ScriptedLink, window: RootWindowHelper, sp: ScanParams) returns (links: seq<Link>)
    requires ScanReady(sp) && window.Valid() && window.DTOL == WindowTol(sp)
    requires window.eps == sp.policy.eps && window.legacy == sp.policy.legacy
    modifies link, window.window
    ensures links == ScanFrom(link.probe, Fixer(link.ctx, link.dep, sp.policy.motion), sp,
                              old(link.State()), old(window.window[..]), sp.t0)
  {
    ghost var probe := link.probe;
    ghost var fix := Fixer(link.ctx, link.dep, sp.policy.motion);
    ghost var goal := ScanFrom(probe, fix, sp, link.State(), window.window[..], sp.t0);
    links := [];
    var t := sp.t0;
    assert [] + goal == goal;
    while t < sp.te
      invariant window.Valid() && ScanRemains(probe, fix, sp, link.State(), window.window[..], t, links, goal)
      decreases TimesLeft(sp, t)
    {
      links := ScanStep(link, window, sp, t, links, goal);
      t := t + sp.ts;
    }
    assert ScanFrom(probe, fix, sp, link.State(), window.window[..], t) == [];
    assert links + [] == links;
  }

  /** The scan loop's invariant: what is collected plus what the rest of the scan collects is the whole scan. */
  ghost predicate ScanRemains(probe: Probe, fix: Search -> Link, sp: ScanParams, s: Search, w: seq<Point>, t: real,
                              links: seq<Link>, goal: seq<Link>)
    requires ScanReady(sp) && |w| == 3
  {
    links + ScanFrom(probe, fix, sp, s, w, t) == goal
  }

  /** One turn of the scan loop, appending what it pushes. */
  method ScanStep(link: ScriptedLink, window: RootWindowHelper, sp: ScanParams, t: real, links: seq<Link>,
                  ghost goal: seq<Link>)
    returns (links': seq<Link>)
    requires ScanReady(sp) && window.Valid() && window.DTOL == WindowTol(sp) && t < sp.te
    requires window.eps == sp.policy.eps && window.legacy == sp.policy.legacy
    requires ScanRemains(link.probe, Fixer(link.ctx, link.dep, sp.policy.motion), sp, link.State(), window.window[..], t, links, goal)
    modifies link, window.window
    ensures window.Valid() && TimesLeft(sp, t + sp.ts) < TimesLeft(sp, t)
    ensures ScanRemains(link.probe, Fixer(link.ctx, link.dep, sp.policy.motion), sp, link.State(), window.window[..], t + sp.ts, links', goal)
  {
    TimesLeftStep(sp, t);
    ghost var s0 := link.State();
    ghost var w0 := window.window[..];
    var pushed := ScanTurn(link, window, sp, t);
    links' := if pushed.Some? then links + [pushed.value] else links;
    ScanAdvance(link.probe, Fixer(link.ctx, link.dep, sp.policy.motion), sp, s0, w0, t, links, goal,
                link.State(), window.window[..], pushed, links');
  }


  /** The body of `FindLinks`' loop for one scan time. */
  method ScanTurn(link: ScriptedLink, window: RootWindowHelper, sp: ScanParams, t: real)
    returns (pushed: Option<Link>)
    requires ScanReady(sp) && window.Valid() && window.DTOL == WindowTol(sp)
    requires window.eps == sp.policy.eps && window.legacy == sp.policy.legacy
    modifies link, window.window
    ensures window.Valid()
    ensures Step(link.probe, Fixer(link.ctx, link.dep, sp.policy.motion), sp, old(link.State()), old(window.window[..]), t)
            == StepOut(link.State(), window.window[..], pushed)
  {
    ghost var probe := link.probe;
    ghost var s := link.State();
    var ok := link.FindT(t);
    assert (link.State(), ok) == probe(s, t);
    if !ok {
      window.Push(t, None);
      return None;
    }
    window.Push(t, Some(t - link.timing.t1));
    if !window.CheckRoot() {
      return None;
    }
    var b := window.GetRoot();
    assert b == BracketOf(sp, window.window[..]);
    pushed := RefineBracket(link, sp, b);
  }

  /** The refinement `FindLinks` runs on a bracket, and the link it pushes. */
  method RefineBracket(link: ScriptedLink, sp: ScanParams, b: (Point, Point, Pattern)) returns (pushed: Option<Link>)
    requires ScanReady(sp) && b.2 != NoPattern
    modifies link
    ensures (link.State(), pushed) == Refine(link.probe, Fixer(link.ctx, link.dep, sp.policy.motion), sp, old(link.State()), b)
  {
    match b.2 {
      case Root =>
      case SignChange =>
        var found := FindAsRoot(link, b.0.time, b.1.time, Delta(b.0), Delta(b.1), sp.tt, sp.td);
        if !found {
          return None;
        }
      case Extremum =>
        var found := FindMinimum(link, sp.policy.minimise, b.0.time, b.1.time, Delta(b.0), Delta(b.1),
                                 sp.tt, sp.td, !sp.policy.legacy);
        if !found {
          return None;
        }
    }
    link.FixParams(sp.policy.motion);
    pushed := Some(link.AsLink());
  }

  // ------------------------------------------------------------ entry points

  function CtxOf(f: Funcs, cfg: ScriptedConfig): LinkCtx {
    LinkCtx(f, cfg.bConn, cfg.GM, cfg.VA)
  }

  function ParamsOf(cfg: ScriptedConfig, pol: Policy): ScanParams
    requires cfg.t0.Some?
  {
    ScanParams(cfg.t0.value, cfg.te, cfg.ts, cfg.tt, cfg.td, pol)
  }

  /** What `FindLinks(links, cfg, f0)` appends; a NaN `t0` makes the scan loop empty. */
  function ScriptedLinks(f: Funcs, cfg: ScriptedConfig, pol: Policy, f0: real): (r: seq<Link>)
    requires CosBounded(f) && cfg.ts > 0.0 && cfg.td > 0.0
    ensures cfg.t0.None? ==> r == []
  {
    if cfg.t0.None? then []
    else
      var d := StartOf(f, cfg.t0.value, cfg.RA, f0);
      ScanFrom(LinkProbe(CtxOf(f, cfg), d), Fixer(CtxOf(f, cfg), d, pol.motion), ParamsOf(cfg, pol),
               FreshSearch.(bTime := cfg.bTime), EmptyWindow, cfg.t0.value)
  }

  /** The links of one scan per departure angle, in the order of the angles. */
  function Concat(scan: real -> seq<Link>, f0s: seq<real>): seq<Link>
    decreases |f0s|
  {
    if f0s == [] then [] else Concat(scan, f0s[..|f0s| - 1]) + scan(f0s[|f0s| - 1])
  }

  /** Appending the next angle's scan extends the concatenation by one angle. */
  lemma ConcatSnoc(scan: real -> seq<Link>, f0s: seq<real>, i: nat, links: seq<Link>, out: seq<Link>)
    requires i < |f0s| && out == links + Concat(scan, f0s[..i])
    ensures out + scan(f0s[i]) == links + Concat(scan, f0s[..i + 1])
  {
    assert f0s[..i + 1][..i] == f0s[..i];
    var x := Concat(scan, f0s[..i]);
    assert Concat(scan, f0s[..i + 1]) == x + scan(f0s[i]);
    assert (links + x) + scan(f0s[i]) == links + (x + scan(f0s[i]));
  }

  /** Scans of at most `n` links each give at most `n` links per angle. */
  lemma {:induction false} ConcatBound(scan: real -> seq<Link>, f0s: seq<real>, n: nat)
    requires forall f0 :: |scan(f0)| <= n
    ensures |Concat(scan, f0s)| <= |f0s| * n
    decreases |f0s|
  {
    if f0s != [] {
      var m := |f0s| - 1;
      ConcatBound(scan, f0s[..m], n);
      MulSucc(m, n);
    }
  }

  /** A link of the concatenation comes from the scan of one of the angles. */
  lemma {:induction false} ConcatMember(scan: real -> seq<Link>, f0s: seq<real>, l: Link)
    requires l in Concat(scan, f0s)
    ensures exists i :: 0 <= i < |f0s| && l in scan(f0s[i])
    decreases |f0s|
  {
    var n := |f0s| - 1;
    var pre := Concat(scan, f0s[..n]);
    assert Concat(scan, f0s) == pre + scan(f0s[n]);
    if l in pre {
      ConcatMember(scan, f0s[..n], l);
      var i :| 0 <= i < n && l in scan(f0s[..n][i]);
      assert f0s[..n][i] == f0s[i];
    } else {
      assert l in scan(f0s[n]);
    }
  }

  /** Scans that all find nothing find nothing together. */
  lemma {:induction false} ConcatNone(scan: real -> seq<Link>, f0s: seq<real>)
    requires forall f0 :: scan(f0) == []
    ensures Concat(scan, f0s) == []
    decreases |f0s|
  {
    if f0s != [] {
      ConcatNone(scan, f0s[..|f0s| - 1]);
    }
  }

  lemma MulSucc(n: nat, m: nat)
    ensures (n + 1) * m == n * m + m
  {
  }

  /** `FindLinks(links, cfg, f0)` as a function of the departure angle. */
  function ScanOf(f: Funcs, cfg: ScriptedConfig, pol: Policy): real -> seq<Link>
    requires CosBounded(f) && cfg.ts > 0.0 && cfg.td > 0.0
  {
    (f0: real) => ScriptedLinks(f, cfg, pol, f0)
  }

  /** What `FindLinks(links, cfg, f0s)` appends: the scans for each angle, in order. */
  function AllScriptedLinks(f: Funcs, cfg: ScriptedConfig, pol: Policy, f0s: seq<real>): (r: seq<Link>)
    requires CosBounded(f) && cfg.ts > 0.0 && cfg.td > 0.0
    ensures cfg.t0.None? ==> r == []
  {
    if cfg.t0.None? then ConcatNone(ScanOf(f, cfg, pol), f0s); Concat(ScanOf(f, cfg, pol), f0s)
    else Concat(ScanOf(f, cfg, pol), f0s)
  }

  /** At most one link per scan time. */
  lemma ScriptedLinksBound(f: Funcs, cfg: ScriptedConfig, pol: Policy, f0: real)
    requires CosBounded(f) && cfg.ts > 0.0 && cfg.td > 0.0 && cfg.t0.Some?
    ensures |ScriptedLinks(f, cfg, pol, f0)| <= Samples(ParamsOf(cfg, pol))
  {
    var d := StartOf(f, cfg.t0.value, cfg.RA, f0);
    ScanFromBound(LinkProbe(CtxOf(f, cfg), d), Fixer(CtxOf(f, cfg), d, pol.motion), ParamsOf(cfg, pol),
                  FreshSearch.(bTime := cfg.bTime), EmptyWindow, cfg.t0.value);
  }

  /** At most one link per departure angle and scan time. */
  lemma AllScriptedLinksBound(f: Funcs, cfg: ScriptedConfig, pol: Policy, f0s: seq<real>)
    requires CosBounded(f) && cfg.ts > 0.0 && cfg.td > 0.0 && cfg.t0.Some?
    ensures |AllScriptedLinks(f, cfg, pol, f0s)| <= |f0s| * Samples(ParamsOf(cfg, pol))
  {
    var scan := ScanOf(f, cfg, pol);
    forall f0
      ensures |scan(f0)| <= Samples(ParamsOf(cfg, pol))
    {
      ScriptedLinksBound(f, cfg, pol, f0);
    }
    ConcatBound(scan, f0s, Samples(ParamsOf(cfg, pol)));
  }

  method FindScriptedLinks(links: seq<Link>, f: Funcs, cfg: ScriptedConfig, pol: Policy, f0s: seq<real>)
    returns (out: seq<Link>)
    requires CosBounded(f) && cfg.ts > 0.0 && cfg.td > 0.0
    ensures out == links + AllScriptedLinks(f, cfg, pol, f0s)
  {
    ghost var scan := ScanOf(f, cfg, pol);
    out := links;
    for i := 0 to |f0s|
      invariant out == links + Concat(scan, f0s[..i])
    {
      var found := ScanOne(f, cfg, pol, f0s[i]);
      ConcatSnoc(scan, f0s, i, links, out);
      out := out + found;
    }
    assert f0s[..|f0s|] == f0s;
  }

  /** The body of `FindLinks(links, cfg, f0s)`'s loop: one link object per angle. */
  method ScanOne(f: Funcs, cfg: ScriptedConfig, pol: Policy, f0: real) returns (found: seq<Link>)
    requires CosBounded(f) && cfg.ts > 0.0 && cfg.td > 0.0
    ensures found == ScriptedLinks(f, cfg, pol, f0)
  {
    if cfg.t0.None? {
      return [];
    }
    var link := new ScriptedLink(f, cfg, f0);
    found := ScanLink(link, ParamsOf(cfg, pol));
  }

  // ------------------------------------------------------------ fixed end points

  /** `StaticLink(conf, f0)`'s departure state. */
  function StaticStart(f: Funcs, cfg: StaticConfig, f0: real): (d: Departure)
    requires cfg.t0.Some?
    ensures d == StartOf(f, cfg.t0.value, cfg.RA, f0)
  {
    StartOf(f, cfg.t0.value, cfg.RA, f0)
  }

  /** `StaticLink(conf, f0)`'s arrival point: `RB`, its radius and its angle from `RA`. */
  function StaticArrival(f: Funcs, cfg: StaticConfig): (r: Arrival)
    ensures r.R1 == cfg.RB && r.r1 == Size(f, cfg.RB) && r.Q1 == f.angle2Pos(cfg.RA, cfg.RB)
  {
    Arrival(cfg.RB, Size(f, cfg.RB), 0.0 + f.angle2Pos(cfg.RA, cfg.RB))
  }

  /** The link the static search keeps for angle `f0`, if its arc solves. */
  function StaticLinkFor(f: Funcs, cfg: StaticConfig, motion: MotionOf, f0: real): (r: Option<Link>)
    requires CosBounded(f) && cfg.t0.Some?
  {
    var d := StaticStart(f, cfg, f0);
    var arr := StaticArrival(f, cfg);
    var (o, tm, ok) := Solve(f, cfg.GM, d, arr, ZeroOrbit, ZeroTiming);
    if ok then Some(ToLink(d, arr, o, tm, FixVelocities(motion(d, arr, o), cfg.VA, cfg.VB))) else None
  }

  /** The links one angle contributes: the link, if there is one. */
  function Found(l: Option<Link>): (r: seq<Link>)
    ensures |r| <= 1 && (forall x <- r :: l == Some(x))
  {
    if l.Some? then [l.value] else []
  }

  /** The static `FindLinks` body for one angle, as a function of the angle. */
  function StaticScan(f: Funcs, cfg: StaticConfig, motion: MotionOf): real -> seq<Link>
    requires CosBounded(f) && cfg.t0.Some?
  {
    (f0: real) => Found(StaticLinkFor(f, cfg, motion, f0))
  }

  /** What the static `FindLinks` appends: one link per angle whose arc solves, in order. */
  function StaticLinks(f: Funcs, cfg: StaticConfig, motion: MotionOf, f0s: seq<real>): (r: seq<Link>)
    requires CosBounded(f) && cfg.t0.Some?
    ensures |r| <= |f0s|
  {
    ConcatBound(StaticScan(f, cfg, motion), f0s, 1);
    Concat(StaticScan(f, cfg, motion), f0s)
  }

  /**
   * A static link runs from `RA` to `RB`, leaves at `t0`, arrives `dt` later
   * on an ellipse through `RA`, and carries the velocities relative to `VA`
   * and `VB`.
   */
  lemma StaticLinkSound(f: Funcs, cfg: StaticConfig, motion: MotionOf, f0: real)
    requires CosBounded(f) && cfg.t0.Some?
    requires StaticLinkFor(f, cfg, motion, f0).Some?
    ensures var l := StaticLinkFor(f, cfg, motion, f0).value;
      l.R0 == cfg.RA && l.R1 == cfg.RB && l.t0 == cfg.t0.value && l.t1 == l.t0 + l.dt
      && 0.0 <= l.e < 0.99 && l.p > 0.0 && OnConic(f, l.e, l.p, l.q0, l.r0)
      && l.W0 == Sub(l.V0, cfg.VA) && l.W1 == Sub(l.V1, cfg.VB)
  {
    SolveSound(f, cfg.GM, StaticStart(f, cfg, f0), StaticArrival(f, cfg), ZeroOrbit, ZeroTiming);
  }

  /** Every link the static search appends is the link of one of the angles. */
  lemma StaticLinksSound(f: Funcs, cfg: StaticConfig, motion: MotionOf, f0s: seq<real>)
    requires CosBounded(f) && cfg.t0.Some?
    ensures forall l <- StaticLinks(f, cfg, motion, f0s) ::
      exists i :: 0 <= i < |f0s| && StaticLinkFor(f, cfg, motion, f0s[i]) == Some(l)
  {
    var scan := StaticScan(f, cfg, motion);
    forall l <- StaticLinks(f, cfg, motion, f0s)
      ensures exists i :: 0 <= i < |f0s| && StaticLinkFor(f, cfg, motion, f0s[i]) == Some(l)
    {
      ConcatMember(scan, f0s, l);
      var i :| 0 <= i < |f0s| && l in scan(f0s[i]);
      assert StaticLinkFor(f, cfg, motion, f0s[i]) == Some(l);
    }
  }

  method FindStaticLinks(links: seq<Link>, f: Funcs, cfg: StaticConfig, motion: MotionOf, f0s: seq<real>)
    returns (out: seq<Link>)
    requires CosBounded(f) && cfg.t0.Some?
    ensures out == links + StaticLinks(f, cfg, motion, f0s)
  {
    ghost var scan := StaticScan(f, cfg, motion);
    out := links;
    for i := 0 to |f0s|
      invariant out == links + Concat(scan, f0s[..i])
    {
      var l := StaticLinkFor(f, cfg, motion, f0s[i]);
      ConcatSnoc(scan, f0s, i, links, out);
      if l.Some? {
        out := out + [l.value];
      }
    }
    assert f0s[..|f0s|] == f0s;
  }
}
