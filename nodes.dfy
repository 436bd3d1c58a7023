/**
 * The node feasibility rules of the mission model (public/nodes.hpp,
 * nodes.cpp).  A departure node pays the impulse from its parking orbit out
 * to the sphere of influence, an arrival node the impulse from the sphere
 * down to its parking orbit, and a fly-by node must turn the velocity by an
 * angle the hyperbola through the sphere can realise.  Every check returns
 * its out-parameters and whether the node is feasible; a penalty correction
 * is added only on request.  The hyperbola's aiming distance and largest
 * kink are given functions, as are the square root, `pow` and the angle
 * between two vectors.
 */
module Nodes {
  import opened Wrappers
  import opened Numerics
  import opened Ephemerides
  import opened MissionTypes
  import Kepler = KeplerOrbit

  /** Where a departure or arrival node takes its orbital energy from. */
  datatype Energy =
    | Circular            // the circular parking orbit: `-GM / ParkingRadius`
    | EnergyDriven(h: real)  // a stored constant (`h0` of a departure, `h1` of an arrival)

  /**
   * The three node kinds with their limits; `Script` is the body's
   * ephemeris, a shared pointer that may be null.
   */
  datatype Node =
    | Departure(Script: Option<Driver>, ParkingRadius: real, SphereRadius: real,
                ImpulseLimit: real, A_impulse: real, K_impulse: real, energy: Energy)
    | Arrival(Script: Option<Driver>, ParkingRadius: real, SphereRadius: real,
              ImpulseLimit: real, A_impulse: real, K_impulse: real, energy: Energy)
    | FlyBy(Script: Option<Driver>, PlanetRadius: real, SphereRadius: real,
            MismatchLimit: real, A_mismatch: real, K_mismatch: real, A_kink: real, K_kink: real)

  /** `Kepler::Hiperbolic::bmin(v, r, rpl, GM)` and `kink(v, b, r, GM)`. */
  datatype Hyperbola = Hyperbola(bmin: (real, real, real, real) -> real, kink: (real, real, real, real) -> real)

  /** The given functions a check uses. */
  datatype Physics = Physics(f: Funcs, hb: Hyperbola)

  /**
   * What the checks demand: a bound ephemeris (the source dereferences it)
   * and non-zero radii wherever the Kepler relations divide by them.
   */
  predicate Checkable(node: Node) {
    node.Script.Some? && node.SphereRadius != 0.0
    && (node.Departure? || node.Arrival? ==> node.ParkingRadius != 0.0)
  }

  /** `Script->GetGM(0)`. */
  function GM0(node: Node): real
    requires node.Script.Some?
  {
    node.Script.value.GM(0.0)
  }

  // ---------------------------------------------------------------- impulses

  /**
   * `GetEscapeImpulse(r0, r1, h0, v2, GM)`: the speed change that takes a
   * body on an orbit of energy `h0` at radius `r0` to speed `v2` at radius
   * `r1`.  Below the escape speed at `r1` it pays the escape from `r0` and
   * then the missing speed at `r1`.
   */
  function GetEscapeImpulse(f: Funcs, r0: real, r1: real, h0: real, v2: real, GM: real): (r: real)
    requires r0 != 0.0 && r1 != 0.0
    ensures r >= 0.0
    ensures v2 <= EscapeSpeed(f, r1, GM) ==> r >= EscapeSpeed(f, r1, GM) - v2
  {
    var v0 := Kepler.VFromH(f, h0, r0, GM);
    var ve := EscapeSpeed(f, r1, GM);
    if v2 > ve then
      Abs(Kepler.VAt(f, v2, r1, r0, GM) - v0)
    else
      var v1 := Kepler.VFromH(f, 0.0, r0, GM);
      Abs(v1 - v0) + (ve - v2)
  }

  /** `kr::v(0, r, GM)`: the speed of a parabolic orbit at radius `r`. */
  function EscapeSpeed(f: Funcs, r: real, GM: real): (v: real)
    requires r != 0.0
    ensures SqrtLaws(f) && GM / r >= 0.0 ==> v >= 0.0
  {
    Kepler.VFromH(f, 0.0, r, GM)
  }

  /**
   * A departure costs nothing when the wanted speed at the sphere lies on
   * a hyperbola with exactly the parking energy.
   */
  lemma EscapeImpulseZero(f: Funcs, r0: real, r1: real, h0: real, v2: real, GM: real)
    requires r0 != 0.0 && r1 != 0.0
    requires v2 > EscapeSpeed(f, r1, GM) && Kepler.H(v2, r1, GM) == h0
    ensures GetEscapeImpulse(f, r0, r1, h0, v2, GM) == 0.0
  {
    Kepler.VAtConservesEnergy(f, v2, r1, r0, GM);
  }

  /**
   * `GetParkingImpulse(r0, r1, h1, va, GM)`: the speed change at `r1` from
   * the orbit a body arriving at `r0` with speed `va` is on to the orbit of
   * energy `h1`.
   */
  function GetParkingImpulse(f: Funcs, r0: real, r1: real, h1: real, va: real, GM: real): (r: real)
    requires r0 != 0.0 && r1 != 0.0
    ensures r >= 0.0
    ensures r == Abs(Kepler.VFromH(f, h1, r1, GM) - Kepler.VAt(f, va, r0, r1, GM))
  {
    var h0 := Kepler.H(va, r0, GM);
    var vt := Kepler.VFromH(f, h0, r1, GM);
    var v1 := Kepler.VFromH(f, h1, r1, GM);
    Kepler.VAtConservesEnergy(f, va, r0, r1, GM);
    Abs(v1 - vt)
  }

  /** An arrival already on an orbit of the target energy costs nothing. */
  lemma ParkingImpulseZero(f: Funcs, r0: real, r1: real, h1: real, va: real, GM: real)
    requires r0 != 0.0 && r1 != 0.0 && Kepler.H(va, r0, GM) == h1
    ensures GetParkingImpulse(f, r0, r1, h1, va, GM) == 0.0
  {
    Kepler.VAtConservesEnergy(f, va, r0, r1, GM);
  }

  /** `MakeCorrection(var, lim, a, k)`: the penalty `a * |lim - var|^(-k)`. */
  function MakeCorrection(f: Funcs, v: real, lim: real, a: real, k: real): (c: real)
    ensures c == a * f.pow(Abs(v - lim), -k)
  {
    a * f.pow(Abs(lim - v), -k)
  }

  // ---------------------------------------------------------------- energy

  /**
   * `GetH0` of a departure, `GetH1` of an arrival: the stored constant, or
   * the energy of the circular orbit at the parking radius.
   */
  function GetH(e: Energy, ParkingRadius: real, GM: real): (h: real)
    requires e.Circular? ==> ParkingRadius != 0.0
    ensures e.EnergyDriven? ==> h == e.h
    ensures e.Circular? ==> h * ParkingRadius == -GM
  {
    match e
    case EnergyDriven(h) => h
    case Circular => -GM / ParkingRadius
  }

  /** On the circular parking orbit the speed is the circular speed `sqrt(GM / r)`. */
  lemma CircularSpeed(f: Funcs, r: real, GM: real)
    requires r != 0.0
    ensures Kepler.VFromH(f, GetH(Circular, r, GM), r, GM) == f.sqrt(GM / r)
  {
    assert -GM / r + 2.0 * GM / r == GM / r;
  }

  /** `NodeDepartureBase` and `NodeArrivalBase` impulses for the node's velocity. */
  function DepartureImpulse(f: Funcs, node: Node, W1: Vec3): (i: real)
    requires node.Departure? && Checkable(node)
    ensures i >= 0.0
  {
    GetEscapeImpulse(f, node.ParkingRadius, node.SphereRadius,
      GetH(node.energy, node.ParkingRadius, GM0(node)), Size(f, W1), GM0(node))
  }

  function ArrivalImpulse(f: Funcs, node: Node, W0: Vec3): (i: real)
    requires node.Arrival? && Checkable(node)
    ensures i >= 0.0
  {
    GetParkingImpulse(f, node.SphereRadius, node.ParkingRadius,
      GetH(node.energy, node.ParkingRadius, GM0(node)), Size(f, W0), GM0(node))
  }

  // ---------------------------------------------------------------- checks

  /**
   * The common ending of the departure and arrival checks: over a positive
   * limit the node is infeasible; within it the correction is added only
   * when a positive limit is set and the caller asks for it.
   */
  function ImpulseCeiling(f: Funcs, node: Node, impulse: real, bGen: bool): (r: CheckOutcome)
    requires node.Departure? || node.Arrival?
    ensures r.out.impulse == impulse && r.out.mismatch == 0.0
    ensures r.ok <==> !(node.ImpulseLimit > 0.0 && impulse > node.ImpulseLimit)
    ensures r.ok && node.ImpulseLimit > 0.0 && bGen
            ==> r.out.correction == MakeCorrection(f, impulse, node.ImpulseLimit, node.A_impulse, node.K_impulse)
    ensures !(r.ok && node.ImpulseLimit > 0.0 && bGen) ==> r.out.correction == 0.0
  {
    var params := OutParams(impulse, 0.0, 0.0);
    if node.ImpulseLimit > 0.0 && impulse > node.ImpulseLimit then
      CheckOutcome(params, false)
    else if node.ImpulseLimit > 0.0 && bGen then
      CheckOutcome(params.(correction := MakeCorrection(f, impulse, node.ImpulseLimit, node.A_impulse, node.K_impulse)), true)
    else
      CheckOutcome(params, true)
  }

  /** `NodeDepartureBase::Check`: the escape impulse to the outgoing velocity `W1`. */
  function CheckDeparture(f: Funcs, node: Node, input: InParams, bGen: bool): (r: CheckOutcome)
    requires node.Departure? && Checkable(node)
    ensures r.out.impulse == DepartureImpulse(f, node, input.W1)
  {
    ImpulseCeiling(f, node, DepartureImpulse(f, node, input.W1), bGen)
  }

  /** `NodeArrivalBase::Check`: the parking impulse from the incoming velocity `W0`. */
  function CheckArrival(f: Funcs, node: Node, input: InParams, bGen: bool): (r: CheckOutcome)
    requires node.Arrival? && Checkable(node)
    ensures r.out.impulse == ArrivalImpulse(f, node, input.W0)
  {
    ImpulseCeiling(f, node, ArrivalImpulse(f, node, input.W0), bGen)
  }

  /** The largest turn `kink(w, bmin(w, r, rpl, GM), r, GM)` of the fly-by hyperbola. */
  function KinkLimit(hb: Hyperbola, w: real, r: real, rpl: real, GM: real): real {
    hb.kink(w, hb.bmin(w, r, rpl, GM), r, GM)
  }

  /** The fly-by's speed mismatch `| |W1| - |W0| |`. */
  function Mismatch(f: Funcs, input: InParams): (m: real)
    ensures m >= 0.0
    ensures m == Abs(Size(f, input.W0) - Size(f, input.W1))
  {
    Abs(Size(f, input.W1) - Size(f, input.W0))
  }

  /** The speed the fly-by hyperbola is computed for: the mean of both speeds. */
  function FlyBySpeed(f: Funcs, input: InParams): (w: real)
    ensures Size(f, input.W0) <= w <= Size(f, input.W1) || Size(f, input.W1) <= w <= Size(f, input.W0)
  {
    Avg(Size(f, input.W0), Size(f, input.W1))
  }

  /**
   * When a fly-by is feasible: the mismatch is within a positive limit (no
   * limit otherwise), the orbit through the sphere at the mean speed is a
   * hyperbola, and the turn between the two velocities is below the kink
   * that hyperbola can give.
   */
  predicate FlyByFeasible(ph: Physics, node: Node, input: InParams)
    requires node.FlyBy? && Checkable(node)
  {
    var w := FlyBySpeed(ph.f, input);
    !(node.MismatchLimit > 0.0 && Mismatch(ph.f, input) > node.MismatchLimit)
    && Kepler.H(w, node.SphereRadius, GM0(node)) > 0.0
    && ph.f.angle2Pos(input.W0, input.W1) < KinkLimit(ph.hb, w, node.SphereRadius, node.PlanetRadius, GM0(node))
  }

  /** The fly-by penalty: the mismatch term plus the kink term. */
  function FlyByCorrection(ph: Physics, node: Node, input: InParams): (c: real)
    requires node.FlyBy? && Checkable(node)
    ensures node.A_mismatch == 0.0 && node.A_kink == 0.0 ==> c == 0.0
  {
    var w := FlyBySpeed(ph.f, input);
    var dmax := KinkLimit(ph.hb, w, node.SphereRadius, node.PlanetRadius, GM0(node));
    var d := ph.f.angle2Pos(input.W0, input.W1);
    MakeCorrection(ph.f, Mismatch(ph.f, input), node.MismatchLimit, node.A_mismatch, node.K_mismatch)
      + MakeCorrection(ph.f, d, dmax, node.A_kink, node.K_kink)
  }

  /** `NodeFlyBy::Check`. */
  function CheckFlyBy(ph: Physics, node: Node, input: InParams, bGen: bool): (r: CheckOutcome)
    requires node.FlyBy? && Checkable(node)
    ensures r.out.impulse == 0.0 && r.out.mismatch == Mismatch(ph.f, input)
    ensures r.ok <==> FlyByFeasible(ph, node, input)
    ensures r.ok && bGen ==> r.out.correction == FlyByCorrection(ph, node, input)
    ensures !(r.ok && bGen) ==> r.out.correction == 0.0
  {
    var params := OutParams(0.0, Mismatch(ph.f, input), 0.0);
    if node.MismatchLimit > 0.0 && params.mismatch > node.MismatchLimit then
      CheckOutcome(params, false)
    else
      var GM := GM0(node);
      var w := FlyBySpeed(ph.f, input);
      var h := Kepler.H(w, node.SphereRadius, GM);
      if h <= 0.0 then
        CheckOutcome(params, false)
      else
        var dmax := KinkLimit(ph.hb, w, node.SphereRadius, node.PlanetRadius, GM);
        var d := ph.f.angle2Pos(input.W0, input.W1);
        if d >= dmax then
          CheckOutcome(params, false)
        else if bGen then
          var c := 0.0 + MakeCorrection(ph.f, params.mismatch, node.MismatchLimit, node.A_mismatch, node.K_mismatch);
          CheckOutcome(params.(correction := c + MakeCorrection(ph.f, d, dmax, node.A_kink, node.K_kink)), true)
        else
          CheckOutcome(params, true)
  }

  /**
   * `Check(in, bGenCorrection)` dispatched on the node kind.  Impulse and
   * mismatch are never negative, and a feasible node respects each of its
   * positive limits.
   */
  function Check(ph: Physics, node: Node, input: InParams, bGen: bool): (r: CheckOutcome)
    requires Checkable(node)
    ensures r.out.impulse >= 0.0 && r.out.mismatch >= 0.0
    ensures !node.FlyBy? ==> r.out.mismatch == 0.0
    ensures node.FlyBy? ==> r.out.impulse == 0.0
    ensures r.ok && !node.FlyBy? && node.ImpulseLimit > 0.0 ==> r.out.impulse <= node.ImpulseLimit
    ensures r.ok && node.FlyBy? && node.MismatchLimit > 0.0 ==> r.out.mismatch <= node.MismatchLimit
  {
    match node
    case Departure(_, _, _, _, _, _, _) => CheckDeparture(ph.f, node, input, bGen)
    case Arrival(_, _, _, _, _, _, _) => CheckArrival(ph.f, node, input, bGen)
    case FlyBy(_, _, _, _, _, _, _, _) => CheckFlyBy(ph, node, input, bGen)
  }

  // ---------------------------------------------------------------- properties

  /**
   * Asking for the correction changes nothing but the correction: the
   * verdict, impulse and mismatch are those of the plain check, whose
   * correction is zero.
   */
  lemma CorrectionOnRequest(ph: Physics, node: Node, input: InParams)
    requires Checkable(node)
    ensures Check(ph, node, input, false).out.correction == 0.0
    ensures Check(ph, node, input, true).ok == Check(ph, node, input, false).ok
    ensures Check(ph, node, input, true).out.(correction := 0.0) == Check(ph, node, input, false).out
  {
    var plain, gen := Check(ph, node, input, false), Check(ph, node, input, true);
    assert plain.out.correction == 0.0;
    assert gen.out.impulse == plain.out.impulse && gen.out.mismatch == plain.out.mismatch;
  }

  /** A departure or arrival limit that is not positive switches the ceiling and the correction off. */
  lemma ImpulseLimitOff(ph: Physics, node: Node, input: InParams, bGen: bool)
    requires Checkable(node) && !node.FlyBy? && node.ImpulseLimit <= 0.0
    ensures Check(ph, node, input, bGen).ok
    ensures Check(ph, node, input, bGen).out.correction == 0.0
  {
    if node.Departure? {
      assert Check(ph, node, input, bGen) == CheckDeparture(ph.f, node, input, bGen);
    } else {
      assert Check(ph, node, input, bGen) == CheckArrival(ph.f, node, input, bGen);
    }
  }

  /** Raising a positive impulse limit keeps a feasible node feasible, with the same impulse. */
  lemma RaiseImpulseLimit(ph: Physics, node: Node, input: InParams, bGen: bool, limit: real)
    requires Checkable(node) && !node.FlyBy?
    requires node.ImpulseLimit > 0.0 && limit >= node.ImpulseLimit
    requires Check(ph, node, input, bGen).ok
    ensures Checkable(node.(ImpulseLimit := limit))
    ensures Check(ph, node.(ImpulseLimit := limit), input, bGen).ok
    ensures Check(ph, node.(ImpulseLimit := limit), input, bGen).out.impulse == Check(ph, node, input, bGen).out.impulse
  {
    var raised := node.(ImpulseLimit := limit);
    if node.Departure? {
      assert DepartureImpulse(ph.f, raised, input.W1) == DepartureImpulse(ph.f, node, input.W1);
      assert Check(ph, node, input, bGen) == CheckDeparture(ph.f, node, input, bGen);
      assert Check(ph, raised, input, bGen) == CheckDeparture(ph.f, raised, input, bGen);
    } else {
      assert ArrivalImpulse(ph.f, raised, input.W0) == ArrivalImpulse(ph.f, node, input.W0);
      assert Check(ph, node, input, bGen) == CheckArrival(ph.f, node, input, bGen);
      assert Check(ph, raised, input, bGen) == CheckArrival(ph.f, raised, input, bGen);
    }
  }

  /** A fly-by that turns by exactly the hyperbola's largest kink is rejected. */
  lemma FlyByRejectsKinkLimit(ph: Physics, node: Node, input: InParams, bGen: bool)
    requires node.FlyBy? && Checkable(node)
    requires ph.f.angle2Pos(input.W0, input.W1)
             == KinkLimit(ph.hb, FlyBySpeed(ph.f, input), node.SphereRadius, node.PlanetRadius, GM0(node))
    ensures !Check(ph, node, input, bGen).ok
  {
    assert Check(ph, node, input, bGen) == CheckFlyBy(ph, node, input, bGen);
  }

  /** A circular departure whose outgoing speed is exactly its escape speed pays the escape from the parking orbit. */
  lemma DepartureAtEscapeSpeed(f: Funcs, node: Node, input: InParams)
    requires node.Departure? && Checkable(node) && node.energy.Circular?
    requires Size(f, input.W1) == EscapeSpeed(f, node.SphereRadius, GM0(node))
    ensures DepartureImpulse(f, node, input.W1)
            == Abs(EscapeSpeed(f, node.ParkingRadius, GM0(node)) - f.sqrt(GM0(node) / node.ParkingRadius))
  {
    CircularSpeed(f, node.ParkingRadius, GM0(node));
  }
}
