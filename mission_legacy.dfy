/**
 * The older node checks (mission.cpp): feasibility predicates over the
 * incoming and outgoing velocities, without impulses or penalties.  The
 * hyperbola's aiming distance and kink are the same given functions as in
 * `Nodes`; the lemmas at the end compare the two generations of checks.
 */
module MissionLegacy {
  import opened Wrappers
  import opened Numerics
  import opened Ephemerides
  import opened MissionTypes
  import Kepler = KeplerOrbit
  import Nodes

  /** `NodeDeparture`, `NodeArrival` and `NodeFlyBy` of the older mission model. */
  datatype LegacyNode =
    | NodeDeparture(Script: Option<Driver>, EscapeSpeed: real)
    | NodeArrival(Script: Option<Driver>, SphereRadius: real, ParkingRadius: real, ImpulseLimit_v: real)
    | NodeFlyBy(Script: Option<Driver>, SphereRadius: real, PlanetRadius: real, MissmatchLimit_v: real)

  /** The arrival and fly-by checks dereference the ephemeris and divide by their radii. */
  predicate Checkable(node: LegacyNode) {
    match node
    case NodeDeparture(_, _) => true
    case NodeArrival(s, sr, pr, _) => s.Some? && sr != 0.0 && pr != 0.0
    case NodeFlyBy(s, sr, _, _) => s.Some? && sr != 0.0
  }

  /** `NodeDeparture::Check`: the outgoing speed exceeds the escape speed; `Win` plays no part. */
  function CheckDeparture(f: Funcs, node: LegacyNode, Win: Vec3, Wout: Vec3): (ok: bool)
    requires node.NodeDeparture?
    ensures ok <==> Size(f, Wout) > node.EscapeSpeed
  {
    Size(f, Wout) > node.EscapeSpeed
  }

  /**
   * The two speeds `NodeArrival::Check` compares at the parking radius:
   * the arriving body's speed carried down from the sphere (`reorbit_v`),
   * and the circular speed `Elliptic::v(0, 0, ParkingRadius, GM)`.
   */
  function ArrivalSpeeds(f: Funcs, node: LegacyNode, Win: Vec3): (real, real)
    requires node.NodeArrival? && Checkable(node)
  {
    var GM := node.Script.value.GM(0.0);
    (Kepler.VAt(f, Size(f, Win), node.SphereRadius, node.ParkingRadius, GM),
     Kepler.EllipticV(f, 0.0, 0.0, node.ParkingRadius, GM))
  }

  /** `NodeArrival::Check`: with a positive limit the two speeds must agree within it. */
  function CheckArrival(f: Funcs, node: LegacyNode, Win: Vec3, Wout: Vec3): (ok: bool)
    requires node.NodeArrival? && Checkable(node)
    ensures !ok <==> node.ImpulseLimit_v > 0.0
                     && Abs(ArrivalSpeeds(f, node, Win).0 - ArrivalSpeeds(f, node, Win).1) > node.ImpulseLimit_v
  {
    var (w1, w2) := ArrivalSpeeds(f, node, Win);
    if node.ImpulseLimit_v > 0.0 && !Equal(w1, w2, node.ImpulseLimit_v) then false else true
  }

  /**
   * `NodeFlyBy::Check`: a positive mismatch limit bounds the speed
   * difference, the orbit at the incoming speed must be a hyperbola, and
   * the turn may not exceed the hyperbola's kink.
   */
  function CheckFlyBy(ph: Nodes.Physics, node: LegacyNode, Win: Vec3, Wout: Vec3): (ok: bool)
    requires node.NodeFlyBy? && Checkable(node)
    ensures ok <==> !(node.MissmatchLimit_v > 0.0 && Abs(Size(ph.f, Win) - Size(ph.f, Wout)) > node.MissmatchLimit_v)
                    && Kepler.H(Size(ph.f, Win), node.SphereRadius, node.Script.value.GM(0.0)) > 0.0
                    && ph.f.angle2(Win, Wout) <= Nodes.KinkLimit(ph.hb, Size(ph.f, Win), node.SphereRadius,
                                                                 node.PlanetRadius, node.Script.value.GM(0.0))
  {
    if node.MissmatchLimit_v > 0.0 && !Equal(Size(ph.f, Win), Size(ph.f, Wout), node.MissmatchLimit_v) then
      false
    else
      var GM := node.Script.value.GM(0.0);
      var w := Size(ph.f, Win);
      var h := Kepler.H(w, node.SphereRadius, GM);
      if h <= 0.0 then
        false
      else
        var dmax := Nodes.KinkLimit(ph.hb, w, node.SphereRadius, node.PlanetRadius, GM);
        var d := ph.f.angle2(Win, Wout);
        if d > dmax then false else true
  }

  // ---------------------------------------------------------------- the two generations

  /** The newer circular arrival node with the older node's radii, limit and ephemeris. */
  function Renewed(node: LegacyNode, a: real, k: real): (n: Nodes.Node)
    requires node.NodeArrival?
    ensures Checkable(node) ==> Nodes.Checkable(n)
  {
    Nodes.Arrival(node.Script, node.ParkingRadius, node.SphereRadius, node.ImpulseLimit_v, a, k, Nodes.Circular)
  }

  /**
   * The older arrival check accepts exactly what the newer circular arrival
   * check accepts: its speed comparison is the newer parking impulse against
   * the same limit.
   */
  lemma ArrivalVersionsAgree(ph: Nodes.Physics, node: LegacyNode, Win: Vec3, Wout: Vec3, a: real, k: real, bGen: bool)
    requires node.NodeArrival? && Checkable(node)
    ensures CheckArrival(ph.f, node, Win, Wout) == Nodes.Check(ph, Renewed(node, a, k), InParams(Win, Wout), bGen).ok
  {
    var n := Renewed(node, a, k);
    var GM := node.Script.value.GM(0.0);
    var (w1, w2) := ArrivalSpeeds(ph.f, node, Win);
    Kepler.EllipticVCircle(ph.f, 0.0, node.ParkingRadius, GM);
    assert Nodes.GetH(Nodes.Circular, node.ParkingRadius, GM) == -GM / node.ParkingRadius;
    assert Nodes.ArrivalImpulse(ph.f, n, Win) == Abs(w2 - w1);
    assert Nodes.Check(ph, n, InParams(Win, Wout), bGen) == Nodes.CheckArrival(ph.f, n, InParams(Win, Wout), bGen);
  }

  /** The newer fly-by node with the older node's radii, limit and ephemeris. */
  function RenewedFlyBy(node: LegacyNode, am: real, km: real, ak: real, kk: real): (n: Nodes.Node)
    requires node.NodeFlyBy?
    ensures Checkable(node) ==> Nodes.Checkable(n)
  {
    Nodes.FlyBy(node.Script, node.PlanetRadius, node.SphereRadius, node.MissmatchLimit_v, am, km, ak, kk)
  }

  /**
   * With equal incoming and outgoing speeds and an angle the two angle
   * modes agree on, the newer fly-by check is the stricter one: what it
   * accepts the older one accepts.
   */
  lemma FlyByNewerStricter(ph: Nodes.Physics, node: LegacyNode, Win: Vec3, Wout: Vec3, am: real, km: real, ak: real, kk: real)
    requires node.NodeFlyBy? && Checkable(node)
    requires Size(ph.f, Win) == Size(ph.f, Wout) && ph.f.angle2(Win, Wout) == ph.f.angle2Pos(Win, Wout)
    requires Nodes.Check(ph, RenewedFlyBy(node, am, km, ak, kk), InParams(Win, Wout), false).ok
    ensures CheckFlyBy(ph, node, Win, Wout)
  {
    var n := RenewedFlyBy(node, am, km, ak, kk);
    var input := InParams(Win, Wout);
    assert Nodes.Check(ph, n, input, false) == Nodes.CheckFlyBy(ph, n, input, false);
    assert Nodes.FlyBySpeed(ph.f, input) == Size(ph.f, Win);
  }

  /**
   * The turn exactly at the kink limit: the older check lets it through,
   * the newer one rejects it.
   */
  lemma FlyByKinkBoundary(ph: Nodes.Physics, node: LegacyNode, Win: Vec3, Wout: Vec3, am: real, km: real, ak: real, kk: real)
    requires node.NodeFlyBy? && Checkable(node)
    requires Size(ph.f, Win) == Size(ph.f, Wout) && ph.f.angle2(Win, Wout) == ph.f.angle2Pos(Win, Wout)
    requires Kepler.H(Size(ph.f, Win), node.SphereRadius, node.Script.value.GM(0.0)) > 0.0
    requires ph.f.angle2(Win, Wout)
             == Nodes.KinkLimit(ph.hb, Size(ph.f, Win), node.SphereRadius, node.PlanetRadius, node.Script.value.GM(0.0))
    ensures CheckFlyBy(ph, node, Win, Wout)
    ensures !Nodes.Check(ph, RenewedFlyBy(node, am, km, ak, kk), InParams(Win, Wout), false).ok
  {
    var n := RenewedFlyBy(node, am, km, ak, kk);
    var input := InParams(Win, Wout);
    assert Nodes.Check(ph, n, input, false) == Nodes.CheckFlyBy(ph, n, input, false);
    assert Nodes.FlyBySpeed(ph.f, input) == Size(ph.f, Win);
  }
}
