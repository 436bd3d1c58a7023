/**
 * The `Link` record (public/links.hpp): one Kepler arc between a departure
 * point and an arrival point, with its orbital elements and timing.  Angles
 * are in radians, `Q` are polar angles of the end points, `q` true anomalies,
 * `E` eccentric and `M` mean anomalies, `bf` says whether the arc is the short
 * (forward) one.
 */
module Links {
  import opened Numerics

  datatype Link = Link(
    R0: Vec3, R1: Vec3, V0: Vec3, V1: Vec3, W0: Vec3, W1: Vec3,
    r0: real, r1: real, f0: real, f1: real, v0: real, v1: real,
    t0: real, t1: real, Q0: real, Q1: real, q0: real, q1: real,
    E0: real, E1: real, M0: real, M1: real,
    dt: real, e: real, p: real, a: real, w: real, bf: bool)

  /** A value-initialised `Link`: zero vectors, zero scalars, `bf == false`. */
  const DefaultLink: Link := Link(
    Zero, Zero, Zero, Zero, Zero, Zero,
    0.0, 0.0, 0.0, 0.0, 0.0, 0.0,
    0.0, 0.0, 0.0, 0.0, 0.0, 0.0,
    0.0, 0.0, 0.0, 0.0,
    0.0, 0.0, 0.0, 0.0, 0.0, false)

  /**
   * `Link::GetRealAnomaly`: the true anomaly a given fraction of the way along
   * the arc.  On the forward arc it runs from `q0` to `q1`; on the other it runs
   * from `q1` on to `q0` one turn later.
   */
  function GetRealAnomaly(l: Link, fraction: real): (q: real)
    requires 0.0 <= fraction <= 1.0
    ensures l.bf && l.q0 <= l.q1 ==> l.q0 <= q <= l.q1
    ensures !l.bf && l.q1 <= l.q0 + TwoPi ==> l.q1 <= q <= l.q0 + TwoPi
    ensures fraction == 0.0 ==> q == (if l.bf then l.q0 else l.q1)
    ensures fraction == 1.0 ==> q == (if l.bf then l.q1 else l.q0 + TwoPi)
  {
    var start := if l.bf then l.q0 else l.q1;
    var span := if l.bf then l.q1 - l.q0 else l.q0 - l.q1 + 2.0 * Pi;
    var step := fraction * span;
    ScaleWithin(fraction, span);
    assert span >= 0.0 ==> step <= span;
    start + step
  }

  /** A fraction of a non-negative span lies within the span. */
  lemma ScaleWithin(fraction: real, span: real)
    requires 0.0 <= fraction <= 1.0
    ensures span >= 0.0 ==> 0.0 <= fraction * span
    ensures span >= 0.0 ==> fraction * span <= span
    ensures fraction == 0.0 ==> fraction * span == 0.0
    ensures fraction == 1.0 ==> fraction * span == span
  {
    if span >= 0.0 {
      assert (1.0 - fraction) * span >= 0.0;
      assert span - fraction * span >= 0.0;
    }
  }

  /** Moving further along the arc never moves the anomaly back. */
  lemma GetRealAnomalyMonotone(l: Link, f1: real, f2: real)
    requires 0.0 <= f1 <= f2 <= 1.0
    requires if l.bf then l.q0 <= l.q1 else l.q1 <= l.q0 + TwoPi
    ensures GetRealAnomaly(l, f1) <= GetRealAnomaly(l, f2)
  {
    var span := if l.bf then l.q1 - l.q0 else l.q0 - l.q1 + 2.0 * Pi;
    assert span >= 0.0;
    assert (f2 - f1) * span >= 0.0;
    assert f1 * span <= f2 * span;
  }
}

/** The node interface's parameter records and the mission description (public/mission.hpp). */
module MissionTypes {
  import opened Numerics

  /** `InNodeParams`: the body-relative velocities before and after the node. */
  datatype InParams = InParams(W0: Vec3, W1: Vec3)

  /** `OutNodeParams`: impulse, velocity mismatch and penalty correction; all 0 unless a check sets them. */
  datatype OutParams = OutParams(impulse: real, mismatch: real, correction: real)

  const NoOut: OutParams := OutParams(0.0, 0.0, 0.0)

  /** The tuple a node check returns: its parameters and whether the node is feasible. */
  datatype CheckOutcome = CheckOutcome(out: OutParams, ok: bool)

  /** `Mission`: the node sequence and the search settings every leg shares. */
  datatype Mission<N> = Mission(nodes: seq<N>, normalFlyPeriodFactor: real, points_f0: real,
                                timeStep: real, timeTol: real, GM: real, t0: real)
}
