/**
 * `FindLinks` of the solver utilities (solvers/Utiles.cpp): the links of
 * one leg from node `A` to node `B`.  Both nodes are cast to their
 * ephemeris or fixed-point view; an arrival body with an ephemeris is
 * searched by the time scan, a fixed arrival point by the one-shot static
 * search.  The departure is `A`'s ephemeris state at `t0`, or its fixed
 * point at rest.
 */
module LinkDispatch {
  import opened Wrappers
  import opened Numerics
  import opened Links
  import opened MissionTypes
  import opened Ephemerides
  import opened LinkSearch
  import opened NodeCast
  import SolverUtiles

  /** A view whose ephemeris pointer is dereferenced must be bound. */
  predicate Bound(c: Result<Cast>) {
    c.Ok? && c.value.script.Some? ==> c.value.script.value.Script.Some?
  }

  /** The arrival node is scanned in time when it has an ephemeris. */
  predicate ScansB(B: Option<INode>) {
    CastNode(B).Ok? && CastNode(B).value.script.Some?
  }

  /**
   * What the time scan needs of the mission: a positive step and
   * tolerance (the scan advances by them) and a non-zero `GM` (the end of
   * the scan range divides by it).
   */
  predicate ScanSettings<N>(m: Mission<N>) {
    m.timeStep > 0.0 && m.timeTol > 0.0 && m.GM != 0.0
  }

  /** `SetA_GM_t0`: `A`'s position and velocity at departure. */
  function DepartureState(a: Cast, t0: real): (Vec3, Vec3)
    requires a.script.Some? ==> a.script.value.Script.Some?
    requires a.script.Some? || a.fixed.Some?
  {
    if a.script.Some? then a.script.value.Script.value.movement(t0) else (a.fixed.value.R, Zero)
  }

  /** The `ScriptedLinkConfig` assembled for an arrival body with ephemeris `b`. */
  function ScriptedFor<N>(f: Funcs, a: Cast, b: Driver, m: Mission<N>, t0: real): (cfg: ScriptedConfig)
    requires a.script.Some? ==> a.script.value.Script.Some?
    requires a.script.Some? || a.fixed.Some?
    requires SqrtLaws(f) && ScanSettings(m)
    ensures (cfg.RA, cfg.VA) == DepartureState(a, t0)
    ensures cfg.t0 == Some(t0) && cfg.GM == m.GM && cfg.bConn == Some(b) && cfg.bTime == Some(t0)
    ensures cfg.ts == m.timeStep && cfg.tt == m.timeTol && cfg.td == m.timeTol / 100.0
    ensures cfg.ts > 0.0 && cfg.td > 0.0
    ensures cfg.te == t0 + SolverUtiles.GetFlyTimeLimit(f, Size(f, cfg.RA), Size(f, b.location(t0)),
                                                        m.normalFlyPeriodFactor, m.GM).value
  {
    var base := ScriptedConfig(Zero, Zero, None, None, Some(t0), 0.0, 0.0, 0.0, 0.0, m.GM);
    var withA := if a.script.Some? then SetA(base, a.script.value.Script.value).value
                 else base.(RA := a.fixed.value.R);
    var withB := SetB(withA, b).value;
    var limit := SolverUtiles.GetFlyTimeLimit(f, Size(f, withB.RA), Size(f, LocationAt(withB.bConn, withB.bTime)),
                                              m.normalFlyPeriodFactor, m.GM);
    withB.(ts := m.timeStep, td := m.timeTol / 100.0, tt := m.timeTol, te := t0 + limit.value)
  }

  /** The `StaticLinkConfig` assembled for a fixed arrival point `RB`. */
  function StaticFor<N>(a: Cast, RB: Vec3, m: Mission<N>, t0: real): (cfg: StaticConfig)
    requires a.script.Some? ==> a.script.value.Script.Some?
    requires a.script.Some? || a.fixed.Some?
    ensures (cfg.RA, cfg.VA) == DepartureState(a, t0)
    ensures cfg.RB == RB && cfg.VB == Zero && cfg.t0 == Some(t0) && cfg.GM == m.GM
  {
    var base := StaticConfig(Zero, Zero, Zero, Zero, Some(t0), m.GM);
    var withA := if a.script.Some? then StaticSetA(base, a.script.value.Script.value).value
                 else base.(RA := a.fixed.value.R);
    withA.(RB := RB)
  }

  /**
   * The links `FindLinks` appends for the leg `A -> B`, or the error of a
   * node that has neither view.
   */
  function LegLinks<N>(f: Funcs, pol: Policy, A: Option<INode>, B: Option<INode>, m: Mission<N>,
                       f0s: seq<real>, t0: real): (r: Result<seq<Link>>)
    requires CosBounded(f) && SqrtLaws(f) && Bound(CastNode(A)) && Bound(CastNode(B))
    requires ScansB(B) ==> ScanSettings(m)
    ensures r.Err? <==> CastNode(A).Err? || CastNode(B).Err?
    ensures r.Err? ==> r.error == "no conversion from inode avaliable"
    ensures r.Ok? && !ScansB(B) ==> |r.value| <= |f0s|
  {
    var b := CastNode(B);
    if b.Err? then Err(b.error)
    else
      var a := CastNode(A);
      if a.Err? then Err(a.error)
      else if b.value.script.Some? then
        Ok(AllScriptedLinks(f, ScriptedFor(f, a.value, b.value.script.value.Script.value, m, t0), pol, f0s))
      else
        Ok(StaticLinks(f, StaticFor(a.value, b.value.fixed.value.R, m, t0), pol.motion, f0s))
  }

  /** `FindLinks(links, A, B, mission, f0s, t0)`: appends the leg's links to `links`. */
  method FindLinks<N>(links: seq<Link>, f: Funcs, pol: Policy, A: Option<INode>, B: Option<INode>, m: Mission<N>,
                      f0s: seq<real>, t0: real) returns (r: Result<seq<Link>>)
    requires CosBounded(f) && SqrtLaws(f) && Bound(CastNode(A)) && Bound(CastNode(B))
    requires ScansB(B) ==> ScanSettings(m)
    ensures r.Err? <==> LegLinks(f, pol, A, B, m, f0s, t0).Err?
    ensures r.Err? ==> r.error == LegLinks(f, pol, A, B, m, f0s, t0).error
    ensures r.Ok? ==> r.value == links + LegLinks(f, pol, A, B, m, f0s, t0).value
  {
    var b := CastNode(B);
    if b.Err? {
      return Err(b.error);
    }
    var a := CastNode(A);
    if a.Err? {
      return Err(a.error);
    }
    if b.value.script.Some? {
      var cfg := ScriptedFor(f, a.value, b.value.script.value.Script.value, m, t0);
      var out := FindScriptedLinks(links, f, cfg, pol, f0s);
      r := Ok(out);
    } else {
      var cfg := StaticFor(a.value, b.value.fixed.value.R, m, t0);
      var out := FindStaticLinks(links, f, cfg, pol.motion, f0s);
      r := Ok(out);
    }
  }

  /**
   * Towards a fixed point every link is the static link of one toss angle:
   * it leaves from `A`'s departure state at `t0` and ends at the point.
   */
  lemma FixedArrivalLinks<N>(f: Funcs, pol: Policy, A: Option<INode>, B: Option<INode>, m: Mission<N>,
                             f0s: seq<real>, t0: real, l: Link)
    requires CosBounded(f) && SqrtLaws(f) && Bound(CastNode(A)) && Bound(CastNode(B))
    requires ScansB(B) ==> ScanSettings(m)
    requires LegLinks(f, pol, A, B, m, f0s, t0).Ok? && !ScansB(B)
    requires l in LegLinks(f, pol, A, B, m, f0s, t0).value
    ensures l.R0 == DepartureState(CastNode(A).value, t0).0
    ensures l.R1 == CastNode(B).value.fixed.value.R && l.t0 == t0
    ensures exists i :: 0 <= i < |f0s|
              && StaticLinkFor(f, StaticFor(CastNode(A).value, CastNode(B).value.fixed.value.R, m, t0), pol.motion, f0s[i]) == Some(l)
  {
    var cfg := StaticFor(CastNode(A).value, CastNode(B).value.fixed.value.R, m, t0);
    assert LegLinks(f, pol, A, B, m, f0s, t0).value == StaticLinks(f, cfg, pol.motion, f0s);
    StaticLinksSound(f, cfg, pol.motion, f0s);
    var i :| 0 <= i < |f0s| && StaticLinkFor(f, cfg, pol.motion, f0s[i]) == Some(l);
    StaticLinkSound(f, cfg, pol.motion, f0s[i]);
  }

  /** Towards a body with an ephemeris at most one link per toss angle and scan time is found. */
  lemma ScannedArrivalBound<N>(f: Funcs, pol: Policy, A: Option<INode>, B: Option<INode>, m: Mission<N>,
                               f0s: seq<real>, t0: real)
    requires CosBounded(f) && SqrtLaws(f) && Bound(CastNode(A)) && Bound(CastNode(B))
    requires ScansB(B) && ScanSettings(m)
    requires LegLinks(f, pol, A, B, m, f0s, t0).Ok?
    ensures var cfg := ScriptedFor(f, CastNode(A).value, CastNode(B).value.script.value.Script.value, m, t0);
            |LegLinks(f, pol, A, B, m, f0s, t0).value| <= |f0s| * Samples(ParamsOf(cfg, pol))
  {
    var cfg := ScriptedFor(f, CastNode(A).value, CastNode(B).value.script.value.Script.value, m, t0);
    AllScriptedLinksBound(f, cfg, pol, f0s);
  }
}
