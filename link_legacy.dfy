/**
 * The older link search (link.cpp): a `LinkAdapter` over copies of the two
 * bodies' ephemeris clients, solved for arrival times by the same
 * `Find_t` arc solver, scanned over `[t0, te)` with the older window and
 * refined by the same bisection.  The scan, the bisection and the link
 * object are `LinkSearch`'s; this module builds the older configuration,
 * the older departure state and the older scan policy.
 *
 * The adapter's constructor assigns `this->t0 = t0`, which reads the
 * member itself, so the departure time keeps its default 0 and every
 * arrival time `t1` is the bare flight time `dt`.  The constructor as
 * written is `AdapterAsWritten`; the evidently intended `NewAdapter`
 * departs at the configuration's `t0`.  The scans take a flag `asWritten`
 * that chooses between the two.
 */
module LinkLegacy {
  import opened Wrappers
  import opened Numerics
  import opened KeplerOrbit
  import opened Links
  import opened Ephemerides
  import opened LinkWindow
  import opened LinkSearch

  /**
   * `FindLinksConfig`: the clients of the departure body `A` and of the
   * arrival body `B` (their connections and times), the scan range and
   * step, the two tolerances, and `GM`.
   */
  datatype FindLinksConfig = FindLinksConfig(
    aConn: Option<Driver>, aTime: Option<real>, bConn: Option<Driver>, bTime: Option<real>,
    t0: real, te: real, ts: real, tt: real, td: real, GM: real)

  /**
   * The adapter's context: its copy of `B`, `GM`, and `A`'s velocity at
   * `t0`, which `Fix3DParams` subtracts (the adapter's copy of `A` is set
   * to `t0` in the constructor and never moved again).
   */
  function LegacyCtx(f: Funcs, cfg: FindLinksConfig): (ctx: LinkCtx)
    ensures ctx.bConn == cfg.bConn && ctx.GM == cfg.GM && ctx.VA == VelocityAt(cfg.aConn, Some(cfg.t0))
  {
    LinkCtx(f, cfg.bConn, cfg.GM, VelocityAt(cfg.aConn, Some(cfg.t0)))
  }

  /**
   * The departure state the constructor writes when its departure time is
   * `t0`: `A`'s position at the configuration's `t0`, `Q0 = 0`, the
   * normalised angle, and the direction from the angle as given.
   */
  function AdapterStart(f: Funcs, cfg: FindLinksConfig, f0: real, t0: real): (d: Departure)
    ensures d == StartOf(f, t0, LocationAt(cfg.aConn, Some(cfg.t0)), f0)
  {
    var R0 := LocationAt(cfg.aConn, Some(cfg.t0));
    NZIdempotent(f0);
    assert NZ(f0 - 0.0) == NZ(NZ(f0) - 0.0);
    Departure(t0, R0, Size(f, R0), 0.0, NZ(f0), Bf(0.0, f0))
  }

  /** The departure state as written: the departure time stays at its default 0. */
  function StartAsWritten(f: Funcs, cfg: FindLinksConfig, f0: real): (d: Departure)
    ensures d.t0 == 0.0 && d.R0 == LocationAt(cfg.aConn, Some(cfg.t0)) && d.f0 == NZ(f0)
  {
    AdapterStart(f, cfg, f0, 0.0)
  }

  /** The departure state evidently intended: the departure time is the configuration's `t0`. */
  function StartIntended(f: Funcs, cfg: FindLinksConfig, f0: real): (d: Departure)
    ensures d == StartAsWritten(f, cfg, f0).(t0 := cfg.t0)
  {
    AdapterStart(f, cfg, f0, cfg.t0)
  }

  /** The departure state of the adapter as written (time 0) or as intended (the configuration's `t0`). */
  function LegacyStart(f: Funcs, cfg: FindLinksConfig, f0: real, asWritten: bool): (d: Departure)
    ensures d.t0 == (if asWritten then 0.0 else cfg.t0)
    ensures d.R0 == LocationAt(cfg.aConn, Some(cfg.t0)) && d.f0 == NZ(f0)
  {
    if asWritten then StartAsWritten(f, cfg, f0) else StartIntended(f, cfg, f0)
  }

  /** `LinkAdapter(cfg, f0)` as written. */
  method AdapterAsWritten(f: Funcs, cfg: FindLinksConfig, f0: real) returns (link: ScriptedLink)
    requires CosBounded(f)
    ensures fresh(link)
    ensures link.ctx == LegacyCtx(f, cfg) && link.dep == StartAsWritten(f, cfg, f0)
    ensures link.probe == LinkProbe(link.ctx, link.dep)
    ensures link.State() == FreshSearch.(bTime := cfg.bTime) && link.vel == ZeroVelocities
  {
    link := new ScriptedLink.FromStart(LegacyCtx(f, cfg), StartAsWritten(f, cfg, f0), cfg.bTime);
  }

  /** `LinkAdapter(cfg, f0)` with the departure time taken from the configuration. */
  method NewAdapter(f: Funcs, cfg: FindLinksConfig, f0: real) returns (link: ScriptedLink)
    requires CosBounded(f)
    ensures fresh(link)
    ensures link.ctx == LegacyCtx(f, cfg) && link.dep == StartIntended(f, cfg, f0)
    ensures link.probe == LinkProbe(link.ctx, link.dep)
    ensures link.State() == FreshSearch.(bTime := cfg.bTime) && link.vel == ZeroVelocities
  {
    link := new ScriptedLink.FromStart(LegacyCtx(f, cfg), StartIntended(f, cfg, f0), cfg.bTime);
  }

  /**
   * The departure time only enters the arrival time: probing from the
   * as-written and from the intended departure state succeeds alike, finds
   * the same arc, and the arrival times differ by exactly `t0`.  As
   * written, every successful `Find_t` reports the flight time itself as
   * the arrival time.
   */
  lemma AsWrittenArrivalIsFlightTime(f: Funcs, cfg: FindLinksConfig, f0: real, s: Search, t: real)
    requires CosBounded(f)
    ensures var ctx := LegacyCtx(f, cfg);
      var w := ProbeAt(ctx, StartAsWritten(f, cfg, f0), s, t);
      var i := ProbeAt(ctx, StartIntended(f, cfg, f0), s, t);
      w.1 == i.1 && w.0.orbit == i.0.orbit && w.0.arr == i.0.arr
      && (w.1 ==> w.0.timing.t1 == w.0.timing.dt && i.0.timing.dt == w.0.timing.dt
                  && i.0.timing.t1 == cfg.t0 + w.0.timing.t1)
  {
    var ctx := LegacyCtx(f, cfg);
    var dw, di := StartAsWritten(f, cfg, f0), StartIntended(f, cfg, f0);
    var aw, ai := AimAt(ctx, dw, t), AimAt(ctx, di, t);
    assert aw == ai;
    assert Solvable(f, dw, aw) == Solvable(f, di, ai);
  }

  /**
   * A concrete consequence: with a departure time of one day, an arc the
   * as-written scan accepts as meeting `B` at `T` (mismatch `T - t1` zero)
   * reaches `B`'s orbit a day later than `T` when timed from the departure.
   */
  lemma AsWrittenRootIsLate(f: Funcs, cfg: FindLinksConfig, f0: real, s: Search, T: real)
    requires CosBounded(f) && cfg.t0 == 86400.0
    requires var w := ProbeAt(LegacyCtx(f, cfg), StartAsWritten(f, cfg, f0), s, T); w.1 && T - w.0.timing.t1 == 0.0
    ensures var i := ProbeAt(LegacyCtx(f, cfg), StartIntended(f, cfg, f0), s, T);
      i.1 && i.0.timing.t1 == T + 86400.0 && T - i.0.timing.t1 != 0.0
  {
    AsWrittenArrivalIsFlightTime(f, cfg, f0, s, T);
  }

  // ------------------------------------------------------------ the scan

  /** The older scan follows the older window and the older minimiser objective. */
  function LegacyPolicy(pol: Policy): (p: Policy)
    ensures p.legacy && p.eps == pol.eps && p.minimise == pol.minimise && p.motion == pol.motion
  {
    pol.(legacy := true)
  }

  /** The scan range, step and tolerances of the configuration. */
  function LegacyParams(cfg: FindLinksConfig, pol: Policy): (sp: ScanParams)
    ensures (sp.t0, sp.te, sp.ts, sp.tt, sp.td) == (cfg.t0, cfg.te, cfg.ts, cfg.tt, cfg.td)
    ensures sp.policy == LegacyPolicy(pol)
  {
    ScanParams(cfg.t0, cfg.te, cfg.ts, cfg.tt, cfg.td, LegacyPolicy(pol))
  }

  /** What `FindLinks(links, cfg, f0)` appends, with the adapter as written or as intended. */
  function LegacyLinks(f: Funcs, cfg: FindLinksConfig, pol: Policy, f0: real, asWritten: bool): (r: seq<Link>)
    requires CosBounded(f) && cfg.ts > 0.0 && cfg.td > 0.0
    ensures |r| <= Samples(LegacyParams(cfg, pol))
  {
    var ctx := LegacyCtx(f, cfg);
    var d := LegacyStart(f, cfg, f0, asWritten);
    var sp := LegacyParams(cfg, pol);
    ScanFromBound(LinkProbe(ctx, d), Fixer(ctx, d, sp.policy.motion), sp, FreshSearch.(bTime := cfg.bTime),
                  EmptyWindow, cfg.t0);
    ScanFrom(LinkProbe(ctx, d), Fixer(ctx, d, sp.policy.motion), sp, FreshSearch.(bTime := cfg.bTime),
             EmptyWindow, cfg.t0)
  }

  /** Every link a scan pushes is one completed from some search state. */
  lemma {:induction false} ScanFromFixed(probe: Probe, fix: Search -> Link, sp: ScanParams, s: Search,
                                         win: seq<Point>, t: real, l: Link)
    requires ScanReady(sp) && |win| == 3 && l in ScanFrom(probe, fix, sp, s, win, t)
    ensures exists x :: l == fix(x)
    decreases TimesLeft(sp, t)
  {
    TimesLeftStep(sp, t);
    var out := Step(probe, fix, sp, s, win, t);
    var rest := ScanFrom(probe, fix, sp, out.search, out.window, t + sp.ts);
    assert ScanFrom(probe, fix, sp, s, win, t) == Emitted(out) + rest;
    if l in Emitted(out) {
      StepPushesFixed(probe, fix, sp, s, win, t);
    } else {
      assert l in rest;
      ScanFromFixed(probe, fix, sp, out.search, out.window, t + sp.ts, l);
    }
  }

  /** A link a scan step pushes is the one completed from the search state the step leaves. */
  lemma StepPushesFixed(probe: Probe, fix: Search -> Link, sp: ScanParams, s: Search, win: seq<Point>, t: real)
    requires ScanReady(sp) && |win| == 3
    ensures var out := Step(probe, fix, sp, s, win, t);
            out.pushed.Some? ==> out.pushed.value == fix(out.search)
  {
  }

  /**
   * Every link of the scan leaves `A`'s position at the configuration's
   * `t0`, whatever time `B`'s client had; it is stamped with that time as
   * intended, and with time 0 as written.
   */
  lemma LegacyLinksDepart(f: Funcs, cfg: FindLinksConfig, pol: Policy, f0: real, asWritten: bool, l: Link)
    requires CosBounded(f) && cfg.ts > 0.0 && cfg.td > 0.0
    requires l in LegacyLinks(f, cfg, pol, f0, asWritten)
    ensures l.t0 == (if asWritten then 0.0 else cfg.t0) && l.R0 == LocationAt(cfg.aConn, Some(cfg.t0))
  {
    var ctx := LegacyCtx(f, cfg);
    var d := LegacyStart(f, cfg, f0, asWritten);
    var sp := LegacyParams(cfg, pol);
    var fix := Fixer(ctx, d, sp.policy.motion);
    ScanFromFixed(LinkProbe(ctx, d), fix, sp, FreshSearch.(bTime := cfg.bTime), EmptyWindow, cfg.t0, l);
    var x :| l == fix(x);
    FixedFields(ctx, d, sp.policy.motion, x);
  }

  /** `FindLinks(links, cfg, f0)`: one adapter, one scan, its links appended. */
  method FindLinksFor(links: seq<Link>, f: Funcs, cfg: FindLinksConfig, pol: Policy, f0: real, asWritten: bool)
    returns (out: seq<Link>)
    requires CosBounded(f) && cfg.ts > 0.0 && cfg.td > 0.0
    ensures out == links + LegacyLinks(f, cfg, pol, f0, asWritten)
  {
    var link: ScriptedLink;
    if asWritten {
      link := AdapterAsWritten(f, cfg, f0);
    } else {
      link := NewAdapter(f, cfg, f0);
    }
    var found := ScanLink(link, LegacyParams(cfg, pol));
    out := links + found;
  }

  /** `FindLinks(links, cfg, f0)` as a function of the departure angle. */
  function LegacyScan(f: Funcs, cfg: FindLinksConfig, pol: Policy, asWritten: bool): real -> seq<Link>
    requires CosBounded(f) && cfg.ts > 0.0 && cfg.td > 0.0
  {
    (f0: real) => LegacyLinks(f, cfg, pol, f0, asWritten)
  }

  /** What `FindLinks(links, cfg, f0s)` appends: the scans for each angle, in order. */
  function AllLegacyLinks(f: Funcs, cfg: FindLinksConfig, pol: Policy, f0s: seq<real>, asWritten: bool): (r: seq<Link>)
    requires CosBounded(f) && cfg.ts > 0.0 && cfg.td > 0.0
    ensures |r| <= |f0s| * Samples(LegacyParams(cfg, pol))
    ensures forall l :: l in r ==> exists i :: 0 <= i < |f0s| && l in LegacyLinks(f, cfg, pol, f0s[i], asWritten)
  {
    var scan := LegacyScan(f, cfg, pol, asWritten);
    forall f0
      ensures |scan(f0)| <= Samples(LegacyParams(cfg, pol))
    {
    }
    ConcatBound(scan, f0s, Samples(LegacyParams(cfg, pol)));
    forall l | l in Concat(scan, f0s)
      ensures exists i :: 0 <= i < |f0s| && l in LegacyLinks(f, cfg, pol, f0s[i], asWritten)
    {
      ConcatMember(scan, f0s, l);
    }
    Concat(scan, f0s)
  }

  /** `FindLinks(links, cfg, f0s)`: the scan of every angle appended, in order. */
  method FindLinks(links: seq<Link>, f: Funcs, cfg: FindLinksConfig, pol: Policy, f0s: seq<real>, asWritten: bool)
    returns (out: seq<Link>)
    requires CosBounded(f) && cfg.ts > 0.0 && cfg.td > 0.0
    ensures out == links + AllLegacyLinks(f, cfg, pol, f0s, asWritten)
  {
    ghost var scan := LegacyScan(f, cfg, pol, asWritten);
    out := links;
    for i := 0 to |f0s|
      invariant out == links + Concat(scan, f0s[..i])
    {
      ConcatSnoc(scan, f0s, i, links, out);
      out := FindLinksFor(out, f, cfg, pol, f0s[i], asWritten);
    }
    assert f0s[..|f0s|] == f0s;
  }
}
