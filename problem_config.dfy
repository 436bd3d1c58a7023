/**
 * The problem configuration (configs/problemConfig.hpp,
 * configs/problemConfig.cpp): the settings of both approximations, the
 * weights of the flight functionality, the time settings and the planets,
 * turned into the mission and the functionality a `PathFinder` is built
 * with.  A configured number is NaN until set, written `None`; every check
 * reports the first unset field as "field '<type>.<name>' must be set.",
 * where `<type>` is the section the check runs for.
 */
module ProblemConfigs {
  import opened Wrappers
  import opened PlanetScripts
  import opened FlightChains
  import PC = PlanetConfigs
  import PlanetNames
  import Nodes

  /** The message `Check` throws for the field `name` of the section `type`. */
  function Missing(type_: string, name: string): string {
    "field '" + (type_ + "." + name) + "' must be set."
  }

  /** `AX_CONF_CHECK(field)`: the value when it is set, otherwise the section's message for the field. */
  function CheckField(type_: string, name: string, val: Option<real>): (r: Result<real>)
    ensures r.Ok? <==> val.Some?
    ensures r.Ok? ==> r.value == val.value
    ensures r.Err? ==> r.error == Missing(type_, name)
  {
    PC.Check(val, type_ + "." + name)
  }

  /** A named field in the order a section checks it. */
  datatype Entry = Entry(name: string, val: Option<real>)

  /** The position of the first unset entry, or the length when all are set. */
  function FirstUnset(es: seq<Entry>): (k: nat)
    ensures k <= |es|
    ensures forall i :: 0 <= i < k ==> es[i].val.Some?
    ensures k < |es| ==> es[k].val.None?
  {
    if es == [] then 0
    else if es[0].val.None? then 0
    else 1 + FirstUnset(es[1..])
  }

  /** The error of a section whose entries are checked in order: the first unset entry's, if any. */
  function FirstMissing(type_: string, es: seq<Entry>): (r: Option<string>)
    ensures r.None? <==> forall i :: 0 <= i < |es| ==> es[i].val.Some?
  {
    var k := FirstUnset(es);
    if k < |es| then Some(Missing(type_, es[k].name)) else None
  }

  /** Checking one more entry first: its own error, or else the rest's. */
  lemma FirstMissingCons(type_: string, e: Entry, es: seq<Entry>)
    ensures FirstMissing(type_, [e] + es) == if e.val.None? then Some(Missing(type_, e.name)) else FirstMissing(type_, es)
  {
    assert ([e] + es)[1..] == es;
    if e.val.Some? {
      assert forall i :: 0 <= i < |es| ==> es[i] == ([e] + es)[i + 1];
    }
  }

  // ---------------------------------------------------------------- time settings

  const TimeType: string := "Mission.TimeSettings"

  /** The entries `TimeConfig::CheckIsValid` checks: the step and the chunk size, nothing else. */
  function TimeEntries(t: PC.TimeConfig): seq<Entry> {
    [Entry("discretisation", t.discretisation), Entry("chunkSize", t.chunkSize)]
  }

  /** `TimeConfig::CheckIsValid`: the step, then the chunk size, must be set. */
  function CheckIsValid(t: PC.TimeConfig): (r: Result<()>)
    ensures r.Ok? <==> t.discretisation.Some? && t.chunkSize.Some?
  {
    var d := CheckField(TimeType, "discretisation", t.discretisation);
    if d.Err? then Err(d.error)
    else
      var c := CheckField(TimeType, "chunkSize", t.chunkSize);
      if c.Err? then Err(c.error) else Ok(())
  }

  /** The time settings fail exactly with the first unset of the step and the chunk size, and nothing else is checked. */
  lemma CheckIsValidChecks(t: PC.TimeConfig, date: string, t0: Option<real>, t1: Option<real>, dt: Option<real>)
    ensures CheckIsValid(t).Err? ==> Some(CheckIsValid(t).error) == FirstMissing(TimeType, TimeEntries(t))
    ensures CheckIsValid(t.(startDate := date, t0 := t0, t1 := t1, dt := dt)) == CheckIsValid(t)
  {
    var es := TimeEntries(t);
    FirstMissingCons(TimeType, es[0], es[1..]);
    FirstMissingCons(TimeType, es[1], []);
    assert es == [es[0]] + es[1..] && es[1..] == [es[1]] + [];
  }

  // ---------------------------------------------------------------- approximation settings

  /** The search settings both approximations share. */
  datatype MissionConfig = MissionConfig(normalFlyPeriodFactor: real, points_f0: real, timeFrac: Option<real>,
                                         timeStep: real, timeTol: real)

  /** `Nodes::BurnNode` as the SAX factory fills it. */
  datatype BurnNode = BurnNode(ImpulseLimit: real, A_impulse: real, K_impulse: real)

  /** The second approximation's settings; `burnNodeFactory` is represented by the node it makes. */
  datatype SAXConfig = SAXConfig(base: MissionConfig, burnArcFraction: real, maxMinimisationIters: int,
                                 minMinimisationDelta: real, initialBurnPointStep: real, initialTossAngleStep: real,
                                 initialTimeStep: real, burnNodeFactory: BurnNode)

  /** The fields of `AXConf`. */
  datatype AXFields = AXFields(periodFactor: Option<real>, points_f0: Option<real>, timeStep: Option<real>,
                               timeFrac: Option<real>, timeTol: Option<real>)

  /** An `AXConf` as declared: every field NaN. */
  const UnsetAX: AXFields := AXFields(None, None, None, None, None)

  /** The fields `SAXConf` adds; the iteration bound is an integer. */
  datatype SAXFields = SAXFields(burnArcFraction: Option<real>, minMinimisationDelta: Option<real>, maxMinimisationIters: int,
                                 initialTossAngleStep: Option<real>, initialBurnPointStep: Option<real>,
                                 initialTimeStep: Option<real>, burnImpulseLimit: Option<real>,
                                 burnImpulse_a: Option<real>, burnImpulse_k: Option<real>)

  /** A `SAXConf` as declared: every field has its default but the impulse limit. */
  const DefaultSAX: SAXFields := SAXFields(Some(0.5), Some(0.1), 100, Some(0.001), Some(1000000.0), Some(3600.0 * 12.0),
                                           None, Some(1.0), Some(4.0))

  /** The entries `AXConf::MakeConfig` checks, in order; `timeFrac` is not among them. */
  function AXEntries(ax: AXFields): seq<Entry> {
    [Entry("periodFactor", ax.periodFactor), Entry("points_f0", ax.points_f0),
     Entry("timeStep", ax.timeStep), Entry("timeTol", ax.timeTol)]
  }

  /**
   * The entries `SAXConf::MakeConfig` checks after the shared ones.  The
   * integer iteration bound goes through the `float` check too, and no
   * integer is NaN.
   */
  function SAXEntries(sx: SAXFields): seq<Entry> {
    [Entry("burnArcFraction", sx.burnArcFraction), Entry("maxMinimisationIters", Some(sx.maxMinimisationIters as real)),
     Entry("minMinimisationDelta", sx.minMinimisationDelta), Entry("initialBurnPointStep", sx.initialBurnPointStep),
     Entry("initialTossAngleStep", sx.initialTossAngleStep), Entry("initialTimeStep", sx.initialTimeStep),
     Entry("burnImpulseLimit", sx.burnImpulseLimit), Entry("burnImpulse_a", sx.burnImpulse_a),
     Entry("burnImpulse_k", sx.burnImpulse_k)]
  }

  /**
   * What `AXConf::MakeConfig` yields for the section `type`: the checked
   * values, with the time settings' discretisation, unchecked, as `timeFrac`.
   */
  function AXConfig(ax: AXFields, type_: string, tconf: PC.TimeConfig): (r: Result<MissionConfig>)
    ensures r.Ok? ==> && ax.periodFactor == Some(r.value.normalFlyPeriodFactor) && ax.points_f0 == Some(r.value.points_f0)
                      && ax.timeStep == Some(r.value.timeStep) && ax.timeTol == Some(r.value.timeTol)
                      && r.value.timeFrac == tconf.discretisation
  {
    var periodFactor := CheckField(type_, "periodFactor", ax.periodFactor);
    if periodFactor.Err? then Err(periodFactor.error) else
    var points_f0 := CheckField(type_, "points_f0", ax.points_f0);
    if points_f0.Err? then Err(points_f0.error) else
    var timeStep := CheckField(type_, "timeStep", ax.timeStep);
    if timeStep.Err? then Err(timeStep.error) else
    var timeTol := CheckField(type_, "timeTol", ax.timeTol);
    if timeTol.Err? then Err(timeTol.error) else
    Ok(MissionConfig(periodFactor.value, points_f0.value, tconf.discretisation, timeStep.value, timeTol.value))
  }

  /** The shared settings fail exactly when one of the four checked fields is unset, with the first one's message. */
  lemma AXConfigChecks(ax: AXFields, type_: string, tconf: PC.TimeConfig)
    ensures AXConfig(ax, type_, tconf).Ok? <==> FirstMissing(type_, AXEntries(ax)).None?
    ensures AXConfig(ax, type_, tconf).Err? ==> Some(AXConfig(ax, type_, tconf).error) == FirstMissing(type_, AXEntries(ax))
  {
    var es := AXEntries(ax);
    assert es == [es[0]] + ([es[1]] + ([es[2]] + ([es[3]] + [])));
    FirstMissingCons(type_, es[3], []);
    FirstMissingCons(type_, es[2], [es[3]] + []);
    FirstMissingCons(type_, es[1], [es[2]] + ([es[3]] + []));
    FirstMissingCons(type_, es[0], [es[1]] + ([es[2]] + ([es[3]] + [])));
  }

  /**
   * What `SAXConf::MakeConfig` yields for the section `type`: the shared
   * settings, then its own fields checked in order; the burn node carries
   * the three checked impulse values.
   */
  function SAXConfigOf(ax: AXFields, sx: SAXFields, type_: string, tconf: PC.TimeConfig): (r: Result<SAXConfig>)
    ensures r.Ok? ==> && AXConfig(ax, type_, tconf) == Ok(r.value.base)
                      && r.value.maxMinimisationIters == sx.maxMinimisationIters
                      && sx.burnImpulseLimit == Some(r.value.burnNodeFactory.ImpulseLimit)
                      && sx.burnImpulse_a == Some(r.value.burnNodeFactory.A_impulse)
                      && sx.burnImpulse_k == Some(r.value.burnNodeFactory.K_impulse)
    ensures AXConfig(ax, type_, tconf).Err? ==> r == Err(AXConfig(ax, type_, tconf).error)
  {
    var base := AXConfig(ax, type_, tconf);
    if base.Err? then Err(base.error) else
    var arc := CheckField(type_, "burnArcFraction", sx.burnArcFraction);
    if arc.Err? then Err(arc.error) else
    var delta := CheckField(type_, "minMinimisationDelta", sx.minMinimisationDelta);
    if delta.Err? then Err(delta.error) else
    var burnStep := CheckField(type_, "initialBurnPointStep", sx.initialBurnPointStep);
    if burnStep.Err? then Err(burnStep.error) else
    var tossStep := CheckField(type_, "initialTossAngleStep", sx.initialTossAngleStep);
    if tossStep.Err? then Err(tossStep.error) else
    var timeStep := CheckField(type_, "initialTimeStep", sx.initialTimeStep);
    if timeStep.Err? then Err(timeStep.error) else
    var limit := CheckField(type_, "burnImpulseLimit", sx.burnImpulseLimit);
    if limit.Err? then Err(limit.error) else
    var a := CheckField(type_, "burnImpulse_a", sx.burnImpulse_a);
    if a.Err? then Err(a.error) else
    var k := CheckField(type_, "burnImpulse_k", sx.burnImpulse_k);
    if k.Err? then Err(k.error) else
    Ok(SAXConfig(base.value, arc.value, sx.maxMinimisationIters, delta.value, burnStep.value, tossStep.value,
                 timeStep.value, BurnNode(limit.value, a.value, k.value)))
  }

  /** The SAX fields alone, by the same rule, as the entries after the shared four. */
  lemma SAXEntriesChecks(ax: AXFields, sx: SAXFields, type_: string, tconf: PC.TimeConfig)
    requires AXConfig(ax, type_, tconf).Ok?
    ensures SAXConfigOf(ax, sx, type_, tconf).Ok? <==> FirstMissing(type_, SAXEntries(sx)).None?
    ensures SAXConfigOf(ax, sx, type_, tconf).Err? ==> Some(SAXConfigOf(ax, sx, type_, tconf).error) == FirstMissing(type_, SAXEntries(sx))
  {
    var es := SAXEntries(sx);
    var s8 := [es[8]] + [];
    var s7 := [es[7]] + s8;
    var s6 := [es[6]] + s7;
    var s5 := [es[5]] + s6;
    var s4 := [es[4]] + s5;
    var s3 := [es[3]] + s4;
    var s2 := [es[2]] + s3;
    var s1 := [es[1]] + s2;
    assert es == [es[0]] + s1;
    FirstMissingCons(type_, es[8], []);
    FirstMissingCons(type_, es[7], s8);
    FirstMissingCons(type_, es[6], s7);
    FirstMissingCons(type_, es[5], s6);
    FirstMissingCons(type_, es[4], s5);
    FirstMissingCons(type_, es[3], s4);
    FirstMissingCons(type_, es[2], s3);
    FirstMissingCons(type_, es[1], s2);
    FirstMissingCons(type_, es[0], s1);
  }

  /** The first unset entry of a concatenation is the first part's, or else the second part's. */
  lemma {:induction false} FirstMissingAppend(type_: string, a: seq<Entry>, b: seq<Entry>)
    ensures FirstMissing(type_, a + b) == if FirstMissing(type_, a).Some? then FirstMissing(type_, a) else FirstMissing(type_, b)
    decreases |a|
  {
    if a == [] {
      assert a + b == b;
    } else {
      assert a + b == [a[0]] + (a[1..] + b);
      assert a == [a[0]] + a[1..];
      FirstMissingCons(type_, a[0], a[1..] + b);
      FirstMissingCons(type_, a[0], a[1..]);
      FirstMissingAppend(type_, a[1..], b);
    }
  }

  /**
   * The SAX settings fail exactly when one of the shared and then its own
   * checked fields is unset, with the first one's message.
   */
  lemma SAXConfigChecks(ax: AXFields, sx: SAXFields, type_: string, tconf: PC.TimeConfig)
    ensures SAXConfigOf(ax, sx, type_, tconf).Ok? <==> FirstMissing(type_, AXEntries(ax) + SAXEntries(sx)).None?
    ensures SAXConfigOf(ax, sx, type_, tconf).Err?
            ==> Some(SAXConfigOf(ax, sx, type_, tconf).error) == FirstMissing(type_, AXEntries(ax) + SAXEntries(sx))
  {
    FirstMissingAppend(type_, AXEntries(ax), SAXEntries(sx));
    AXConfigChecks(ax, type_, tconf);
    if AXConfig(ax, type_, tconf).Ok? {
      SAXEntriesChecks(ax, sx, type_, tconf);
    }
  }

  /**
   * The iteration bound is never refused; settings left as declared fail on
   * the first shared field, and with the shared fields set the SAX defaults
   * fail on the impulse limit, the one default that is NaN.
   */
  lemma SAXDefaults(ax: AXFields, sx: SAXFields, type_: string, tconf: PC.TimeConfig)
    ensures SAXEntries(sx)[1].val.Some?
    ensures SAXConfigOf(UnsetAX, sx, type_, tconf) == Err(Missing(type_, "periodFactor"))
    ensures AXConfig(ax, type_, tconf).Ok? ==> SAXConfigOf(ax, DefaultSAX, type_, tconf) == Err(Missing(type_, "burnImpulseLimit"))
  {
  }

  /** `AXConf::MakeConfig(tconf)`, for the section the caller has set as `type`: the fields are checked and copied one by one. */
  method MakeAXConfig(ax: AXFields, type_: string, tconf: PC.TimeConfig) returns (r: Result<MissionConfig>)
    ensures r == AXConfig(ax, type_, tconf)
  {
    var conf := MissionConfig(0.0, 0.0, None, 0.0, 0.0);
    var periodFactor := CheckField(type_, "periodFactor", ax.periodFactor);
    if periodFactor.Err? { return Err(periodFactor.error); }
    conf := conf.(normalFlyPeriodFactor := periodFactor.value);
    var points_f0 := CheckField(type_, "points_f0", ax.points_f0);
    if points_f0.Err? { return Err(points_f0.error); }
    conf := conf.(points_f0 := points_f0.value);
    conf := conf.(timeFrac := tconf.discretisation);
    var timeStep := CheckField(type_, "timeStep", ax.timeStep);
    if timeStep.Err? { return Err(timeStep.error); }
    conf := conf.(timeStep := timeStep.value);
    var timeTol := CheckField(type_, "timeTol", ax.timeTol);
    if timeTol.Err? { return Err(timeTol.error); }
    conf := conf.(timeTol := timeTol.value);
    r := Ok(conf);
  }

  const FaxType: string := "Mission.FAX"
  const SaxType: string := "Mission.SAX"

  /** `FAXConf`: the shared settings; `type` is the section name the checks report. */
  class FAXConf {
    var ax: AXFields
    var type_: string

    constructor (ax: AXFields)
      ensures this.ax == ax && type_ == ""
    {
      this.ax := ax;
      type_ := "";
    }

    /** `FAXConf::MakeConfig(tconf)`: the section becomes "Mission.FAX" and the shared settings are made for it. */
    method MakeConfig(tconf: PC.TimeConfig) returns (r: Result<MissionConfig>)
      modifies this
      ensures ax == old(ax) && type_ == FaxType
      ensures r == AXConfig(ax, FaxType, tconf)
    {
      type_ := FaxType;
      r := MakeAXConfig(ax, type_, tconf);
    }
  }

  /** `SAXConf`: the shared settings and the second approximation's own. */
  class SAXConf {
    var ax: AXFields
    var sx: SAXFields
    var type_: string

    constructor (ax: AXFields)
      ensures this.ax == ax && sx == DefaultSAX && type_ == ""
    {
      this.ax := ax;
      sx := DefaultSAX;
      type_ := "";
    }

    /**
     * `SAXConf::MakeConfig(tconf)`: the section becomes "Mission.SAX", the
     * shared settings are made for it, then its own fields are checked in
     * order; the burn-node factory captures the three checked impulse values.
     */
    method MakeConfig(tconf: PC.TimeConfig) returns (r: Result<SAXConfig>)
      modifies this
      ensures ax == old(ax) && sx == old(sx) && type_ == SaxType
      ensures r == SAXConfigOf(ax, sx, SaxType, tconf)
    {
      type_ := SaxType;
      var base := MakeAXConfig(ax, type_, tconf);
      if base.Err? { return Err(base.error); }
      var conf := SAXConfig(base.value, 0.0, 0, 0.0, 0.0, 0.0, 0.0, BurnNode(0.0, 0.0, 0.0));
      var arc := CheckField(type_, "burnArcFraction", sx.burnArcFraction);
      if arc.Err? { return Err(arc.error); }
      conf := conf.(burnArcFraction := arc.value);
      // the integer bound passes the NaN check unconditionally
      conf := conf.(maxMinimisationIters := sx.maxMinimisationIters);
      var delta := CheckField(type_, "minMinimisationDelta", sx.minMinimisationDelta);
      if delta.Err? { return Err(delta.error); }
      conf := conf.(minMinimisationDelta := delta.value);
      var burnStep := CheckField(type_, "initialBurnPointStep", sx.initialBurnPointStep);
      if burnStep.Err? { return Err(burnStep.error); }
      conf := conf.(initialBurnPointStep := burnStep.value);
      var tossStep := CheckField(type_, "initialTossAngleStep", sx.initialTossAngleStep);
      if tossStep.Err? { return Err(tossStep.error); }
      conf := conf.(initialTossAngleStep := tossStep.value);
      var timeStep := CheckField(type_, "initialTimeStep", sx.initialTimeStep);
      if timeStep.Err? { return Err(timeStep.error); }
      conf := conf.(initialTimeStep := timeStep.value);
      var limit := CheckField(type_, "burnImpulseLimit", sx.burnImpulseLimit);
      if limit.Err? { return Err(limit.error); }
      var a := CheckField(type_, "burnImpulse_a", sx.burnImpulse_a);
      if a.Err? { return Err(a.error); }
      var k := CheckField(type_, "burnImpulse_k", sx.burnImpulse_k);
      if k.Err? { return Err(k.error); }
      conf := conf.(burnNodeFactory := BurnNode(limit.value, a.value, k.value));
      r := Ok(conf);
    }
  }

  // ---------------------------------------------------------------- functionality

  const FunctionalityType: string := "Mission.Functionality"

  /** `FunctionalityConfig`: the four weights. */
  datatype FunctionalityConfig = FunctionalityConfig(correction: Option<real>, mismatch: Option<real>,
                                                     impulse: Option<real>, time: Option<real>)

  function FunctionalityEntries(fc: FunctionalityConfig): seq<Entry> {
    [Entry("correction", fc.correction), Entry("mismatch", fc.mismatch), Entry("impulse", fc.impulse), Entry("time", fc.time)]
  }

  /** The weighted sum of a flight's totals. */
  function Weighted(c: real, m: real, i: real, t: real, flight: FlightChain): real {
    c * flight.totalCorrection + m * flight.totalMismatch + i * flight.totalImpulse + t * flight.totalTime
  }

  /**
   * `MakeFunctionality()`: the first unset weight's error, or the function
   * that weighs a flight's correction, mismatch, impulse and time.
   */
  function MakeFunctionality(fc: FunctionalityConfig): (r: Result<FlightChain -> real>)
    ensures r.Ok? <==> fc.correction.Some? && fc.mismatch.Some? && fc.impulse.Some? && fc.time.Some?
    ensures r.Ok? ==> forall flight :: r.value(flight)
                        == Weighted(fc.correction.value, fc.mismatch.value, fc.impulse.value, fc.time.value, flight)
  {
    var c := CheckField(FunctionalityType, "correction", fc.correction);
    if c.Err? then Err(c.error) else
    var m := CheckField(FunctionalityType, "mismatch", fc.mismatch);
    if m.Err? then Err(m.error) else
    var i := CheckField(FunctionalityType, "impulse", fc.impulse);
    if i.Err? then Err(i.error) else
    var t := CheckField(FunctionalityType, "time", fc.time);
    if t.Err? then Err(t.error) else
    Ok((flight: FlightChain) => Weighted(c.value, m.value, i.value, t.value, flight))
  }

  /** The functionality fails exactly with the first unset weight's message. */
  lemma FunctionalityChecks(fc: FunctionalityConfig)
    ensures MakeFunctionality(fc).Err? ==> Some(MakeFunctionality(fc).error) == FirstMissing(FunctionalityType, FunctionalityEntries(fc))
  {
    var es := FunctionalityEntries(fc);
    assert es == [es[0]] + ([es[1]] + ([es[2]] + ([es[3]] + [])));
    FirstMissingCons(FunctionalityType, es[3], []);
    FirstMissingCons(FunctionalityType, es[2], [es[3]] + []);
    FirstMissingCons(FunctionalityType, es[1], [es[2]] + ([es[3]] + []));
    FirstMissingCons(FunctionalityType, es[0], [es[1]] + ([es[2]] + ([es[3]] + [])));
  }

  /**
   * The functionality depends on a flight's four totals alone, and with
   * non-negative weights a flight whose totals are all no larger scores no
   * higher.
   */
  lemma FunctionalityMonotone(fc: FunctionalityConfig, a: FlightChain, b: FlightChain)
    requires MakeFunctionality(fc).Ok?
    ensures a.totalCorrection == b.totalCorrection && a.totalMismatch == b.totalMismatch
            && a.totalImpulse == b.totalImpulse && a.totalTime == b.totalTime
            ==> MakeFunctionality(fc).value(a) == MakeFunctionality(fc).value(b)
    ensures fc.correction.value >= 0.0 && fc.mismatch.value >= 0.0 && fc.impulse.value >= 0.0 && fc.time.value >= 0.0
            && a.totalCorrection <= b.totalCorrection && a.totalMismatch <= b.totalMismatch
            && a.totalImpulse <= b.totalImpulse && a.totalTime <= b.totalTime
            ==> MakeFunctionality(fc).value(a) <= MakeFunctionality(fc).value(b)
  {
    var c, m, i, t := fc.correction.value, fc.mismatch.value, fc.impulse.value, fc.time.value;
    var w := MakeFunctionality(fc).value;
    assert w(a) == Weighted(c, m, i, t, a);
    assert w(b) == Weighted(c, m, i, t, b);
    if c >= 0.0 && m >= 0.0 && i >= 0.0 && t >= 0.0
       && a.totalCorrection <= b.totalCorrection && a.totalMismatch <= b.totalMismatch
       && a.totalImpulse <= b.totalImpulse && a.totalTime <= b.totalTime
    {
      WeightedMonotone(c, m, i, t, a, b);
    }
  }

  /** The weighted sum is linear in each total: raising one by `d` raises the sum by its weight times `d`. */
  lemma WeightedLinear(c: real, m: real, i: real, t: real, f: FlightChain, d: real)
    ensures Weighted(c, m, i, t, f.(totalCorrection := f.totalCorrection + d)) == Weighted(c, m, i, t, f) + c * d
    ensures Weighted(c, m, i, t, f.(totalMismatch := f.totalMismatch + d)) == Weighted(c, m, i, t, f) + m * d
    ensures Weighted(c, m, i, t, f.(totalImpulse := f.totalImpulse + d)) == Weighted(c, m, i, t, f) + i * d
    ensures Weighted(c, m, i, t, f.(totalTime := f.totalTime + d)) == Weighted(c, m, i, t, f) + t * d
  {
    assert c * (f.totalCorrection + d) == c * f.totalCorrection + c * d;
    assert m * (f.totalMismatch + d) == m * f.totalMismatch + m * d;
    assert i * (f.totalImpulse + d) == i * f.totalImpulse + i * d;
    assert t * (f.totalTime + d) == t * f.totalTime + t * d;
  }

  lemma WeightedMonotone(c: real, m: real, i: real, t: real, a: FlightChain, b: FlightChain)
    requires c >= 0.0 && m >= 0.0 && i >= 0.0 && t >= 0.0
    requires a.totalCorrection <= b.totalCorrection && a.totalMismatch <= b.totalMismatch
    requires a.totalImpulse <= b.totalImpulse && a.totalTime <= b.totalTime
    ensures Weighted(c, m, i, t, a) <= Weighted(c, m, i, t, b)
  {
    ScaleMono(c, a.totalCorrection, b.totalCorrection);
    ScaleMono(m, a.totalMismatch, b.totalMismatch);
    ScaleMono(i, a.totalImpulse, b.totalImpulse);
    ScaleMono(t, a.totalTime, b.totalTime);
  }

  /** A non-negative weight keeps the order of what it weighs. */
  lemma ScaleMono(w: real, x: real, y: real)
    requires w >= 0.0 && x <= y
    ensures w * x <= w * y
  {
    assert w * y - w * x == w * (y - x);
  }

  // ---------------------------------------------------------------- the mission

  /** The mission the configuration produces (pathfinder's newer `Mission`). */
  datatype Mission = Mission(faxConfig: MissionConfig, saxConfig: SAXConfig, t0: Option<real>, GM: real,
                             nodes: seq<Nodes.Node>)

  /** The error `PlanetConfig::ProduceNode` throws for a planet, if any. */
  function NodeError(c: PC.PlanetConfig, desk: PC.TimeConfig): Option<string> {
    if PlanetNames.GetPlanetName(c.planet).Err? then Some(PlanetNames.GetPlanetName(c.planet).error)
    else if !PC.Discretisable(desk) then Some("steps and chunk sizes must be positive")
    else if PC.GetNodeType(c.nodeType).Err? then Some(PC.GetNodeType(c.nodeType).error)
    else
      var fields := PC.Required(PC.GetNodeType(c.nodeType).value);
      if PC.FirstUnset(c, fields) < |fields| then Some(PC.Missing(c, fields[PC.FirstUnset(c, fields)])) else None
  }

  /** The first error of a sequence of checks, in order. */
  function FirstError<X>(xs: seq<X>, err: X -> Option<string>): (r: Option<string>)
    ensures r.None? <==> forall i :: 0 <= i < |xs| ==> err(xs[i]).None?
  {
    if xs == [] then None
    else if err(xs[0]).Some? then err(xs[0])
    else
      assert forall i :: 0 <= i < |xs| - 1 ==> xs[1..][i] == xs[i + 1];
      FirstError(xs[1..], err)
  }

  /** A prefix without an error extended by one element fails with that element's error, if any. */
  lemma {:induction false} FirstErrorSnoc<X>(xs: seq<X>, i: nat, err: X -> Option<string>)
    requires i < |xs| && FirstError(xs[..i], err).None?
    ensures FirstError(xs[..i + 1], err) == err(xs[i])
    decreases i
  {
    if i > 0 {
      assert xs[..i + 1][1..] == xs[1..][..i];
      assert xs[..i][1..] == xs[1..][..i - 1];
      FirstErrorSnoc(xs[1..], i - 1, err);
    }
  }

  /** The first error of a prefix is the first error of the whole. */
  lemma {:induction false} FirstErrorPrefix<X>(xs: seq<X>, n: nat, err: X -> Option<string>)
    requires n <= |xs| && FirstError(xs[..n], err).Some?
    ensures FirstError(xs, err) == FirstError(xs[..n], err)
    decreases n
  {
    assert xs[..n][0] == xs[0];
    if err(xs[0]).None? {
      assert xs[..n][1..] == xs[1..][..n - 1];
      FirstErrorPrefix(xs[1..], n - 1, err);
    }
  }

  /** `NodeError` for the time settings `desk`. */
  function NodeErrorOf(desk: PC.TimeConfig): PC.PlanetConfig -> Option<string> {
    c => NodeError(c, desk)
  }

  /** The first error among the planets, in order. */
  function PlanetsError(planets: seq<PC.PlanetConfig>, desk: PC.TimeConfig): (r: Option<string>)
    ensures r.None? <==> forall i :: 0 <= i < |planets| ==> NodeError(planets[i], desk).None?
  {
    FirstError(planets, NodeErrorOf(desk))
  }

  /** The node a planet's configuration yields with an ephemeris: the one `ProduceNode` builds. */
  ghost predicate ProducedFrom(n: Nodes.Node, c: PC.PlanetConfig, desk: PC.TimeConfig, spice: Spice) {
    && NodeError(c, desk).None?
    && PlanetNames.GetPlanetName(c.planet).Ok?
    && PC.GetNodeType(c.nodeType).Ok?
    && n.Script.Some?
    && Ok(n) == PC.BuildNode(c, PC.GetNodeType(c.nodeType).value, n.Script.value)
    && desk.discretisation.Some?
    && PC.DiscretisedEphemeris(n.Script.value, spice, GetSPICEName(PlanetNames.GetPlanetName(c.planet).value),
                               spice.absTime(desk.startDate), desk.discretisation.value)
  }

  /** `ProducedFrom` for the time settings `desk` and the ephemeris `spice`. */
  ghost function ProducedOf(desk: PC.TimeConfig, spice: Spice): (Nodes.Node, PC.PlanetConfig) -> bool {
    (n, c) => ProducedFrom(n, c, desk, spice)
  }

  /** `planet.ProduceNode(timeSettings)`: fails exactly with `NodeError`, and otherwise yields a produced node. */
  method Produce(c: PC.PlanetConfig, desk: PC.TimeConfig, spice: Spice) returns (r: Result<Nodes.Node>)
    ensures r.Err? <==> NodeError(c, desk).Some?
    ensures r.Err? ==> NodeError(c, desk) == Some(r.error)
    ensures r.Ok? ==> ProducedFrom(r.value, c, desk, spice)
  {
    r := PC.ProduceNode(c, desk, spice);
  }

  /** `err` and `made` are `NodeError` and `ProducedFrom` for the time settings `desk` and the ephemeris `spice`. */
  ghost predicate Describes(err: PC.PlanetConfig -> Option<string>, made: (Nodes.Node, PC.PlanetConfig) -> bool,
                            desk: PC.TimeConfig, spice: Spice) {
    && (forall c {:trigger NodeError(c, desk)} :: err(c) == NodeError(c, desk))
    && (forall n, c {:trigger ProducedFrom(n, c, desk, spice)} :: made(n, c) == ProducedFrom(n, c, desk, spice))
  }

  /** `Produce`, stated through the functions `err` and `made` stand for. */
  method ProduceOne(c: PC.PlanetConfig, desk: PC.TimeConfig, spice: Spice,
                    ghost err: PC.PlanetConfig -> Option<string>, ghost made: (Nodes.Node, PC.PlanetConfig) -> bool)
    returns (r: Result<Nodes.Node>)
    requires Describes(err, made, desk, spice)
    ensures r.Err? <==> err(c).Some?
    ensures r.Err? ==> err(c) == Some(r.error)
    ensures r.Ok? ==> made(r.value, c)
  {
    r := Produce(c, desk, spice);
    assert err(c) == NodeError(c, desk);
    if r.Ok? {
      assert made(r.value, c) == ProducedFrom(r.value, c, desk, spice);
    }
  }

  /** The nodes of `planets` in order, stopping at the first planet whose node cannot be produced. */
  method ProduceAll(planets: seq<PC.PlanetConfig>, desk: PC.TimeConfig, spice: Spice,
                    ghost err: PC.PlanetConfig -> Option<string>, ghost made: (Nodes.Node, PC.PlanetConfig) -> bool)
    returns (r: Result<seq<Nodes.Node>>)
    requires Describes(err, made, desk, spice)
    ensures r.Err? <==> FirstError(planets, err).Some?
    ensures r.Err? ==> FirstError(planets, err) == Some(r.error)
    ensures r.Ok? ==> |r.value| == |planets| && forall i :: 0 <= i < |planets| ==> made(r.value[i], planets[i])
  {
    var nodes: seq<Nodes.Node> := [];
    for i := 0 to |planets|
      invariant FirstError(planets[..i], err).None?
      invariant |nodes| == i
      invariant forall j :: 0 <= j < i ==> made(nodes[j], planets[j])
    {
      var node := ProduceOne(planets[i], desk, spice, err, made);
      FirstErrorSnoc(planets, i, err);
      if node.Err? {
        FirstErrorPrefix(planets, i + 1, err);
        return Err(node.error);
      }
      nodes := nodes + [node.value];
    }
    assert planets[..|planets|] == planets;
    r := Ok(nodes);
  }

  /** `planets`' nodes in order, stopping at the first planet whose node cannot be produced. */
  method ProduceNodes(planets: seq<PC.PlanetConfig>, desk: PC.TimeConfig, spice: Spice) returns (r: Result<seq<Nodes.Node>>)
    ensures r.Err? <==> PlanetsError(planets, desk).Some?
    ensures r.Err? ==> PlanetsError(planets, desk) == Some(r.error)
    ensures r.Ok? ==> |r.value| == |planets| && forall i :: 0 <= i < |planets| ==> ProducedFrom(r.value[i], planets[i], desk, spice)
  {
    r := ProduceAll(planets, desk, spice, NodeErrorOf(desk), ProducedOf(desk, spice));
  }

  /** What `MakeFinder` throws for a `keepFactor` outside (0, 1]; the section name runs into the field name. */
  const KeepFactorRange: string := "MissionkeepFactor must be in range of (0, 1]"

  /** `ProblemConfig`: the sections of the problem file. */
  class ProblemConfig {
    const functionality: FunctionalityConfig
    const timeSettings: PC.TimeConfig
    const planets: seq<PC.PlanetConfig>
    const faxConf: FAXConf
    const saxConf: SAXConf
    const keepFactor: Option<real>

    constructor (functionality: FunctionalityConfig, timeSettings: PC.TimeConfig, planets: seq<PC.PlanetConfig>,
                 faxConf: FAXConf, saxConf: SAXConf, keepFactor: Option<real>)
      ensures this.functionality == functionality && this.timeSettings == timeSettings && this.planets == planets
      ensures this.faxConf == faxConf && this.saxConf == saxConf && this.keepFactor == keepFactor
    {
      this.functionality := functionality;
      this.timeSettings := timeSettings;
      this.planets := planets;
      this.faxConf := faxConf;
      this.saxConf := saxConf;
      this.keepFactor := keepFactor;
    }

    /** The error `MakeMission` throws, if any: the FAX settings, then the SAX settings, then the planets in order. */
    function MissionError(): Option<string>
      reads faxConf, saxConf
    {
      var fax := AXConfig(faxConf.ax, FaxType, timeSettings);
      var sax := SAXConfigOf(saxConf.ax, saxConf.sx, SaxType, timeSettings);
      if fax.Err? then Some(fax.error)
      else if sax.Err? then Some(sax.error)
      else PlanetsError(planets, timeSettings)
    }

    /**
     * `MakeMission()`: both approximations' settings, the start time, the
     * Sun's gravitational parameter, and one node per configured planet in
     * order.
     */
    method MakeMission(spice: Spice) returns (r: Result<Mission>)
      modifies faxConf, saxConf
      ensures faxConf.ax == old(faxConf.ax) && saxConf.ax == old(saxConf.ax) && saxConf.sx == old(saxConf.sx)
      ensures faxConf.type_ == FaxType
      ensures saxConf.type_ == if AXConfig(faxConf.ax, FaxType, timeSettings).Ok? then SaxType else old(saxConf.type_)
      ensures r.Err? <==> MissionError().Some?
      ensures r.Err? ==> MissionError() == Some(r.error)
      ensures r.Ok? ==> && AXConfig(faxConf.ax, FaxType, timeSettings) == Ok(r.value.faxConfig)
                        && SAXConfigOf(saxConf.ax, saxConf.sx, SaxType, timeSettings) == Ok(r.value.saxConfig)
                        && r.value.t0 == timeSettings.t0
                        && r.value.GM == spice.gm(GetSPICEName(Sun))
                        && |r.value.nodes| == |planets|
                        && forall i :: 0 <= i < |planets| ==> ProducedFrom(r.value.nodes[i], planets[i], timeSettings, spice)
    {
      var sun := new PlanetScript(Sun, timeSettings.startDate, spice);
      var fax := faxConf.MakeConfig(timeSettings);
      if fax.Err? { return Err(fax.error); }
      var sax := saxConf.MakeConfig(timeSettings);
      if sax.Err? { return Err(sax.error); }
      var GM := sun.GetGM(0.0);
      var nodes := ProduceNodes(planets, timeSettings, spice);
      if nodes.Err? { return Err(nodes.error); }
      r := Ok(Mission(fax.value, sax.value, timeSettings.t0, GM, nodes.value));
    }

    /** The error `MakeFinder` throws, if any: the time settings, then `keepFactor`, then the mission, then the functionality. */
    function FinderError(): Option<string>
      reads faxConf, saxConf
    {
      if CheckIsValid(timeSettings).Err? then Some(CheckIsValid(timeSettings).error)
      else if keepFactor.None? then Some(Missing("Mission", "keepFactor"))
      else if !(0.0 < keepFactor.value <= 1.0) then Some(KeepFactorRange)
      else if MissionError().Some? then MissionError()
      else if MakeFunctionality(functionality).Err? then Some(MakeFunctionality(functionality).error)
      else None
    }

    /**
     * `MakeFinder()`: the time settings must be valid and `keepFactor` set
     * and in (0, 1] before the mission and the functionality are made.
     */
    method MakeFinder(spice: Spice) returns (r: Result<(Mission, FlightChain -> real)>)
      modifies faxConf, saxConf
      ensures faxConf.ax == old(faxConf.ax) && saxConf.ax == old(saxConf.ax) && saxConf.sx == old(saxConf.sx)
      ensures r.Err? <==> FinderError().Some?
      ensures r.Err? ==> FinderError() == Some(r.error)
      ensures r.Ok? ==> && r.value.1 == MakeFunctionality(functionality).value
                        && |r.value.0.nodes| == |planets|
                        && forall i :: 0 <= i < |planets| ==> ProducedFrom(r.value.0.nodes[i], planets[i], timeSettings, spice)
    {
      var valid := CheckIsValid(timeSettings);
      if valid.Err? { return Err(valid.error); }
      var kf := CheckField("Mission", "keepFactor", keepFactor);
      if kf.Err? { return Err(kf.error); }
      if !(kf.value > 0.0 && kf.value <= 1.0) {
        return Err(KeepFactorRange);
      }
      var mission := MakeMission(spice);
      if mission.Err? { return Err(mission.error); }
      var func := MakeFunctionality(functionality);
      if func.Err? { return Err(func.error); }
      r := Ok((mission.value, func.value));
    }
  }

  /**
   * A finder is made only from valid time settings and a `keepFactor` in
   * (0, 1], and only when every planet's node can be produced.
   */
  lemma FinderNeeds(p: ProblemConfig)
    ensures p.FinderError().None? ==> && p.timeSettings.discretisation.Some? && p.timeSettings.chunkSize.Some?
                                      && p.keepFactor.Some? && 0.0 < p.keepFactor.value <= 1.0
                                      && forall i :: 0 <= i < |p.planets| ==> NodeError(p.planets[i], p.timeSettings).None?
  {
  }
}
