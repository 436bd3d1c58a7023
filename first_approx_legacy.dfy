/**
 * `FirstApprox` (pathfinder/private/firstApprox.cpp): the departure planet
 * `A`, the arrival planet `B` and the barycentre `C` of one leg, and the
 * search that tries one `TragectoryFinder` per launch-angle offset and keeps
 * those that meet `B`.  Each offset runs on its own copy of one prepared
 * finder, so the attempts do not see each other; they share the arrival
 * planet, whose clock is left wherever the last probe put it.
 */
module FirstApproxLegacy {
  import N = Numerics
  import opened Wrappers
  import opened Floats
  import opened PlanetBases
  import opened FirstApproxUtiles

  /** The finder settings `FindTrajectories` prepares: `Q0 = 0`, `te = TB/2 + t0`, `ts = TB/2/30`. */
  function Prepared(f: N.Funcs, asWritten: bool, R0: N.Vec3, t0: real, TB: real, M: real): (c: Conf)
    ensures c.Q0 == 0.0 && c.t0 == t0 && c.M == M && c.find == TheFinders(f, asWritten)
    ensures c.te == TB / 2.0 + t0 && c.ts == TB / 2.0 / 30.0
  {
    Conf(f, TheFinders(f, asWritten), R0, N.Size(f, R0), 0.0, t0, TB / 2.0 + t0, TB / 2.0 / 30.0, M)
  }

  /** The fields a fresh copy of the prepared finder starts its search from. */
  function Start(c: Conf, df0: real): Track {
    Unset.(f0 := c.Q0 + df0, t1 := Fin(c.t0 + Day))
  }

  /** One attempt: a fresh copy of the prepared finder run for the launch angle `Q0 + df0`. */
  function Attempt(c: Conf, eph: Flt -> N.Vec3, df0: real, fuel: nat): Outcome {
    Run(c, eph, Start(c, df0), fuel)
  }

  /** `Attempt` for the prepared finder and planet, as a function of the offset. */
  function AttemptOf(c: Conf, eph: Flt -> N.Vec3, fuel: nat): real -> Outcome {
    (df0: real) => Attempt(c, eph, df0, fuel)
  }

  /** One run per offset, in order. */
  function Tries(run: real -> Outcome, df0s: seq<real>): (os: seq<Outcome>)
    ensures |os| == |df0s|
    ensures forall i :: 0 <= i < |df0s| ==> os[i] == run(df0s[i])
  {
    seq(|df0s|, i requires 0 <= i < |df0s| => run(df0s[i]))
  }

  /** The attempts for the offsets, in order. */
  function Attempts(c: Conf, eph: Flt -> N.Vec3, df0s: seq<real>, fuel: nat): (os: seq<Outcome>)
    ensures |os| == |df0s|
    ensures forall i :: 0 <= i < |df0s| ==> os[i] == Attempt(c, eph, df0s[i], fuel)
  {
    Tries(AttemptOf(c, eph, fuel), df0s)
  }

  /** The runs for two lists of offsets one after the other are the runs for each. */
  lemma TriesAppend(run: real -> Outcome, xs: seq<real>, ys: seq<real>)
    ensures Tries(run, xs + ys) == Tries(run, xs) + Tries(run, ys)
  {
    var a, b, ab := Tries(run, xs), Tries(run, ys), Tries(run, xs + ys);
    forall i | 0 <= i < |ab| ensures ab[i] == (a + b)[i] {
      if i < |xs| {
        assert (xs + ys)[i] == xs[i];
      } else {
        assert (xs + ys)[i] == ys[i - |xs|];
      }
    }
  }

  /** The runs for one more offset are the earlier runs and one more. */
  lemma TriesSnoc(run: real -> Outcome, df0s: seq<real>, i: nat)
    requires i < |df0s|
    ensures Tries(run, df0s[..i + 1]) == Tries(run, df0s[..i]) + [run(df0s[i])]
  {
    assert df0s[..i + 1][i] == df0s[i];
  }

  /** Whether `run` is the attempt function of `c` and `eph`. */
  ghost predicate Tracks(run: real -> Outcome, c: Conf, eph: Flt -> N.Vec3, fuel: nat) {
    forall d {:trigger Attempt(c, eph, d, fuel)} :: run(d) == Attempt(c, eph, d, fuel)
  }

  /** The final fields of the attempts that found a trajectory, in order. */
  function Kept(os: seq<Outcome>): seq<Track> {
    if |os| == 0 then []
    else Kept(os[..|os| - 1]) + (if os[|os| - 1].found then [os[|os| - 1].track] else [])
  }

  /** The indices of the attempts that found a trajectory, in order. */
  function FoundAt(os: seq<Outcome>): (r: seq<nat>)
    ensures |r| == |Kept(os)|
    ensures forall i :: 0 <= i < |r| ==> r[i] < |os|
  {
    if |os| == 0 then []
    else FoundAt(os[..|os| - 1]) + (if os[|os| - 1].found then [|os| - 1] else [])
  }

  /** The last time any attempt probed, which is where the shared arrival planet's clock ends. */
  function LastProbe(os: seq<Outcome>): Option<Flt> {
    if |os| == 0 then None
    else if |os[|os| - 1].probes| > 0 then Some(os[|os| - 1].probes[|os[|os| - 1].probes| - 1])
    else LastProbe(os[..|os| - 1])
  }

  /** Whether every attempt ended within its fuel. */
  predicate AllComplete(os: seq<Outcome>) {
    forall i :: 0 <= i < |os| ==> os[i].complete
  }

  /** The `i`th kept track is the final state of the attempt at the `i`th found index. */
  lemma {:induction false} KeptAt(os: seq<Outcome>)
    ensures |Kept(os)| == |FoundAt(os)| <= |os|
    ensures forall i :: 0 <= i < |FoundAt(os)| ==> Kept(os)[i] == os[FoundAt(os)[i]].track
    decreases |os|
  {
    if |os| > 0 {
      var init, last := os[..|os| - 1], os[|os| - 1];
      KeptAt(init);
      var K, F := Kept(init) + (if last.found then [last.track] else []), FoundAt(init) + (if last.found then [|init|] else []);
      assert Kept(os) == K && FoundAt(os) == F;
      forall i | 0 <= i < |F|
        ensures K[i] == os[F[i]].track
      {
        if i < |FoundAt(init)| {
          assert K[i] == Kept(init)[i] && F[i] == FoundAt(init)[i] < |init|;
          assert init[F[i]] == os[F[i]];
        }
      }
    }
  }

  /** The found indices are strictly increasing, so the kept tracks keep the order of the offsets. */
  lemma {:induction false} FoundAtIncreasing(os: seq<Outcome>)
    ensures forall i, j :: 0 <= i < j < |FoundAt(os)| ==> FoundAt(os)[i] < FoundAt(os)[j]
    decreases |os|
  {
    if |os| > 0 {
      FoundAtIncreasing(os[..|os| - 1]);
    }
  }

  /** An attempt's index is among the found indices exactly when it found a trajectory. */
  lemma {:induction false} FoundAtExact(os: seq<Outcome>)
    ensures forall j :: 0 <= j < |os| ==> (os[j].found <==> j in FoundAt(os))
    decreases |os|
  {
    if |os| > 0 {
      var init := os[..|os| - 1];
      FoundAtExact(init);
      assert forall j :: 0 <= j < |init| ==> init[j] == os[j];
    }
  }

  /** When every attempt succeeds all are kept, and when none does the result is empty. */
  lemma AllOrNothing(os: seq<Outcome>)
    ensures (forall i :: 0 <= i < |os| ==> os[i].found) ==>
              |Kept(os)| == |os| && forall i :: 0 <= i < |os| ==> Kept(os)[i] == os[i].track
    ensures (forall i :: 0 <= i < |os| ==> !os[i].found) ==> Kept(os) == []
  {
    KeptAt(os);
    FoundAtExact(os);
    if forall i :: 0 <= i < |os| ==> os[i].found {
      IndicesOfAll(os);
    }
  }

  /** When every attempt succeeds the indices are `0, 1, ...`. */
  lemma {:induction false} IndicesOfAll(os: seq<Outcome>)
    requires forall i :: 0 <= i < |os| ==> os[i].found
    ensures |FoundAt(os)| == |os| && forall i :: 0 <= i < |os| ==> FoundAt(os)[i] == i
    decreases |os|
  {
    if |os| > 0 {
      var init := os[..|os| - 1];
      assert forall j :: 0 <= j < |init| ==> init[j] == os[j];
      IndicesOfAll(init);
    }
  }

  /** What one more attempt adds to the kept tracks, the completeness flag and the last probe. */
  lemma AppendOne(os: seq<Outcome>, o: Outcome)
    ensures Kept(os + [o]) == Kept(os) + (if o.found then [o.track] else [])
    ensures AllComplete(os + [o]) == (AllComplete(os) && o.complete)
    ensures LastProbe(os + [o]) == if |o.probes| > 0 then Some(o.probes[|o.probes| - 1]) else LastProbe(os)
  {
    assert (os + [o])[..|os|] == os;
  }

  /** Keeping distributes over concatenation. */
  lemma {:induction false} KeptAppend(a: seq<Outcome>, b: seq<Outcome>)
    ensures Kept(a + b) == Kept(a) + Kept(b)
    decreases |b|
  {
    if |b| == 0 {
      assert a + b == a;
    } else {
      var b' := b[..|b| - 1];
      assert (a + b)[..|a + b| - 1] == a + b';
      KeptAppend(a, b');
    }
  }

  /** The offsets are tried independently: splitting the list splits the solutions. */
  lemma SolutionsSplit(c: Conf, eph: Flt -> N.Vec3, xs: seq<real>, ys: seq<real>, fuel: nat)
    ensures Kept(Attempts(c, eph, xs + ys, fuel)) == Kept(Attempts(c, eph, xs, fuel)) + Kept(Attempts(c, eph, ys, fuel))
  {
    TriesAppend(AttemptOf(c, eph, fuel), xs, ys);
    var a, b := Attempts(c, eph, xs, fuel), Attempts(c, eph, ys, fuel);
    KeptAppend(a, b);
  }

  /**
   * Every kept solution comes from its own offset and is an ellipse through
   * the departure point and the arrival planet's position at the last probe,
   * reached within a day of that probe.
   */
  lemma SolutionsAreArrivals(c: Conf, eph: Flt -> N.Vec3, df0s: seq<real>, fuel: nat, i: nat)
    requires c.find == TheFinders(c.f, false)
    requires i < |Kept(Attempts(c, eph, df0s, fuel))|
    ensures var os := Attempts(c, eph, df0s, fuel);
            var s := Kept(os)[i];
            var j := FoundAt(os)[i];
            && j < |df0s| && os[j].found
            && s.f0 == c.Q0 + df0s[j]
            && |os[j].probes| > 0 && Arrived(c, eph, os[j].probes[|os[j].probes| - 1], s)
            && EllipseThrough(c.f, c.Q0, s.Q1, c.r0, s.r1, PEW(s.p, s.e, s.w, true))
  {
    var os := Attempts(c, eph, df0s, fuel);
    KeptAt(os);
    FoundAtExact(os);
    var j := FoundAt(os)[i];
    assert j in FoundAt(os);
    AttemptArrives(c, eph, df0s[j], fuel);
    AttemptIsEllipse(c, eph, df0s[j], fuel);
  }

  /** A successful attempt keeps its launch angle and arrives at its last probe. */
  lemma AttemptArrives(c: Conf, eph: Flt -> N.Vec3, df0: real, fuel: nat)
    ensures var o := Attempt(c, eph, df0, fuel);
            o.track.f0 == c.Q0 + df0
            && (o.found ==> |o.probes| > 0 && Arrived(c, eph, o.probes[|o.probes| - 1], o.track))
  {
    var s := Start(c, df0);
    RunFacts(c, eph, s, fuel);
    assert Attempt(c, eph, df0, fuel) == Run(c, eph, s, fuel);
  }

  /** With the corrected finder, a successful attempt's orbit is an ellipse through both points. */
  lemma AttemptIsEllipse(c: Conf, eph: Flt -> N.Vec3, df0: real, fuel: nat)
    requires c.find == TheFinders(c.f, false)
    ensures var o := Attempt(c, eph, df0, fuel);
            o.found ==> EllipseThrough(c.f, c.Q0, o.track.Q1, c.r0, o.track.r1, PEW(o.track.p, o.track.e, o.track.w, true))
  {
    var s := Start(c, df0);
    FoundIsEllipse(c, eph, s, fuel);
    assert Attempt(c, eph, df0, fuel) == Run(c, eph, s, fuel);
  }

  /** Where the arrival planet's clock stands after probing up to `last`, from `time0` and `loc0`. */
  ghost predicate ClockAfter(B: PlanetBase, last: Option<Flt>, time0: Flt, loc0: N.Vec3)
    reads B
  {
    if last.Some? then B.time == last.value && B.OnTime() else B.time == time0 && B.location == loc0
  }

  /**
   * One pass of `FindTrajectories`' loop: `auto solver = finder` and
   * `solver.FindTragectory(B, Q0 + df0)`, where `Q0` is the finder's own.
   */
  method TryOffset(finder: TragectoryFinder, B: PlanetBase, ghost run: real -> Outcome, df0: real, fuel: nat)
    returns (solver: TragectoryFinder, ok: bool, done: bool)
    requires finder.Fields() == Unset && Tracks(run, finder.Settings(), B.ephemeris, fuel)
    modifies B
    ensures var o := run(df0);
            && fresh(solver) && solver.Settings() == finder.Settings()
            && solver.Fields() == o.track && ok == o.found && done == o.complete
            && (|o.probes| > 0 ==> B.time == o.probes[|o.probes| - 1] && B.OnTime())
            && (|o.probes| == 0 ==> B.time == old(B.time) && B.location == old(B.location))
  {
    solver := new TragectoryFinder.Copy(finder);
    assert solver.Fields().(f0 := finder.Q0 + df0, t1 := Fin(finder.t0 + Day)) == Start(finder.Settings(), df0);
    assert run(df0) == Attempt(finder.Settings(), B.ephemeris, df0, fuel);
    ok, done := solver.FindTragectory(B, finder.Q0 + df0, fuel);
  }

  class FirstApprox {
    /** The by-value copies of the three planets. */
    const A: PlanetBase
    const B: PlanetBase
    const C: PlanetBase
    const t0: real
    /** `B.GetPeriod() / 2 + t0`; `FindTrajectories` recomputes its own. */
    const te: real
    /** `B.GetPeriod() / 2 / n`, a `float` division by the integer `n`; `FindTrajectories` uses `n = 30` instead. */
    const ts: Flt

    /** The three members are separate objects. */
    predicate Distinct() {
      A != B && B != C && A != C
    }

    /**
     * The members copy the planets as they were; the body then sets the
     * clocks of the caller's planets, not of the copies, to `t0`.
     */
    constructor (A0: PlanetBase, B0: PlanetBase, C0: PlanetBase, t0: real, n: int)
      modifies A0, B0, C0
      ensures fresh(A) && fresh(B) && fresh(C) && Distinct()
      ensures A.ephemeris == A0.ephemeris && A.period == A0.period && A.grav == A0.grav
      ensures B.ephemeris == B0.ephemeris && B.period == B0.period && B.grav == B0.grav
      ensures C.ephemeris == C0.ephemeris && C.period == C0.period && C.grav == C0.grav
      ensures A.time == old(A0.time) && A.location == old(A0.location)
      ensures B.time == old(B0.time) && B.location == old(B0.location)
      ensures C.time == old(C0.time) && C.location == old(C0.location)
      ensures this.t0 == t0 && te == B0.period / 2.0 + t0 && ts == Div(Fin(B0.period / 2.0), Fin(n as real))
      ensures A0.time == Fin(t0) && A0.OnTime() && B0.time == Fin(t0) && B0.OnTime() && C0.time == Fin(t0) && C0.OnTime()
    {
      A := new PlanetBase.Copy(A0);
      B := new PlanetBase.Copy(B0);
      C := new PlanetBase.Copy(C0);
      this.t0 := t0;
      te := B0.GetPeriod() / 2.0 + t0;
      ts := Div(Fin(B0.GetPeriod() / 2.0), Fin(n as real));
      new;
      A0.SetTime(Fin(t0));
      B0.SetTime(Fin(t0));
      C0.SetTime(Fin(t0));
    }

    /**
     * `FindTrajectories(df0s)`: prepare one finder from `A` at `t0`, run a
     * copy of it for each offset against `B`, and return the copies that
     * found a trajectory, in order.  `complete` says that no attempt ran out
     * of fuel.
     */
    method FindTrajectories(f: N.Funcs, asWritten: bool, df0s: seq<real>, fuel: nat)
      returns (solutions: seq<TragectoryFinder>, complete: bool)
      requires Distinct()
      modifies A, B
      ensures var os := Tries(AttemptOf(Prepared(f, asWritten, A.ephemeris(Fin(t0)), t0, B.period, C.grav), B.ephemeris, fuel), df0s);
              && |solutions| == |Kept(os)|
              && (forall j :: 0 <= j < |solutions| ==> fresh(solutions[j]))
              && (forall j, k :: 0 <= j < k < |solutions| ==> solutions[j] != solutions[k])
              && (forall j :: 0 <= j < |solutions| ==>
                    solutions[j].Settings() == Prepared(f, asWritten, A.ephemeris(Fin(t0)), t0, B.period, C.grav)
                    && solutions[j].Fields() == Kept(os)[j])
              && complete == AllComplete(os)
              && A.time == Fin(t0) && A.OnTime()
              && (LastProbe(os).Some? ==> B.time == LastProbe(os).value && B.OnTime())
              && (LastProbe(os).None? ==> B.time == old(B.time) && B.location == old(B.location))
    {
      A.SetTime(Fin(t0));
      var R0 := A.GetLocation();
      var Q0 := 0.0;
      var M := C.GetGravParam();
      var n := 30;
      var TB := B.GetPeriod();
      var te := TB / 2.0 + t0;
      var ts := TB / 2.0 / n as real;
      var finder := new TragectoryFinder(f, asWritten, R0, Q0, t0, te, ts, M);
      assert finder.Settings() == Prepared(f, asWritten, R0, t0, TB, M);
      solutions, complete := Collect(finder, B, AttemptOf(finder.Settings(), B.ephemeris, fuel), df0s, fuel);
    }
  }

  /**
   * The loop of `FindTrajectories` over the offsets, for any prepared
   * finder: each offset runs on its own fresh copy, and the copies that
   * found a trajectory are kept in order.
   */
  method Collect(finder: TragectoryFinder, B: PlanetBase, ghost run: real -> Outcome, df0s: seq<real>, fuel: nat)
    returns (solutions: seq<TragectoryFinder>, complete: bool)
    requires finder.Fields() == Unset && Tracks(run, finder.Settings(), B.ephemeris, fuel)
    modifies B
    ensures var os := Tries(run, df0s);
            && |solutions| == |Kept(os)|
            && (forall j :: 0 <= j < |solutions| ==> fresh(solutions[j]))
            && (forall j, k :: 0 <= j < k < |solutions| ==> solutions[j] != solutions[k])
            && (forall j :: 0 <= j < |solutions| ==> solutions[j].Settings() == finder.Settings() && solutions[j].Fields() == Kept(os)[j])
            && complete == AllComplete(os)
            && (LastProbe(os).Some? ==> B.time == LastProbe(os).value && B.OnTime())
            && (LastProbe(os).None? ==> B.time == old(B.time) && B.location == old(B.location))
  {
    ghost var c := finder.Settings();
    solutions := [];
    complete := true;
    ghost var os: seq<Outcome> := [];
    for i := 0 to |df0s|
      invariant os == Tries(run, df0s[..i])
      invariant |solutions| == |Kept(os)|
      invariant forall j :: 0 <= j < |solutions| ==> fresh(solutions[j])
      invariant forall j, k :: 0 <= j < k < |solutions| ==> solutions[j] != solutions[k]
      invariant forall j :: 0 <= j < |solutions| ==> solutions[j].Settings() == c && solutions[j].Fields() == Kept(os)[j]
      invariant complete == AllComplete(os)
      invariant ClockAfter(B, LastProbe(os), old(B.time), old(B.location))
    {
      var solver, ok, done := TryOffset(finder, B, run, df0s[i], fuel);
      ghost var o := run(df0s[i]);
      TriesSnoc(run, df0s, i);
      AppendOne(os, o);
      complete := complete && done;
      if ok {
        solutions := solutions + [solver];
      }
      os := os + [o];
    }
    assert df0s[..|df0s|] == df0s;
  }
}
