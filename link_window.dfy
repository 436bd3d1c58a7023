/**
 * `RootWindowHelper` (blocks/link.cpp): the last three samples of the
 * mismatch `t - t1(t)` along a time scan, each classified as positive,
 * negative, zero (within `DTOL`) or NaN, and the pattern the three form: a
 * root, a sign change between the two newest, or a dip in magnitude that
 * suggests a minimum between the oldest and the newest.
 */
module LinkWindow {
  import opened Wrappers
  import opened Numerics

  // `EState`, one bit per state.
  const Positive: bv8 := 1
  const Negative: bv8 := 2
  const ZeroState: bv8 := 4
  const NaNState: bv8 := 8

  predicate IsState(s: bv8) {
    s == Positive || s == Negative || s == ZeroState || s == NaNState
  }

  datatype Pattern = NoPattern | Root | SignChange | Extremum

  /** A sample; a `None` delta stands for NaN. */
  datatype Point = Point(state: bv8, delta: Option<real>, time: real)

  /** A default-constructed `Point`: state NaN, delta and time 0. */
  const EmptyPoint: Point := Point(NaNState, Some(0.0), 0.0)

  /** `DeduceState`: NaN, then zero within `dtol`, then the sign. */
  function DeduceState(delta: Option<real>, dtol: real): (s: bv8)
    ensures IsState(s)
  {
    if delta.None? then NaNState
    else if Equal(delta.value, 0.0, dtol) then ZeroState
    else if delta.value > 0.0 then Positive
    else Negative
  }

  /**
   * With a non-negative tolerance the states split the line into bands:
   * beyond `dtol` above zero, within `dtol` of it, beyond `dtol` below it.
   */
  lemma DeduceStateBands(delta: Option<real>, dtol: real)
    requires dtol >= 0.0
    ensures DeduceState(delta, dtol) == NaNState <==> delta.None?
    ensures DeduceState(delta, dtol) == Positive <==> delta.Some? && delta.value > dtol
    ensures DeduceState(delta, dtol) == Negative <==> delta.Some? && delta.value < -dtol
    ensures DeduceState(delta, dtol) == ZeroState <==> delta.Some? && -dtol <= delta.value <= dtol
  {
  }

  /** A window slot is either untouched or a sample classified with the window's tolerance. */
  predicate Consistent(p: Point, dtol: real) {
    p == EmptyPoint || p.state == DeduceState(p.delta, dtol)
  }

  /** A definite sign has a number behind it. */
  lemma SignedHasDelta(p: Point, dtol: real)
    requires dtol >= 0.0 && Consistent(p, dtol)
    requires p.state == Positive || p.state == Negative
    ensures p.delta.Some?
    ensures p.state == Positive ==> p.delta.value > 0.0
    ensures p.state == Negative ==> p.delta.value < 0.0
  {
  }

  /**
   * The magnitude `Abs(delta)` of a sample that has a number; a NaN delta
   * has none (its `Abs` is NaN, which every comparison refuses).
   */
  function Mag(p: Point): (r: Option<real>)
    ensures r.Some? <==> p.delta.Some?
    ensures r.Some? ==> r.value >= 0.0 && (r.value == p.delta.value || r.value == -p.delta.value)
  {
    if p.delta.Some? then Some(Abs(p.delta.value)) else None
  }

  predicate SameSign(s0: bv8, s1: bv8, s2: bv8) {
    (s0 == Positive && s1 == Positive && s2 == Positive) ||
    (s0 == Negative && s1 == Negative && s2 == Negative)
  }

  predicate OppositeSigns(s0: bv8, s1: bv8) {
    (s0 == Positive && s1 == Negative) || (s0 == Negative && s1 == Positive)
  }

  /**
   * The magnitude test on three samples of one sign, newest first: either the
   * newest is back at the oldest's level (within `eps`) with the middle one
   * below them, or the newest has risen above the oldest by more than four
   * times what the middle one did.  A NaN among the three makes both
   * differences NaN, so both comparisons fail.
   */
  predicate Dips(w0: Point, w1: Point, w2: Point, eps: real) {
    var m3, m2, m1 := Mag(w0), Mag(w1), Mag(w2);
    m3.Some? && m2.Some? && m1.Some? &&
    var d12, d13 := m2.value - m1.value, m3.value - m1.value;
    (Equal(d13, 0.0, eps) && d12 < 0.0) || (d13 > 0.0 && d12 < d13 / 4.0)
  }

  /** `GetPattern` on a window `[w0, w1, w2]`, newest first, with `Math::Equal`'s tolerance `eps`. */
  function PatternOf(w0: Point, w1: Point, w2: Point, eps: real): (r: Pattern)
    ensures w0.state == ZeroState ==> r == Root
    ensures w0.state == NaNState || (w1.state == NaNState && w0.state != ZeroState) ==> r == NoPattern
    ensures r == Extremum ==> Dips(w0, w1, w2, eps)
  {
    var s0, s1, s2 := w0.state, w1.state, w2.state;
    if s0 == ZeroState then Root
    else if s0 | s1 == Negative | Positive then SignChange
    else if (s0 & s1 & s2) & (Negative | Positive) != 0 then
      if Dips(w0, w1, w2, eps) then Extremum else NoPattern
    else NoPattern
  }

  /**
   * The older file's `GetPattern` (link.cpp): the same tests, but the third
   * state is read from the middle slot, so the oldest sample's sign is never
   * looked at.
   */
  function LegacyPatternOf(w0: Point, w1: Point, w2: Point, eps: real): (r: Pattern)
    ensures w0.state == ZeroState ==> r == Root
    ensures w0.state == NaNState || (w1.state == NaNState && w0.state != ZeroState) ==> r == NoPattern
    ensures r == Extremum ==> Dips(w0, w1, w2, eps) && w2.delta.Some?
  {
    var s0, s1, s2 := w0.state, w1.state, w1.state;
    if s0 == ZeroState then Root
    else if s0 | s1 == Negative | Positive then SignChange
    else if (s0 & s1 & s2) & (Negative | Positive) != 0 then
      if Dips(w0, w1, w2, eps) then Extremum else NoPattern
    else NoPattern
  }

  /** The two versions agree whenever the oldest sample has the middle one's state. */
  lemma LegacyAgreesOnSameOldest(w0: Point, w1: Point, w2: Point, eps: real)
    requires w2.state == w1.state
    ensures LegacyPatternOf(w0, w1, w2, eps) == PatternOf(w0, w1, w2, eps)
  {
  }

  /**
   * Two positive samples after a negative one: the older version reports an
   * extremum across the sign change, the newer one no pattern.
   */
  lemma LegacyExtremumAcrossSignChange(eps: real)
    ensures var w0, w1, w2 := Point(Positive, Some(3.0), 2.0), Point(Positive, Some(1.0), 1.0), Point(Negative, Some(-1.0), 0.0);
      LegacyPatternOf(w0, w1, w2, eps) == Extremum && PatternOf(w0, w1, w2, eps) == NoPattern
  {
    var w0, w1, w2 := Point(Positive, Some(3.0), 2.0), Point(Positive, Some(1.0), 1.0), Point(Negative, Some(-1.0), 0.0);
    assert Dips(w0, w1, w2, eps);
    assert (Positive & Positive & Negative) & (Negative | Positive) == 0;
  }

  /** The pattern a window's version computes. */
  function PatternFor(legacy: bool, w0: Point, w1: Point, w2: Point, eps: real): Pattern {
    if legacy then LegacyPatternOf(w0, w1, w2, eps) else PatternOf(w0, w1, w2, eps)
  }

  /** On single-bit states, the union test is exactly "one positive, one negative". */
  lemma UnionIsOpposite(s0: bv8, s1: bv8)
    requires IsState(s0) && IsState(s1)
    ensures (s0 | s1 == Negative | Positive) <==> OppositeSigns(s0, s1)
  {
  }

  /** On single-bit states, the intersection test is exactly "all three of one sign". */
  lemma IntersectionIsSameSign(s0: bv8, s1: bv8, s2: bv8)
    requires IsState(s0) && IsState(s1) && IsState(s2)
    ensures ((s0 & s1 & s2) & (Negative | Positive) != 0) <==> SameSign(s0, s1, s2)
  {
  }

  /**
   * What each pattern means on classified samples: a root is a newest sample
   * at zero, a sign change is a sign flip between the two newest, and an
   * extremum is three samples of one sign whose magnitudes dip.
   */
  lemma PatternMeaning(w0: Point, w1: Point, w2: Point, eps: real)
    requires IsState(w0.state) && IsState(w1.state) && IsState(w2.state)
    ensures PatternOf(w0, w1, w2, eps) == Root <==> w0.state == ZeroState
    ensures PatternOf(w0, w1, w2, eps) == SignChange <==> OppositeSigns(w0.state, w1.state)
    ensures PatternOf(w0, w1, w2, eps) == Extremum <==>
      SameSign(w0.state, w1.state, w2.state) && Dips(w0, w1, w2, eps)
  {
    UnionIsOpposite(w0.state, w1.state);
    IntersectionIsSameSign(w0.state, w1.state, w2.state);
  }

  /**
   * The older version's patterns: the same roots and sign changes, but an
   * extremum needs only the two newest samples to share a sign; the oldest
   * sample's state is never read, yet its delta must be a number.
   */
  lemma LegacyPatternMeaning(w0: Point, w1: Point, w2: Point, eps: real)
    requires IsState(w0.state) && IsState(w1.state)
    ensures LegacyPatternOf(w0, w1, w2, eps) == Root <==> w0.state == ZeroState
    ensures LegacyPatternOf(w0, w1, w2, eps) == SignChange <==> OppositeSigns(w0.state, w1.state)
    ensures LegacyPatternOf(w0, w1, w2, eps) == Extremum <==>
      SameSign(w0.state, w1.state, w1.state) && Dips(w0, w1, w2, eps)
    ensures LegacyPatternOf(w0, w1, w2, eps) == Extremum ==>
      w0.delta.Some? && w1.delta.Some? && w2.delta.Some?
  {
    UnionIsOpposite(w0.state, w1.state);
    IntersectionIsSameSign(w0.state, w1.state, w1.state);
  }

  /**
   * A NaN oldest sample behind two samples of one sign: the older version
   * reads the middle state twice, passes the sign test, and then the NaN
   * magnitude fails the dip test, so no pattern is reported.
   */
  lemma LegacyNaNOldestNoExtremum(eps: real)
    ensures var w0, w1, w2 := Point(Positive, Some(5.0), 2.0), Point(Positive, Some(1.0), 1.0), Point(NaNState, None, 0.0);
      LegacyPatternOf(w0, w1, w2, eps) == NoPattern
  {
    var w0, w1, w2 := Point(Positive, Some(5.0), 2.0), Point(Positive, Some(1.0), 1.0), Point(NaNState, None, 0.0);
    assert !Dips(w0, w1, w2, eps);
    assert (Positive & Positive & Positive) & (Negative | Positive) != 0;
  }

  /** A newest sample that is NaN never forms a pattern. */
  lemma NaNNewestNoPattern(w0: Point, w1: Point, w2: Point, eps: real)
    requires w0.state == NaNState
    ensures PatternOf(w0, w1, w2, eps) == NoPattern
    ensures LegacyPatternOf(w0, w1, w2, eps) == NoPattern
  {
  }

  /** In a dip the middle magnitude is below the newest one, up to `eps`. */
  lemma DipsBelowNewest(w0: Point, w1: Point, w2: Point, eps: real)
    requires eps >= 0.0
    requires Dips(w0, w1, w2, eps)
    ensures Mag(w0).Some? && Mag(w1).Some? && Mag(w1).value < Mag(w0).value + eps
  {
  }

  /**
   * `GetRoot` for a pattern: a root brackets itself, a sign change is
   * bracketed by the two newest samples (older first), an extremum by the
   * oldest and the newest; no pattern gives two default points.
   */
  function Bracket(pat: Pattern, w0: Point, w1: Point, w2: Point): (r: (Point, Point, Pattern))
    ensures r.2 == pat
    ensures pat != NoPattern ==> r.1 == w0 && r.0 in {w0, w1, w2}
    ensures pat == NoPattern ==> r.0 == EmptyPoint && r.1 == EmptyPoint
  {
    match pat
    case Root => (w0, w0, pat)
    case SignChange => (w1, w0, pat)
    case Extremum => (w2, w0, pat)
    case NoPattern => (EmptyPoint, EmptyPoint, pat)
  }

  /**
   * On a window whose times increase towards the newest sample the bracket is
   * ordered, its right end is the newest sample, and a sign change has
   * numbers of opposite signs at its ends.
   */
  lemma BracketOrdered(legacy: bool, w0: Point, w1: Point, w2: Point, eps: real, dtol: real)
    requires w2.time <= w1.time <= w0.time && dtol >= 0.0
    requires Consistent(w0, dtol) && Consistent(w1, dtol) && IsState(w2.state)
    ensures var b := Bracket(PatternFor(legacy, w0, w1, w2, eps), w0, w1, w2);
      b.0.time <= b.1.time &&
      (b.2 != NoPattern ==> b.1 == w0) &&
      (b.2 == SignChange ==>
        b.0.delta.Some? && b.1.delta.Some? &&
        Sign(b.0.delta.value) == -Sign(b.1.delta.value) != 0)
  {
    PatternMeaning(w0, w1, w2, eps);
    LegacyPatternMeaning(w0, w1, w2, eps);
    if PatternFor(legacy, w0, w1, w2, eps) == SignChange {
      SignedHasDelta(w0, dtol);
      SignedHasDelta(w1, dtol);
    }
  }

  /** `Push` on the window's contents: the new sample enters at the front and the oldest leaves. */
  function Shift(win: seq<Point>, time: real, delta: Option<real>, dtol: real): (r: seq<Point>)
    requires |win| == 3
    ensures |r| == 3 && r[1..] == win[..2]
    ensures Consistent(r[0], dtol) && r[0].time == time && r[0].delta == delta
  {
    [Point(DeduceState(delta, dtol), delta, time), win[0], win[1]]
  }

  predicate WindowConsistent(win: seq<Point>, dtol: real) {
    |win| == 3 && forall i :: 0 <= i < 3 ==> Consistent(win[i], dtol)
  }

  /** Shifting in a classified sample keeps every slot classified. */
  lemma ShiftConsistent(win: seq<Point>, time: real, delta: Option<real>, dtol: real)
    requires WindowConsistent(win, dtol)
    ensures WindowConsistent(Shift(win, time, delta, dtol), dtol)
  {
    var r := Shift(win, time, delta, dtol);
    assert r[1] == win[0] && r[2] == win[1];
  }

  /** Every slot of a classified window holds a single-bit state. */
  lemma ConsistentStates(win: seq<Point>, dtol: real)
    requires WindowConsistent(win, dtol)
    ensures IsState(win[0].state) && IsState(win[1].state) && IsState(win[2].state)
  {
    assert Consistent(win[0], dtol) && Consistent(win[1], dtol) && Consistent(win[2], dtol);
  }

  const EmptyWindow: seq<Point> := [EmptyPoint, EmptyPoint, EmptyPoint]

  /**
   * The window object.  `legacy` selects the older file's `GetPattern`; `eps`
   * is the default tolerance of `Math::Equal` used by the magnitude test.
   */
  class RootWindowHelper {
    const window: array<Point>
    const DTOL: real
    const eps: real
    const legacy: bool

    ghost predicate Valid()
      reads this, window
    {
      window.Length == 3 && WindowConsistent(window[..], DTOL)
    }

    constructor (DTOL: real, eps: real, legacy: bool)
      ensures Valid() && fresh(window)
      ensures window[..] == EmptyWindow
      ensures this.DTOL == DTOL && this.eps == eps && this.legacy == legacy
    {
      this.DTOL := DTOL;
      this.eps := eps;
      this.legacy := legacy;
      window := new Point[3](_ => EmptyPoint);
      new;
      assert window[..] == EmptyWindow;
    }

    method Push(time: real, delta: Option<real>)
      requires Valid()
      modifies window
      ensures Valid()
      ensures window[..] == Shift(old(window[..]), time, delta, DTOL)
    {
      ghost var before := window[..];
      window[2] := window[1];
      window[1] := window[0];
      window[0] := Point(DeduceState(delta, DTOL), delta, time);
      assert window[..] == Shift(before, time, delta, DTOL);
      ShiftConsistent(before, time, delta, DTOL);
    }

    function GetPattern(): (r: Pattern)
      requires window.Length == 3
      reads window
      ensures window[0].state == ZeroState ==> r == Root
      ensures window[0].state == NaNState ==> r == NoPattern
      ensures !legacy ==> r == PatternOf(window[0], window[1], window[2], eps)
    {
      PatternFor(legacy, window[0], window[1], window[2], eps)
    }

    function GetRoot(): (r: (Point, Point, Pattern))
      requires window.Length == 3
      reads window
      ensures r.2 == GetPattern()
      ensures r.2 != NoPattern ==> r.1 == window[0]
    {
      Bracket(GetPattern(), window[0], window[1], window[2])
    }

    predicate CheckRoot()
      requires window.Length == 3
      reads window
      ensures CheckRoot() <==> GetRoot().2 != NoPattern
    {
      GetPattern() != NoPattern
    }
  }
}
