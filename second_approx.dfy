/**
 * The second approximation (solvers/SecondApprox.cpp).  One flight of the
 * first approximation is re-parameterised as a vector of `5k + 1` doubles
 * (for a flight of `k` legs): per burn, the departure angle of the mission
 * node before it, the burn's own angle and the burn point's three
 * coordinates, and finally the start time.  A simplex minimiser then moves
 * that vector; every evaluation writes the vector back into the helper's
 * fields through the `StateVectorMap`, reruns the layered search with a
 * burn node between consecutive mission nodes, and scores the flights it
 * finds with the functionality.
 *
 * Slots hold *locations* (`Loc`) rather than pointers; the helper's fields
 * a location names are gathered in `Fields`.  The simplex minimiser itself
 * is a given `Minimiser`: only the loop that drives it is modelled.
 */
module SecondApproxSolver {
  import opened Wrappers
  import opened Numerics
  import opened Text
  import opened Links
  import opened MissionTypes
  import opened FlightChains
  import opened NodeCast
  import LinkSearch
  import SolverUtiles
  import FirstApproxSolver

  // ---------------------------------------------------------------------------
  // Doubles where NaN and infinity matter.

  /** A `double` of the minimisation: a number, positive infinity or NaN. */
  datatype Float = Num(v: real) | Inf | NaN

  /** `a < b` on doubles: false whenever either side is NaN, and nothing is below a number but a smaller number. */
  predicate Less(a: Float, b: Float) {
    match (a, b)
    case (Num(x), Num(y)) => x < y
    case (Num(_), Inf) => true
    case _ => false
  }

  /** `|cur - prev| < delta` for a finite `delta`: false when either value is NaN or infinite. */
  predicate Converged(cur: Float, prev: Float, delta: real) {
    cur.Num? && prev.Num? && Abs(cur.v - prev.v) < delta
  }

  /** The status codes of the minimiser library. */
  const GslSuccess: int := 0
  const GslContinue: int := -2

  /** `std::to_string` of an `int`. */
  function IntToString(i: int): string {
    if i < 0 then "-" + NatToString(-i) else NatToString(i)
  }

  // ---------------------------------------------------------------------------
  // The fields the state vector is written into.

  /**
   * What a slot of the state vector is bound to: the first entry of a
   * toss-angle vector, one coordinate (0, 1, 2 for x, y, z) of a burn
   * node's point, or the start time.
   */
  datatype Loc = TossAngle(i: nat) | BurnAxis(b: nat, axis: nat) | StartTime

  /** The helper's fields a `Loc` can name: `tossAngles`, the points of `burnNodes`, and `t`. */
  datatype Fields = Fields(tossAngles: seq<seq<real>>, burnNodes: seq<StaticPart>, t: real)

  /** `l` names an existing field. */
  predicate Holds(fs: Fields, l: Loc) {
    match l
    case TossAngle(i) => i < |fs.tossAngles| && |fs.tossAngles[i]| > 0
    case BurnAxis(b, a) => b < |fs.burnNodes| && a < 3
    case StartTime => true
  }

  /** Two field sets with the same locations. */
  predicate SameShape(a: Fields, b: Fields) {
    && |a.tossAngles| == |b.tossAngles|
    && (forall i :: 0 <= i < |a.tossAngles| ==> |a.tossAngles[i]| == |b.tossAngles[i]|)
    && |a.burnNodes| == |b.burnNodes|
  }

  function Axis(R: Vec3, a: nat): real
    requires a < 3
  {
    if a == 0 then R.x else if a == 1 then R.y else R.z
  }

  function WithAxis(R: Vec3, a: nat, v: real): (r: Vec3)
    requires a < 3
    ensures Axis(r, a) == v
    ensures forall b :: 0 <= b < 3 && b != a ==> Axis(r, b) == Axis(R, b)
  {
    if a == 0 then R.(x := v) else if a == 1 then R.(y := v) else R.(z := v)
  }

  /** `*field`: the value at a location. */
  function Get(fs: Fields, l: Loc): real
    requires Holds(fs, l)
  {
    match l
    case TossAngle(i) => fs.tossAngles[i][0]
    case BurnAxis(b, a) => Axis(fs.burnNodes[b].R, a)
    case StartTime => fs.t
  }

  /** `*field = v`: the fields after writing to one location; nothing else moves. */
  function Put(fs: Fields, l: Loc, v: real): (r: Fields)
    requires Holds(fs, l)
    ensures SameShape(r, fs)
  {
    match l
    case TossAngle(i) => fs.(tossAngles := fs.tossAngles[i := fs.tossAngles[i][0 := v]])
    case BurnAxis(b, a) => fs.(burnNodes := fs.burnNodes[b := StaticPart(WithAxis(fs.burnNodes[b].R, a, v))])
    case StartTime => fs.(t := v)
  }

  lemma SameShapeHolds(a: Fields, b: Fields, l: Loc)
    requires SameShape(a, b)
    ensures Holds(a, l) <==> Holds(b, l)
  {
  }

  /** Reading a location after a write sees the write there and the old value everywhere else. */
  lemma GetPut(fs: Fields, l: Loc, v: real, l2: Loc)
    requires Holds(fs, l) && Holds(fs, l2)
    ensures Holds(Put(fs, l, v), l2)
    ensures Get(Put(fs, l, v), l2) == if l2 == l then v else Get(fs, l2)
  {
    SameShapeHolds(Put(fs, l, v), fs, l2);
  }

  /** Writing back the value a location holds changes nothing. */
  lemma PutGet(fs: Fields, l: Loc)
    requires Holds(fs, l)
    ensures Put(fs, l, Get(fs, l)) == fs
  {
    match l
    case TossAngle(i) =>
      assert fs.tossAngles[i][0 := fs.tossAngles[i][0]] == fs.tossAngles[i];
      assert fs.tossAngles[i := fs.tossAngles[i]] == fs.tossAngles;
    case BurnAxis(b, a) =>
      assert WithAxis(fs.burnNodes[b].R, a, Axis(fs.burnNodes[b].R, a)) == fs.burnNodes[b].R;
      assert fs.burnNodes[b := StaticPart(fs.burnNodes[b].R)] == fs.burnNodes;
    case StartTime =>
  }

  /** Every slot is bound to an existing field: what `Sync_x0_ss` and `ReadVector` assert. */
  predicate AllBound(fs: Fields, data: seq<Option<Loc>>) {
    forall i :: 0 <= i < |data| ==> data[i].Some? && Holds(fs, data[i].value)
  }

  /** No two slots share a field. */
  predicate Injective(data: seq<Option<Loc>>) {
    forall i, j :: 0 <= i < j < |data| && data[i].Some? ==> data[i] != data[j]
  }

  /** Every slot that is bound names an existing field; unbound slots are allowed. */
  predicate BoundHold(fs: Fields, data: seq<Option<Loc>>) {
    forall i :: 0 <= i < |data| && data[i].Some? ==> Holds(fs, data[i].value)
  }

  /** The message of a failed C `assert(cond)`, which aborts the program. */
  function AssertFailed(cond: string): string {
    "assertion failed: " + cond
  }

  /**
   * The first `assert` of `Sync_x0_ss(x0, ss, factor)` that fails, if any:
   * a null start vector, one of the wrong size, the same two for the step
   * sizes, then a slot left unbound.  `None` for a vector stands for a null
   * `gsl_vector*`.
   */
  function SyncCheck(x0: Option<seq<real>>, ss: Option<seq<real>>, data: seq<Option<Loc>>): (r: Option<string>)
    ensures r.None? ==> x0.Some? && ss.Some? && |x0.value| == |data| == |ss.value|
    ensures r.None? <==> x0.Some? && ss.Some? && |x0.value| == |data| == |ss.value| && forall i :: 0 <= i < |data| ==> data[i].Some?
  {
    if x0.None? then Some(AssertFailed("x0"))
    else if |x0.value| != |data| then Some(AssertFailed("x0->size == data.size()"))
    else if ss.None? then Some(AssertFailed("ss"))
    else if |ss.value| != |data| then Some(AssertFailed("ss->size == data.size()"))
    else if exists i :: 0 <= i < |data| && data[i].None? then Some(AssertFailed("field"))
    else None
  }

  /** A null start vector fails the first assertion, whatever the slots hold. */
  lemma SyncNullAborts(ss: Option<seq<real>>, data: seq<Option<Loc>>)
    ensures SyncCheck(None, ss, data) == Some(AssertFailed("x0"))
  {
  }

  lemma SameShapeBound(a: Fields, b: Fields, data: seq<Option<Loc>>)
    requires SameShape(a, b) && AllBound(b, data)
    ensures AllBound(a, data)
  {
    forall i | 0 <= i < |data| ensures data[i].Some? && Holds(a, data[i].value) {
      SameShapeHolds(a, b, data[i].value);
    }
  }

  /** The values the slots' fields hold, slot by slot. */
  function Snapshot(fs: Fields, data: seq<Option<Loc>>): (x: seq<real>)
    requires AllBound(fs, data)
    ensures |x| == |data|
  {
    seq(|data|, i requires 0 <= i < |data| && AllBound(fs, data) => Get(fs, data[i].value))
  }

  /** Each value scaled by `factor`. */
  function Scaled(x: seq<real>, factor: real): (r: seq<real>)
    ensures |r| == |x|
  {
    seq(|x|, i requires 0 <= i < |x| => x[i] * factor)
  }

  /** The fields after writing `v[0..n)` through slots `0..n)`, in slot order. */
  function WriteBack(fs: Fields, data: seq<Option<Loc>>, v: seq<real>, n: nat): (r: Fields)
    requires AllBound(fs, data) && n <= |data| <= |v|
    ensures SameShape(r, fs)
    decreases n
  {
    if n == 0 then fs
    else
      var prev := WriteBack(fs, data, v, n - 1);
      SameShapeHolds(prev, fs, data[n - 1].value);
      Put(prev, data[n - 1].value, v[n - 1])
  }

  /** Writing back the snapshot of the fields leaves every field as it was (`Sync_x0_ss` then `ReadVector(x0)`). */
  lemma {:induction false} WriteBackSnapshot(fs: Fields, data: seq<Option<Loc>>, n: nat)
    requires AllBound(fs, data) && n <= |data|
    ensures WriteBack(fs, data, Snapshot(fs, data), n) == fs
    decreases n
  {
    if n > 0 {
      WriteBackSnapshot(fs, data, n - 1);
      PutGet(fs, data[n - 1].value);
    }
  }

  /** After writing `v` back through distinct slots, slot `i` holds `v[i]` if written, else its old value. */
  lemma {:induction false} WriteBackReads(fs: Fields, data: seq<Option<Loc>>, v: seq<real>, n: nat, i: nat)
    requires AllBound(fs, data) && Injective(data) && n <= |data| <= |v| && i < |data|
    ensures Holds(WriteBack(fs, data, v, n), data[i].value)
    ensures Get(WriteBack(fs, data, v, n), data[i].value) == if i < n then v[i] else Get(fs, data[i].value)
    decreases n
  {
    var w := WriteBack(fs, data, v, n);
    SameShapeHolds(w, fs, data[i].value);
    if n > 0 {
      var prev := WriteBack(fs, data, v, n - 1);
      WriteBackReads(fs, data, v, n - 1, i);
      SameShapeHolds(prev, fs, data[n - 1].value);
      GetPut(prev, data[n - 1].value, v[n - 1], data[i].value);
      if i < n - 1 {
        assert data[i] != data[n - 1];
      } else if i > n - 1 {
        assert data[n - 1] != data[i];
      }
    }
  }

  /** Through distinct slots the snapshot after `ReadVector(v)` is `v` itself: the minimiser's point is what the fields hold. */
  lemma SnapshotWriteBack(fs: Fields, data: seq<Option<Loc>>, v: seq<real>)
    requires AllBound(fs, data) && Injective(data) && |v| == |data|
    ensures AllBound(WriteBack(fs, data, v, |data|), data)
    ensures Snapshot(WriteBack(fs, data, v, |data|), data) == v
  {
    var w := WriteBack(fs, data, v, |data|);
    SameShapeBound(w, fs, data);
    forall i | 0 <= i < |data| ensures Snapshot(w, data)[i] == v[i] {
      WriteBackReads(fs, data, v, |data|, i);
    }
  }

  /** Two slots bound to one field: the later write wins, so the earlier slot does not read back its value. */
  lemma AliasedSlotLosesValue(fs: Fields, data: seq<Option<Loc>>, v: seq<real>, i: nat, j: nat)
    requires AllBound(fs, data) && |v| == |data| && i < j < |data| && data[i] == data[j] && v[i] != v[j]
    requires forall s :: j < s < |data| ==> data[s] != data[j]
    ensures Snapshot(WriteBack(fs, data, v, |data|), data)[i] != v[i]
  {
    var l := data[j].value;
    var w := WriteBack(fs, data, v, |data|);
    SameShapeBound(w, fs, data);
    LastWriteStays(fs, data, v, |data|, j);
  }

  lemma {:induction false} LastWriteStays(fs: Fields, data: seq<Option<Loc>>, v: seq<real>, n: nat, j: nat)
    requires AllBound(fs, data) && |v| == |data| && j < n <= |data|
    requires forall s :: j < s < |data| ==> data[s] != data[j]
    ensures Holds(WriteBack(fs, data, v, n), data[j].value)
    ensures Get(WriteBack(fs, data, v, n), data[j].value) == v[j]
    decreases n
  {
    var prev := WriteBack(fs, data, v, n - 1);
    SameShapeHolds(prev, fs, data[n - 1].value);
    SameShapeHolds(prev, fs, data[j].value);
    GetPut(prev, data[n - 1].value, v[n - 1], data[j].value);
    if n - 1 > j {
      LastWriteStays(fs, data, v, n - 1, j);
    }
  }

  // ---------------------------------------------------------------------------
  // The slot layout `ParseFlight` builds.

  /** Where the five slots of burn `j` start: `2 j` as written (the toss-angle index), `5 j` as the vector's size implies. */
  function SlotBase(asWritten: bool, j: nat): nat {
    if asWritten then 2 * j else 5 * j
  }

  /**
   * Burn `j`'s five `Assign`s in order: the departure angle of mission node
   * `j` (toss-angle slot `2 j`), the burn's angle (slot `2 j + 1`), and the
   * burn point's x, y and z.
   */
  function BindBurn(data: seq<Option<Loc>>, base: nat, j: nat): (r: seq<Option<Loc>>)
    requires base + 4 < |data|
    ensures |r| == |data|
  {
    data[base := Some(TossAngle(2 * j))][base + 1 := Some(TossAngle(2 * j + 1))]
        [base + 2 := Some(BurnAxis(j, 0))][base + 3 := Some(BurnAxis(j, 1))][base + 4 := Some(BurnAxis(j, 2))]
  }

  /** The `5 k + 1` slots (all unbound after `SetSize`) once burns `0..j)` of a `k`-leg flight are bound. */
  function BindBurns(k: nat, asWritten: bool, j: nat): (r: seq<Option<Loc>>)
    requires j <= k
    ensures |r| == 5 * k + 1
    decreases j
  {
    if j == 0 then seq(5 * k + 1, _ => None)
    else BindBurn(BindBurns(k, asWritten, j - 1), SlotBase(asWritten, j - 1), j - 1)
  }

  /** The slots after `ParseFlight`: every burn bound, then the last slot bound to the start time. */
  function Slots(k: nat, asWritten: bool): (r: seq<Option<Loc>>)
    ensures |r| == 5 * k + 1
  {
    BindBurns(k, asWritten, k)[5 * k := Some(StartTime)]
  }

  /** The location slot `s` is meant to hold: five per burn, in `BindBurn`'s order. */
  function SlotTarget(s: nat): Loc {
    var j := s / 5;
    var c := s % 5;
    if c == 0 then TossAngle(2 * j) else if c == 1 then TossAngle(2 * j + 1) else BurnAxis(j, c - 2)
  }

  lemma {:induction false} BindBurnsStrideFive(k: nat, j: nat)
    requires j <= k
    ensures forall s :: 0 <= s < 5 * k + 1 ==> BindBurns(k, false, j)[s] == if s < 5 * j then Some(SlotTarget(s)) else None
    decreases j
  {
    if j > 0 {
      BindBurnsStrideFive(k, j - 1);
      var d := BindBurns(k, false, j);
      forall s | 0 <= s < 5 * k + 1
        ensures d[s] == if s < 5 * j then Some(SlotTarget(s)) else None
      {
        if 5 * (j - 1) <= s < 5 * j {
          assert s / 5 == j - 1 && s % 5 == s - 5 * (j - 1);
        }
      }
    }
  }

  /** With stride five every slot is bound, to the field meant for it, and no field twice. */
  lemma SlotsStrideFive(k: nat)
    ensures forall s :: 0 <= s < 5 * k ==> Slots(k, false)[s] == Some(SlotTarget(s))
    ensures Slots(k, false)[5 * k] == Some(StartTime)
    ensures Injective(Slots(k, false))
  {
    BindBurnsStrideFive(k, k);
    var d := Slots(k, false);
    forall i, j | 0 <= i < j < |d| && d[i].Some? ensures d[i] != d[j] {
      if j < 5 * k && SlotTarget(i) == SlotTarget(j) {
        SlotTargetInjective(i, j);
      }
    }
  }

  lemma SlotTargetInjective(s1: nat, s2: nat)
    requires SlotTarget(s1) == SlotTarget(s2)
    ensures s1 == s2
  {
    assert s1 == 5 * (s1 / 5) + s1 % 5 && s2 == 5 * (s2 / 5) + s2 % 5;
  }

  /** Every slot of the stride-five layout names a field of helper fields of the sizes `ParseFlight` leaves. */
  lemma SlotsStrideFiveBound(k: nat, fs: Fields)
    requires |fs.tossAngles| == 2 * k + 1 && |fs.burnNodes| == k
    requires forall i :: 0 <= i < |fs.tossAngles| ==> |fs.tossAngles[i]| == 1
    ensures AllBound(fs, Slots(k, false))
  {
    SlotsStrideFive(k);
    forall s | 0 <= s < 5 * k ensures Holds(fs, SlotTarget(s)) {
      assert s / 5 < k;
    }
  }

  lemma {:induction false} BindBurnsStrideTwo(k: nat, j: nat)
    requires j <= k
    ensures forall s :: 2 * j + 3 <= s < 5 * k + 1 ==> BindBurns(k, true, j)[s] == None
    decreases j
  {
    if j > 0 {
      BindBurnsStrideTwo(k, j - 1);
    }
  }

  /**
   * As written (stride two) the slots `2 k + 3 .. 5 k - 1` of a flight of
   * two or more legs are never bound, so `Sync_x0_ss` meets an unbound slot.
   */
  lemma SlotsStrideTwoUnbound(k: nat, fs: Fields)
    requires k >= 2
    ensures Slots(k, true)[5 * k - 1] == None
    ensures !AllBound(fs, Slots(k, true))
  {
    BindBurnsStrideTwo(k, k);
  }

  /** At either stride, every slot bound so far names a field of helper fields of the sizes `ParseFlight` leaves. */
  lemma {:induction false} BindBurnsHold(k: nat, asWritten: bool, j: nat, fs: Fields)
    requires j <= k && |fs.tossAngles| == 2 * k + 1 && |fs.burnNodes| == k
    requires forall i :: 0 <= i < |fs.tossAngles| ==> |fs.tossAngles[i]| == 1
    ensures BoundHold(fs, BindBurns(k, asWritten, j))
    decreases j
  {
    if j > 0 {
      BindBurnsHold(k, asWritten, j - 1, fs);
    }
  }

  lemma SlotsHold(k: nat, asWritten: bool, fs: Fields)
    requires |fs.tossAngles| == 2 * k + 1 && |fs.burnNodes| == k
    requires forall i :: 0 <= i < |fs.tossAngles| ==> |fs.tossAngles[i]| == 1
    ensures BoundHold(fs, Slots(k, asWritten))
  {
    BindBurnsHold(k, asWritten, k, fs);
  }

  /** Corrected: allocated vectors of the map's size and the stride-five layout pass every assertion of `Sync_x0_ss`. */
  lemma SyncStrideFivePasses(k: nat, x0: seq<real>, ss: seq<real>)
    requires |x0| == 5 * k + 1 && |ss| == 5 * k + 1
    ensures SyncCheck(Some(x0), Some(ss), Slots(k, false)).None?
  {
    SlotsStrideFive(k);
  }

  /** With stride two, even allocated vectors of the right size fail the assertion on the bound field, for two legs or more. */
  lemma SyncStrideTwoAborts(k: nat, x0: seq<real>, ss: seq<real>)
    requires k >= 2 && |x0| == 5 * k + 1 && |ss| == 5 * k + 1
    ensures SyncCheck(Some(x0), Some(ss), Slots(k, true)) == Some(AssertFailed("field"))
  {
    SlotsStrideTwoUnbound(k, Fields([], [], 0.0));
  }

  /** As written, burn 1 rebinds slots 2, 3 and 4, which burn 0 bound to its own point. */
  lemma SlotsStrideTwoRebinds(k: nat)
    requires k >= 2
    ensures BindBurns(k, true, 1)[2] == Some(BurnAxis(0, 0))
    ensures BindBurns(k, true, 2)[2] == Some(TossAngle(2))
  {
  }

  // ---------------------------------------------------------------------------
  // The extended chain: mission nodes with a burn node between each pair.

  /** An entry of the helper's `chain`: mission node `j` or burn node `b`, with the toss-angle vector `slot` it uses. */
  datatype Entry = MissionEntry(j: nat, slot: nat) | BurnEntry(b: nat, slot: nat)

  /** Entry `i` of the extended chain: even entries are mission nodes, odd ones burns, each with toss-angle vector `i`. */
  function EntryAt(i: nat): Entry {
    if i % 2 == 0 then MissionEntry(i / 2, i) else BurnEntry(i / 2, i)
  }

  /** The extended chain of a `k`-leg flight: `2 k + 1` entries. */
  function ChainLayout(k: nat): (c: seq<Entry>)
    ensures |c| == 2 * k + 1
  {
    seq(2 * k + 1, i requires 0 <= i => EntryAt(i))
  }

  /** An entry names an existing node and toss-angle vector. */
  predicate EntryOk(fs: Fields, nodes: nat, e: Entry) {
    e.slot < |fs.tossAngles|
    && match e
       case MissionEntry(j, _) => j < nodes
       case BurnEntry(b, _) => b < |fs.burnNodes|
  }

  predicate ChainResolves(fs: Fields, nodes: nat, chain: seq<Entry>) {
    forall i :: 0 <= i < |chain| ==> EntryOk(fs, nodes, chain[i])
  }

  /** The burn node as an `INode`: a fixed point and no ephemeris. */
  function BurnINode(p: StaticPart): INode {
    INode(None, Some(p))
  }

  /**
   * The `NodeA` an entry stands for when the search runs: the node and the
   * toss-angle vector it refers to, with their current values.
   */
  function Resolve(fs: Fields, nodes: seq<Option<INode>>, e: Entry): FirstApproxSolver.NodeA
    requires EntryOk(fs, |nodes|, e)
  {
    match e
    case MissionEntry(j, slot) => FirstApproxSolver.NodeA(nodes[j], fs.tossAngles[slot])
    case BurnEntry(b, slot) => FirstApproxSolver.NodeA(Some(BurnINode(fs.burnNodes[b])), fs.tossAngles[slot])
  }

  function Resolved(fs: Fields, nodes: seq<Option<INode>>, chain: seq<Entry>): (r: seq<FirstApproxSolver.NodeA>)
    requires ChainResolves(fs, |nodes|, chain)
    ensures |r| == |chain|
  {
    seq(|chain|, i requires 0 <= i < |chain| && ChainResolves(fs, |nodes|, chain) => Resolve(fs, nodes, chain[i]))
  }

  /** `Utiles::GetBurnParams(link, dQfactor)`: the burn point on the leg and the angle there, a given function. */
  type BurnParams = (Link, real) -> (Vec3, real)

  /**
   * The departure angle `ParseFlight` stores for each mission node but the
   * last: corrected, that of the leg leaving it; as written, that of the
   * next leg, and `pastEnd` (whatever lies one past the end of the chain)
   * for the last burn.
   */
  function Departures(legs: seq<FlightInfo>, asWritten: bool, pastEnd: real): (d: seq<real>)
    ensures |d| == |legs|
  {
    seq(|legs|, j requires 0 <= j < |legs| =>
      if asWritten then DepartureAngleAsWritten(legs, j).GetOr(pastEnd) else legs[j].link.f0)
  }

  /** The first value of toss-angle vector `s` after `ParseFlight`: node departure angles `dep`, burn angles, and zero for the last node. */
  function StartAngle(legs: seq<FlightInfo>, dep: seq<real>, frac: real, bp: BurnParams, s: nat): real
    requires |dep| == |legs| && s < 2 * |legs| + 1
  {
    if s == 2 * |legs| then 0.0
    else if s % 2 == 0 then dep[s / 2]
    else bp(legs[s / 2].link, frac).1
  }

  /** The toss-angle vectors once burns `0..j)` are parsed; the others keep their `{0}`. */
  function AnglesAfter(legs: seq<FlightInfo>, dep: seq<real>, frac: real, bp: BurnParams, j: nat): (r: seq<seq<real>>)
    requires |dep| == |legs|
    ensures |r| == 2 * |legs| + 1
  {
    seq(2 * |legs| + 1, s requires 0 <= s < 2 * |legs| + 1 && |dep| == |legs| =>
      if s < 2 * j then [StartAngle(legs, dep, frac, bp, s)] else [0.0])
  }

  /** Before any burn is parsed, every toss-angle vector is the constructor's `{0}`. */
  lemma AnglesAfterNone(legs: seq<FlightInfo>, dep: seq<real>, frac: real, bp: BurnParams)
    requires |dep| == |legs|
    ensures AnglesAfter(legs, dep, frac, bp, 0) == seq(2 * |legs| + 1, _ => [0.0])
  {
  }

  /** The burn nodes once burns `0..j)` are parsed: each at its point on its leg. */
  function BurnsAfter(legs: seq<FlightInfo>, frac: real, bp: BurnParams, j: nat): (r: seq<StaticPart>)
    requires j <= |legs|
    ensures |r| == j
  {
    seq(j, b requires 0 <= b < j <= |legs| => StaticPart(bp(legs[b].link, frac).0))
  }

  /**
   * The departure angle `ParseFlight` stores for mission node `j`, as
   * written: it reads the link after the one whose burn point it takes,
   * which for the last burn is one past the end of the chain (`None`).
   */
  function DepartureAngleAsWritten(legs: seq<FlightInfo>, j: nat): Option<real>
    requires j < |legs|
  {
    if j + 1 < |legs| then Some(legs[j + 1].link.f0) else None
  }

  /** As written, the last burn of every flight reads past the end of the chain. */
  lemma DepartureAngleAsWrittenOverruns(legs: seq<FlightInfo>)
    requires |legs| >= 1
    ensures DepartureAngleAsWritten(legs, |legs| - 1).None?
  {
  }

  /**
   * Corrected: the toss-angle vector of mission node `j` starts at the
   * departure angle of the leg leaving it, and the burn's at the angle of its
   * burn point, so the search's first point reproduces the given flight's
   * departures.
   */
  lemma StartAnglesFollowFlight(legs: seq<FlightInfo>, pastEnd: real, frac: real, bp: BurnParams, j: nat)
    requires j < |legs|
    ensures var dep := Departures(legs, false, pastEnd);
            && AnglesAfter(legs, dep, frac, bp, |legs|)[2 * j] == [legs[j].link.f0]
            && AnglesAfter(legs, dep, frac, bp, |legs|)[2 * j + 1] == [bp(legs[j].link, frac).1]
            && AnglesAfter(legs, dep, frac, bp, |legs|)[2 * |legs|] == [0.0]
  {
    assert (2 * j) % 2 == 0 && (2 * j) / 2 == j;
    assert (2 * j + 1) % 2 == 1 && (2 * j + 1) / 2 == j;
  }

  /**
   * As written, the toss-angle vector of mission node `j` starts at the
   * departure angle of leg `j + 1`, and the last one at whatever lies past
   * the end of the chain.
   */
  lemma StartAnglesAsWritten(legs: seq<FlightInfo>, pastEnd: real, frac: real, bp: BurnParams, j: nat)
    requires j < |legs|
    ensures var dep := Departures(legs, true, pastEnd);
            && (j + 1 < |legs| ==> AnglesAfter(legs, dep, frac, bp, |legs|)[2 * j] == [legs[j + 1].link.f0])
            && AnglesAfter(legs, dep, frac, bp, |legs|)[2 * |legs| - 2] == [pastEnd]
  {
    assert (2 * j) % 2 == 0 && (2 * j) / 2 == j;
    assert (2 * |legs| - 2) % 2 == 0 && (2 * |legs| - 2) / 2 == |legs| - 1;
  }

  /**
   * The chain `ParseFlight` builds resolves to mission node `j` with its
   * departure angle at even entries and burn `j` at its point with its angle
   * at odd ones.
   */
  lemma ParsedChain(nodes: seq<Option<INode>>, legs: seq<FlightInfo>, dep: seq<real>, frac: real, bp: BurnParams, i: nat)
    requires |nodes| == |legs| + 1 && |dep| == |legs| && i < 2 * |legs| + 1
    ensures var fs := Fields(AnglesAfter(legs, dep, frac, bp, |legs|), BurnsAfter(legs, frac, bp, |legs|), 0.0);
            ChainResolves(fs, |nodes|, ChainLayout(|legs|))
            && (i % 2 == 0 && i < 2 * |legs| ==> Resolved(fs, nodes, ChainLayout(|legs|))[i]
                                                  == FirstApproxSolver.NodeA(nodes[i / 2], [dep[i / 2]]))
            && (i % 2 == 1 ==> Resolved(fs, nodes, ChainLayout(|legs|))[i]
                               == FirstApproxSolver.NodeA(Some(BurnINode(StaticPart(bp(legs[i / 2].link, frac).0))),
                                                          [bp(legs[i / 2].link, frac).1]))
            && Resolved(fs, nodes, ChainLayout(|legs|))[2 * |legs|] == FirstApproxSolver.NodeA(nodes[|legs|], [0.0])
  {
  }

  /** The five writes of burn `j`: the node's departure angle, the burn's angle and its point. */
  function BurnWrites(fs: Fields, j: nat, f0: real, fb: real, R: Vec3): Fields
    requires Holds(fs, TossAngle(2 * j)) && Holds(fs, TossAngle(2 * j + 1)) && j < |fs.burnNodes|
  {
    var a := Put(fs, TossAngle(2 * j), f0);
    SameShapeHolds(a, fs, TossAngle(2 * j + 1));
    var b := Put(a, TossAngle(2 * j + 1), fb);
    var c := Put(b, BurnAxis(j, 0), R.x);
    var d := Put(c, BurnAxis(j, 1), R.y);
    Put(d, BurnAxis(j, 2), R.z)
  }

  /** Parsing burn `j` takes the fields from `j` parsed burns to `j + 1`. */
  lemma BurnWritesStep(legs: seq<FlightInfo>, dep: seq<real>, frac: real, bp: BurnParams, j: nat, burn: StaticPart, t: real)
    requires j < |legs| && |dep| == |legs|
    ensures var fs := Fields(AnglesAfter(legs, dep, frac, bp, j), BurnsAfter(legs, frac, bp, j) + [burn], t);
            Holds(fs, TossAngle(2 * j)) && Holds(fs, TossAngle(2 * j + 1))
            && BurnWrites(fs, j, dep[j], bp(legs[j].link, frac).1, bp(legs[j].link, frac).0)
               == Fields(AnglesAfter(legs, dep, frac, bp, j + 1), BurnsAfter(legs, frac, bp, j + 1), t)
  {
    var R := bp(legs[j].link, frac).0;
    var fs := Fields(AnglesAfter(legs, dep, frac, bp, j), BurnsAfter(legs, frac, bp, j) + [burn], t);
    var w := BurnWrites(fs, j, dep[j], bp(legs[j].link, frac).1, R);
    assert (2 * j) / 2 == j && (2 * j) % 2 == 0 && (2 * j + 1) / 2 == j && (2 * j + 1) % 2 == 1;
    assert w.tossAngles == AnglesAfter(legs, dep, frac, bp, j + 1) by {
      forall s | 0 <= s < 2 * |legs| + 1 ensures w.tossAngles[s] == AnglesAfter(legs, dep, frac, bp, j + 1)[s] {
        if s == 2 * j || s == 2 * j + 1 {
        }
      }
    }
    assert w.burnNodes[j].R == R;
    assert w.burnNodes == BurnsAfter(legs, frac, bp, j + 1);
  }

  /** Burn `j` adds mission node `j` and burn node `j` to the extended chain. */
  lemma ChainStep(j: nat)
    ensures seq(2 * j, i requires 0 <= i => EntryAt(i)) + [MissionEntry(j, 2 * j)] + [BurnEntry(j, 2 * j + 1)]
            == seq(2 * j + 2, i requires 0 <= i => EntryAt(i))
  {
    assert (2 * j) / 2 == j && (2 * j) % 2 == 0 && (2 * j + 1) / 2 == j && (2 * j + 1) % 2 == 1;
  }

  /** The last mission node closes the extended chain. */
  lemma ChainLast(k: nat)
    ensures seq(2 * k, i requires 0 <= i => EntryAt(i)) + [MissionEntry(k, 2 * k)] == ChainLayout(k)
  {
    assert (2 * k) / 2 == k && (2 * k) % 2 == 0;
  }

  // ---------------------------------------------------------------------------
  // Choosing the best flight of an evaluation.

  /** The scores of the flights, in order. */
  function Values(functionality: FlightChain -> real, flights: seq<FlightChain>): (r: seq<real>)
    ensures |r| == |flights|
  {
    seq(|flights|, i requires 0 <= i < |flights| => functionality(flights[i]))
  }

  /**
   * The index and value the selection loop of `ComputeFunctionality` ends
   * with when `min` starts at `start`: a value replaces the current one only
   * when strictly below it.
   */
  function Select(vals: seq<real>, start: Float): (r: (nat, Float))
    decreases |vals|
  {
    if vals == [] then (0, start)
    else
      var prev := Select(vals[..|vals| - 1], start);
      if Less(Num(vals[|vals| - 1]), prev.1) then (|vals| - 1, Num(vals[|vals| - 1])) else prev
  }

  /** As written, `min` starts at NaN: no comparison succeeds, index 0 is chosen and NaN is returned. */
  lemma {:induction false} SelectFromNaN(vals: seq<real>)
    ensures Select(vals, NaN) == (0, NaN)
    decreases |vals|
  {
    if vals != [] {
      SelectFromNaN(vals[..|vals| - 1]);
    }
  }

  /**
   * Corrected, `min` starts at infinity: the result is the first index of a
   * smallest value, and that value.
   */
  lemma {:induction false} SelectFromInf(vals: seq<real>)
    requires |vals| > 0
    ensures Select(vals, Inf).0 < |vals| && Select(vals, Inf).1 == Num(vals[Select(vals, Inf).0])
    ensures forall j :: 0 <= j < |vals| ==> vals[Select(vals, Inf).0] <= vals[j]
    ensures forall j :: 0 <= j < Select(vals, Inf).0 ==> vals[Select(vals, Inf).0] < vals[j]
    decreases |vals|
  {
    if |vals| > 1 {
      var init := vals[..|vals| - 1];
      SelectFromInf(init);
      assert forall j :: 0 <= j < |init| ==> init[j] == vals[j];
    }
  }

  /** Two flights scored 2 and 1: as written the first is kept with NaN; corrected, the second with 1. */
  lemma SelectExample()
    ensures Select([2.0, 1.0], NaN) == (0, NaN)
    ensures Select([2.0, 1.0], Inf) == (1, Num(1.0))
  {
    assert [2.0, 1.0][..1] == [2.0];
    assert [2.0][..0] == [];
  }

  // ---------------------------------------------------------------------------
  // The convergence loop of `FindMinimum`.

  /** One `iterate` of the minimiser: its status, its best value `fval`, and the flight its last evaluation left current. */
  datatype Step = Step(status: int, fval: Float, flight: FlightChain)

  /** The minimiser: the code its initialisation returns, the flight the initial evaluations leave current, and its iterations. */
  datatype Minimiser = Minimiser(initCode: int, initFlight: FlightChain, steps: nat -> Step)

  /** How the loop ends: its return value, the iterations it ran, and `curFunctionality` and `currentFlight` then. */
  datatype RunResult = RunResult(ok: bool, iters: nat, cur: Float, flight: FlightChain)

  /**
   * The loop from iteration `iter` with `status`, `prevValue`,
   * `curFunctionality` and `currentFlight`: it runs while the status is
   * `GSL_CONTINUE` and fewer than `maxIter` iterations are done; a non-zero
   * `iterate` ends it with false; from the second value on, a change below
   * `delta` sets `GSL_SUCCESS`.
   */
  function Run(steps: nat -> Step, maxIter: int, delta: real, iter: nat, status: int, prev: Float, cur: Float, flight: FlightChain): RunResult
    decreases if iter < maxIter then maxIter - iter else 0
  {
    if !(status == GslContinue && iter < maxIter) then RunResult(true, iter, cur, flight)
    else
      var st := steps(iter);
      if st.status != 0 then RunResult(false, iter + 1, cur, st.flight)
      else
        var next := if prev != NaN && Converged(st.fval, prev, delta) then GslSuccess else GslContinue;
        Run(steps, maxIter, delta, iter + 1, next, st.fval, st.fval, st.flight)
  }

  /** The minimiser's first `n` iterations all succeeded. */
  ghost predicate StepsOk(steps: nat -> Step, n: nat) {
    forall i: nat :: i < n ==> steps(i).status == 0
  }

  /**
   * What the loop guarantees from a state it can reach: it stops within
   * `maxIter` iterations; it returns false exactly after an `iterate` with
   * non-zero status; it stops early only when the last two values differ by
   * less than `delta`; and `curFunctionality` is the last value.
   */
  lemma {:induction false} RunFacts(steps: nat -> Step, maxIter: int, delta: real, iter: nat, status: int, prev: Float, cur: Float, flight: FlightChain)
    requires status == GslContinue || status == GslSuccess
    requires status == GslSuccess ==> iter >= 2 && Converged(steps(iter - 1).fval, steps(iter - 2).fval, delta)
    requires iter > 0 ==> prev == steps(iter - 1).fval && cur == prev && iter <= maxIter
    requires iter == 0 ==> prev == NaN && cur == NaN
    requires StepsOk(steps, iter)
    ensures var r := Run(steps, maxIter, delta, iter, status, prev, cur, flight);
            && iter <= r.iters
            && (r.iters <= maxIter || r.iters == 0)
            && (r.ok ==> StepsOk(steps, r.iters))
            && (!r.ok ==> r.iters >= 1 && StepsOk(steps, r.iters - 1) && steps(r.iters - 1).status != 0)
            && (r.ok && r.iters < maxIter ==> r.iters >= 2 && Converged(steps(r.iters - 1).fval, steps(r.iters - 2).fval, delta))
            && (r.ok && r.iters > 0 ==> r.cur == steps(r.iters - 1).fval)
            && (r.ok && r.iters == 0 ==> r.cur == NaN)
    decreases if iter < maxIter then maxIter - iter else 0
  {
    if status == GslContinue && iter < maxIter {
      var st := steps(iter);
      if st.status == 0 {
        var next := if prev != NaN && Converged(st.fval, prev, delta) then GslSuccess else GslContinue;
        assert StepsOk(steps, iter + 1) by {
          forall i: nat | i < iter + 1 ensures steps(i).status == 0 {
            if i < iter {
              assert StepsOk(steps, iter);
            }
          }
        }
        RunFacts(steps, maxIter, delta, iter + 1, next, st.fval, st.fval, st.flight);
      }
    }
  }

  /** `FindMinimum`'s loop as it starts: iteration 0, `GSL_CONTINUE`, and NaN for both values. */
  function FindMinimumRun(mz: Minimiser, maxIter: int, delta: real): RunResult {
    Run(mz.steps, maxIter, delta, 0, GslContinue, NaN, NaN, mz.initFlight)
  }

  /** The loop's guarantees from its start. */
  lemma FindMinimumFacts(mz: Minimiser, maxIter: int, delta: real)
    ensures var r := FindMinimumRun(mz, maxIter, delta);
            && (r.iters <= maxIter || r.iters == 0)
            && (r.ok <==> StepsOk(mz.steps, r.iters))
            && (!r.ok ==> r.iters >= 1 && mz.steps(r.iters - 1).status != 0)
            && (r.ok && r.iters < maxIter ==> r.iters >= 2 && Converged(mz.steps(r.iters - 1).fval, mz.steps(r.iters - 2).fval, delta))
            && (r.ok && r.iters > 0 ==> r.cur == mz.steps(r.iters - 1).fval)
            && (r.ok && r.iters == 0 ==> r.cur == NaN)
  {
    RunFacts(mz.steps, maxIter, delta, 0, GslContinue, NaN, NaN, mz.initFlight);
  }

  /**
   * A minimiser whose values are all NaN (as they are while the
   * functionality returns NaN) never converges: the loop runs all `maxIter`
   * iterations unless an `iterate` fails.
   */
  lemma NaNNeverConverges(mz: Minimiser, maxIter: int, delta: real)
    requires maxIter >= 0
    requires forall i: nat :: mz.steps(i).fval == NaN
    requires StepsOk(mz.steps, maxIter)
    ensures FindMinimumRun(mz, maxIter, delta).ok
    ensures FindMinimumRun(mz, maxIter, delta).iters == maxIter
  {
    FindMinimumFacts(mz, maxIter, delta);
  }

  // ---------------------------------------------------------------------------
  // The state the minimiser works on.

  /** The mission the second approximation reads: the first approximation's settings and its own. */
  datatype SaxMission = SaxMission(base: Mission<Option<INode>>, burnArcFraction: real, minMinimisationDelta: real,
                                   maxMinimisationIters: int, burnFactory: Option<StaticPart>)

  /** A value-initialised `FlightChain`: what `SecondApprox` returns when minimisation fails. */
  const EmptyFlight: FlightChain := FlightChain([], 0.0, 0.0, 0.0, 0.0, 0.0)

  const BurnFactoryError: string := "burn node cannot be nullptr"

  function InitError(code: int): string {
    "unexpected code during minimiser initialisation: " + IntToString(code)
  }

  /** `StateVectorMap`: slot `i` of the state vector is bound to a field, or not yet. */
  class StateVectorMap {
    var data: seq<Option<Loc>>

    constructor()
      ensures data == []
    {
      data := [];
    }

    /** `SetSize(n)`: `n` slots; those already there keep their binding, new ones are unbound. */
    method SetSize(n: nat)
      modifies this
      ensures |data| == n
      ensures forall i :: 0 <= i < n ==> data[i] == if i < |old(data)| then old(data)[i] else None
    {
      if n <= |data| {
        data := data[..n];
      } else {
        data := data + seq(n - |data|, _ => None);
      }
    }

    /** `Assign(n, field)`: binds slot `n` to `field` and hands the field back, so that `Assign(n, field) = v` writes `v` into it. */
    method Assign(n: nat, field: Loc) returns (r: Loc)
      requires n < |data|
      modifies this
      ensures data == old(data)[n := Some(field)]
      ensures r == field
    {
      data := data[n := Some(field)];
      r := field;
    }

    /**
     * `Sync_x0_ss(x0, ss, factor)`: aborts on the first assertion that
     * fails (a null or wrongly sized vector, an unbound slot); otherwise the
     * start point is what the fields hold, the step sizes that scaled by
     * `factor`.
     */
    method Sync_x0_ss(fs: Fields, x0: Option<seq<real>>, ss: Option<seq<real>>, factor: real)
        returns (r: Result<(seq<real>, seq<real>)>)
      requires BoundHold(fs, data)
      ensures r.Err? <==> SyncCheck(x0, ss, data).Some?
      ensures r.Err? ==> r.error == SyncCheck(x0, ss, data).value
      ensures r.Ok? ==> AllBound(fs, data) && r.value == (Snapshot(fs, data), Scaled(Snapshot(fs, data), factor))
    {
      if x0.None? {
        return Err(AssertFailed("x0"));
      }
      if |x0.value| != |data| {
        return Err(AssertFailed("x0->size == data.size()"));
      }
      if ss.None? {
        return Err(AssertFailed("ss"));
      }
      if |ss.value| != |data| {
        return Err(AssertFailed("ss->size == data.size()"));
      }
      var xs, steps := x0.value, ss.value;
      var i := 0;
      while i < |data|
        invariant 0 <= i <= |data|
        invariant |xs| == |data| && |steps| == |data|
        invariant forall j :: 0 <= j < i ==> data[j].Some? && xs[j] == Get(fs, data[j].value) && steps[j] == xs[j] * factor
      {
        if data[i].None? {
          return Err(AssertFailed("field"));
        }
        var val := Get(fs, data[i].value);
        xs := xs[i := val];
        steps := steps[i := val * factor];
        i := i + 1;
      }
      assert AllBound(fs, data);
      assert xs == Snapshot(fs, data);
      assert forall j :: 0 <= j < |steps| ==> steps[j] == Scaled(xs, factor)[j];
      assert steps == Scaled(xs, factor);
      r := Ok((xs, steps));
    }

    /** `ReadVector(v)`: writes `v[i]` through slot `i`, in slot order, into the helper's fields. */
    method ReadVector(v: seq<real>, h: SecondApproxHelper)
      requires |v| == |data| && AllBound(h.State(), data)
      modifies h
      ensures h.State() == WriteBack(old(h.State()), data, v, |data|)
      ensures h.Others() == old(h.Others())
    {
      ghost var fs := h.State();
      var i := 0;
      while i < |data|
        invariant 0 <= i <= |data|
        invariant h.State() == WriteBack(fs, data, v, i)
        invariant h.Others() == old(h.Others())
      {
        SameShapeHolds(h.State(), fs, data[i].value);
        h.Set(data[i].value, v[i]);
        i := i + 1;
      }
    }
  }

  /**
   * An evaluation of the functionality: the flights the layered search finds
   * along `nodes` from `t`, with correction; the result and the flight the
   * current one becomes are what the selection loop picks with `min`
   * starting at `start` (the current flight stays as it was when no flight
   * is found).  The search's error, if any, is the one its first refusing
   * leg throws.
   */
  ghost predicate Evaluation(s: Search<FirstApproxSolver.NodeA>, nodes: seq<FirstApproxSolver.NodeA>, t: real,
                             functionality: FlightChain -> real, start: Float, r: Result<Float>,
                             before: FlightChain, after: FlightChain)
    requires |nodes| >= 1
  {
    && (r.Ok? ==>
          var flights := Flights(s, nodes, Seed(t), true);
          var sel := Select(Values(functionality, flights), start);
          && SolverUtiles.NoThrowBefore(s, nodes, Seed(t), FirstApproxSolver.NodeError, |nodes| - 1)
          && r.value == sel.1
          && after == (if |flights| > 0 && sel.0 < |flights| then flights[sel.0] else before))
    && (r.Err? ==>
          exists k: nat :: k + 1 < |nodes| && SolverUtiles.NoThrowBefore(s, nodes, Seed(t), FirstApproxSolver.NodeError, k)
                           && SolverUtiles.ThrowsAt(s, nodes, Seed(t), FirstApproxSolver.NodeError, k)
                           && FirstApproxSolver.NodeError(nodes[k], nodes[k + 1]) == Some(r.error))
  }

  /** Where the selection loop's `min` starts: NaN as written, infinity corrected. */
  function MinStart(asWritten: bool): Float {
    if asWritten then NaN else Inf
  }

  /**
   * `SecondApproxHelper`: the extended chain, the toss angles and burn nodes
   * the state vector is bound to, and the minimisation's current result.
   */
  class SecondApproxHelper {
    const k: nat
    const m: nat
    const mission: SaxMission
    const functionality: FlightChain -> real
    const fieldMap: StateVectorMap
    const f: Funcs
    const pol: LinkSearch.Policy
    const check: (FirstApproxSolver.NodeA, InParams, bool) -> CheckOutcome
    const burnParams: BurnParams
    /** The code as written (stride two, next leg's angle, null vectors, NaN start of `min`), or corrected. */
    const asWritten: bool

    var t: real
    var chain: seq<Entry>
    var tossAngles: seq<seq<real>>
    var burnNodes: seq<StaticPart>
    /** The start point and step sizes; `None` is a null `gsl_vector*`. */
    var x0: Option<seq<real>>
    var ss: Option<seq<real>>
    var curFunctionality: Float
    var currentFlight: FlightChain

    /** The fields the state vector's slots may be bound to. */
    function State(): Fields
      reads this
    {
      Fields(tossAngles, burnNodes, t)
    }

    /** Everything else the helper holds. */
    function Others(): (seq<Entry>, Option<seq<real>>, Option<seq<real>>, Float, FlightChain)
      reads this
    {
      (chain, x0, ss, curFunctionality, currentFlight)
    }

    /** The search the functor runs: the solver utilities' link search over the mission, with correction. */
    function Finder(): Search<FirstApproxSolver.NodeA>
      requires CosBounded(f) && SqrtLaws(f)
    {
      FirstApproxSolver.SolverSearch(f, pol, mission.base, check, true)
    }

    /**
     * The constructor: `k` legs, `m = 5 k + 1` variables, `2 k + 1`
     * toss-angle vectors `{0}`, and `m` unbound slots.  The two vectors it
     * allocates go to locals that shadow the members, so as written the
     * members stay null; corrected, they are the allocated `m`-vectors.
     */
    constructor(f: Funcs, pol: LinkSearch.Policy, check: (FirstApproxSolver.NodeA, InParams, bool) -> CheckOutcome,
                burnParams: BurnParams, mission: SaxMission, flight: FlightChain, functionality: FlightChain -> real,
                asWritten: bool)
      ensures this.f == f && this.pol == pol && this.check == check && this.burnParams == burnParams
      ensures this.mission == mission && this.functionality == functionality && this.asWritten == asWritten
      ensures k == |flight.chain| && m == 5 * k + 1
      ensures tossAngles == seq(2 * k + 1, _ => [0.0])
      ensures fresh(fieldMap) && fieldMap.data == BindBurns(k, asWritten, 0)
      ensures chain == [] && burnNodes == [] && t == 0.0
      ensures asWritten ==> x0 == None && ss == None
      ensures !asWritten ==> x0 == Some(seq(m, _ => 0.0)) && ss == Some(seq(m, _ => 0.0))
      ensures curFunctionality == NaN && currentFlight == EmptyFlight
    {
      this.f := f;
      this.pol := pol;
      this.check := check;
      this.burnParams := burnParams;
      this.mission := mission;
      this.functionality := functionality;
      this.asWritten := asWritten;
      k := |flight.chain|;
      m := 5 * |flight.chain| + 1;
      var angles: seq<seq<real>> := [];
      var i := 0;
      while i < 2 * |flight.chain| + 1
        invariant 0 <= i <= 2 * |flight.chain| + 1
        invariant angles == seq(i, _ => [0.0])
      {
        angles := angles + [[0.0]];
        i := i + 1;
      }
      tossAngles := angles;
      var map_ := new StateVectorMap();
      map_.SetSize(5 * |flight.chain| + 1);
      fieldMap := map_;
      chain := [];
      burnNodes := [];
      t := 0.0;
      var alloc := seq(5 * |flight.chain| + 1, _ => 0.0);
      if asWritten {
        x0, ss := None, None;
      } else {
        x0, ss := Some(alloc), Some(alloc);
      }
      curFunctionality := NaN;
      currentFlight := EmptyFlight;
    }

    /** Writes `v` into the field `l` names, as a store through a bound slot does. */
    method Set(l: Loc, v: real)
      requires Holds(State(), l)
      modifies this
      ensures State() == Put(old(State()), l, v)
      ensures Others() == old(Others())
    {
      match l
      case TossAngle(i) => tossAngles := tossAngles[i := tossAngles[i][0 := v]];
      case BurnAxis(b, a) => burnNodes := burnNodes[b := StaticPart(WithAxis(burnNodes[b].R, a, v))];
      case StartTime => t := v;
    }

    /** `fieldMap.Assign(n, field) = v`: binds slot `n` to `field` and writes `v` through it. */
    method Bind(n: nat, field: Loc, v: real)
      requires n < |fieldMap.data| && Holds(State(), field)
      modifies this, fieldMap
      ensures fieldMap.data == old(fieldMap.data)[n := Some(field)]
      ensures State() == Put(old(State()), field, v)
      ensures Others() == old(Others())
    {
      var l := fieldMap.Assign(n, field);
      Set(l, v);
    }

    /** The five `Assign`s of burn `j` from slot `base`, in order, each writing its value through the slot it binds. */
    method BindBurnSlots(base: nat, j: nat, f0: real, fb: real, R: Vec3)
      requires base + 4 < |fieldMap.data|
      requires Holds(State(), TossAngle(2 * j)) && Holds(State(), TossAngle(2 * j + 1)) && j < |burnNodes|
      modifies this, fieldMap
      ensures fieldMap.data == BindBurn(old(fieldMap.data), base, j)
      ensures State() == BurnWrites(old(State()), j, f0, fb, R)
      ensures Others() == old(Others())
    {
      Bind(base, TossAngle(2 * j), f0);
      SameShapeHolds(State(), old(State()), TossAngle(2 * j + 1));
      Bind(base + 1, TossAngle(2 * j + 1), fb);
      Bind(base + 2, BurnAxis(j, 0), R.x);
      Bind(base + 3, BurnAxis(j, 1), R.y);
      Bind(base + 4, BurnAxis(j, 2), R.z);
    }

    /**
     * The helper once `ParseFlight` has handled the first `j` mission nodes
     * of the mission for the legs `legs`, storing the departure angles
     * `dep`, and also the last node when `last`.
     */
    ghost predicate ParsedUpTo(legs: seq<FlightInfo>, dep: seq<real>, j: nat, last: bool)
      reads this, fieldMap
    {
      && |legs| == k && |dep| == k && j <= k
      && chain == seq(2 * j + (if last then 1 else 0), i requires 0 <= i => EntryAt(i))
      && burnNodes == BurnsAfter(legs, mission.burnArcFraction, burnParams, j)
      && tossAngles == AnglesAfter(legs, dep, mission.burnArcFraction, burnParams, j)
      && fieldMap.data == BindBurns(k, asWritten, j)
    }

    /**
     * The fields after the loop of `ParseFlight(flight)`: the extended chain,
     * every toss angle and burn point at its value on the flight (the
     * departure angles being `dep`), the start time, and the slot layout.
     */
    ghost predicate ParsedFields(flight: FlightChain, dep: seq<real>)
      reads this, fieldMap
    {
      && |flight.chain| == k && |dep| == k
      && chain == ChainLayout(k)
      && tossAngles == AnglesAfter(flight.chain, dep, mission.burnArcFraction, burnParams, k)
      && burnNodes == BurnsAfter(flight.chain, mission.burnArcFraction, burnParams, k)
      && t == flight.startTime
      && fieldMap.data == Slots(k, asWritten)
    }

    /** After a successful `Sync_x0_ss`: all slots bound, and the start point and step sizes read from the fields. */
    ghost predicate Synced()
      reads this, fieldMap
    {
      && AllBound(State(), fieldMap.data)
      && x0 == Some(Snapshot(State(), fieldMap.data))
      && ss == Some(Scaled(Snapshot(State(), fieldMap.data), 0.001))
    }

    /**
     * One non-last mission node `j` of `ParseFlight`: the node, then burn
     * `j` at its point on leg `j`, with its five slots bound (from slot
     * `2 j` as written, `5 j` corrected) and written; the departure angle
     * written is leg `j + 1`'s as written (`pastEnd` for the last burn), leg
     * `j`'s corrected.
     */
    method ParseBurn(legs: seq<FlightInfo>, pastEnd: real, j: nat, burn: StaticPart)
      requires ParsedUpTo(legs, Departures(legs, asWritten, pastEnd), j, false) && j < k
      modifies this, fieldMap
      ensures ParsedUpTo(legs, Departures(legs, asWritten, pastEnd), j + 1, false)
      ensures t == old(t) && x0 == old(x0) && ss == old(ss) && curFunctionality == old(curFunctionality)
    {
      ghost var dep := Departures(legs, asWritten, pastEnd);
      var frac := mission.burnArcFraction;
      ChainStep(j);
      BurnWritesStep(legs, dep, frac, burnParams, j, burn, t);
      chain := chain + [MissionEntry(j, 2 * j)];
      burnNodes := burnNodes + [burn];
      var link := legs[j].link;
      var (R, fb) := burnParams(link, frac);
      var f0 := link.f0;
      if asWritten {
        f0 := if j + 1 < |legs| then legs[j + 1].link.f0 else pastEnd;
      }
      BindBurnSlots(SlotBase(asWritten, j), j, f0, fb, R);
      chain := chain + [BurnEntry(j, 2 * j + 1)];
    }

    /** The node loop of `ParseFlight`: every mission node in order, each but the last with its burn. */
    method ParseNodes(flight: FlightChain, pastEnd: real) returns (r: Result<()>)
      requires ParsedUpTo(flight.chain, Departures(flight.chain, asWritten, pastEnd), 0, false)
      requires |mission.base.nodes| == k + 1
      modifies this, fieldMap
      ensures k >= 1 && mission.burnFactory.None? ==> r == Err(BurnFactoryError)
      ensures !(k >= 1 && mission.burnFactory.None?) ==>
                r.Ok? && ParsedUpTo(flight.chain, Departures(flight.chain, asWritten, pastEnd), k, true)
      ensures t == old(t) && x0 == old(x0) && ss == old(ss) && curFunctionality == old(curFunctionality)
    {
      ghost var dep := Departures(flight.chain, asWritten, pastEnd);
      var j := 0;
      while j < |mission.base.nodes|
        invariant j <= k + 1
        invariant ParsedUpTo(flight.chain, dep, if j <= k then j else k, j == k + 1)
        invariant k >= 1 && j >= 1 ==> mission.burnFactory.Some?
        invariant t == old(t) && x0 == old(x0) && ss == old(ss) && curFunctionality == old(curFunctionality)
      {
        if j + 1 == |mission.base.nodes| {
          ChainLast(j);
          chain := chain + [MissionEntry(j, 2 * j)];
        } else {
          if mission.burnFactory.None? {
            return Err(BurnFactoryError);
          }
          ParseBurn(flight.chain, pastEnd, j, mission.burnFactory.value);
        }
        j := j + 1;
      }
      r := Ok(());
    }

    /**
     * `ParseFlight(flight)`: builds the extended chain (mission node, burn
     * node, ..., last mission node), binds the five slots of every burn and
     * the last slot to the start time, writing the flight's values through
     * them, then fills the start point and step sizes (factor 0.001) through
     * `Sync_x0_ss` on the member vectors.  It throws when the factory yields
     * no burn node, and aborts when `Sync_x0_ss` does.
     */
    method ParseFlight(flight: FlightChain, pastEnd: real) returns (r: Result<()>)
      requires ParsedUpTo(flight.chain, Departures(flight.chain, asWritten, pastEnd), 0, false)
      requires |mission.base.nodes| == k + 1 && m == 5 * k + 1
      modifies this, fieldMap
      ensures k >= 1 && mission.burnFactory.None? ==> r == Err(BurnFactoryError)
      ensures !(k >= 1 && mission.burnFactory.None?) ==>
                && ParsedFields(flight, Departures(flight.chain, asWritten, pastEnd))
                && (r.Err? <==> SyncCheck(old(x0), old(ss), Slots(k, asWritten)).Some?)
                && (r.Err? ==> r.error == SyncCheck(old(x0), old(ss), Slots(k, asWritten)).value)
                && (r.Ok? ==> Synced())
      ensures curFunctionality == old(curFunctionality)
    {
      var walked := ParseNodes(flight, pastEnd);
      if walked.Err? {
        return walked;
      }
      Bind(m - 1, StartTime, flight.startTime);
      SlotsHold(k, asWritten, State());
      var synced := fieldMap.Sync_x0_ss(State(), x0, ss, 0.001);
      if synced.Err? {
        return Err(synced.error);
      }
      x0, ss := Some(synced.value.0), Some(synced.value.1);
      r := Ok(());
    }

    /**
     * `ComputeFunctionality()`: runs the layered search, with correction,
     * along the extended chain as its fields now stand, from `t`; keeps the
     * first flight with the smallest score and returns that score.
     */
    method ComputeFunctionality() returns (r: Result<Float>)
      requires CosBounded(f) && SqrtLaws(f)
      requires |chain| >= 1 && ChainResolves(State(), |mission.base.nodes|, chain)
      modifies this
      ensures State() == old(State()) && chain == old(chain) && x0 == old(x0) && ss == old(ss)
      ensures curFunctionality == old(curFunctionality)
      ensures Evaluation(Finder(), Resolved(State(), mission.base.nodes, chain), t, functionality, MinStart(asWritten), r,
                         old(currentFlight), currentFlight)
    {
      var nodes := Resolved(State(), mission.base.nodes, chain);
      var found := SolverUtiles.ComputeFlight(nodes, t, Finder(), FirstApproxSolver.NodeError);
      if found.Err? {
        return Err(found.error);
      }
      var results := found.value;
      var start := if asWritten then NaN else Inf;
      var iMin, min := SelectBest(results, functionality, start);
      if |results| > 0 {
        currentFlight := results[iMin];
      }
      r := Ok(min);
    }

    /**
     * The minimiser's functor: `ReadVector(v)` into the fields, then
     * `ComputeFunctionality()` on them.
     */
    method Functor(v: seq<real>) returns (r: Result<Float>)
      requires CosBounded(f) && SqrtLaws(f)
      requires |chain| >= 1 && ChainResolves(State(), |mission.base.nodes|, chain)
      requires |v| == |fieldMap.data| && AllBound(State(), fieldMap.data)
      modifies this
      ensures State() == WriteBack(old(State()), fieldMap.data, v, |v|)
      ensures chain == old(chain)
      ensures ChainResolves(State(), |mission.base.nodes|, chain)
      ensures Evaluation(Finder(), Resolved(State(), mission.base.nodes, chain), t, functionality, MinStart(asWritten), r,
                         old(currentFlight), currentFlight)
    {
      fieldMap.ReadVector(v, this);
      r := ComputeFunctionality();
    }

    /** `InitMinimiser()`: a non-zero code of the minimiser's initialisation is thrown. */
    method InitMinimiser(mz: Minimiser) returns (r: Result<()>)
      modifies this
      ensures mz.initCode != 0 ==> r == Err(InitError(mz.initCode)) && currentFlight == old(currentFlight)
      ensures mz.initCode == 0 ==> r == Ok(()) && currentFlight == mz.initFlight
      ensures State() == old(State()) && curFunctionality == old(curFunctionality)
    {
      if mz.initCode != 0 {
        return Err(InitError(mz.initCode));
      }
      currentFlight := mz.initFlight;
      r := Ok(());
    }

    /**
     * `FindMinimum()`: initialises the minimiser, then iterates it as `Run`
     * describes, recording each iteration's value in `curFunctionality`.
     */
    method FindMinimum(mz: Minimiser) returns (r: Result<bool>)
      modifies this
      ensures mz.initCode != 0 ==> r == Err(InitError(mz.initCode))
      ensures mz.initCode == 0 ==>
                var run := Run(mz.steps, mission.maxMinimisationIters, mission.minMinimisationDelta, 0, GslContinue,
                               NaN, old(curFunctionality), mz.initFlight);
                r == Ok(run.ok) && curFunctionality == run.cur && currentFlight == run.flight
      ensures State() == old(State())
    {
      var init := InitMinimiser(mz);
      if init.Err? {
        return Err(init.error);
      }
      var prevValue := NaN;
      var minDelta := mission.minMinimisationDelta;
      var status := GslContinue;
      var maxIter := mission.maxMinimisationIters;
      var iter: nat := 0;
      ghost var run := Run(mz.steps, maxIter, minDelta, 0, GslContinue, NaN, curFunctionality, currentFlight);
      while status == GslContinue && iter < maxIter
        invariant Run(mz.steps, maxIter, minDelta, iter, status, prevValue, curFunctionality, currentFlight) == run
        invariant State() == old(State())
        decreases maxIter - iter
      {
        var st := mz.steps(iter);
        currentFlight := st.flight;
        status := st.status;
        if status != 0 {
          return Ok(false);
        }
        var curValue := st.fval;
        if prevValue != NaN {
          status := if Converged(curValue, prevValue, minDelta) then GslSuccess else GslContinue;
        } else {
          status := GslContinue;
        }
        curFunctionality := curValue;
        prevValue := curValue;
        iter := iter + 1;
      }
      r := Ok(true);
    }
  }

  /**
   * The selection loop of `ComputeFunctionality`, with `min` starting at
   * `start`: from NaN (as written) nothing is ever selected; from infinity
   * (corrected) the first flight with the smallest score is.
   */
  method SelectBest(results: seq<FlightChain>, functionality: FlightChain -> real, start: Float) returns (iMin: nat, min: Float)
    ensures (iMin, min) == Select(Values(functionality, results), start)
    ensures start == NaN ==> iMin == 0 && min == NaN
    ensures start == Inf && |results| > 0 ==> iMin < |results| && min == Num(functionality(results[iMin]))
    ensures start == Inf ==> forall j :: 0 <= j < |results| ==> functionality(results[iMin]) <= functionality(results[j])
    ensures start == Inf ==> forall j :: 0 <= j < iMin && |results| > 0 ==> functionality(results[iMin]) < functionality(results[j])
  {
    ghost var vals := Values(functionality, results);
    iMin := 0;
    min := start;
    var i := 0;
    while i < |results|
      invariant 0 <= i <= |results|
      invariant (iMin, min) == Select(vals[..i], start)
    {
      var val := functionality(results[i]);
      assert vals[..i + 1][..i] == vals[..i];
      if Less(Num(val), min) {
        iMin := i;
        min := Num(val);
      }
      i := i + 1;
    }
    assert vals[..i] == vals;
    if start == NaN {
      SelectFromNaN(vals);
    }
    if start == Inf && |results| > 0 {
      SelectFromInf(vals);
      assert forall j :: 0 <= j < |results| ==> vals[j] == functionality(results[j]);
    }
  }

  /**
   * `SecondApprox(mission, flight, functionality)`: the flight current when
   * minimisation ends and its score, or an empty flight and NaN when an
   * iteration of the minimiser fails; the errors are those `ParseFlight` and
   * the minimiser's initialisation throw.  As written, the constructor's
   * `ParseFlight` hands the null member vectors to `Sync_x0_ss`, whose first
   * assertion aborts every call that gets past the burn factory.
   */
  method SecondApprox(f: Funcs, pol: LinkSearch.Policy, check: (FirstApproxSolver.NodeA, InParams, bool) -> CheckOutcome,
                      burnParams: BurnParams, mission: SaxMission, flight: FlightChain, functionality: FlightChain -> real,
                      asWritten: bool, pastEnd: real, mz: Minimiser) returns (r: Result<(FlightChain, Float)>)
    requires |mission.base.nodes| == |flight.chain| + 1
    ensures |flight.chain| >= 1 && mission.burnFactory.None? ==> r == Err(BurnFactoryError)
    ensures !(|flight.chain| >= 1 && mission.burnFactory.None?) && asWritten ==> r == Err(AssertFailed("x0"))
    ensures !(|flight.chain| >= 1 && mission.burnFactory.None?) && !asWritten && mz.initCode != 0 ==>
              r == Err(InitError(mz.initCode))
    ensures !(|flight.chain| >= 1 && mission.burnFactory.None?) && !asWritten && mz.initCode == 0 ==>
              var run := FindMinimumRun(mz, mission.maxMinimisationIters, mission.minMinimisationDelta);
              r == Ok(if run.ok then (run.flight, run.cur) else (EmptyFlight, NaN))
  {
    var helper := new SecondApproxHelper(f, pol, check, burnParams, mission, flight, functionality, asWritten);
    AnglesAfterNone(flight.chain, Departures(flight.chain, asWritten, pastEnd), mission.burnArcFraction, burnParams);
    var parsed := helper.ParseFlight(flight, pastEnd);
    if !asWritten {
      SyncStrideFivePasses(|flight.chain|, seq(helper.m, _ => 0.0), seq(helper.m, _ => 0.0));
    }
    if parsed.Err? {
      return Err(parsed.error);
    }
    var found := helper.FindMinimum(mz);
    if found.Err? {
      return Err(found.error);
    }
    if !found.value {
      return Ok((EmptyFlight, NaN));
    }
    return Ok((helper.currentFlight, helper.curFunctionality));
  }
}
