/**
 * The solvers' shared utilities (solvers/Utiles.cpp, solvers/Utiles.hpp): the
 * flight-time limit, the evenly spaced range of toss angles, the walk over
 * consecutive mission nodes, and `ComputeFlight`, the layered search that
 * grows a `PathTree` of flight legs.
 */
module SolverUtiles {
  import opened Wrappers
  import opened Numerics
  import opened Links
  import opened MissionTypes
  import opened PathArena
  import opened FlightChains
  import PathTree

  // ---------------------------------------------------------------------------
  // The range of toss angles.

  /** `n` steps of `span / steps` cover `span` exactly when `n` reaches `steps`. */
  lemma StepsCover(span: real, steps: real, n: nat)
    requires span > 0.0 && steps > 0.0
    ensures n as real * (span / steps) >= span <==> n as real >= steps
    ensures n as real * (span / steps) >= 0.0
  {
    var step := span / steps;
    assert step > 0.0;
    assert step * steps == span;
    assert n as real * step - span == (n as real - steps) * step;
  }

  /** `n` points from `min` on, `step` apart. */
  function Spaced(min: real, step: real, n: nat): (r: seq<real>)
    ensures |r| == n
  {
    seq(n, k requires 0 <= k < n => min + k as real * step)
  }

  lemma SpacedSnoc(min: real, step: real, n: nat)
    ensures Spaced(min, step, n + 1) == Spaced(min, step, n) + [min + n as real * step]
  {
  }

  /**
   * For positive `steps` and `max > min`, the `ceil(steps)` points spaced
   * `(max - min) / steps` apart from `min` lie in `[min, max)`, strictly
   * ascending.
   */
  lemma SpacedCoversRange(min: real, max: real, steps: real, step: real)
    requires steps > 0.0 && max > min && step == (max - min) / steps
    ensures forall k :: 0 <= k < CeilNat(steps) ==> min <= Spaced(min, step, CeilNat(steps))[k] < max
    ensures forall i, j :: 0 <= i < j < CeilNat(steps) ==>
      Spaced(min, step, CeilNat(steps))[i] < Spaced(min, step, CeilNat(steps))[j]
  {
    var r := Spaced(min, step, CeilNat(steps));
    forall k | 0 <= k < CeilNat(steps) ensures min <= r[k] < max {
      StepsCover(max - min, steps, k);
      CeilNatReached(steps, k);
    }
    forall i, j | 0 <= i < j < CeilNat(steps) ensures r[i] < r[j] {
      assert step > 0.0;
      assert r[j] - r[i] == (j - i) as real * step;
    }
  }

  /** The values `MakeRange(min, max, steps)` produces, for the specifications that use them. */
  function RangeOf(min: real, max: real, steps: real): seq<real> {
    if steps <= 0.0 || max <= min then [] else Spaced(min, (max - min) / steps, CeilNat(steps))
  }

  /**
   * `MakeRange(min, max, steps)`: the values `min, min + step, ...` with
   * `step == (max - min) / steps`, as long as they stay below `max` and fewer
   * than `steps` have been taken.  Nothing is produced unless both `steps` and
   * `max - min` are positive; otherwise the result is the `ceil(steps)` evenly
   * spaced points `SpacedCoversRange` describes.
   */
  method MakeRange(min: real, max: real, steps: real) returns (range: seq<real>)
    ensures (steps <= 0.0 || max <= min) ==> range == []
    ensures steps > 0.0 && max > min ==> range == Spaced(min, (max - min) / steps, CeilNat(steps))
    ensures range == RangeOf(min, max, steps)
  {
    if steps <= 0.0 {
      // `range.size() < steps` fails at once
      return [];
    }
    var step := (max - min) / steps;
    range := [];
    var val := min;
    while val < max && (|range| as real) < steps
      invariant val == min + |range| as real * step
      invariant max > min ==> |range| <= CeilNat(steps)
      invariant max <= min ==> |range| == 0
      invariant range == Spaced(min, step, |range|)
      decreases CeilNat(steps) - |range|
    {
      ghost var n := |range|;
      CeilNatReached(steps, n);
      assert val + step == min + (n + 1) as real * step;
      SpacedSnoc(min, step, n);
      assert range == Spaced(min, step, n);
      assert val == min + n as real * step;
      range := range + [val];
      assert range == Spaced(min, step, n + 1);
      val := val + step;
    }
    if max > min {
      StepsCover(max - min, steps, |range|);
      CeilNatReached(steps, |range|);
    }
  }

  // ---------------------------------------------------------------------------
  // The flight-time limit.

  /**
   * `GetFlyTimeLimit(r0, r1, factor, GM)`: `factor` periods of the orbit whose
   * semi-major axis is the mean of the two radii (Kepler's third law,
   * `2 * pi * sqrt(a^3 / GM)`).  A zero `GM` makes the quotient infinite, which
   * the model reports as `None`.
   */
  function GetFlyTimeLimit(f: Funcs, r0: real, r1: real, factor: real, GM: real): (t: Option<real>)
    requires SqrtLaws(f)
    ensures t.None? <==> GM == 0.0
    ensures t.Some? && GM > 0.0 && r0 + r1 >= 0.0 && factor >= 0.0 ==> t.value >= 0.0
    ensures t.Some? && factor == 0.0 ==> t.value == 0.0
  {
    if GM == 0.0 then None
    else
      var a := Avg(r0, r1);
      var cube := a * a * a / GM;
      var root := f.sqrt(cube);
      if GM > 0.0 && r0 + r1 >= 0.0 && factor >= 0.0 then
        assert a >= 0.0;
        assert a * a >= 0.0;
        assert a * a * a >= 0.0;
        assert cube >= 0.0;
        assert root * 2.0 * Pi >= 0.0;
        Some(root * 2.0 * Pi * factor)
      else
        Some(root * 2.0 * Pi * factor)
  }

  // ---------------------------------------------------------------------------
  // The walk over consecutive nodes.

  /**
   * `FillTree(container, clb)`: one call per pair of neighbours, in order, the
   * last one flagged.  The container must not be empty (the walk starts at
   * `begin() + 1`).
   */
  method FillTree<X>(xs: seq<X>) returns (calls: seq<(X, X, bool)>)
    requires |xs| >= 1
    ensures |calls| == |xs| - 1
    ensures forall i :: 0 <= i < |calls| ==> calls[i] == (xs[i], xs[i + 1], i + 2 == |xs|)
  {
    calls := [];
    var iA, iB := 0, 1;
    while iB != |xs|
      invariant 1 <= iB <= |xs| && iA == iB - 1 && |calls| == iA
      invariant forall i :: 0 <= i < iA ==> calls[i] == (xs[i], xs[i + 1], i + 2 == |xs|)
    {
      calls := calls + [(xs[iA], xs[iB], iB + 1 == |xs|)];
      iA, iB := iA + 1, iB + 1;
    }
  }

  // ---------------------------------------------------------------------------
  // ComputeFlight.

  /** The tree node `id` is not the root and ends the chain `c`. */
  ghost predicate NodeHolds(nodes: map<nat, TreeNode<FlightInfo>>, id: nat, c: seq<FlightInfo>) {
    WellFormed(nodes) && id in nodes && id != RootID && PathOf(nodes, id) == c
  }

  /** The tree nodes `ids` end the chains `chains`, one for one. */
  ghost predicate Holds(nodes: map<nat, TreeNode<FlightInfo>>, ids: seq<nat>, chains: seq<seq<FlightInfo>>) {
    WellFormed(nodes) && |ids| == |chains| &&
    forall j {:trigger NodeHolds(nodes, ids[j], chains[j])} :: 0 <= j < |ids| ==> NodeHolds(nodes, ids[j], chains[j])
  }

  /** The tree only ever grows, so what it held it still holds. */
  ghost predicate Grown(before: map<nat, TreeNode<FlightInfo>>, after: map<nat, TreeNode<FlightInfo>>)
    requires WellFormed(before) && WellFormed(after)
  {
    forall id :: id in before ==> id in after && PathOf(after, id) == PathOf(before, id)
  }

  lemma HoldsKept(before: map<nat, TreeNode<FlightInfo>>, after: map<nat, TreeNode<FlightInfo>>, ids: seq<nat>, chains: seq<seq<FlightInfo>>)
    requires Holds(before, ids, chains) && WellFormed(after) && Grown(before, after)
    ensures Holds(after, ids, chains)
  {
    forall j | 0 <= j < |ids| ensures NodeHolds(after, ids[j], chains[j]) {
      assert NodeHolds(before, ids[j], chains[j]);
    }
  }

  lemma GrownTrans(a: map<nat, TreeNode<FlightInfo>>, b: map<nat, TreeNode<FlightInfo>>, c: map<nat, TreeNode<FlightInfo>>)
    requires WellFormed(a) && WellFormed(b) && WellFormed(c)
    requires Grown(a, b) && Grown(b, c)
    ensures Grown(a, c)
  {
  }

  lemma HoldsPush(m: map<nat, TreeNode<FlightInfo>>, ids: seq<nat>, chains: seq<seq<FlightInfo>>, id: nat, c: seq<FlightInfo>)
    requires Holds(m, ids, chains) && NodeHolds(m, id, c)
    ensures Holds(m, ids + [id], chains + [c])
  {
    forall j | 0 <= j < |ids| + 1 ensures NodeHolds(m, (ids + [id])[j], (chains + [c])[j]) {
      if j < |ids| {
        assert (ids + [id])[j] == ids[j] && (chains + [c])[j] == chains[j];
        assert NodeHolds(m, ids[j], chains[j]);
      }
    }
  }

  /** One more link adds its extension, if the checks accept it, at the end. */
  lemma ExtendStep<N>(s: Search<N>, A: N, B: N, last: bool, chain: seq<FlightInfo>, links: seq<Link>, q: nat)
    requires |chain| > 0 && q < |links|
    ensures Extend(s, A, B, last, chain, links[..q + 1]) ==
      Extend(s, A, B, last, chain, links[..q]) +
      (if Leg(s, A, B, last, Last(chain), links[q]).Some? then [chain + [Leg(s, A, B, last, Last(chain), links[q]).value]] else [])
  {
    assert links[..q + 1][..q] == links[..q];
    assert Last(links[..q + 1]) == links[q];
  }

  /** What one pass of the loop over the links keeps and adds. */
  lemma ChildStep<N>(s: Search<N>, A: N, B: N, last: bool, chain: seq<FlightInfo>, links: seq<Link>, q: nat,
                     before: map<nat, TreeNode<FlightInfo>>, after: map<nat, TreeNode<FlightInfo>>,
                     parentID: nat, ids: seq<nat>, r: Option<nat>)
    requires |chain| > 0 && q < |links|
    requires WellFormed(before) && WellFormed(after) && Grown(before, after)
    requires NodeHolds(before, parentID, chain)
    requires Holds(before, ids, Extend(s, A, B, last, chain, links[..q]))
    requires r.Some? <==> Leg(s, A, B, last, Last(chain), links[q]).Some?
    requires r.Some? ==> NodeHolds(after, r.value, chain + [Leg(s, A, B, last, Last(chain), links[q]).value])
    ensures NodeHolds(after, parentID, chain)
    ensures Holds(after, ids + (if r.Some? then [r.value] else []), Extend(s, A, B, last, chain, links[..q + 1]))
  {
    ExtendStep(s, A, B, last, chain, links, q);
    HoldsKept(before, after, ids, Extend(s, A, B, last, chain, links[..q]));
    if r.Some? {
      HoldsPush(after, ids, Extend(s, A, B, last, chain, links[..q]), r.value, chain + [Leg(s, A, B, last, Last(chain), links[q]).value]);
    } else {
      assert ids + [] == ids;
    }
  }

  /**
   * The body of the loop over the found links (solvers/Utiles.cpp, lines
   * 113-138): the departure check at `A`, on the last layer the arrival check
   * at `B`, and, when both pass, a new child under the parent.
   */
  method AddLeg<N>(tree: PathTree.PathTree<FlightInfo>, s: Search<N>, A: N, B: N, last: bool,
                   parentID: nat, parent: FlightInfo, link: Link) returns (id: Option<nat>)
    requires tree.Valid() && tree.onAdded == Some(Accumulate)
    requires parentID in tree.id2node && parentID != RootID && tree.id2node[parentID].payload == parent
    modifies tree`id2node, tree`idCounter
    ensures tree.Valid() && Grown(old(tree.id2node), tree.id2node)
    ensures id.Some? <==> Leg(s, A, B, last, parent, link).Some?
    ensures id.Some? ==> NodeHolds(tree.id2node, id.value, old(PathOf(tree.id2node, parentID)) + [Leg(s, A, B, last, parent, link).value])
  {
    var dep := s.check(A, InParams(parent.link.W1, link.W0), s.withCorrection);
    if !dep.ok {
      return None;
    }
    var child := DefaultInfo;
    child := child.(totalImpulse := child.totalImpulse + dep.out.impulse,
                    totalMismatch := child.totalMismatch + dep.out.mismatch);
    if last {
      var arr := s.check(B, InParams(link.W1, Zero), s.withCorrection);
      if !arr.ok {
        return None;
      }
      child := child.(totalImpulse := child.totalImpulse + arr.out.impulse,
                      totalMismatch := child.totalMismatch + arr.out.mismatch);
    }
    child := child.(link := link, absTime := link.dt, totalTime := link.dt);
    assert NewChild(s, A, B, last, parent, link) == Some(child);
    var idR := tree.AppendPath(child, parentID);
    id := Some(idR.value);
  }

  /** One pass of the loop over the links: the leg for `links[q]` is added, and its id recorded if it was stored. */
  method AddLink<N>(tree: PathTree.PathTree<FlightInfo>, s: Search<N>, A: N, B: N, last: bool,
                    parentID: nat, parent: FlightInfo, links: seq<Link>, q: nat, ids: seq<nat>,
                    ghost chain: seq<FlightInfo>, ghost start: map<nat, TreeNode<FlightInfo>>) returns (ids': seq<nat>)
    requires tree.Valid() && tree.onAdded == Some(Accumulate)
    requires |chain| > 0 && parent == Last(chain) && q < |links|
    requires LinksAdded(start, tree.id2node, parentID, chain, ids, Extend(s, A, B, last, chain, links[..q]))
    modifies tree`id2node, tree`idCounter
    ensures tree.Valid() && tree.onAdded == old(tree.onAdded)
    ensures LinksAdded(start, tree.id2node, parentID, chain, ids', Extend(s, A, B, last, chain, links[..q + 1]))
  {
    ghost var before := tree.id2node;
    PathOfLast(tree.id2node, parentID);
    var r := AddLeg(tree, s, A, B, last, parentID, parent, links[q]);
    ChildStep(s, A, B, last, chain, links, q, before, tree.id2node, parentID, ids, r);
    GrownTrans(start, before, tree.id2node);
    ids' := ids + (if r.Some? then [r.value] else []);
  }

  /**
   * The loop over the links found for one parent (solvers/Utiles.cpp, lines
   * 108-139): the ids of the children appended under it, in link order.
   */
  method AddChildren<N>(tree: PathTree.PathTree<FlightInfo>, s: Search<N>, A: N, B: N, last: bool,
                        parentID: nat, ghost chain: seq<FlightInfo>) returns (ids: seq<nat>)
    requires tree.Valid() && tree.onAdded == Some(Accumulate)
    requires |chain| > 0 && parentID in tree.id2node && parentID != RootID && PathOf(tree.id2node, parentID) == chain
    modifies tree`id2node, tree`idCounter
    ensures tree.Valid() && Grown(old(tree.id2node), tree.id2node)
    ensures Holds(tree.id2node, ids, Extend(s, A, B, last, chain, s.findLinks(A, B, Last(chain).absTime)))
  {
    PathOfLast(tree.id2node, parentID);
    var parentR := tree.GetPathByIF(parentID);
    var parent := parentR.value;
    assert parent == Last(chain);
    var links := s.findLinks(A, B, parent.absTime);
    ids := AddLinks(tree, s, A, B, last, parentID, parent, links, chain);
  }

  /** What the loop over the links keeps: the tree only grew, the parent is in place, and the ids end the extensions so far. */
  ghost predicate LinksAdded(start: map<nat, TreeNode<FlightInfo>>, m: map<nat, TreeNode<FlightInfo>>,
                             parentID: nat, chain: seq<FlightInfo>, ids: seq<nat>, ext: seq<seq<FlightInfo>>) {
    WellFormed(start) && WellFormed(m) && Grown(start, m) && NodeHolds(m, parentID, chain) && Holds(m, ids, ext)
  }

  /** The loop itself: every link in order gets its leg, and the ids stored are collected. */
  method AddLinks<N>(tree: PathTree.PathTree<FlightInfo>, s: Search<N>, A: N, B: N, last: bool,
                     parentID: nat, parent: FlightInfo, links: seq<Link>, ghost chain: seq<FlightInfo>) returns (ids: seq<nat>)
    requires tree.Valid() && tree.onAdded == Some(Accumulate)
    requires |chain| > 0 && parent == Last(chain) && NodeHolds(tree.id2node, parentID, chain)
    modifies tree`id2node, tree`idCounter
    ensures tree.Valid() && Grown(old(tree.id2node), tree.id2node)
    ensures Holds(tree.id2node, ids, Extend(s, A, B, last, chain, links))
  {
    ghost var start := tree.id2node;
    ids := [];
    var q := 0;
    while q < |links|
      invariant 0 <= q <= |links| && tree.Valid() && tree.onAdded == Some(Accumulate)
      invariant LinksAdded(start, tree.id2node, parentID, chain, ids, Extend(s, A, B, last, chain, links[..q]))
    {
      ids := AddLink(tree, s, A, B, last, parentID, parent, links, q, ids, chain, start);
      q := q + 1;
    }
    assert links[..q] == links;
  }

  /**
   * The layer callback passed to `FillTree` (solvers/Utiles.cpp, lines
   * 100-142): every parent, in queue order, is popped and gets its children;
   * the children become the next layer's parents.
   */
  method GrowLayer<N>(tree: PathTree.PathTree<FlightInfo>, s: Search<N>, A: N, B: N, last: bool,
                      parents: seq<nat>, ghost layer: seq<seq<FlightInfo>>, ghost n: nat) returns (children: seq<nat>)
    requires n > 0 && forall c :: c in layer ==> |c| == n
    requires tree.Valid() && tree.onAdded == Some(Accumulate)
    requires Holds(tree.id2node, parents, layer)
    modifies tree`id2node, tree`idCounter
    ensures tree.Valid() && Grown(old(tree.id2node), tree.id2node)
    ensures Holds(tree.id2node, children, ExtendAll(s, A, B, last, layer, n))
  {
    ghost var start := tree.id2node;
    children := [];
    var done := 0;
    while done < |parents|
      invariant 0 <= done <= |parents|
      invariant tree.Valid() && Grown(start, tree.id2node)
      invariant Holds(tree.id2node, parents, layer)
      invariant Holds(tree.id2node, children, ExtendFirst(s, A, B, last, layer, n, done))
    {
      ghost var before := tree.id2node;
      var parentID := parents[done];
      HoldsAt(tree.id2node, parents, layer, done);
      assert layer[done] in layer;
      var ids := AddChildren(tree, s, A, B, last, parentID, layer[done]);
      GrownTrans(start, before, tree.id2node);
      LayerStep(s, A, B, last, layer, n, done, before, tree.id2node, parents, children, ids);
      children := children + ids;
      done := done + 1;
    }
    assert layer[..done] == layer;
    assert ExtendFirst(s, A, B, last, layer, n, done) == ExtendAll(s, A, B, last, layer, n);
  }

  lemma HoldsAt(m: map<nat, TreeNode<FlightInfo>>, ids: seq<nat>, chains: seq<seq<FlightInfo>>, j: nat)
    requires Holds(m, ids, chains) && j < |ids|
    ensures NodeHolds(m, ids[j], chains[j])
  {
  }

  /** What one pass of the loop over the parents keeps and adds. */
  lemma LayerStep<N>(s: Search<N>, A: N, B: N, last: bool, layer: seq<seq<FlightInfo>>, n: nat, done: nat,
                     before: map<nat, TreeNode<FlightInfo>>, after: map<nat, TreeNode<FlightInfo>>,
                     parents: seq<nat>, children: seq<nat>, ids: seq<nat>)
    requires n > 0 && (forall c :: c in layer ==> |c| == n) && done < |layer|
    requires WellFormed(before) && WellFormed(after) && Grown(before, after)
    requires Holds(before, parents, layer)
    requires Holds(before, children, ExtendFirst(s, A, B, last, layer, n, done))
    requires |layer[done]| > 0
    requires Holds(after, ids, Extend(s, A, B, last, layer[done], s.findLinks(A, B, Last(layer[done]).absTime)))
    ensures Holds(after, parents, layer)
    ensures Holds(after, children + ids, ExtendFirst(s, A, B, last, layer, n, done + 1))
  {
    ExtendAllStep(s, A, B, last, layer, n, done);
    HoldsKept(before, after, parents, layer);
    HoldsKept(before, after, children, ExtendAll(s, A, B, last, layer[..done], n));
    HoldsAppend(after, children, ExtendAll(s, A, B, last, layer[..done], n), ids, Extend(s, A, B, last, layer[done], s.findLinks(A, B, Last(layer[done]).absTime)));
  }

  lemma HoldsNoRoot(m: map<nat, TreeNode<FlightInfo>>, ids: seq<nat>, chains: seq<seq<FlightInfo>>)
    requires Holds(m, ids, chains)
    ensures forall j :: 0 <= j < |ids| ==> ids[j] in m && ids[j] != RootID
  {
    forall j | 0 <= j < |ids| ensures ids[j] in m && ids[j] != RootID {
      assert NodeHolds(m, ids[j], chains[j]);
    }
  }

  /** The paths read back for nodes that hold chains are those chains without their seed. */
  lemma HoldsTrimmed(m: map<nat, TreeNode<FlightInfo>>, ids: seq<nat>, chains: seq<seq<FlightInfo>>, lists: seq<seq<FlightInfo>>)
    requires Holds(m, ids, chains)
    requires forall c :: c in chains ==> |c| > 0
    requires |lists| == |ids|
    requires forall j :: 0 <= j < |ids| && ids[j] in m && |PathOf(m, ids[j])| >= 1 ==> lists[j] == PathOf(m, ids[j])[1..]
    ensures lists == Trimmed(chains, true)
  {
    forall j | 0 <= j < |lists| ensures lists[j] == Trimmed(chains, true)[j] {
      assert NodeHolds(m, ids[j], chains[j]);
    }
  }

  lemma HoldsAppend(m: map<nat, TreeNode<FlightInfo>>, a: seq<nat>, x: seq<seq<FlightInfo>>, b: seq<nat>, y: seq<seq<FlightInfo>>)
    requires Holds(m, a, x) && Holds(m, b, y)
    ensures Holds(m, a + b, x + y)
  {
    forall j | 0 <= j < |a + b| ensures NodeHolds(m, (a + b)[j], (x + y)[j]) {
      if j < |a| {
        assert (a + b)[j] == a[j] && (x + y)[j] == x[j];
        assert NodeHolds(m, a[j], x[j]);
      } else {
        assert (a + b)[j] == b[j - |a|] && (x + y)[j] == y[j - |a|];
        assert NodeHolds(m, b[j - |a|], y[j - |a|]);
      }
    }
  }

  /** The extensions of the first `d` chains of a layer. */
  ghost function ExtendFirst<N>(s: Search<N>, A: N, B: N, last: bool, layer: seq<seq<FlightInfo>>, n: nat, d: nat): seq<seq<FlightInfo>>
    requires n > 0 && (forall c :: c in layer ==> |c| == n) && d <= |layer|
  {
    assert forall c :: c in layer[..d] ==> c in layer;
    ExtendAll(s, A, B, last, layer[..d], n)
  }

  /** Taking one more chain of the layer adds its extensions at the end. */
  lemma ExtendAllStep<N>(s: Search<N>, A: N, B: N, last: bool, layer: seq<seq<FlightInfo>>, n: nat, done: nat)
    requires n > 0 && forall c :: c in layer ==> |c| == n
    requires done < |layer|
    ensures forall c :: c in layer[..done] ==> |c| == n
    ensures forall c :: c in layer[..done + 1] ==> |c| == n
    ensures |layer[done]| == n
    ensures ExtendAll(s, A, B, last, layer[..done + 1], n) ==
      ExtendAll(s, A, B, last, layer[..done], n) + Extend(s, A, B, last, layer[done], s.findLinks(A, B, Last(layer[done]).absTime))
  {
    assert layer[done] in layer;
    assert forall c :: c in layer[..done + 1] ==> c in layer;
    assert layer[..done + 1][..done] == layer[..done];
    assert Last(layer[..done + 1]) == layer[done];
  }

  /**
   * The link search throws from inside `ComputeFlight` on layer `j`: it has
   * parents to search from, and the link search refuses its node pair
   * (`legError`).  A layer without parents never calls the link search.
   */
  ghost predicate ThrowsAt<N>(s: Search<N>, nodes: seq<N>, seed: FlightInfo, legError: (N, N) -> Option<string>, j: nat)
    requires j + 1 < |nodes|
  {
    Layers(s, nodes, seed, j) != [] && legError(nodes[j], nodes[j + 1]).Some?
  }

  /** No layer below `k` throws. */
  ghost predicate NoThrowBefore<N>(s: Search<N>, nodes: seq<N>, seed: FlightInfo, legError: (N, N) -> Option<string>, k: nat)
    requires k < |nodes|
  {
    forall i {:trigger ThrowsAt(s, nodes, seed, legError, i)} :: 0 <= i < k ==> !ThrowsAt(s, nodes, seed, legError, i)
  }

  /** A layer that does not throw extends the run of layers that do not. */
  lemma NoThrowStep<N>(s: Search<N>, nodes: seq<N>, seed: FlightInfo, legError: (N, N) -> Option<string>, k: nat, parents: nat)
    requires k + 1 < |nodes| && parents == |Layers(s, nodes, seed, k)|
    requires NoThrowBefore(s, nodes, seed, legError, k)
    ensures parents > 0 && legError(nodes[k], nodes[k + 1]).Some? ==> ThrowsAt(s, nodes, seed, legError, k)
    ensures !(parents > 0 && legError(nodes[k], nodes[k + 1]).Some?) ==> NoThrowBefore(s, nodes, seed, legError, k + 1)
  {
  }

  lemma HoldsLength(m: map<nat, TreeNode<FlightInfo>>, ids: seq<nat>, chains: seq<seq<FlightInfo>>)
    requires Holds(m, ids, chains)
    ensures |ids| == |chains|
  {
  }

  /**
   * `ComputeFlight(nodes, t0, mission, bWithCorrection)`: the flights through
   * all of `nodes`, each without its seed entry, exactly as the layered search
   * `Flights` defines them; `s` stands for the link search and the nodes' checks,
   * and `legError` for the link search's refusal of a node pair, which aborts
   * the whole computation with that error.
   */
  method ComputeFlight<N>(nodes: seq<N>, t0: real, s: Search<N>, legError: (N, N) -> Option<string>)
    returns (r: Result<seq<FlightChain>>)
    requires |nodes| >= 1
    ensures r.Ok? ==> NoThrowBefore(s, nodes, Seed(t0), legError, |nodes| - 1) && r.value == Flights(s, nodes, Seed(t0), true)
    ensures r.Err? ==> exists k: nat :: k + 1 < |nodes| && NoThrowBefore(s, nodes, Seed(t0), legError, k)
                                   && ThrowsAt(s, nodes, Seed(t0), legError, k) && legError(nodes[k], nodes[k + 1]) == Some(r.error)
  {
    var tree := new PathTree.PathTree<FlightInfo>(DefaultInfo);
    tree.RegisterOnAdded(Accumulate);
    var seedR := tree.AppendPath(Seed(t0), RootID);
    var parents := [seedR.value];
    assert PathOf(tree.id2node, RootID) == [];
    assert NodeHolds(tree.id2node, parents[0], Layers(s, nodes, Seed(t0), 0)[0]);
    assert Holds(tree.id2node, parents, Layers(s, nodes, Seed(t0), 0));
    var k := 0;
    while k + 1 < |nodes|
      invariant 0 <= k < |nodes|
      invariant tree.Valid() && tree.onAdded == Some(Accumulate)
      invariant Holds(tree.id2node, parents, Layers(s, nodes, Seed(t0), k))
      invariant NoThrowBefore(s, nodes, Seed(t0), legError, k)
    {
      HoldsLength(tree.id2node, parents, Layers(s, nodes, Seed(t0), k));
      NoThrowStep(s, nodes, Seed(t0), legError, k, |parents|);
      if |parents| > 0 {
        var e := legError(nodes[k], nodes[k + 1]);
        if e.Some? {
          return Err(e.value);
        }
      }
      assert Layers(s, nodes, Seed(t0), k + 1)
             == ExtendAll(s, nodes[k], nodes[k + 1], k + 2 == |nodes|, Layers(s, nodes, Seed(t0), k), k + 1);
      parents := GrowLayer(tree, s, nodes[k], nodes[k + 1], k + 2 == |nodes|, parents, Layers(s, nodes, Seed(t0), k), k + 1);
      k := k + 1;
    }
    ghost var layer := Layers(s, nodes, Seed(t0), k);
    HoldsNoRoot(tree.id2node, parents, layer);
    var listsR := tree.GetFullPathsByID(parents, true);
    var lists := listsR.value;
    HoldsTrimmed(tree.id2node, parents, layer, lists);
    var paths := CollectFlights(lists);
    r := Ok(paths);
  }

  /** The angles of departure the solvers try: `points` of them, evenly spaced over a turn from 0. */
  function TossAngles(points: real): seq<real> {
    RangeOf(0.0, TwoPi, points)
  }

  /** The toss angles lie in `[0, 2 pi)`, strictly ascending, and there are `ceil(points)` of them when `points > 0`. */
  lemma TossAnglesInTurn(points: real)
    ensures points <= 0.0 ==> TossAngles(points) == []
    ensures points > 0.0 ==> |TossAngles(points)| == CeilNat(points)
    ensures forall k :: 0 <= k < |TossAngles(points)| ==> 0.0 <= TossAngles(points)[k] < TwoPi
    ensures forall i, j :: 0 <= i < j < |TossAngles(points)| ==> TossAngles(points)[i] < TossAngles(points)[j]
  {
    if points > 0.0 {
      SpacedCoversRange(0.0, TwoPi, points, (TwoPi - 0.0) / points);
    }
  }

  /** The last loop of `ComputeFlight` (solvers/Utiles.cpp, lines 144-152): empty paths are skipped, the others wrapped. */
  method CollectFlights(lists: seq<seq<FlightInfo>>) returns (paths: seq<FlightChain>)
    ensures paths == Wrap(lists)
  {
    paths := [];
    var i := 0;
    while i < |lists|
      invariant 0 <= i <= |lists|
      invariant paths == Wrap(lists[..i])
    {
      assert lists[..i + 1][..i] == lists[..i];
      if |lists[i]| > 0 {
        paths := paths + [MakeFlightChain(lists[i])];
      }
      i := i + 1;
    }
    assert lists[..i] == lists;
  }
}
