/**
 * The records the first approximation produces (public/pathfinder.hpp) and a
 * value-level definition of what its layered search computes.
 *
 * The search (solvers/Utiles.cpp `ComputeFlight`, and the earlier
 * pathfinder.cpp `PathFinder::FirstApprox`) grows a tree of `FlightInfo`s one
 * layer per pair of consecutive mission nodes: every chain of the previous
 * layer is extended by every link found from its arrival time that the nodes'
 * checks accept.  `Layers` below is that computation written as functions, in
 * the order the loops visit chains and links; the methods are proved equal to
 * it, and the lemmas here say what its chains are.
 */
module FlightChains {
  import opened Numerics
  import opened Wrappers
  import opened Links
  import opened MissionTypes

  datatype FlightInfo = FlightInfo(
    totalCorrection: real, totalMismatch: real, totalImpulse: real,
    totalTime: real, absTime: real, link: Link)

  datatype FlightChain = FlightChain(
    chain: seq<FlightInfo>, totalCorrection: real, totalMismatch: real,
    totalImpulse: real, totalTime: real, startTime: real)

  /** A value-initialised `FlightInfo`: the payload of the tree's root. */
  const DefaultInfo: FlightInfo := FlightInfo(0.0, 0.0, 0.0, 0.0, 0.0, DefaultLink)

  /** The first entry of every chain: at rest (`link.W1` is zero) at the start time. */
  function Seed(t0: real): FlightInfo {
    DefaultInfo.(absTime := t0, link := DefaultLink.(W1 := Zero))
  }

  /**
   * `FlightChain(std::vector<FlightInfo>&&)`: the totals are those of the last
   * entry; the correction and the start time keep their defaults.
   */
  function MakeFlightChain(chain: seq<FlightInfo>): FlightChain
    requires |chain| > 0
  {
    var last := chain[|chain| - 1];
    FlightChain(chain, 0.0, last.totalMismatch, last.totalImpulse, last.totalTime, 0.0)
  }

  /** The tree's `onAdded` callback: the child's running totals start from the parent's. */
  function Accumulate(parent: FlightInfo, child: FlightInfo): FlightInfo {
    child.(absTime := child.absTime + parent.absTime,
           totalTime := child.totalTime + parent.totalTime,
           totalImpulse := child.totalImpulse + parent.totalImpulse,
           totalMismatch := child.totalMismatch + parent.totalMismatch)
  }

  /**
   * What the layered search consults: the links found between two nodes for a
   * departure at a given absolute time, and a node's feasibility check on the
   * velocities before and after it (with or without a penalty correction).
   */
  datatype Search<!N> = Search(
    findLinks: (N, N, real) -> seq<Link>,
    check: (N, InParams, bool) -> CheckOutcome,
    withCorrection: bool)

  /**
   * The child entry the loop body builds for `l` before it is stored: `None`
   * when the departure check at `A` (or, on the last layer, the arrival check at
   * `B` with zero velocity after it) rejects the link.
   */
  function NewChild<N>(s: Search<N>, A: N, B: N, last: bool, prev: FlightInfo, l: Link): Option<FlightInfo> {
    var dep := s.check(A, InParams(prev.link.W1, l.W0), s.withCorrection);
    if !dep.ok then None
    else if !last then
      Some(FlightInfo(0.0, 0.0 + dep.out.mismatch, 0.0 + dep.out.impulse, l.dt, l.dt, l))
    else
      var arr := s.check(B, InParams(l.W1, Zero), s.withCorrection);
      if !arr.ok then None
      else Some(FlightInfo(0.0, 0.0 + dep.out.mismatch + arr.out.mismatch,
                           0.0 + dep.out.impulse + arr.out.impulse, l.dt, l.dt, l))
  }

  /** The entry stored for the link `l` after `prev`: the new child with the callback applied. */
  function Leg<N>(s: Search<N>, A: N, B: N, last: bool, prev: FlightInfo, l: Link): (r: Option<FlightInfo>)
    ensures r.Some? <==>
      s.check(A, InParams(prev.link.W1, l.W0), s.withCorrection).ok &&
      (last ==> s.check(B, InParams(l.W1, Zero), s.withCorrection).ok)
    ensures r.Some? ==> r.value.link == l && r.value.totalCorrection == 0.0
    ensures r.Some? ==> r.value.absTime == prev.absTime + l.dt && r.value.totalTime == prev.totalTime + l.dt
    ensures r.Some? ==> (r.value.totalImpulse == prev.totalImpulse
      + s.check(A, InParams(prev.link.W1, l.W0), s.withCorrection).out.impulse
      + (if last then s.check(B, InParams(l.W1, Zero), s.withCorrection).out.impulse else 0.0))
    ensures r.Some? ==> (r.value.totalMismatch == prev.totalMismatch
      + s.check(A, InParams(prev.link.W1, l.W0), s.withCorrection).out.mismatch
      + (if last then s.check(B, InParams(l.W1, Zero), s.withCorrection).out.mismatch else 0.0))
  {
    match NewChild(s, A, B, last, prev, l)
    case None => None
    case Some(child) => Some(Accumulate(prev, child))
  }

  function Last<X>(xs: seq<X>): X
    requires |xs| > 0
  {
    xs[|xs| - 1]
  }

  /** A non-empty sequence holds what its prefix without the last element holds, and that element. */
  lemma MemberSnoc<X>(xs: seq<X>, y: X)
    requires |xs| > 0
    ensures y in xs <==> y in xs[..|xs| - 1] || y == Last(xs)
  {
    assert xs == xs[..|xs| - 1] + [Last(xs)];
  }

  /** The extensions of one chain by the accepted links among `links`, in link order. */
  function Extend<N>(s: Search<N>, A: N, B: N, last: bool, chain: seq<FlightInfo>, links: seq<Link>): (r: seq<seq<FlightInfo>>)
    requires |chain| > 0
    ensures forall c :: c in r ==> |c| == |chain| + 1
    decreases |links|
  {
    if links == [] then []
    else
      var init := Extend(s, A, B, last, chain, links[..|links| - 1]);
      match Leg(s, A, B, last, Last(chain), Last(links))
      case None => init
      case Some(info) => init + [chain + [info]]
  }

  /** The next layer: each chain of length `n`, in order, extended by the links found from its arrival time. */
  function ExtendAll<N>(s: Search<N>, A: N, B: N, last: bool, chains: seq<seq<FlightInfo>>, n: nat): (r: seq<seq<FlightInfo>>)
    requires n > 0
    requires forall c :: c in chains ==> |c| == n
    ensures forall c :: c in r ==> |c| == n + 1
    decreases |chains|
  {
    if chains == [] then []
    else
      var init := chains[..|chains| - 1];
      var chain := Last(chains);
      assert forall c :: c in init ==> c in chains;
      ExtendAll(s, A, B, last, init, n) + Extend(s, A, B, last, chain, s.findLinks(A, B, Last(chain).absTime))
  }

  /** The chains of the tree's layer `k`: the seed, then one entry per node pair up to `nodes[k]`. */
  function Layers<N>(s: Search<N>, nodes: seq<N>, seed: FlightInfo, k: nat): (r: seq<seq<FlightInfo>>)
    requires k < |nodes|
    ensures forall c :: c in r ==> |c| == k + 1
  {
    if k == 0 then [[seed]]
    else ExtendAll(s, nodes[k - 1], nodes[k], k + 1 == |nodes|, Layers(s, nodes, seed, k - 1), k)
  }

  /** The paths `GetFullPathByID` returns for the last layer: the whole chain, or without its seed. */
  function Trimmed(chains: seq<seq<FlightInfo>>, noFirst: bool): (r: seq<seq<FlightInfo>>)
    requires forall c :: c in chains ==> |c| > 0
    ensures |r| == |chains|
    ensures forall j :: 0 <= j < |r| ==> r[j] == chains[j][if noFirst then 1 else 0..]
  {
    seq(|chains|, j requires 0 <= j < |chains| => chains[j][if noFirst then 1 else 0..])
  }

  /** The non-empty paths, in order, each made into a `FlightChain`. */
  function Wrap(paths: seq<seq<FlightInfo>>): seq<FlightChain>
    decreases |paths|
  {
    if paths == [] then []
    else
      var p := Last(paths);
      Wrap(paths[..|paths| - 1]) + (if |p| == 0 then [] else [MakeFlightChain(p)])
  }

  /** The result of a layered search over `nodes` started from `seed`. */
  function Flights<N>(s: Search<N>, nodes: seq<N>, seed: FlightInfo, noFirst: bool): seq<FlightChain>
    requires |nodes| > 0
  {
    Wrap(Trimmed(Layers(s, nodes, seed, |nodes| - 1), noFirst))
  }

  // ---------------------------------------------------------------------------
  // What the layers contain.

  /** `next` follows `prev` by one of the links found from `A` to `B` at `prev`'s time. */
  ghost predicate StepBy<N>(s: Search<N>, A: N, B: N, last: bool, prev: FlightInfo, next: FlightInfo) {
    exists l :: l in s.findLinks(A, B, prev.absTime) && Leg(s, A, B, last, prev, l) == Some(next)
  }

  /** Entry `j` of `c` follows entry `j - 1` by a step of the search between `nodes[j - 1]` and `nodes[j]`. */
  ghost predicate StepOk<N>(s: Search<N>, nodes: seq<N>, c: seq<FlightInfo>, j: nat)
    requires 1 <= j < |c| && j < |nodes|
  {
    StepBy(s, nodes[j - 1], nodes[j], j + 1 == |nodes|, c[j - 1], c[j])
  }

  /** A chain every one of whose steps the search takes. */
  ghost predicate Feasible<N>(s: Search<N>, nodes: seq<N>, c: seq<FlightInfo>)
    requires |c| <= |nodes|
  {
    forall j {:trigger StepOk(s, nodes, c, j)} :: 1 <= j < |c| ==> StepOk(s, nodes, c, j)
  }

  lemma {:induction false} ExtendMembers<N>(s: Search<N>, A: N, B: N, last: bool, chain: seq<FlightInfo>, links: seq<Link>, x: seq<FlightInfo>)
    requires |chain| > 0
    ensures x in Extend(s, A, B, last, chain, links) <==>
      |x| == |chain| + 1 && x[..|chain|] == chain &&
      exists l :: l in links && Leg(s, A, B, last, Last(chain), l) == Some(x[|chain|])
    decreases |links|
  {
    if links != [] {
      var init := links[..|links| - 1];
      ExtendMembers(s, A, B, last, chain, init, x);
      if |x| == |chain| + 1 && x[..|chain|] == chain {
        assert x == chain + [x[|chain|]];
        forall l ensures l in links <==> l in init || l == Last(links) {
          MemberSnoc(links, l);
        }
      }
    }
  }

  lemma {:induction false} ExtendAllMembers<N>(s: Search<N>, A: N, B: N, last: bool, chains: seq<seq<FlightInfo>>, n: nat, x: seq<FlightInfo>)
    requires n > 0
    requires forall c :: c in chains ==> |c| == n
    ensures x in ExtendAll(s, A, B, last, chains, n) <==>
      |x| == n + 1 && x[..n] in chains && StepBy(s, A, B, last, x[n - 1], x[n])
    decreases |chains|
  {
    if chains != [] {
      var init := chains[..|chains| - 1];
      var chain := Last(chains);
      assert forall c :: c in init ==> c in chains;
      ExtendAllMembers(s, A, B, last, init, n, x);
      ExtendMembers(s, A, B, last, chain, s.findLinks(A, B, Last(chain).absTime), x);
      if |x| == n + 1 {
        MemberSnoc(chains, x[..n]);
        if x[..n] == chain {
          assert Last(chain) == x[n - 1];
        }
      }
    }
  }

  /** Layer 0 holds the seed alone. */
  lemma LayerZero<N>(s: Search<N>, nodes: seq<N>, seed: FlightInfo, c: seq<FlightInfo>)
    requires 0 < |nodes|
    ensures c in Layers(s, nodes, seed, 0) <==> c == [seed]
    ensures c in Layers(s, nodes, seed, 0) <==> |c| == 1 && c[0] == seed
  {
    assert Layers(s, nodes, seed, 0) == [[seed]];
    if |c| == 1 && c[0] == seed {
      assert c == [seed];
    }
  }

  /** A chain of layer `k > 0` is a chain of layer `k - 1` followed by one step of the search. */
  lemma LayerMember<N>(s: Search<N>, nodes: seq<N>, seed: FlightInfo, k: nat, c: seq<FlightInfo>)
    requires 0 < k < |nodes|
    ensures c in Layers(s, nodes, seed, k) <==>
      |c| == k + 1 && c[..k] in Layers(s, nodes, seed, k - 1) &&
      StepBy(s, nodes[k - 1], nodes[k], k + 1 == |nodes|, c[k - 1], c[k])
  {
    ExtendAllMembers(s, nodes[k - 1], nodes[k], k + 1 == |nodes|, Layers(s, nodes, seed, k - 1), k, c);
  }

  /** The steps of a chain before its last entry are those of the chain without it. */
  lemma FeasibleSnoc<N>(s: Search<N>, nodes: seq<N>, c: seq<FlightInfo>, k: nat)
    requires 0 < k < |nodes| && |c| == k + 1
    ensures Feasible(s, nodes, c) <==>
      Feasible(s, nodes, c[..k]) && StepBy(s, nodes[k - 1], nodes[k], k + 1 == |nodes|, c[k - 1], c[k])
  {
    assert StepOk(s, nodes, c, k) <==> StepBy(s, nodes[k - 1], nodes[k], k + 1 == |nodes|, c[k - 1], c[k]);
    var p := c[..k];
    forall j | 1 <= j < k
      ensures StepOk(s, nodes, p, j) <==> StepOk(s, nodes, c, j)
    {
      assert p[j - 1] == c[j - 1] && p[j] == c[j];
    }
  }

  /**
   * Layer `k` holds exactly the chains of `k + 1` entries that start with the
   * seed and whose every step is a found link both nodes' checks accept.
   */
  lemma {:induction false} LayersExactly<N>(s: Search<N>, nodes: seq<N>, seed: FlightInfo, k: nat, c: seq<FlightInfo>)
    requires k < |nodes|
    ensures c in Layers(s, nodes, seed, k) <==> |c| == k + 1 && c[0] == seed && Feasible(s, nodes, c)
  {
    if k == 0 {
      LayerZero(s, nodes, seed, c);
    } else {
      LayerMember(s, nodes, seed, k, c);
      if |c| == k + 1 {
        var p := c[..k];
        LayersExactly(s, nodes, seed, k - 1, p);
        FeasibleSnoc(s, nodes, c, k);
        assert |p| == k && p[0] == c[0];
        ghost var step := StepBy(s, nodes[k - 1], nodes[k], k + 1 == |nodes|, c[k - 1], c[k]);
        assert c in Layers(s, nodes, seed, k) <==> p in Layers(s, nodes, seed, k - 1) && step;
        assert Feasible(s, nodes, c) <==> Feasible(s, nodes, p) && step;
      }
    }
  }

  /** The flight time of a sequence of entries: the sum of their links' `dt`. */
  function SumDt(legs: seq<FlightInfo>): real
    decreases |legs|
  {
    if legs == [] then 0.0 else SumDt(legs[..|legs| - 1]) + Last(legs).link.dt
  }

  /** A step of the search adds the link's flight time to the clock and to the running time. */
  lemma StepTimes<N>(s: Search<N>, A: N, B: N, last: bool, prev: FlightInfo, next: FlightInfo)
    requires StepBy(s, A, B, last, prev, next)
    ensures next.absTime == prev.absTime + next.link.dt
    ensures next.totalTime == prev.totalTime + next.link.dt
    ensures next.totalCorrection == 0.0
  {
    var l :| l in s.findLinks(A, B, prev.absTime) && Leg(s, A, B, last, prev, l) == Some(next);
  }

  /** The flight time of a chain after its seed is that of its first `k` entries plus the last link's. */
  lemma SumDtStep(c: seq<FlightInfo>, k: nat)
    requires 1 <= k && |c| == k + 1
    ensures SumDt(c[1..]) == SumDt(c[..k][1..]) + c[k].link.dt
  {
    var t := c[1..];
    assert t[..|t| - 1] == c[..k][1..];
    assert Last(t) == c[k];
  }

  /**
   * Along a feasible chain every entry's clock and running time add its own
   * link's flight time to the previous entry's, and no correction builds up.
   */
  lemma {:induction false} FeasibleTimes<N>(s: Search<N>, nodes: seq<N>, c: seq<FlightInfo>)
    requires 0 < |c| <= |nodes|
    requires Feasible(s, nodes, c)
    ensures Last(c).absTime == c[0].absTime + SumDt(c[1..])
    ensures Last(c).totalTime == c[0].totalTime + SumDt(c[1..])
    ensures forall j :: 1 <= j < |c| ==> c[j].totalCorrection == 0.0
    decreases |c|
  {
    var k := |c| - 1;
    if k > 0 {
      var p := c[..k];
      FeasibleSnoc(s, nodes, c, k);
      FeasibleTimes(s, nodes, p);
      assert Last(p) == c[k - 1] && p[0] == c[0];
      StepTimes(s, nodes[k - 1], nodes[k], k + 1 == |nodes|, c[k - 1], c[k]);
      SumDtStep(c, k);
      forall j | 1 <= j < |c| ensures c[j].totalCorrection == 0.0 {
        if j < k {
          assert c[j] == p[j];
        }
      }
    }
  }

  /** The chains of layer `k` are feasible chains from the seed, so their times add up. */
  lemma LayerTimes<N>(s: Search<N>, nodes: seq<N>, seed: FlightInfo, k: nat, c: seq<FlightInfo>)
    requires k < |nodes|
    requires c in Layers(s, nodes, seed, k)
    ensures |c| == k + 1
    ensures c[k].absTime == seed.absTime + SumDt(c[1..])
    ensures c[k].totalTime == seed.totalTime + SumDt(c[1..])
    ensures forall j :: 1 <= j < |c| ==> c[j].totalCorrection == 0.0
  {
    LayersExactly(s, nodes, seed, k, c);
    FeasibleTimes(s, nodes, c);
  }

  lemma {:induction false} WrapMembers(paths: seq<seq<FlightInfo>>, fc: FlightChain)
    ensures fc in Wrap(paths) <==> exists p :: p in paths && |p| > 0 && fc == MakeFlightChain(p)
    decreases |paths|
  {
    if paths != [] {
      var init := paths[..|paths| - 1];
      WrapMembers(init, fc);
      assert forall p :: p in paths <==> p in init || p == Last(paths);
    }
  }

  /**
   * With the seed dropped, every flight of a search over two or more nodes has
   * one entry per node pair, each with a found and accepted link; its totals are
   * those of its last entry, its time is the sum of its legs' flight times and it
   * ends at the start time plus that sum.
   */
  lemma FlightsNoFirst<N>(s: Search<N>, nodes: seq<N>, t0: real, fc: FlightChain)
    requires |nodes| >= 2
    requires fc in Flights(s, nodes, Seed(t0), true)
    ensures |fc.chain| == |nodes| - 1
    ensures exists c :: c in Layers(s, nodes, Seed(t0), |nodes| - 1) && fc.chain == c[1..] && Feasible(s, nodes, c)
    ensures fc.totalTime == SumDt(fc.chain)
    ensures Last(fc.chain).absTime == t0 + SumDt(fc.chain)
    ensures fc.totalCorrection == 0.0 && fc.startTime == 0.0
  {
    var k := |nodes| - 1;
    var layer := Layers(s, nodes, Seed(t0), k);
    var paths := Trimmed(layer, true);
    WrapMembers(paths, fc);
    var p :| p in paths && |p| > 0 && fc == MakeFlightChain(p);
    var j :| 0 <= j < |paths| && paths[j] == p;
    var c := layer[j];
    assert c in layer;
    LayersExactly(s, nodes, Seed(t0), k, c);
    LayerTimes(s, nodes, Seed(t0), k, c);
    assert Last(p) == c[k];
  }

  /** Every chain of layer `k` with a found, accepted step after it is in layer `k + 1`: nothing feasible is lost. */
  lemma LayersComplete<N>(s: Search<N>, nodes: seq<N>, seed: FlightInfo, k: nat, c: seq<FlightInfo>, l: Link)
    requires k + 1 < |nodes|
    requires c in Layers(s, nodes, seed, k)
    requires l in s.findLinks(nodes[k], nodes[k + 1], Last(c).absTime)
    requires Leg(s, nodes[k], nodes[k + 1], k + 2 == |nodes|, Last(c), l).Some?
    ensures c + [Leg(s, nodes[k], nodes[k + 1], k + 2 == |nodes|, Last(c), l).value] in Layers(s, nodes, seed, k + 1)
  {
    var x := c + [Leg(s, nodes[k], nodes[k + 1], k + 2 == |nodes|, Last(c), l).value];
    assert x[..k + 1] == c;
    ExtendAllMembers(s, nodes[k], nodes[k + 1], k + 2 == |nodes|, Layers(s, nodes, seed, k), k + 1, x);
  }
}
