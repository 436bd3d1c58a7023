/**
 * The earlier driver of the first approximation, `PathFinder`
 * (pathfinder.cpp): its constructor validates the mission, and
 * `FirstApprox` grows the same layered tree of flights as the solvers'
 * `ComputeFlight`, with two differences.  Every leg's links are searched by
 * the earlier link search (`Link::FindLinks`) for a departure at the
 * mission's start time, whatever the parent's clock; and the paths are read
 * back whole, seed entry included.
 */
module PathFinderLegacy {
  import opened Wrappers
  import opened Numerics
  import opened Links
  import opened MissionTypes
  import opened Ephemerides
  import opened PathArena
  import opened FlightChains
  import LinkSearch
  import LinkLegacy
  import Nodes
  import SolverUtiles
  import PathTreeLegacy
  import LinkDispatch

  // ---------------------------------------------------------------------------
  // The constructor's validation.

  const TooFewNodes := "mission must consists from at least 2 nodes"
  const NullNode := "mission nodes cannot be nulled"
  const UnboundNode := "ephemeride connection must be defined"

  /** What the constructor finds wrong with one node pointer, if anything. */
  function NodeError(n: Option<Nodes.Node>): Option<string> {
    if n.None? then Some(NullNode)
    else if n.value.Script.None? then Some(UnboundNode)
    else None
  }

  /**
   * The loop over the nodes: the error of the first node that is null or
   * unbound, or else the nodes themselves, every one with its ephemeris.
   */
  function CheckNodes(nodes: seq<Option<Nodes.Node>>): (r: Result<seq<Nodes.Node>>)
    ensures r.Ok? <==> forall i :: 0 <= i < |nodes| ==> NodeError(nodes[i]).None?
    ensures r.Ok? ==> |r.value| == |nodes|
    ensures r.Ok? ==> forall i :: 0 <= i < |nodes| ==> nodes[i] == Some(r.value[i]) && r.value[i].Script.Some?
    ensures r.Err? ==> exists i :: 0 <= i < |nodes| && NodeError(nodes[i]) == Some(r.error)
                                   && forall j :: 0 <= j < i ==> NodeError(nodes[j]).None?
    decreases |nodes|
  {
    if nodes == [] then Ok([])
    else if NodeError(nodes[0]).Some? then Err(NodeError(nodes[0]).value)
    else
      var rest := CheckNodes(nodes[1..]);
      if rest.Err? then
        assert nodes[1..][0] == nodes[1];
        rest
      else Ok([nodes[0].value] + rest.value)
  }

  /**
   * `PathFinder(Mission&&)`: a mission of fewer than two nodes is refused
   * first; then the nodes are checked in order.  The accepted mission has
   * the same settings and the nodes themselves.
   */
  function ValidateMission(m: Mission<Option<Nodes.Node>>): (r: Result<Mission<Nodes.Node>>)
    ensures r.Ok? <==> |m.nodes| >= 2 && forall i :: 0 <= i < |m.nodes| ==> NodeError(m.nodes[i]).None?
    ensures |m.nodes| < 2 ==> r == Err(TooFewNodes)
    ensures r.Err? && |m.nodes| >= 2 ==> exists i :: 0 <= i < |m.nodes| && NodeError(m.nodes[i]) == Some(r.error)
                                                     && forall j :: 0 <= j < i ==> NodeError(m.nodes[j]).None?
    ensures r.Ok? ==> |r.value.nodes| == |m.nodes|
                      && (forall i :: 0 <= i < |m.nodes| ==> m.nodes[i] == Some(r.value.nodes[i]))
                      && (r.value.normalFlyPeriodFactor, r.value.points_f0) == (m.normalFlyPeriodFactor, m.points_f0)
                      && (r.value.timeStep, r.value.timeTol, r.value.GM, r.value.t0) == (m.timeStep, m.timeTol, m.GM, m.t0)
  {
    if |m.nodes| < 2 then Err(TooFewNodes)
    else
      var ns := CheckNodes(m.nodes);
      if ns.Err? then Err(ns.error)
      else Ok(Mission(ns.value, m.normalFlyPeriodFactor, m.points_f0, m.timeStep, m.timeTol, m.GM, m.t0))
  }

  /** A mission the constructor accepts: two or more nodes, each with its ephemeris. */
  predicate Accepted(m: Mission<Nodes.Node>) {
    |m.nodes| >= 2 && forall i :: 0 <= i < |m.nodes| ==> m.nodes[i].Script.Some?
  }

  lemma ValidatedAccepted(m: Mission<Option<Nodes.Node>>)
    requires ValidateMission(m).Ok?
    ensures Accepted(ValidateMission(m).value)
  {
    var v := ValidateMission(m).value;
    forall i | 0 <= i < |v.nodes| ensures v.nodes[i].Script.Some? {
      assert NodeError(m.nodes[i]).None? && m.nodes[i] == Some(v.nodes[i]);
    }
  }

  // ---------------------------------------------------------------------------
  // The search `FirstApprox` performs.

  /**
   * The `FindLinksConfig` `utiles::FindLinks` assembles for the leg `A -> B`
   * under a parent whose clock reads `t`: both clients are set to `t`, but
   * the scan starts at the mission's `t0`, and its range is the flight-time
   * limit for the two bodies' distances at `t`.
   */
  function LegConfig(f: Funcs, m: Mission<Nodes.Node>, A: Nodes.Node, B: Nodes.Node, t: real): (cfg: LinkLegacy.FindLinksConfig)
    requires SqrtLaws(f) && LinkDispatch.ScanSettings(m)
    ensures cfg.aConn == A.Script && cfg.bConn == B.Script && cfg.aTime == Some(t) && cfg.bTime == Some(t)
    ensures cfg.t0 == m.t0 && cfg.GM == m.GM && cfg.ts > 0.0 && cfg.td > 0.0
    ensures cfg.te == m.t0 + SolverUtiles.GetFlyTimeLimit(f, Size(f, LocationAt(A.Script, Some(t))),
                                                         Size(f, LocationAt(B.Script, Some(t))),
                                                         m.normalFlyPeriodFactor, m.GM).value
  {
    var limit := SolverUtiles.GetFlyTimeLimit(f, Size(f, LocationAt(A.Script, Some(t))), Size(f, LocationAt(B.Script, Some(t))),
                                              m.normalFlyPeriodFactor, m.GM);
    LinkLegacy.FindLinksConfig(A.Script, Some(t), B.Script, Some(t), m.t0, m.t0 + limit.value,
                               m.timeStep, m.timeTol, m.timeTol / 100.0, m.GM)
  }

  /** The links `utiles::FindLinks` finds for the leg `A -> B` under a parent at `t`. */
  function LegLinks(f: Funcs, pol: LinkSearch.Policy, m: Mission<Nodes.Node>, f0s: seq<real>, asWritten: bool,
                    A: Nodes.Node, B: Nodes.Node, t: real): seq<Link>
    requires CosBounded(f) && SqrtLaws(f) && LinkDispatch.ScanSettings(m)
  {
    LinkLegacy.AllLegacyLinks(f, LegConfig(f, m, A, B, t), pol, f0s, asWritten)
  }

  /**
   * The search `FirstApprox` performs: the earlier link search per leg, the
   * nodes' `Check` (given as `check`) without penalty correction.
   */
  function LegacySearch(f: Funcs, pol: LinkSearch.Policy, m: Mission<Nodes.Node>, f0s: seq<real>, asWritten: bool,
                        check: (Nodes.Node, InParams, bool) -> CheckOutcome): (s: Search<Nodes.Node>)
    requires CosBounded(f) && SqrtLaws(f) && LinkDispatch.ScanSettings(m)
    ensures s.check == check && !s.withCorrection
  {
    Search((A: Nodes.Node, B: Nodes.Node, t: real) => LegLinks(f, pol, m, f0s, asWritten, A, B, t), check, false)
  }

  /** The search asks `utiles::FindLinks` for every leg. */
  lemma SearchLinks(f: Funcs, pol: LinkSearch.Policy, m: Mission<Nodes.Node>, f0s: seq<real>, asWritten: bool,
                    check: (Nodes.Node, InParams, bool) -> CheckOutcome, A: Nodes.Node, B: Nodes.Node, t: real)
    requires CosBounded(f) && SqrtLaws(f) && LinkDispatch.ScanSettings(m)
    ensures LegacySearch(f, pol, m, f0s, asWritten, check).findLinks(A, B, t) == LegLinks(f, pol, m, f0s, asWritten, A, B, t)
  {
  }

  /**
   * Every link of a leg leaves from where the departure body is at the
   * mission's start time, under whichever parent it is searched; it is
   * stamped with that time as intended, and with time 0 as written.
   */
  lemma LegLinksLeaveAtStart(f: Funcs, pol: LinkSearch.Policy, m: Mission<Nodes.Node>, f0s: seq<real>, asWritten: bool,
                             A: Nodes.Node, B: Nodes.Node, t: real, l: Link)
    requires CosBounded(f) && SqrtLaws(f) && LinkDispatch.ScanSettings(m)
    requires l in LegLinks(f, pol, m, f0s, asWritten, A, B, t)
    ensures l.t0 == (if asWritten then 0.0 else m.t0) && l.R0 == LocationAt(A.Script, Some(m.t0))
  {
    var cfg := LegConfig(f, m, A, B, t);
    var i :| 0 <= i < |f0s| && l in LinkLegacy.LegacyLinks(f, cfg, pol, f0s[i], asWritten);
    LinkLegacy.LegacyLinksDepart(f, cfg, pol, f0s[i], asWritten, l);
  }

  // ---------------------------------------------------------------------------
  // `FirstApprox`, on the earlier tree.

  /** The loop body over the found links: both checks, then a child under the parent. */
  method AddLeg(tree: PathTreeLegacy.PathTree<FlightInfo>, s: Search<Nodes.Node>, A: Nodes.Node, B: Nodes.Node, last: bool,
                parentID: nat, parent: FlightInfo, link: Link) returns (id: Option<nat>)
    requires tree.Valid() && tree.onAdded == Some(Accumulate)
    requires parentID in tree.id2node && parentID != RootID && tree.id2node[parentID].payload == parent
    modifies tree`id2node, tree`idCounter
    ensures tree.Valid() && SolverUtiles.Grown(old(tree.id2node), tree.id2node)
    ensures id.Some? <==> Leg(s, A, B, last, parent, link).Some?
    ensures id.Some? ==> SolverUtiles.NodeHolds(tree.id2node, id.value, old(PathOf(tree.id2node, parentID)) + [Leg(s, A, B, last, parent, link).value])
  {
    var dep := s.check(A, InParams(parent.link.W1, link.W0), s.withCorrection);
    if !dep.ok {
      return None;
    }
    var child := DefaultInfo;
    child := child.(totalImpulse := child.totalImpulse + dep.out.impulse,
                    totalMismatch := child.totalMismatch + dep.out.mismatch);
    if last {
      var arr := s.check(B, InParams(link.W1, Zero), s.withCorrection);
      if !arr.ok {
        return None;
      }
      child := child.(totalImpulse := child.totalImpulse + arr.out.impulse,
                      totalMismatch := child.totalMismatch + arr.out.mismatch);
    }
    child := child.(link := link, absTime := link.dt, totalTime := link.dt);
    assert NewChild(s, A, B, last, parent, link) == Some(child);
    var idR := tree.AppendPath(child, parentID);
    id := Some(idR.value);
  }

  /** One pass of the loop over the links. */
  method AddLink(tree: PathTreeLegacy.PathTree<FlightInfo>, s: Search<Nodes.Node>, A: Nodes.Node, B: Nodes.Node, last: bool,
                 parentID: nat, parent: FlightInfo, links: seq<Link>, q: nat, ids: seq<nat>,
                 ghost chain: seq<FlightInfo>, ghost start: map<nat, TreeNode<FlightInfo>>) returns (ids': seq<nat>)
    requires tree.Valid() && tree.onAdded == Some(Accumulate)
    requires |chain| > 0 && parent == Last(chain) && q < |links|
    requires SolverUtiles.LinksAdded(start, tree.id2node, parentID, chain, ids, Extend(s, A, B, last, chain, links[..q]))
    modifies tree`id2node, tree`idCounter
    ensures tree.Valid() && tree.onAdded == old(tree.onAdded)
    ensures SolverUtiles.LinksAdded(start, tree.id2node, parentID, chain, ids', Extend(s, A, B, last, chain, links[..q + 1]))
  {
    ghost var before := tree.id2node;
    PathOfLast(tree.id2node, parentID);
    var r := AddLeg(tree, s, A, B, last, parentID, parent, links[q]);
    SolverUtiles.ChildStep(s, A, B, last, chain, links, q, before, tree.id2node, parentID, ids, r);
    SolverUtiles.GrownTrans(start, before, tree.id2node);
    ids' := ids + (if r.Some? then [r.value] else []);
  }

  /** The loop over the links found for one parent (pathfinder.cpp, lines 144-172). */
  method AddLinks(tree: PathTreeLegacy.PathTree<FlightInfo>, s: Search<Nodes.Node>, A: Nodes.Node, B: Nodes.Node, last: bool,
                  parentID: nat, parent: FlightInfo, links: seq<Link>, ghost chain: seq<FlightInfo>) returns (ids: seq<nat>)
    requires tree.Valid() && tree.onAdded == Some(Accumulate)
    requires |chain| > 0 && parent == Last(chain) && SolverUtiles.NodeHolds(tree.id2node, parentID, chain)
    modifies tree`id2node, tree`idCounter
    ensures tree.Valid() && SolverUtiles.Grown(old(tree.id2node), tree.id2node)
    ensures SolverUtiles.Holds(tree.id2node, ids, Extend(s, A, B, last, chain, links))
  {
    ghost var start := tree.id2node;
    ids := [];
    var q := 0;
    while q < |links|
      invariant 0 <= q <= |links| && tree.Valid() && tree.onAdded == Some(Accumulate)
      invariant SolverUtiles.LinksAdded(start, tree.id2node, parentID, chain, ids, Extend(s, A, B, last, chain, links[..q]))
    {
      ids := AddLink(tree, s, A, B, last, parentID, parent, links, q, ids, chain, start);
      q := q + 1;
    }
    assert links[..q] == links;
  }

  /** The children of one parent: the links are searched from the parent's clock. */
  method AddChildren(tree: PathTreeLegacy.PathTree<FlightInfo>, s: Search<Nodes.Node>, A: Nodes.Node, B: Nodes.Node, last: bool,
                     parentID: nat, ghost chain: seq<FlightInfo>) returns (ids: seq<nat>)
    requires tree.Valid() && tree.onAdded == Some(Accumulate)
    requires |chain| > 0 && parentID in tree.id2node && parentID != RootID && PathOf(tree.id2node, parentID) == chain
    modifies tree`id2node, tree`idCounter
    ensures tree.Valid() && SolverUtiles.Grown(old(tree.id2node), tree.id2node)
    ensures SolverUtiles.Holds(tree.id2node, ids, Extend(s, A, B, last, chain, s.findLinks(A, B, Last(chain).absTime)))
  {
    PathOfLast(tree.id2node, parentID);
    var parentR := tree.GetPathByIF(parentID);
    var parent := parentR.value;
    assert parent == Last(chain);
    var links := s.findLinks(A, B, parent.absTime);
    ids := AddLinks(tree, s, A, B, last, parentID, parent, links, chain);
  }

  /** The layer callback (pathfinder.cpp, lines 123-175): every parent in queue order gets its children. */
  method GrowLayer(tree: PathTreeLegacy.PathTree<FlightInfo>, s: Search<Nodes.Node>, A: Nodes.Node, B: Nodes.Node, last: bool,
                   parents: seq<nat>, ghost layer: seq<seq<FlightInfo>>, ghost n: nat) returns (children: seq<nat>)
    requires n > 0 && forall c :: c in layer ==> |c| == n
    requires tree.Valid() && tree.onAdded == Some(Accumulate)
    requires SolverUtiles.Holds(tree.id2node, parents, layer)
    modifies tree`id2node, tree`idCounter
    ensures tree.Valid() && SolverUtiles.Grown(old(tree.id2node), tree.id2node)
    ensures SolverUtiles.Holds(tree.id2node, children, ExtendAll(s, A, B, last, layer, n))
  {
    ghost var start := tree.id2node;
    children := [];
    var done := 0;
    while done < |parents|
      invariant 0 <= done <= |parents|
      invariant tree.Valid() && SolverUtiles.Grown(start, tree.id2node)
      invariant SolverUtiles.Holds(tree.id2node, parents, layer)
      invariant SolverUtiles.Holds(tree.id2node, children, SolverUtiles.ExtendFirst(s, A, B, last, layer, n, done))
    {
      ghost var before := tree.id2node;
      var parentID := parents[done];
      SolverUtiles.HoldsAt(tree.id2node, parents, layer, done);
      assert layer[done] in layer;
      var ids := AddChildren(tree, s, A, B, last, parentID, layer[done]);
      SolverUtiles.GrownTrans(start, before, tree.id2node);
      SolverUtiles.LayerStep(s, A, B, last, layer, n, done, before, tree.id2node, parents, children, ids);
      children := children + ids;
      done := done + 1;
    }
    assert layer[..done] == layer;
    assert SolverUtiles.ExtendFirst(s, A, B, last, layer, n, done) == ExtendAll(s, A, B, last, layer, n);
  }

  /** The paths read back whole for nodes that hold chains are those chains. */
  lemma HoldsWhole(m: map<nat, TreeNode<FlightInfo>>, ids: seq<nat>, chains: seq<seq<FlightInfo>>, lists: seq<seq<FlightInfo>>)
    requires SolverUtiles.Holds(m, ids, chains) && WellFormed(m)
    requires forall c :: c in chains ==> |c| > 0
    requires |lists| == |ids|
    requires forall j :: 0 <= j < |ids| && ids[j] in m ==> lists[j] == PathOf(m, ids[j])
    ensures lists == Trimmed(chains, false)
  {
    forall j | 0 <= j < |lists| ensures lists[j] == Trimmed(chains, false)[j] {
      assert SolverUtiles.NodeHolds(m, ids[j], chains[j]);
    }
  }

  /**
   * The tree `FirstApprox` grows over a search `s`: the seed at the start
   * time under the root, the layers one node pair at a time, and the last
   * layer's paths read back whole and wrapped.
   */
  method GrowFlights(nodes: seq<Nodes.Node>, t0: real, s: Search<Nodes.Node>) returns (paths: seq<FlightChain>)
    requires |nodes| >= 1
    ensures paths == Flights(s, nodes, Seed(t0), false)
  {
    var tree := new PathTreeLegacy.PathTree<FlightInfo>(DefaultInfo);
    tree.RegisterOnAdded(Accumulate);
    var seedR := tree.AppendPath(Seed(t0), RootID);
    var parents := [seedR.value];
    assert PathOf(tree.id2node, RootID) == [];
    assert SolverUtiles.NodeHolds(tree.id2node, parents[0], Layers(s, nodes, Seed(t0), 0)[0]);
    assert SolverUtiles.Holds(tree.id2node, parents, Layers(s, nodes, Seed(t0), 0));
    var k := 0;
    while k + 1 < |nodes|
      invariant 0 <= k < |nodes|
      invariant tree.Valid() && tree.onAdded == Some(Accumulate)
      invariant SolverUtiles.Holds(tree.id2node, parents, Layers(s, nodes, Seed(t0), k))
    {
      parents := GrowLayer(tree, s, nodes[k], nodes[k + 1], k + 2 == |nodes|, parents, Layers(s, nodes, Seed(t0), k), k + 1);
      k := k + 1;
    }
    ghost var layer := Layers(s, nodes, Seed(t0), k);
    SolverUtiles.HoldsNoRoot(tree.id2node, parents, layer);
    var listsR := tree.GetFullPathsByID(parents);
    var lists := listsR.value;
    HoldsWhole(tree.id2node, parents, layer, lists);
    paths := SolverUtiles.CollectFlights(lists);
  }

  /** The angles of departure `FirstApprox` tries: `points_f0` of them, evenly spaced over a turn. */
  function Angles(m: Mission<Nodes.Node>): seq<real> {
    SolverUtiles.TossAngles(m.points_f0)
  }

  class PathFinder {
    const mission: Mission<Nodes.Node>

    /** The mission a `PathFinder` is built with is one its constructor accepts. */
    ghost predicate Valid() {
      Accepted(mission)
    }

    /** The constructor's checks have passed: the mission is stored as given. */
    constructor (m: Mission<Nodes.Node>)
      requires Accepted(m)
      ensures mission == m && Valid()
    {
      mission := m;
    }

    /**
     * `FirstApprox()`: the flights through all the mission's nodes, the seed
     * entry included, exactly as the layered search defines them for the
     * earlier link search (its adapter as written or as intended); `check`
     * stands for the nodes' `Check`.
     */
    method FirstApprox(f: Funcs, pol: LinkSearch.Policy, asWritten: bool, check: (Nodes.Node, InParams, bool) -> CheckOutcome)
      returns (paths: seq<FlightChain>)
      requires Valid() && CosBounded(f) && SqrtLaws(f) && LinkDispatch.ScanSettings(mission)
      ensures paths == Flights(LegacySearch(f, pol, mission, Angles(mission), asWritten, check), mission.nodes, Seed(mission.t0), false)
    {
      var f0s := SolverUtiles.MakeRange(0.0, TwoPi, mission.points_f0);
      var s := LegacySearch(f, pol, mission, f0s, asWritten, check);
      paths := GrowFlights(mission.nodes, mission.t0, s);
    }
  }

  // ---------------------------------------------------------------------------
  // The earlier flights against the solvers' ones.

  lemma {:induction false} WrapAll(paths: seq<seq<FlightInfo>>)
    requires forall p :: p in paths ==> |p| > 0
    ensures |Wrap(paths)| == |paths|
    ensures forall j :: 0 <= j < |paths| ==> Wrap(paths)[j] == MakeFlightChain(paths[j])
    decreases |paths|
  {
    if paths != [] {
      var init := paths[..|paths| - 1];
      assert forall p :: p in init ==> p in paths;
      WrapAll(init);
      assert Last(paths) in paths;
    }
  }

  /** Wrapping the chains whole or without their common first entry gives the same flights but for that entry. */
  lemma WrapPrefixed(chains: seq<seq<FlightInfo>>, seed: FlightInfo)
    requires forall c :: c in chains ==> |c| >= 2 && c[0] == seed
    ensures |Wrap(Trimmed(chains, false))| == |chains| == |Wrap(Trimmed(chains, true))|
    ensures forall i :: 0 <= i < |chains| ==>
              Wrap(Trimmed(chains, false))[i] == Wrap(Trimmed(chains, true))[i].(chain := [seed] + Wrap(Trimmed(chains, true))[i].chain)
  {
    var W := Trimmed(chains, false);
    var T := Trimmed(chains, true);
    forall j | 0 <= j < |chains| ensures |W[j]| > 0 && |T[j]| > 0 && W[j] == [seed] + T[j] {
      assert chains[j] in chains;
    }
    WrapAll(W);
    WrapAll(T);
    forall i | 0 <= i < |chains|
      ensures Wrap(W)[i] == Wrap(T)[i].(chain := [seed] + Wrap(T)[i].chain)
    {
      assert Last(W[i]) == Last(T[i]);
    }
  }

  /** The last layer's chains have an entry per node, the seed first. */
  lemma LastLayerSeeded<N>(s: Search<N>, nodes: seq<N>, seed: FlightInfo)
    requires |nodes| >= 1
    ensures forall c :: c in Layers(s, nodes, seed, |nodes| - 1) ==> |c| == |nodes| && c[0] == seed
  {
    forall c | c in Layers(s, nodes, seed, |nodes| - 1) ensures |c| == |nodes| && c[0] == seed {
      LayersExactly(s, nodes, seed, |nodes| - 1, c);
    }
  }

  /**
   * Over the same search, a flight read back whole is the flight without its
   * seed with the seed put back in front: the two lists have the same length
   * and, flight by flight, the same totals.
   */
  lemma FlightsKeepSeed<N>(s: Search<N>, nodes: seq<N>, seed: FlightInfo)
    requires |nodes| >= 2
    ensures |Flights(s, nodes, seed, false)| == |Flights(s, nodes, seed, true)|
    ensures forall i :: 0 <= i < |Flights(s, nodes, seed, false)| ==>
              Flights(s, nodes, seed, false)[i] ==
              Flights(s, nodes, seed, true)[i].(chain := [seed] + Flights(s, nodes, seed, true)[i].chain)
  {
    LastLayerSeeded(s, nodes, seed);
    WrapPrefixed(Layers(s, nodes, seed, |nodes| - 1), seed);
  }

  /** A flight read back whole is a chain of the last layer. */
  lemma WholeFlightChain<N>(s: Search<N>, nodes: seq<N>, seed: FlightInfo, fc: FlightChain)
    requires |nodes| >= 1
    requires fc in Flights(s, nodes, seed, false)
    ensures fc.chain in Layers(s, nodes, seed, |nodes| - 1)
  {
    var L := Layers(s, nodes, seed, |nodes| - 1);
    WrapMembers(Trimmed(L, false), fc);
    var p: seq<FlightInfo> :| p in Trimmed(L, false) && |p| > 0 && fc == MakeFlightChain(p);
    var i :| 0 <= i < |L| && Trimmed(L, false)[i] == p;
    assert L[i] in L && p == L[i];
  }

  /** Each entry after the first of a chain of the last layer carries a link found for its leg. */
  lemma ChainLinkFound<N>(s: Search<N>, nodes: seq<N>, seed: FlightInfo, c: seq<FlightInfo>, j: nat)
    requires |nodes| >= 1 && c in Layers(s, nodes, seed, |nodes| - 1)
    requires 1 <= j < |c|
    ensures |c| == |nodes| && c[0] == seed
    ensures c[j].link in s.findLinks(nodes[j - 1], nodes[j], c[j - 1].absTime)
  {
    LayersExactly(s, nodes, seed, |nodes| - 1, c);
    FeasibleLink(s, nodes, c, j);
  }

  /** Each step of a feasible chain carries one of the links found for it. */
  lemma FeasibleLink<N>(s: Search<N>, nodes: seq<N>, c: seq<FlightInfo>, j: nat)
    requires |c| <= |nodes| && Feasible(s, nodes, c) && 1 <= j < |c|
    ensures c[j].link in s.findLinks(nodes[j - 1], nodes[j], c[j - 1].absTime)
  {
    assert StepOk(s, nodes, c, j);
    var l: Link :| l in s.findLinks(nodes[j - 1], nodes[j], c[j - 1].absTime)
                   && Leg(s, nodes[j - 1], nodes[j], j + 1 == |nodes|, c[j - 1], l) == Some(c[j]);
  }

  /** Each entry after the first of a flight read back whole carries a link found for its leg. */
  lemma FlightLegLink<N>(s: Search<N>, nodes: seq<N>, seed: FlightInfo, fc: FlightChain, j: nat)
    requires |nodes| >= 1 && fc in Flights(s, nodes, seed, false)
    requires 1 <= j < |fc.chain|
    ensures |fc.chain| == |nodes| && fc.chain[0] == seed
    ensures fc.chain[j].link in s.findLinks(nodes[j - 1], nodes[j], fc.chain[j - 1].absTime)
  {
    WholeFlightChain(s, nodes, seed, fc);
    ChainLinkFound(s, nodes, seed, fc.chain, j);
  }

  lemma SearchLinkLeaves(f: Funcs, pol: LinkSearch.Policy, m: Mission<Nodes.Node>, f0s: seq<real>, asWritten: bool,
                         check: (Nodes.Node, InParams, bool) -> CheckOutcome, A: Nodes.Node, B: Nodes.Node, t: real, l: Link)
    requires CosBounded(f) && SqrtLaws(f) && LinkDispatch.ScanSettings(m)
    requires l in LegacySearch(f, pol, m, f0s, asWritten, check).findLinks(A, B, t)
    ensures l.t0 == (if asWritten then 0.0 else m.t0) && l.R0 == LocationAt(A.Script, Some(m.t0))
  {
    SearchLinks(f, pol, m, f0s, asWritten, check, A, B, t);
    LegLinksLeaveAtStart(f, pol, m, f0s, asWritten, A, B, t, l);
  }

  /**
   * Every leg of every flight `FirstApprox` returns departs from where the
   * first body of the leg is at the mission's start time, and is stamped
   * with that time (with time 0 as written).
   */
  lemma LegsDepartAtStart(f: Funcs, pol: LinkSearch.Policy, m: Mission<Nodes.Node>, f0s: seq<real>, asWritten: bool,
                          check: (Nodes.Node, InParams, bool) -> CheckOutcome, fc: FlightChain, j: nat)
    requires CosBounded(f) && SqrtLaws(f) && LinkDispatch.ScanSettings(m) && |m.nodes| >= 1
    requires fc in Flights(LegacySearch(f, pol, m, f0s, asWritten, check), m.nodes, Seed(m.t0), false)
    requires 1 <= j < |fc.chain|
    ensures |fc.chain| == |m.nodes| && fc.chain[0] == Seed(m.t0)
    ensures fc.chain[j].link.t0 == (if asWritten then 0.0 else m.t0) && fc.chain[j].link.R0 == LocationAt(m.nodes[j - 1].Script, Some(m.t0))
  {
    FlightLegLink(LegacySearch(f, pol, m, f0s, asWritten, check), m.nodes, Seed(m.t0), fc, j);
    SearchLinkLeaves(f, pol, m, f0s, asWritten, check, m.nodes[j - 1], m.nodes[j], fc.chain[j - 1].absTime, fc.chain[j].link);
  }
}
