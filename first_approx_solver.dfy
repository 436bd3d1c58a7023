/**
 * `Solvers::FirstApprox(mission, t0)` (solvers/FisrtApprox.cpp): every
 * mission node is paired with the same grid of toss angles, and the pairs
 * are handed to `ComputeFlight` with the link search of the solver
 * utilities; the nodes' checks stand behind `check`.
 */
module FirstApproxSolver {
  import opened Wrappers
  import opened Numerics
  import opened Links
  import opened MissionTypes
  import opened FlightChains
  import opened NodeCast
  import LinkSearch
  import LinkDispatch
  import SolverUtiles

  /** `Utiles::NodeA`: a mission node and the toss angles its departures are tried at. */
  datatype NodeA = NodeA(node: Option<INode>, f0s: seq<real>)

  /** What the link search needs of a node pair so that it neither dereferences a null ephemeris nor scans without a step. */
  predicate Searchable(A: NodeA, B: NodeA, m: Mission<Option<INode>>) {
    LinkDispatch.Bound(CastNode(A.node)) && LinkDispatch.Bound(CastNode(B.node))
    && (LinkDispatch.ScansB(B.node) ==> LinkDispatch.ScanSettings(m))
  }

  /** What the mission needs for every leg to be searchable. */
  predicate Runnable(m: Mission<Option<INode>>) {
    (forall i :: 0 <= i < |m.nodes| ==> LinkDispatch.Bound(CastNode(m.nodes[i])))
    && (forall i :: 1 <= i < |m.nodes| && LinkDispatch.ScansB(m.nodes[i]) ==> LinkDispatch.ScanSettings(m))
  }

  /**
   * The links `Utiles::FindLinks(links, A.node, B.node, mission, A.f0s, t)`
   * appends for a leg it does not refuse (the departure node's angles are
   * the ones tried).
   */
  function NodeLinks(f: Funcs, pol: LinkSearch.Policy, m: Mission<Option<INode>>, A: NodeA, B: NodeA, t: real): seq<Link>
    requires CosBounded(f) && SqrtLaws(f)
  {
    if Searchable(A, B, m) && LinkDispatch.LegLinks(f, pol, A.node, B.node, m, A.f0s, t).Ok? then
      LinkDispatch.LegLinks(f, pol, A.node, B.node, m, A.f0s, t).value
    else []
  }

  /** The error `Utiles::FindLinks` throws for a node pair, whatever the departure time. */
  function NodeError(A: NodeA, B: NodeA): (e: Option<string>)
    ensures e.Some? <==> CastNode(A.node).Err? || CastNode(B.node).Err?
  {
    if CastNode(B.node).Err? then Some(CastNode(B.node).error)
    else if CastNode(A.node).Err? then Some(CastNode(A.node).error)
    else None
  }

  /** The search `ComputeFlight` performs over `NodeA` pairs, with or without penalty correction. */
  function SolverSearch(f: Funcs, pol: LinkSearch.Policy, m: Mission<Option<INode>>,
                        check: (NodeA, InParams, bool) -> CheckOutcome, withCorrection: bool): (s: Search<NodeA>)
    requires CosBounded(f) && SqrtLaws(f)
    ensures s.check == check && s.withCorrection == withCorrection
  {
    Search((A: NodeA, B: NodeA, t: real) => NodeLinks(f, pol, m, A, B, t), check, withCorrection)
  }

  /** The leg search refuses a pair exactly when `Utiles::FindLinks` would throw, with the same message. */
  lemma NodeErrorIsLegError(f: Funcs, pol: LinkSearch.Policy, m: Mission<Option<INode>>, A: NodeA, B: NodeA, t: real)
    requires CosBounded(f) && SqrtLaws(f) && Searchable(A, B, m)
    ensures NodeError(A, B).Some? <==> LinkDispatch.LegLinks(f, pol, A.node, B.node, m, A.f0s, t).Err?
    ensures NodeError(A, B).Some? ==> NodeError(A, B).value == LinkDispatch.LegLinks(f, pol, A.node, B.node, m, A.f0s, t).error
  {
  }

  /** The sequence `FirstApprox` builds: one entry per mission node, in order, all with the same angles. */
  function NodeSequence(nodes: seq<Option<INode>>, f0s: seq<real>): (r: seq<NodeA>)
    ensures |r| == |nodes|
    ensures forall i :: 0 <= i < |r| ==> r[i].node == nodes[i] && r[i].f0s == f0s
  {
    seq(|nodes|, i requires 0 <= i < |nodes| => NodeA(nodes[i], f0s))
  }

  /** A runnable mission gives pairs the link search can handle. */
  lemma RunnablePairs(m: Mission<Option<INode>>, f0s: seq<real>, i: nat)
    requires Runnable(m) && i + 1 < |m.nodes|
    ensures Searchable(NodeSequence(m.nodes, f0s)[i], NodeSequence(m.nodes, f0s)[i + 1], m)
  {
  }

  /**
   * `FirstApprox(mission, t0)`: the flights `ComputeFlight` yields for the
   * mission's nodes, each paired with the toss-angle grid
   * `MakeRange(0, 2 pi, points_f0)`, or the error the link search throws.
   */
  method FirstApprox(f: Funcs, pol: LinkSearch.Policy, m: Mission<Option<INode>>, t0: real,
                     check: (NodeA, InParams, bool) -> CheckOutcome) returns (r: Result<seq<FlightChain>>)
    requires CosBounded(f) && SqrtLaws(f) && |m.nodes| >= 1 && Runnable(m)
    ensures var nodes := NodeSequence(m.nodes, SolverUtiles.TossAngles(m.points_f0));
            var s := SolverSearch(f, pol, m, check, false);
            (r.Ok? ==> SolverUtiles.NoThrowBefore(s, nodes, Seed(t0), NodeError, |nodes| - 1)
                       && r.value == Flights(s, nodes, Seed(t0), true))
            && (r.Err? ==> exists k: nat :: k + 1 < |nodes| && SolverUtiles.NoThrowBefore(s, nodes, Seed(t0), NodeError, k)
                                            && SolverUtiles.ThrowsAt(s, nodes, Seed(t0), NodeError, k)
                                            && NodeError(nodes[k], nodes[k + 1]) == Some(r.error))
  {
    var f0s := SolverUtiles.MakeRange(0.0, TwoPi, m.points_f0);
    var nodes: seq<NodeA> := [];
    var i := 0;
    while i < |m.nodes|
      invariant 0 <= i <= |m.nodes|
      invariant nodes == NodeSequence(m.nodes[..i], f0s)
    {
      nodes := nodes + [NodeA(m.nodes[i], f0s)];
      i := i + 1;
    }
    assert m.nodes[..i] == m.nodes;
    r := SolverUtiles.ComputeFlight(nodes, t0, SolverSearch(f, pol, m, check, false), NodeError);
  }

  /** When every node casts, `FirstApprox` never throws. */
  lemma CastableNeverThrows(f: Funcs, pol: LinkSearch.Policy, m: Mission<Option<INode>>, t0: real,
                            check: (NodeA, InParams, bool) -> CheckOutcome, k: nat)
    requires CosBounded(f) && SqrtLaws(f)
    requires forall i :: 0 <= i < |m.nodes| ==> CastNode(m.nodes[i]).Ok?
    requires k + 1 < |m.nodes|
    ensures !SolverUtiles.ThrowsAt(SolverSearch(f, pol, m, check, false), NodeSequence(m.nodes, SolverUtiles.TossAngles(m.points_f0)),
                                   Seed(t0), NodeError, k)
  {
    var nodes := NodeSequence(m.nodes, SolverUtiles.TossAngles(m.points_f0));
    assert nodes[k].node == m.nodes[k] && nodes[k + 1].node == m.nodes[k + 1];
  }

  /**
   * A leg's links are those the solver utilities' `FindLinks` finds for the
   * pair, with the departure node's angles and the parent's clock as `t0`.
   */
  lemma SolverLinks(f: Funcs, pol: LinkSearch.Policy, m: Mission<Option<INode>>,
                    check: (NodeA, InParams, bool) -> CheckOutcome, A: NodeA, B: NodeA, t: real)
    requires CosBounded(f) && SqrtLaws(f) && Searchable(A, B, m) && NodeError(A, B).None?
    ensures LinkDispatch.LegLinks(f, pol, A.node, B.node, m, A.f0s, t).Ok?
    ensures SolverSearch(f, pol, m, check, false).findLinks(A, B, t) == LinkDispatch.LegLinks(f, pol, A.node, B.node, m, A.f0s, t).value
  {
  }
}
