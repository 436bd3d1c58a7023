/**
 * The node capabilities of the solver blocks (blocks/mission.cpp): a node
 * may be bound to an ephemeris (`ScriptNode`), sit at a fixed point
 * (`StaticNode`), both, or neither.  `CastNode` gives the one view the
 * link search uses, preferring the ephemeris.
 */
module NodeCast {
  import opened Wrappers
  import opened Numerics
  import opened Ephemerides

  /** The `ScriptNode` part of a node: its ephemeris pointer, possibly null. */
  datatype ScriptPart = ScriptPart(Script: Option<Driver>)

  /** The `StaticNode` part of a node: its fixed position. */
  datatype StaticPart = StaticPart(R: Vec3)

  /** An `INode`: the parts its dynamic type derives from. */
  datatype INode = INode(asScript: Option<ScriptPart>, asStatic: Option<StaticPart>)

  /** `ScriptNode::IsValid`: the ephemeris is bound. */
  predicate ScriptIsValid(s: ScriptPart) {
    s.Script.Some?
  }

  /** `StaticNode::IsValid`: a fixed point needs nothing further. */
  predicate StaticIsValid(s: StaticPart) {
    true
  }

  /** The result of `CastNode`: the node seen as a `ScriptNode` or as a `StaticNode`. */
  datatype Cast = Cast(script: Option<ScriptPart>, fixed: Option<StaticPart>)

  /**
   * `CastNode(inode)`: a null pointer or a node of neither kind is refused;
   * otherwise exactly one view is returned, the ephemeris one when the node
   * has it.
   */
  function CastNode(inode: Option<INode>): (r: Result<Cast>)
    ensures r.Err? <==> inode.None? || (inode.value.asScript.None? && inode.value.asStatic.None?)
    ensures r.Err? ==> r.error == "no conversion from inode avaliable"
    ensures r.Ok? ==> r.value.script.Some? != r.value.fixed.Some?
    ensures r.Ok? && r.value.script.Some? ==> r.value.script == inode.value.asScript
    ensures r.Ok? && r.value.fixed.Some? ==> inode.value.asScript.None? && r.value.fixed == inode.value.asStatic
  {
    if inode.Some? then
      if inode.value.asScript.Some? then Ok(Cast(inode.value.asScript, None))
      else if inode.value.asStatic.Some? then Ok(Cast(None, inode.value.asStatic))
      else Err("no conversion from inode avaliable")
    else Err("no conversion from inode avaliable")
  }

  /** The view `CastNode` gives is valid exactly when the node, seen that way, is bound or fixed. */
  predicate CastIsValid(c: Cast) {
    (c.script.Some? ==> ScriptIsValid(c.script.value)) && (c.fixed.Some? ==> StaticIsValid(c.fixed.value))
  }

  /**
   * A node with an ephemeris part is cast to it whatever else it has, and
   * its validity is that of the ephemeris pointer; a node with only a fixed
   * point is always valid.
   */
  lemma CastPrefersScript(n: INode)
    requires n.asScript.Some? || n.asStatic.Some?
    ensures CastNode(Some(n)).Ok?
    ensures n.asScript.Some? ==> CastNode(Some(n)).value.script == n.asScript
    ensures n.asScript.Some? ==> (CastIsValid(CastNode(Some(n)).value) <==> n.asScript.value.Script.Some?)
    ensures n.asScript.None? ==> CastIsValid(CastNode(Some(n)).value)
  {
  }
}
