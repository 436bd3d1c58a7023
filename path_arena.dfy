/**
 * The storage shared by both versions of `PathTree`: an append-only forest of
 * nodes kept in an id -> node map.  A node records its depth, its parent's id
 * (0 stands for the root's null parent), the ids of its children in insertion
 * order, and its payload.
 */
module PathArena {
  datatype TreeNode<T> = TreeNode(lvl: nat, parent: nat, children: seq<nat>, payload: T)

  /** `PathTree::rootID`. */
  const RootID: nat := 1
  /** The id standing for the root's null parent pointer. */
  const NoParent: nat := 0

  /** The link from `id` to its parent: the parent is registered, older, and one level up. */
  ghost predicate LinkOk<T>(nodes: map<nat, TreeNode<T>>, id: nat)
    requires id in nodes
  {
    var q := nodes[id].parent;
    q in nodes && RootID <= q < id && nodes[id].lvl == nodes[q].lvl + 1
  }

  /** The shape the tree keeps: a root at depth 0 without a parent, and every other node linked to an older parent. */
  ghost predicate WellFormed<T>(nodes: map<nat, TreeNode<T>>) {
    && RootID in nodes
    && nodes[RootID].lvl == 0
    && nodes[RootID].parent == NoParent
    && (forall id :: id in nodes ==> RootID <= id)
    && (forall id {:trigger LinkOk(nodes, id)} :: id in nodes && id != RootID ==> LinkOk(nodes, id))
  }

  /**
   * The payloads from the depth-1 ancestor of `id` down to `id` itself: the
   * vector `GetFullPathByID` fills.  The root's own payload is never part of it.
   */
  function PathOf<T>(nodes: map<nat, TreeNode<T>>, id: nat): (path: seq<T>)
    requires WellFormed(nodes) && id in nodes
    ensures |path| == nodes[id].lvl
    decreases id
  {
    if id == RootID then []
    else
      assert LinkOk(nodes, id);
      PathOf(nodes, nodes[id].parent) + [nodes[id].payload]
  }

  /** `Node::NewChild` plus the registration under `id`: the child goes at the end of its parent's children. */
  function WithChild<T>(nodes: map<nat, TreeNode<T>>, parent: nat, id: nat, payload: T): map<nat, TreeNode<T>>
    requires parent in nodes
  {
    var p := nodes[parent];
    nodes[parent := p.(children := p.children + [id])][id := TreeNode(p.lvl + 1, parent, [], payload)]
  }

  /** Adding a child with an id newer than every existing one keeps the tree well formed. */
  lemma WithChildWellFormed<T>(nodes: map<nat, TreeNode<T>>, parent: nat, id: nat, payload: T)
    requires WellFormed(nodes) && parent in nodes
    requires forall k :: k in nodes ==> k < id
    ensures WellFormed(WithChild(nodes, parent, id, payload))
  {
    var nodes2 := WithChild(nodes, parent, id, payload);
    forall k | k in nodes2 && k != RootID ensures LinkOk(nodes2, k) {
      if k != id {
        assert LinkOk(nodes, k);
      }
    }
  }

  /** A path depends only on the parent links and payloads of the nodes along it. */
  lemma {:induction false} PathOfFrame<T>(nodes: map<nat, TreeNode<T>>, nodes2: map<nat, TreeNode<T>>, id: nat)
    requires WellFormed(nodes) && WellFormed(nodes2) && id in nodes
    requires forall k :: k in nodes ==> k in nodes2 && nodes2[k].parent == nodes[k].parent && nodes2[k].payload == nodes[k].payload
    ensures PathOf(nodes2, id) == PathOf(nodes, id)
    decreases id
  {
    if id != RootID {
      assert LinkOk(nodes, id);
      PathOfFrame(nodes, nodes2, nodes[id].parent);
    }
  }

  /** The new child's path extends its parent's, and every existing path is kept. */
  lemma WithChildPaths<T>(nodes: map<nat, TreeNode<T>>, parent: nat, id: nat, payload: T)
    requires WellFormed(nodes) && parent in nodes
    requires forall k :: k in nodes ==> k < id
    ensures WellFormed(WithChild(nodes, parent, id, payload))
    ensures id in WithChild(nodes, parent, id, payload)
    ensures PathOf(WithChild(nodes, parent, id, payload), id) == PathOf(nodes, parent) + [payload]
    ensures forall k :: k in nodes ==> PathOf(WithChild(nodes, parent, id, payload), k) == PathOf(nodes, k)
  {
    var nodes2 := WithChild(nodes, parent, id, payload);
    WithChildWellFormed(nodes, parent, id, payload);
    forall k | k in nodes ensures PathOf(nodes2, k) == PathOf(nodes, k) {
      PathOfFrame(nodes, nodes2, k);
    }
    assert id != RootID;
    assert nodes2[id].parent == parent;
  }

  /** Every node other than the root has a non-empty path ending in its own payload. */
  lemma PathOfLast<T>(nodes: map<nat, TreeNode<T>>, id: nat)
    requires WellFormed(nodes) && id in nodes && id != RootID
    ensures |PathOf(nodes, id)| >= 1 && PathOf(nodes, id)[|PathOf(nodes, id)| - 1] == nodes[id].payload
  {
  }
}
