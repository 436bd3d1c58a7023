/**
 * `PathTree<T>` of the solvers (solvers/pathTree.hpp): a tree of flight legs in
 * which every node is reachable by a numeric id.  Ids are handed out by a
 * counter that starts at the root's id, so the first appended node gets id 2.
 */
module PathTree {
  import opened Wrappers
  import opened PathArena
  import Text

  function MissingPathError(id: nat): string {
    "the path doesn't exists in the tree: " + Text.NatToString(id)
  }

  /** What `std::vector<T>(size)` throws for the size -1 converted to `size_t`. */
  const VectorTooLong: string := "cannot create std::vector larger than max_size()"

  class PathTree<T> {
    var id2node: map<nat, TreeNode<T>>
    var idCounter: nat
    /** The callback run on (parent payload, new child payload); it returns the child payload to store. */
    var onAdded: Option<(T, T) -> T>

    ghost predicate Valid()
      reads this
    {
      WellFormed(id2node) && RootID <= idCounter && (forall id :: id in id2node ==> id <= idCounter)
    }

    /** The root holds the payload a default-constructed `T` would have; the model takes it as an argument. */
    constructor (rootPayload: T)
      ensures Valid()
      ensures id2node == map[RootID := TreeNode(0, NoParent, [], rootPayload)]
      ensures idCounter == RootID && onAdded == None
    {
      id2node := map[RootID := TreeNode(0, NoParent, [], rootPayload)];
      idCounter := RootID;
      onAdded := None;
    }

    method RegisterOnAdded(callback: (T, T) -> T)
      modifies this`onAdded
      ensures onAdded == Some(callback)
    {
      onAdded := Some(callback);
    }

    /** The payload `AppendPath(next, path)` stores: the callback runs unless the parent is the root. */
    function Stored(next: T, path: nat): T
      reads this
      requires path in id2node
    {
      if onAdded.Some? && path != RootID then onAdded.value(id2node[path].payload, next) else next
    }

    method AppendPath(next: T, path: nat) returns (r: Result<nat>)
      requires Valid()
      modifies this`id2node, this`idCounter
      ensures Valid()
      ensures r.Ok? <==> path in old(id2node)
      ensures r.Err? ==> r.error == MissingPathError(path) && id2node == old(id2node) && idCounter == old(idCounter)
      ensures r.Ok? ==> r.value == idCounter == old(idCounter) + 1 && r.value != RootID
      ensures r.Ok? ==> id2node == WithChild(old(id2node), path, r.value, old(Stored(next, path)))
      ensures r.Ok? ==> PathOf(id2node, r.value) == PathOf(old(id2node), path) + [old(Stored(next, path))]
      ensures forall id :: id in old(id2node) ==> id in id2node && PathOf(id2node, id) == PathOf(old(id2node), id)
    {
      if path !in id2node {
        return Err(MissingPathError(path));
      }
      var payload := Stored(next, path);
      var childID := idCounter + 1;
      WithChildPaths(id2node, path, childID, payload);
      id2node := WithChild(id2node, path, childID, payload);
      idCounter := childID;
      r := Ok(childID);
    }

    /**
     * The payloads on the way from the root to `path`, root excluded; with
     * `noFirst` the first of them is dropped too.
     */
    method GetFullPathByID(path: nat, noFirst: bool) returns (r: Result<seq<T>>)
      requires Valid()
      ensures path !in id2node ==> r == Err(MissingPathError(path))
      ensures path in id2node && noFirst && path == RootID ==> r == Err(VectorTooLong)
      ensures path in id2node && !(noFirst && path == RootID) ==>
        r.Ok? && r.value == PathOf(id2node, path)[if noFirst then 1 else 0..]
    {
      if path !in id2node {
        return Err(MissingPathError(path));
      }
      var offset := if noFirst then 1 else 0;
      if path != RootID {
        assert LinkOk(id2node, path);
      }
      var size := id2node[path].lvl - offset;
      if size < 0 {
        return Err(VectorTooLong);
      }
      var list: seq<T> := [];
      var leaf := path;
      var i := size - 1;
      while i >= 0
        invariant -1 <= i < size
        invariant leaf in id2node && id2node[leaf].lvl == i + 1 + offset
        invariant PathOf(id2node, path) == PathOf(id2node, leaf) + list
        decreases i
      {
        assert LinkOk(id2node, leaf);
        list := [id2node[leaf].payload] + list;
        leaf := id2node[leaf].parent;
        i := i - 1;
      }
      assert |PathOf(id2node, leaf)| == offset;
      r := Ok(list);
    }

    /** The overload over a container of ids: one path per id, in order; the first missing id throws. */
    method GetFullPathsByID(paths: seq<nat>, noFirst: bool) returns (r: Result<seq<seq<T>>>)
      requires Valid()
      ensures r.Ok? <==> forall j :: 0 <= j < |paths| ==> paths[j] in id2node && !(noFirst && paths[j] == RootID)
      ensures r.Ok? ==> |r.value| == |paths|
      ensures r.Ok? ==> forall j :: 0 <= j < |paths| ==> r.value[j] == PathOf(id2node, paths[j])[if noFirst then 1 else 0..]
    {
      var lists: seq<seq<T>> := [];
      var k := 0;
      while k < |paths|
        invariant 0 <= k <= |paths| && |lists| == k
        invariant forall j :: 0 <= j < k ==> paths[j] in id2node && !(noFirst && paths[j] == RootID)
        invariant forall j :: 0 <= j < k ==> lists[j] == PathOf(id2node, paths[j])[if noFirst then 1 else 0..]
      {
        var one := GetFullPathByID(paths[k], noFirst);
        if one.Err? {
          return Err(one.error);
        }
        lists := lists + [one.value];
        k := k + 1;
      }
      r := Ok(lists);
    }

    method GetPathByIF(path: nat) returns (r: Result<T>)
      requires Valid()
      ensures path in id2node <==> r.Ok?
      ensures r.Ok? ==> r.value == id2node[path].payload
      ensures r.Err? ==> r.error == MissingPathError(path)
    {
      if path !in id2node {
        return Err(MissingPathError(path));
      }
      r := Ok(id2node[path].payload);
    }
  }
}
