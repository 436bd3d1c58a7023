/**
 * The earlier `PathTree<T>` (pathTree.hpp), used by `PathFinder::FirstApprox`.
 * It differs from the solvers' version in two ways: `GetFullPathByID` has no
 * option to drop the first entry, and the class carries `FiilInByLayers`, a
 * walk over consecutive pairs of a container that tags each call with flags.
 */
module PathTreeLegacy {
  import opened Wrappers
  import opened PathArena
  import Text

  function MissingPathError(id: nat): string {
    "the path doesn't exists in the tree: " + Text.NatToString(id)
  }

  /** `EFillInFlag`. */
  const FirstIteration: bv8 := 1
  const LastIteration: bv8 := 2

  function Bit(b: bool): bv8 { if b then 1 else 0 }

  /**
   * The flag as written: `(eFirstIteration && first) | (eLastIteration && last)`.
   * `&&` turns each enumerator into a bool, so each side contributes the bit 1.
   */
  function FlagAsWritten(first: bool, last: bool): bv8 {
    Bit(FirstIteration != 0 && first) | Bit(LastIteration != 0 && last)
  }

  /** The flag the enumeration is designed for: bit 1 on the first call, bit 2 on the last. */
  function FlagIntended(first: bool, last: bool): bv8 {
    (if first then FirstIteration else 0) | (if last then LastIteration else 0)
  }

  /** As written, the last-iteration bit can never be set, and the first-iteration bit is set on the last call too. */
  lemma FlagAsWrittenBits(first: bool, last: bool)
    ensures FlagAsWritten(first, last) & LastIteration == 0
    ensures (FlagAsWritten(first, last) & FirstIteration != 0) <==> (first || last)
  {
  }

  /** The intended flag tells the two cases apart. */
  lemma FlagIntendedBits(first: bool, last: bool)
    ensures (FlagIntended(first, last) & FirstIteration != 0) <==> first
    ensures (FlagIntended(first, last) & LastIteration != 0) <==> last
  {
  }

  class PathTree<T> {
    var id2node: map<nat, TreeNode<T>>
    var idCounter: nat
    /** The callback run on (parent payload, new child payload); it returns the child payload to store. */
    var onAdded: Option<(T, T) -> T>

    ghost predicate Valid()
      reads this
    {
      WellFormed(id2node) && RootID <= idCounter && (forall id :: id in id2node ==> id <= idCounter)
    }

    /** The root holds the payload a default-constructed `T` would have; the model takes it as an argument. */
    constructor (rootPayload: T)
      ensures Valid()
      ensures id2node == map[RootID := TreeNode(0, NoParent, [], rootPayload)]
      ensures idCounter == RootID && onAdded == None
    {
      id2node := map[RootID := TreeNode(0, NoParent, [], rootPayload)];
      idCounter := RootID;
      onAdded := None;
    }

    method RegisterOnAdded(callback: (T, T) -> T)
      modifies this`onAdded
      ensures onAdded == Some(callback)
    {
      onAdded := Some(callback);
    }

    /** The payload `AppendPath(next, path)` stores: the callback runs unless the parent is the root. */
    function Stored(next: T, path: nat): T
      reads this
      requires path in id2node
    {
      if onAdded.Some? && path != RootID then onAdded.value(id2node[path].payload, next) else next
    }

    method AppendPath(next: T, path: nat) returns (r: Result<nat>)
      requires Valid()
      modifies this`id2node, this`idCounter
      ensures Valid()
      ensures r.Ok? <==> path in old(id2node)
      ensures r.Err? ==> r.error == MissingPathError(path) && id2node == old(id2node) && idCounter == old(idCounter)
      ensures r.Ok? ==> r.value == idCounter == old(idCounter) + 1 && r.value != RootID
      ensures r.Ok? ==> id2node == WithChild(old(id2node), path, r.value, old(Stored(next, path)))
      ensures r.Ok? ==> PathOf(id2node, r.value) == PathOf(old(id2node), path) + [old(Stored(next, path))]
      ensures forall id :: id in old(id2node) ==> id in id2node && PathOf(id2node, id) == PathOf(old(id2node), id)
    {
      if path !in id2node {
        return Err(MissingPathError(path));
      }
      var payload := Stored(next, path);
      var childID := idCounter + 1;
      WithChildPaths(id2node, path, childID, payload);
      id2node := WithChild(id2node, path, childID, payload);
      idCounter := childID;
      r := Ok(childID);
    }

    /** The payloads on the way from the root to `path`, root excluded. */
    method GetFullPathByID(path: nat) returns (r: Result<seq<T>>)
      requires Valid()
      ensures path !in id2node ==> r == Err(MissingPathError(path))
      ensures path in id2node ==> r == Ok(PathOf(id2node, path))
    {
      if path !in id2node {
        return Err(MissingPathError(path));
      }
      var list: seq<T> := [];
      var leaf := path;
      var i := id2node[path].lvl - 1;
      while i >= 0
        invariant -1 <= i < id2node[path].lvl
        invariant leaf in id2node && id2node[leaf].lvl == i + 1
        invariant PathOf(id2node, path) == PathOf(id2node, leaf) + list
        decreases i
      {
        assert LinkOk(id2node, leaf);
        list := [id2node[leaf].payload] + list;
        leaf := id2node[leaf].parent;
        i := i - 1;
      }
      assert |PathOf(id2node, leaf)| == 0;
      assert PathOf(id2node, path) == list;
      r := Ok(list);
      assert r == Ok(PathOf(id2node, path));
    }

    /** The overload over a container of ids: one path per id, in order; the first missing id throws. */
    method GetFullPathsByID(paths: seq<nat>) returns (r: Result<seq<seq<T>>>)
      requires Valid()
      ensures r.Ok? <==> forall j :: 0 <= j < |paths| ==> paths[j] in id2node
      ensures r.Ok? ==> |r.value| == |paths|
      ensures r.Ok? ==> forall j :: 0 <= j < |paths| ==> r.value[j] == PathOf(id2node, paths[j])
    {
      var lists: seq<seq<T>> := [];
      var k := 0;
      while k < |paths|
        invariant 0 <= k <= |paths| && |lists| == k
        invariant forall j :: 0 <= j < k ==> paths[j] in id2node
        invariant forall j :: 0 <= j < k ==> lists[j] == PathOf(id2node, paths[j])
      {
        var one := GetFullPathByID(paths[k]);
        if one.Err? {
          return Err(one.error);
        }
        lists := lists + [one.value];
        k := k + 1;
      }
      r := Ok(lists);
    }

    method GetPathByIF(path: nat) returns (r: Result<T>)
      requires Valid()
      ensures path in id2node <==> r.Ok?
      ensures r.Ok? ==> r.value == id2node[path].payload
      ensures r.Err? ==> r.error == MissingPathError(path)
    {
      if path !in id2node {
        return Err(MissingPathError(path));
      }
      r := Ok(id2node[path].payload);
    }

    /**
     * The calls `FiilInByLayers` makes on a container: one per pair of
     * neighbours, in order, with the flag as written.  The container must not
     * be empty (the walk starts at `begin() + 1`).
     */
    method FiilInByLayers<X>(xs: seq<X>) returns (calls: seq<(X, X, bv8)>)
      requires |xs| >= 1
      ensures |calls| == |xs| - 1
      ensures forall i :: 0 <= i < |calls| ==> calls[i] == (xs[i], xs[i + 1], FlagAsWritten(i == 0, i + 2 == |xs|))
    {
      calls := [];
      var iA, iB := 0, 1;
      while iB != |xs|
        invariant 1 <= iB <= |xs| && iA == iB - 1
        invariant |calls| == iA
        invariant forall i :: 0 <= i < iA ==> calls[i] == (xs[i], xs[i + 1], FlagAsWritten(i == 0, i + 2 == |xs|))
      {
        var flag := FlagAsWritten(iA == 0, iB + 1 == |xs|);
        calls := calls + [(xs[iA], xs[iB], flag)];
        iA, iB := iA + 1, iB + 1;
      }
    }

    /** The same walk with the flag built as the enumeration intends. */
    method FillInByLayersIntended<X>(xs: seq<X>) returns (calls: seq<(X, X, bv8)>)
      requires |xs| >= 1
      ensures |calls| == |xs| - 1
      ensures forall i :: 0 <= i < |calls| ==> calls[i].0 == xs[i] && calls[i].1 == xs[i + 1]
      ensures forall i :: 0 <= i < |calls| ==> ((calls[i].2 & FirstIteration != 0) <==> i == 0)
      ensures forall i :: 0 <= i < |calls| ==> ((calls[i].2 & LastIteration != 0) <==> i == |calls| - 1)
    {
      calls := [];
      var iA, iB := 0, 1;
      while iB != |xs|
        invariant 1 <= iB <= |xs| && iA == iB - 1
        invariant |calls| == iA
        invariant forall i :: 0 <= i < iA ==> calls[i] == (xs[i], xs[i + 1], FlagIntended(i == 0, i + 2 == |xs|))
      {
        var flag := FlagIntended(iA == 0, iB + 1 == |xs|);
        calls := calls + [(xs[iA], xs[iB], flag)];
        iA, iB := iA + 1, iB + 1;
      }
      forall i | 0 <= i < |calls| ensures (calls[i].2 & FirstIteration != 0) <==> i == 0
        ensures (calls[i].2 & LastIteration != 0) <==> i == |calls| - 1
      {
        assert calls[i] == (xs[i], xs[i + 1], FlagIntended(i == 0, i + 2 == |xs|));
        FlagIntendedBits(i == 0, i + 2 == |xs|);
      }
      forall i | 0 <= i < |calls| ensures calls[i].0 == xs[i] && calls[i].1 == xs[i + 1] {
        var c := calls[i];
        assert c == (xs[i], xs[i + 1], FlagIntended(i == 0, i + 2 == |xs|));
      }
    }
  }

  /** On three layers the last call is tagged exactly like the first, and never with the last-iteration bit. */
  lemma FiilInByLayersMislabelsLast()
    ensures FlagAsWritten(false, true) == FirstIteration
    ensures FlagIntended(false, true) == LastIteration
  {
  }
}
