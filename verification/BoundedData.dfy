/** The opaque recipient-datum profile: one shared node budget over the whole tree. */
module BoundedData {
  import opened Results
  import opened PlutusData
  import opened DataValues

  const MAX_NODES := 256
  const MAX_DEPTH := 16
  const MAX_BYTES := 1024
  const MAX_ALTERNATIVE := 127
  const INT_LIMIT: int := 0x8000_0000_0000_0000_0000_0000_0000_0000_0000_0000_0000_0000_0000_0000_0000_0000

  /** Semantic nodes, map keys and values included. */
  function Nodes(d: Data): nat {
    match d
    case Int(_) => 1
    case Bytes(_) => 1
    case List(items) => 1 + NodesOf(d, items)
    case Constr(_, fields) => 1 + NodesOf(d, fields)
    case Map(pairs) => 1 + NodesOfPairs(d, pairs)
  }

  function NodesOf(ghost parent: Data, items: seq<Data>): nat
    requires forall i :: 0 <= i < |items| ==> items[i] < parent
    decreases parent, |items|
  {
    if items == [] then 0 else NodesOf(parent, items[..|items| - 1]) + Nodes(items[|items| - 1])
  }

  function NodesOfPairs(ghost parent: Data, pairs: seq<(Data, Data)>): nat
    requires forall i :: 0 <= i < |pairs| ==> pairs[i].0 < parent && pairs[i].1 < parent
    decreases parent, |pairs|
  {
    if pairs == [] then 0
    else
      var (k, v) := pairs[|pairs| - 1];
      NodesOfPairs(parent, pairs[..|pairs| - 1]) + Nodes(k) + Nodes(v)
  }

  /** Everything the profile asks of each node: depth, integer width, byte length, alternative, unequal keys. */
  predicate NodesFit(d: Data, depth: nat) {
    && depth <= MAX_DEPTH
    && match d
       case Int(i) => -INT_LIMIT <= i < INT_LIMIT
       case Bytes(b) => |b| <= MAX_BYTES
       case List(items) => forall i :: 0 <= i < |items| ==> NodesFit(items[i], depth + 1)
       case Constr(tag, fields) =>
         && ConstructorIndex(tag).Ok? && tag.n <= MAX_ALTERNATIVE
         && forall i :: 0 <= i < |fields| ==> NodesFit(fields[i], depth + 1)
       case Map(pairs) =>
         && (forall i :: 0 <= i < |pairs| ==> NodesFit(pairs[i].0, depth + 1) && NodesFit(pairs[i].1, depth + 1))
         && forall i, j :: 0 <= i < j < |pairs| ==> !EqualData(pairs[i].0, pairs[j].0)
  }

  /** The profile, given the preferred encoded size of Data. */
  predicate IsBounded(d: Data, size: Data -> nat) {
    NodesFit(d, 0) && Nodes(d) <= MAX_NODES && size(d) <= MAX_BYTES
  }

  /** Bounded Data is well shaped, so the comparison reads it exactly. */
  lemma {:induction false} FittingIsShaped(d: Data, depth: nat)
    requires NodesFit(d, depth)
    ensures IsShaped(d)
  {
    match d
    case Int(_) =>
    case Bytes(_) =>
    case List(items) =>
      forall i | 0 <= i < |items| ensures IsShaped(items[i]) {
        FittingIsShaped(items[i], depth + 1);
      }
    case Constr(_, fields) =>
      forall i | 0 <= i < |fields| ensures IsShaped(fields[i]) {
        FittingIsShaped(fields[i], depth + 1);
      }
    case Map(pairs) =>
      forall i | 0 <= i < |pairs| ensures IsShaped(pairs[i].0) && IsShaped(pairs[i].1) {
        FittingIsShaped(pairs[i].0, depth + 1);
        FittingIsShaped(pairs[i].1, depth + 1);
      }
  }

  /** The traversal, with the one counter that all branches share. */
  class Walker {
    var nodes: nat

    constructor ()
      ensures nodes == 0
    {
      nodes := 0;
    }

    /** Succeeds exactly when the whole subtree fits its depth and what is left of the budget. */
    method Walk(value: Data, depth: nat) returns (ok: bool)
      modifies this
      ensures ok <==> old(nodes) + Nodes(value) <= MAX_NODES && NodesFit(value, depth)
      ensures ok ==> nodes == old(nodes) + Nodes(value)
      decreases value
    {
      nodes := nodes + 1;
      if nodes > MAX_NODES || depth > MAX_DEPTH {
        return false;
      }
      match value
      case Int(i) =>
        return -INT_LIMIT <= i < INT_LIMIT;
      case Bytes(b) =>
        return |b| <= MAX_BYTES;
      case List(items) =>
        ok := WalkAll(value, items, depth);
      case Constr(tag, fields) =>
        if ConstructorIndex(tag).Err? || tag.n > MAX_ALTERNATIVE {
          return false;
        }
        ok := WalkAll(value, fields, depth);
      case Map(pairs) =>
        ok := WalkPairs(value, pairs, depth);
    }

    method WalkAll(ghost parent: Data, items: seq<Data>, depth: nat) returns (ok: bool)
      requires forall i :: 0 <= i < |items| ==> items[i] < parent
      requires nodes <= MAX_NODES
      modifies this
      ensures ok <==>
        old(nodes) + NodesOf(parent, items) <= MAX_NODES && forall i :: 0 <= i < |items| ==> NodesFit(items[i], depth + 1)
      ensures ok ==> nodes == old(nodes) + NodesOf(parent, items)
      decreases parent, 0
    {
      hide NodesFit, Nodes;
      ghost var start := nodes;
      for i := 0 to |items|
        invariant nodes == start + NodesOf(parent, items[..i]) && nodes <= MAX_NODES
        invariant forall k :: 0 <= k < i ==> NodesFit(items[k], depth + 1)
      {
        assert items[..i + 1][..i] == items[..i];
        PrefixCounts(parent, items, i + 1);
        var fits := Walk(items[i], depth + 1);
        if !fits {
          return false;
        }
      }
      assert items[..|items|] == items;
      return true;
    }

    method WalkPairs(ghost parent: Data, pairs: seq<(Data, Data)>, depth: nat) returns (ok: bool)
      requires forall i :: 0 <= i < |pairs| ==> pairs[i].0 < parent && pairs[i].1 < parent
      requires nodes <= MAX_NODES
      modifies this
      ensures ok <==>
        && old(nodes) + NodesOfPairs(parent, pairs) <= MAX_NODES
        && (forall i :: 0 <= i < |pairs| ==> NodesFit(pairs[i].0, depth + 1) && NodesFit(pairs[i].1, depth + 1))
        && forall i, j :: 0 <= i < j < |pairs| ==> !EqualData(pairs[i].0, pairs[j].0)
      ensures ok ==> nodes == old(nodes) + NodesOfPairs(parent, pairs)
      decreases parent, 0
    {
      hide EqualData, NodesFit, Nodes;
      ghost var start := nodes;
      var keys: seq<Data> := [];
      for i := 0 to |pairs|
        invariant nodes == start + NodesOfPairs(parent, pairs[..i]) && nodes <= MAX_NODES
        invariant forall k :: 0 <= k < i ==> NodesFit(pairs[k].0, depth + 1) && NodesFit(pairs[k].1, depth + 1)
        invariant |keys| == i && forall k :: 0 <= k < i ==> keys[k] == pairs[k].0
        invariant forall j, k :: 0 <= j < k < i ==> !EqualData(pairs[j].0, pairs[k].0)
      {
        var (key, item) := pairs[i];
        assert pairs[i].0 < parent && pairs[i].1 < parent;
        assert pairs[..i + 1][..i] == pairs[..i];
        PairPrefixCounts(parent, pairs, i + 1);
        var keyFits := Walk(key, depth + 1);
        if !keyFits {
          return false;
        }
        var itemFits := Walk(item, depth + 1);
        if !itemFits {
          return false;
        }
        if exists k :: 0 <= k < |keys| && EqualData(keys[k], key) {
          return false;
        }
        keys := keys + [key];
      }
      assert pairs[..|pairs|] == pairs;
      return true;
    }
  }

  /** A longer list has at least as many nodes. */
  lemma {:induction false} PrefixCounts(parent: Data, items: seq<Data>, k: nat)
    requires (forall i :: 0 <= i < |items| ==> items[i] < parent) && k <= |items|
    ensures NodesOf(parent, items[..k]) <= NodesOf(parent, items)
  {
    if k == |items| {
      assert items[..k] == items;
    } else {
      PrefixCounts(parent, items[..|items| - 1], k);
      assert items[..|items| - 1][..k] == items[..k];
    }
  }

  lemma {:induction false} PairPrefixCounts(parent: Data, pairs: seq<(Data, Data)>, k: nat)
    requires (forall i :: 0 <= i < |pairs| ==> pairs[i].0 < parent && pairs[i].1 < parent) && k <= |pairs|
    ensures NodesOfPairs(parent, pairs[..k]) <= NodesOfPairs(parent, pairs)
  {
    if k == |pairs| {
      assert pairs[..k] == pairs;
    } else {
      PairPrefixCounts(parent, pairs[..|pairs| - 1], k);
      assert pairs[..|pairs| - 1][..k] == pairs[..k];
    }
  }

  /** The shared counter accepts precisely the Data that fits every limit of the profile. */
  method ValidateBoundedData(d: Data, size: Data -> nat) returns (r: Result<Data>)
    ensures r.Ok? <==> IsBounded(d, size)
    ensures r.Ok? ==> r.value == d
  {
    var walker := new Walker();
    var fits := walker.Walk(d, 0);
    if !fits || size(d) > MAX_BYTES {
      return Err(OutOfRange);
    }
    return Ok(d);
  }

  lemma {:induction false} NodesIgnoreParent(parent: Data, other: Data, items: seq<Data>)
    requires forall i :: 0 <= i < |items| ==> items[i] < parent && items[i] < other
    ensures NodesOf(parent, items) == NodesOf(other, items)
    decreases |items|
  {
    if items != [] {
      NodesIgnoreParent(parent, other, items[..|items| - 1]);
    }
  }

  lemma {:induction false} PairNodesIgnoreParent(parent: Data, other: Data, pairs: seq<(Data, Data)>)
    requires forall i :: 0 <= i < |pairs| ==>
      pairs[i].0 < parent && pairs[i].1 < parent && pairs[i].0 < other && pairs[i].1 < other
    ensures NodesOfPairs(parent, pairs) == NodesOfPairs(other, pairs)
    decreases |pairs|
  {
    if pairs != [] {
      PairNodesIgnoreParent(parent, other, pairs[..|pairs| - 1]);
    }
  }

  /** Nodes are counted one by one: a leaf or an empty container is one, and each thing put in adds its own. */
  lemma NodesAddUp(items: seq<Data>, tag: Tag, pairs: seq<(Data, Data)>, x: Data, y: Data)
    ensures x.Int? || x.Bytes? ==> Nodes(x) == 1
    ensures Nodes(List([])) == Nodes(Constr(tag, [])) == Nodes(Map([])) == 1
    ensures Nodes(List(items + [x])) == Nodes(List(items)) + Nodes(x)
    ensures Nodes(Constr(tag, items + [x])) == Nodes(Constr(tag, items)) + Nodes(x)
    ensures Nodes(Map(pairs + [(x, y)])) == Nodes(Map(pairs)) + Nodes(x) + Nodes(y)
  {
    var more, morePairs := items + [x], pairs + [(x, y)];
    assert more[..|items|] == items && morePairs[..|pairs|] == pairs;
    InContainer(more, items);
    NodesIgnoreParent(List(more), List(items), items);
    NodesIgnoreParent(Constr(tag, more), Constr(tag, items), items);
    PairsInContainer(morePairs, pairs);
    PairNodesIgnoreParent(Map(morePairs), Map(pairs), pairs);
  }

  lemma InContainer(more: seq<Data>, items: seq<Data>)
    requires items <= more
    ensures forall i :: 0 <= i < |items| ==> items[i] < List(more) && items[i] < List(items)
    ensures forall i, tag :: 0 <= i < |items| ==> items[i] < Constr(tag, more) && items[i] < Constr(tag, items)
  {
    forall i | 0 <= i < |items| ensures items[i] == more[i] {
    }
  }

  lemma PairsInContainer(more: seq<(Data, Data)>, pairs: seq<(Data, Data)>)
    requires pairs <= more
    ensures forall i :: 0 <= i < |pairs| ==>
      && pairs[i].0 < Map(more) && pairs[i].1 < Map(more) && pairs[i].0 < Map(pairs) && pairs[i].1 < Map(pairs)
  {
    forall i | 0 <= i < |pairs| ensures pairs[i] == more[i] {
    }
  }
}
