/**
 * Script trees: the heap merge with its optimality, and the depth-first
 * re-listing that rebuilds them.
 */
module TapTrees {
  import opened Sequences
  import opened Arithmetic
  import opened Wrappers

  datatype TapTree<T> = Leaf(script: T) | Tree(left: TapTree<T>, right: TapTree<T>)

  /** An entry of the merge heap: the least weight is popped first. */
  datatype Entry<T> = Entry(weight: nat, tree: TapTree<T>)

  /** The script-tree depth limit of "Script validation rules" in BIP-341. */
  const TAPROOT_MAX_DEPTH: nat := 128

  function SaturatingAdd(a: nat, b: nat): nat {
    if a + b <= U64_MAX then a + b else U64_MAX
  }

  ghost function Leaves<T>(t: TapTree<T>): multiset<T> {
    match t
    case Leaf(s) => multiset{s}
    case Tree(l, r) => Leaves(l) + Leaves(r)
  }

  ghost function LeafCount<T>(t: TapTree<T>): nat {
    match t
    case Leaf(_) => 1
    case Tree(l, r) => LeafCount(l) + LeafCount(r)
  }

  /** Sum over all leaves of their depth. */
  ghost function TotalDepth<T>(t: TapTree<T>): nat {
    match t
    case Leaf(_) => 0
    case Tree(l, r) => TotalDepth(l) + TotalDepth(r) + LeafCount(t)
  }

  ghost function Height<T>(t: TapTree<T>): nat {
    match t
    case Leaf(_) => 0
    case Tree(l, r) => 1 + if Height(l) >= Height(r) then Height(l) else Height(r)
  }

  /** Every leaf of `t` lies at a depth between `lo` and `hi`. */
  ghost predicate DepthsWithin<T>(t: TapTree<T>, lo: int, hi: int) {
    match t
    case Leaf(_) => lo <= 0 <= hi
    case Tree(l, r) => DepthsWithin(l, lo - 1, hi - 1) && DepthsWithin(r, lo - 1, hi - 1)
  }

  ghost function AllLeaves<T>(heap: seq<Entry<T>>): multiset<T> {
    if heap == [] then multiset{} else Leaves(heap[0].tree) + AllLeaves(heap[1..])
  }

  // ---------------------------------------------------------------- the heap

  ghost predicate IsMinimal<T>(heap: seq<Entry<T>>, i: nat) {
    i < |heap| && forall j :: 0 <= j < |heap| ==> heap[i].weight <= heap[j].weight
  }

  /**
   * Pops an entry of least weight. Which one among equals is left open, so
   * everything below holds under every tie-break of the underlying heap.
   */
  method PopLightest<T>(heap: seq<Entry<T>>) returns (i: nat, top: Entry<T>, rest: seq<Entry<T>>)
    requires heap != []
    ensures IsMinimal(heap, i) && top == heap[i] && rest == Without(heap, i)
  {
    LightestExists(heap);
    i :| 0 <= i < |heap| && forall j :: 0 <= j < |heap| ==> heap[i].weight <= heap[j].weight;
    top, rest := heap[i], heap[..i] + heap[i + 1..];
  }

  lemma {:induction false} LightestExists<T>(heap: seq<Entry<T>>)
    requires heap != []
    ensures exists i :: 0 <= i < |heap| && IsMinimal(heap, i)
  {
    if |heap| == 1 {
      assert IsMinimal(heap, 0);
    } else {
      LightestExists(heap[1..]);
      var i :| 0 <= i < |heap[1..]| && IsMinimal(heap[1..], i);
      assert forall j :: 1 <= j < |heap| ==> heap[j] == heap[1..][j - 1];
      assert IsMinimal(heap, if heap[0].weight <= heap[i + 1].weight then 0 else i + 1);
    }
  }

  lemma {:induction false} AllLeavesWithout<T>(heap: seq<Entry<T>>, i: nat)
    requires i < |heap|
    ensures AllLeaves(heap) == Leaves(heap[i].tree) + AllLeaves(Without(heap, i))
  {
    if i == 0 {
      assert Without(heap, 0) == heap[1..];
    } else {
      AllLeavesWithout(heap[1..], i - 1);
      assert Without(heap, i)[1..] == Without(heap[1..], i - 1);
    }
  }

  lemma {:induction false} AllLeavesAppend<T>(heap: seq<Entry<T>>, e: Entry<T>)
    ensures AllLeaves(heap + [e]) == AllLeaves(heap) + Leaves(e.tree)
  {
    if heap == [] {
      assert (heap + [e])[1..] == [];
    } else {
      AllLeavesAppend(heap[1..], e);
      assert (heap + [e])[1..] == heap[1..] + [e];
    }
  }

  // ------------------------------------------------------- shape of the merge

  ghost predicate Perfect<T>(t: TapTree<T>, k: int) {
    DepthsWithin(t, k, k)
  }

  /**
   * What one entry may be while the heap works on level `k`: a perfect tree of
   * depth k or k + 1, or a tree strictly between the two.
   */
  ghost predicate EntryAt<T>(e: Entry<T>, k: nat) {
    && e.weight == LeafCount(e.tree)
    && DepthsWithin(e.tree, k, k + 1)
    && Pow2(k) <= e.weight <= Pow2(k + 1)
    && (e.weight == Pow2(k) ==> Perfect(e.tree, k))
    && (e.weight == Pow2(k + 1) ==> Perfect(e.tree, k + 1))
  }

  ghost predicate Between<T>(e: Entry<T>, k: nat) {
    Pow2(k) < e.weight < Pow2(k + 1)
  }

  ghost predicate Level<T>(heap: seq<Entry<T>>, k: nat) {
    && (forall i :: 0 <= i < |heap| ==> EntryAt(heap[i], k))
    && (forall i, j :: 0 <= i < j < |heap| ==> !Between(heap[i], k) || !Between(heap[j], k))
  }

  lemma {:induction false} DepthsWiden<T>(t: TapTree<T>, lo: int, hi: int, lo': int, hi': int)
    requires DepthsWithin(t, lo, hi) && lo' <= lo && hi <= hi'
    ensures DepthsWithin(t, lo', hi')
  {
    if t.Tree? {
      DepthsWiden(t.left, lo - 1, hi - 1, lo' - 1, hi' - 1);
      DepthsWiden(t.right, lo - 1, hi - 1, lo' - 1, hi' - 1);
    }
  }

  function Merge<T>(a: Entry<T>, b: Entry<T>): Entry<T> {
    Entry(SaturatingAdd(a.weight, b.weight), Tree(a.tree, b.tree))
  }

  ghost function Weight<T>(heap: seq<Entry<T>>): nat {
    if heap == [] then 0 else heap[0].weight + Weight(heap[1..])
  }

  lemma {:induction false} WeightWithout<T>(heap: seq<Entry<T>>, i: nat)
    requires i < |heap|
    ensures Weight(heap) == heap[i].weight + Weight(Without(heap, i))
  {
    if i == 0 {
      assert Without(heap, 0) == heap[1..];
    } else {
      WeightWithout(heap[1..], i - 1);
      assert Without(heap, i)[1..] == Without(heap[1..], i - 1);
    }
  }

  lemma {:induction false} WeightAppend<T>(heap: seq<Entry<T>>, e: Entry<T>)
    ensures Weight(heap + [e]) == Weight(heap) + e.weight
  {
    if heap == [] {
      assert (heap + [e])[1..] == [];
    } else {
      WeightAppend(heap[1..], e);
      assert (heap + [e])[1..] == heap[1..] + [e];
    }
  }

  /** Two entries both at their level's lower end merge into its upper end. */
  lemma MergeStaysOnLevel<T>(a: Entry<T>, b: Entry<T>, k: nat)
    requires EntryAt(a, k) && EntryAt(b, k) && a.weight == b.weight == Pow2(k)
    requires a.weight + b.weight <= U64_MAX
    ensures EntryAt(Merge(a, b), k) && !Between(Merge(a, b), k)
  {
    DepthsWiden(Merge(a, b).tree, k + 1, k + 1, k, k + 1);
  }

  /** Any other pair merges into an entry of the next level. */
  lemma MergeLiftsLevel<T>(a: Entry<T>, b: Entry<T>, k: nat)
    requires EntryAt(a, k) && EntryAt(b, k)
    requires a.weight + b.weight <= U64_MAX
    requires Pow2(k) < b.weight
    ensures EntryAt(Merge(a, b), k + 1)
  {
    assert Pow2(k + 2) == 2 * Pow2(k + 1) && Pow2(k + 1) == 2 * Pow2(k);
    assert Merge(a, b).weight == Pow2(k + 2) ==> a.weight == b.weight == Pow2(k + 1);
  }

  lemma LiftFull<T>(e: Entry<T>, k: nat)
    requires EntryAt(e, k) && e.weight == Pow2(k + 1)
    ensures EntryAt(e, k + 1) && !Between(e, k + 1)
  {
    DepthsWiden(e.tree, k + 1, k + 1, k + 1, k + 2);
  }

  lemma LevelWithout<T>(heap: seq<Entry<T>>, k: nat, i: nat)
    requires Level(heap, k) && i < |heap|
    ensures Level(Without(heap, i), k)
    ensures Between(heap[i], k) ==> forall x :: 0 <= x < |heap| - 1 ==> !Between(Without(heap, i)[x], k)
  {
    var rest := Without(heap, i);
    if Between(heap[i], k) {
      forall x | 0 <= x < |rest| ensures !Between(rest[x], k) {
        var y := if x < i then x else x + 1;
        assert rest[x] == heap[y];
        assert y < i || i < y;
      }
    }
  }

  lemma LevelAppend<T>(heap: seq<Entry<T>>, k: nat, e: Entry<T>)
    requires Level(heap, k) && EntryAt(e, k)
    requires Between(e, k) ==> forall x :: 0 <= x < |heap| ==> !Between(heap[x], k)
    ensures Level(heap + [e], k)
  {
  }

  lemma LiftLevel<T>(heap: seq<Entry<T>>, k: nat, e: Entry<T>)
    requires Level(heap, k) && EntryAt(e, k + 1)
    requires forall x :: 0 <= x < |heap| ==> heap[x].weight == Pow2(k + 1)
    ensures Level(heap + [e], k + 1)
  {
    forall x | 0 <= x < |heap| ensures EntryAt(heap[x], k + 1) && !Between(heap[x], k + 1) {
      LiftFull(heap[x], k);
    }
    LevelAppend(heap, k + 1, e);
  }

  /**
   * One iteration of the merge: popping two lightest entries of a heap on
   * level k and pushing their merge leaves a heap on level k or k + 1.
   */
  lemma MergeStep<T>(heap: seq<Entry<T>>, k: nat, i: nat, j: nat) returns (k': nat)
    requires Level(heap, k) && |heap| >= 2
    requires IsMinimal(heap, i) && IsMinimal(Without(heap, i), j)
    requires heap[i].weight + Without(heap, i)[j].weight <= U64_MAX
    ensures Level(Without(Without(heap, i), j) + [Merge(heap[i], Without(heap, i)[j])], k')
  {
    var mid := Without(heap, i);
    var rest := Without(mid, j);
    var a, b := heap[i], mid[j];
    LevelWithout(heap, k, i);
    LevelWithout(mid, k, j);
    assert a.weight <= b.weight by {
      assert b == heap[if j < i then j else j + 1];
    }
    assert EntryAt(a, k) && EntryAt(b, k);
    if b.weight == Pow2(k) {
      MergeStaysOnLevel(a, b, k);
      LevelAppend(rest, k, Merge(a, b));
      k' := k;
    } else {
      MergeLiftsLevel(a, b, k);
      forall x | 0 <= x < |rest| ensures rest[x].weight == Pow2(k + 1) {
        var y := if x < j then x else x + 1;
        assert rest[x] == mid[y] && b.weight <= mid[y].weight;
        assert EntryAt(mid[y], k);
      }
      LiftLevel(rest, k, Merge(a, b));
      k' := k + 1;
    }
  }

  /** A lone entry of the heap has its leaves at the two logarithms of its size. */
  lemma EntryDepths<T>(e: Entry<T>, k: nat)
    requires EntryAt(e, k)
    ensures DepthsWithin(e.tree, FloorLog2(e.weight), CeilLog2(e.weight))
  {
    LogOfPow2(k);
    LogOfPow2(k + 1);
    if Between(e, k) {
      FloorLog2Unique(e.weight, k);
      CeilLog2Unique(e.weight, k);
    }
  }

  function UnitEntries<T>(branches: seq<T>): (entries: seq<Entry<T>>)
    ensures |entries| == |branches|
    ensures forall i :: 0 <= i < |branches| ==> entries[i] == Entry(1, Leaf(branches[i]))
  {
    if branches == [] then [] else [Entry(1, Leaf(branches[0]))] + UnitEntries(branches[1..])
  }

  lemma {:induction false} UnitEntriesFacts<T>(branches: seq<T>)
    ensures AllLeaves(UnitEntries(branches)) == multiset(branches)
    ensures Weight(UnitEntries(branches)) == |branches|
  {
    if branches != [] {
      UnitEntriesFacts(branches[1..]);
      assert branches == [branches[0]] + branches[1..];
      assert UnitEntries(branches)[1..] == UnitEntries(branches[1..]);
    }
  }

  /** The loop invariant of the merge, for a heap that started as `branches`. */
  ghost predicate Merging<T>(heap: seq<Entry<T>>, branches: seq<T>, k: nat) {
    && AllLeaves(heap) == multiset(branches)
    && (heap == [] <==> branches == [])
    && (|branches| <= U64_MAX ==> Level(heap, k) && Weight(heap) == |branches|)
  }

  lemma MergingStarts<T>(branches: seq<T>)
    ensures Merging(UnitEntries(branches), branches, 0)
  {
    UnitEntriesFacts(branches);
    assert Pow2(1) == 2;
  }

  lemma MergingContinues<T>(heap: seq<Entry<T>>, branches: seq<T>, k: nat, i: nat, j: nat) returns (k': nat)
    requires Merging(heap, branches, k) && |heap| >= 2
    requires IsMinimal(heap, i) && IsMinimal(Without(heap, i), j)
    ensures Merging(Without(Without(heap, i), j) + [Merge(heap[i], Without(heap, i)[j])], branches, k')
  {
    var mid := Without(heap, i);
    var rest := Without(mid, j);
    var merged := Merge(heap[i], mid[j]);
    AllLeavesWithout(heap, i);
    AllLeavesWithout(mid, j);
    AllLeavesAppend(rest, merged);
    k' := k;
    if |branches| <= U64_MAX {
      WeightWithout(heap, i);
      WeightWithout(mid, j);
      WeightAppend(rest, merged);
      k' := MergeStep(heap, k, i, j);
    }
  }

  lemma MergingEnds<T>(heap: seq<Entry<T>>, branches: seq<T>, k: nat)
    requires Merging(heap, branches, k) && |heap| == 1
    ensures Leaves(heap[0].tree) == multiset(branches)
    ensures |branches| <= U64_MAX ==> DepthsWithin(heap[0].tree, FloorLog2(|branches|), CeilLog2(|branches|))
  {
    assert AllLeaves(heap[1..]) == multiset{};
    if |branches| <= U64_MAX {
      assert Weight(heap[1..]) == 0;
      EntryDepths(heap[0], k);
    }
  }

  /**
   * The heap merge. Weights saturate at the top of u64, which no list of
   * branches that fits in memory reaches.
   */
  method BranchesToTree<T(!new)>(branches: seq<T>) returns (tree: Option<TapTree<T>>)
    ensures tree.None? <==> branches == []
    ensures tree.Some? ==> BestTree(tree.value, branches)
  {
    var scripts := UnitEntries(branches);
    ghost var k: nat := 0;
    MergingStarts(branches);
    while |scripts| > 1
      invariant Merging(scripts, branches, k)
    {
      var i, first, mid := PopLightest(scripts);
      var j, second, rest := PopLightest(mid);
      k := MergingContinues(scripts, branches, k, i, j);
      scripts := rest + [Entry(SaturatingAdd(first.weight, second.weight), Tree(first.tree, second.tree))];
    }
    if scripts == [] {
      tree := None;
    } else {
      MergingEnds(scripts, branches, k);
      tree := Some(scripts[0].tree);
      MergedIsBest(tree.value, branches);
    }
  }

  // -------------------------------------------------------------- optimality

  /** The tangent to n * log2(n) at k bounds the total depth of every tree. */
  lemma {:induction false} TotalDepthLowerBound<T>(t: TapTree<T>, k: nat)
    ensures TotalDepth(t) >= (k + 2) * LeafCount(t) - Pow2(k + 1)
  {
    match t
    case Leaf(_) => LinearBelowPow2(k);
    case Tree(l, r) =>
      var j := if k == 0 then 0 else k - 1;
      TotalDepthLowerBound(l, j);
      TotalDepthLowerBound(r, j);
      Distribute(k + 2, LeafCount(l), LeafCount(r));
      Distribute(j + 2, LeafCount(l), LeafCount(r));
      if k > 0 {
        assert (k + 2) * LeafCount(t) == (j + 2) * LeafCount(t) + LeafCount(t);
      }
  }

  lemma {:induction false} TotalDepthExact<T>(t: TapTree<T>, k: nat)
    requires DepthsWithin(t, k, k + 1)
    ensures TotalDepth(t) == (k + 2) * LeafCount(t) - Pow2(k + 1)
  {
    match t
    case Leaf(_) =>
    case Tree(l, r) =>
      if k == 0 {
        HeightWithin(l, -1, 0);
        HeightWithin(r, -1, 0);
      } else {
        TotalDepthExact(l, k - 1);
        TotalDepthExact(r, k - 1);
        Distribute(k + 2, LeafCount(l), LeafCount(r));
        Distribute(k + 1, LeafCount(l), LeafCount(r));
        assert (k + 2) * LeafCount(t) == (k + 1) * LeafCount(t) + LeafCount(t);
      }
  }

  lemma {:induction false} LeavesFitHeight<T>(t: TapTree<T>, h: nat)
    requires Height(t) <= h
    ensures LeafCount(t) <= Pow2(h)
  {
    if t.Tree? {
      LeavesFitHeight(t.left, h - 1);
      LeavesFitHeight(t.right, h - 1);
    }
  }

  lemma {:induction false} HeightWithin<T>(t: TapTree<T>, lo: int, hi: int)
    requires DepthsWithin(t, lo, hi)
    ensures Height(t) <= hi
  {
    if t.Tree? {
      HeightWithin(t.left, lo - 1, hi - 1);
      HeightWithin(t.right, lo - 1, hi - 1);
    }
  }

  /**
   * A tree with all leaves at the two logarithms of its size is optimal: no
   * binary tree with as many leaves has a smaller total depth or height.
   */
  lemma BalancedIsOptimal<T, U>(t: TapTree<T>, other: TapTree<U>)
    requires DepthsWithin(t, FloorLog2(LeafCount(t)), CeilLog2(LeafCount(t)))
    requires LeafCount(other) == LeafCount(t)
    ensures TotalDepth(t) <= TotalDepth(other)
    ensures Height(t) <= Height(other)
  {
    var n := LeafCount(t);
    LeafCountPositive(t);
    FloorLog2Range(n);
    var k := FloorLog2(n);
    DepthsWiden(t, k, CeilLog2(n), k, k + 1);
    TotalDepthExact(t, k);
    TotalDepthLowerBound(other, k);
    HeightWithin(t, k, CeilLog2(n));
    LeavesFitHeight(other, Height(other));
    CeilLog2Bound(n, Height(other));
  }

  lemma {:induction false} LeafCountPositive<T>(t: TapTree<T>)
    ensures LeafCount(t) >= 1
  {
    if t.Tree? {
      LeafCountPositive(t.left);
    }
  }

  lemma {:induction false} LeafCountIsSize<T>(t: TapTree<T>)
    ensures LeafCount(t) == |Leaves(t)|
  {
    if t.Tree? {
      LeafCountIsSize(t.left);
      LeafCountIsSize(t.right);
    }
  }

  /** No list of branches shorter than 2^64 comes near the BIP-341 depth limit. */
  lemma CommittedTreeIsShallow<T>(t: TapTree<T>, n: nat)
    requires 1 <= n <= U64_MAX
    requires DepthsWithin(t, FloorLog2(n), CeilLog2(n))
    ensures Height(t) <= 64 < TAPROOT_MAX_DEPTH
  {
    assert Pow2(32) == 0x1_0000_0000 by { Pow2Of32(); }
    Pow2Adds(32, 32);
    CeilLog2Bound(n, 64);
    HeightWithin(t, FloorLog2(n), CeilLog2(n));
  }

  /** No tree with as many leaves has a smaller total depth or height. */
  ghost predicate Optimal<T(!new)>(t: TapTree<T>) {
    forall other: TapTree<T> :: LeafCount(other) == LeafCount(t) ==>
      TotalDepth(t) <= TotalDepth(other) && Height(t) <= Height(other)
  }

  /** What the merge makes of some leaves: all of them, as shallow as can be. */
  ghost predicate BestTree<T(!new)>(t: TapTree<T>, leaves: seq<T>) {
    && Leaves(t) == multiset(leaves)
    && (|leaves| <= U64_MAX ==>
          DepthsWithin(t, FloorLog2(|leaves|), CeilLog2(|leaves|)) && Height(t) <= TAPROOT_MAX_DEPTH && Optimal(t))
  }

  lemma MergedIsBest<T(!new)>(t: TapTree<T>, leaves: seq<T>)
    requires leaves != [] && Leaves(t) == multiset(leaves)
    requires |leaves| <= U64_MAX ==> DepthsWithin(t, FloorLog2(|leaves|), CeilLog2(|leaves|))
    ensures BestTree(t, leaves)
  {
    LeafCountIsSize(t);
    assert |multiset(leaves)| == |leaves|;
    if |leaves| <= U64_MAX {
      CommittedTreeIsShallow(t, |leaves|);
      forall other: TapTree<T> | LeafCount(other) == LeafCount(t)
        ensures TotalDepth(t) <= TotalDepth(other) && Height(t) <= Height(other)
      {
        BalancedIsOptimal(t, other);
      }
    }
  }

  lemma Pow2Of32()
    ensures Pow2(32) == 0x1_0000_0000
  {
    assert Pow2(8) == 256;
    Pow2Adds(8, 8);
    Pow2Adds(16, 16);
  }

  // -------------------------------------------- listing a tree and rebuilding

  /** One item of the depth-first listing of a tree's scripts. */
  datatype Listed<T> = Listed(depth: nat, script: T)

  function Listing<T>(t: TapTree<T>, depth: nat): seq<Listed<T>> {
    match t
    case Leaf(s) => [Listed(depth, s)]
    case Tree(l, r) => Listing(l, depth + 1) + Listing(r, depth + 1)
  }

  datatype TaprootBuilderError =
    | InvalidMerkleTreeDepth
    | NodeNotInDfsOrder
    | OverCompleteTree
    | IncompleteTree
    | EmptyTree

  /** A finished subtree that waits for its sibling. */
  datatype Pending<T> = Pending(depth: nat, node: TapTree<T>)

  /** Merges a node with its waiting sibling, as often as one is waiting. */
  function AddNode<T>(pending: seq<Pending<T>>, depth: nat,
      node: TapTree<T>): Result<seq<Pending<T>>, TaprootBuilderError>
    decreases |pending|
  {
    if pending == [] || pending[|pending| - 1].depth < depth then
      Ok(pending + [Pending(depth, node)])
    else if pending[|pending| - 1].depth > depth then
      Err(NodeNotInDfsOrder)
    else if depth == 0 then
      Err(OverCompleteTree)
    else
      AddNode(pending[..|pending| - 1], depth - 1, Tree(pending[|pending| - 1].node, node))
  }

  function AddLeaf<T>(pending: seq<Pending<T>>, item: Listed<T>): Result<seq<Pending<T>>, TaprootBuilderError> {
    if item.depth > TAPROOT_MAX_DEPTH then
      Err(InvalidMerkleTreeDepth)
    else
      AddNode(pending, item.depth, Leaf(item.script))
  }

  function Replay<T>(pending: seq<Pending<T>>, items: seq<Listed<T>>): Result<seq<Pending<T>>, TaprootBuilderError>
    decreases |items|
  {
    if items == [] then Ok(pending)
    else
      var next :- AddLeaf(pending, items[0]);
      Replay(next, items[1..])
  }

  function Finalize<T>(pending: seq<Pending<T>>): Result<TapTree<T>, TaprootBuilderError> {
    if pending == [] then Err(EmptyTree)
    else if |pending| > 1 || pending[0].depth != 0 then Err(IncompleteTree)
    else Ok(pending[0].node)
  }

  function Rebuild<T>(items: seq<Listed<T>>): Result<TapTree<T>, TaprootBuilderError> {
    var pending :- Replay([], items);
    Finalize(pending)
  }

  /** The binder's loop over a descriptor's scripts. */
  method RelistScripts<T>(items: seq<Listed<T>>) returns (r: Result<TapTree<T>, TaprootBuilderError>)
    ensures r == Rebuild(items)
  {
    var builder: seq<Pending<T>> := [];
    for i := 0 to |items|
      invariant Replay(builder, items[i..]) == Replay([], items)
    {
      assert items[i..][1..] == items[i + 1..];
      var next := AddLeaf(builder, items[i]);
      if next.Err? {
        return Err(next.error);
      }
      builder := next.value;
    }
    assert items[|items|..] == [];
    r := Finalize(builder);
  }

  lemma {:induction false} ReplayConcat<T>(pending: seq<Pending<T>>, xs: seq<Listed<T>>, ys: seq<Listed<T>>)
    ensures Replay(pending, xs + ys)
         == (var mid := Replay(pending, xs); if mid.Err? then mid else Replay(mid.value, ys))
    decreases |xs|
  {
    if xs == [] {
      assert xs + ys == ys;
    } else {
      assert (xs + ys)[1..] == xs[1..] + ys;
      var next := AddLeaf(pending, xs[0]);
      if next.Ok? {
        ReplayConcat(next.value, xs[1..], ys);
      }
    }
  }

  /** Feeding a whole subtree leaf by leaf equals adding it as one node. */
  lemma {:induction false} ReplayListing<T>(pending: seq<Pending<T>>, t: TapTree<T>, depth: nat)
    requires pending == [] || pending[|pending| - 1].depth <= depth
    requires depth + Height(t) <= TAPROOT_MAX_DEPTH
    ensures Replay(pending, Listing(t, depth)) == AddNode(pending, depth, t)
    decreases t
  {
    match t
    case Leaf(s) =>
      assert Listing(t, depth)[1..] == [];
    case Tree(l, r) =>
      ReplayConcat(pending, Listing(l, depth + 1), Listing(r, depth + 1));
      ReplayListing(pending, l, depth + 1);
      var waiting := pending + [Pending(depth + 1, l)];
      ReplayListing(waiting, r, depth + 1);
      assert waiting[..|waiting| - 1] == pending;
  }

  ghost function PendingListing<T>(pending: seq<Pending<T>>): seq<Listed<T>> {
    if pending == [] then []
    else PendingListing(pending[..|pending| - 1]) + Listing(pending[|pending| - 1].node, pending[|pending| - 1].depth)
  }

  /** The waiting subtrees hold exactly the items that were fed in. */
  ghost predicate Holds<T>(pending: seq<Pending<T>>, fed: seq<Listed<T>>) {
    PendingListing(pending) == fed
  }

  lemma {:induction false} AddNodeHolds<T>(pending: seq<Pending<T>>, fed: seq<Listed<T>>, depth: nat, node: TapTree<T>)
    requires Holds(pending, fed) && AddNode(pending, depth, node).Ok?
    ensures Holds(AddNode(pending, depth, node).value, fed + Listing(node, depth))
    decreases |pending|
  {
    if pending == [] || pending[|pending| - 1].depth < depth {
      assert (pending + [Pending(depth, node)])[..|pending|] == pending;
    } else {
      var init, last := pending[..|pending| - 1], pending[|pending| - 1];
      AddNodeHolds(init, PendingListing(init), depth - 1, Tree(last.node, node));
      ConcatAssociative(PendingListing(init), Listing(last.node, depth), Listing(node, depth));
    }
  }

  lemma AddLeafHolds<T>(pending: seq<Pending<T>>, fed: seq<Listed<T>>, item: Listed<T>)
    requires Holds(pending, fed) && AddLeaf(pending, item).Ok?
    ensures Holds(AddLeaf(pending, item).value, fed + [item])
  {
    AddNodeHolds(pending, fed, item.depth, Leaf(item.script));
    assert Listing(Leaf(item.script), item.depth) == [item];
  }

  lemma {:induction false} ReplayHolds<T>(pending: seq<Pending<T>>, fed: seq<Listed<T>>, items: seq<Listed<T>>)
    requires Holds(pending, fed) && Replay(pending, items).Ok?
    ensures Holds(Replay(pending, items).value, fed + items)
    decreases |items|
  {
    if items == [] {
      assert fed + items == fed;
    } else {
      AddLeafHolds(pending, fed, items[0]);
      ReplayHolds(AddLeaf(pending, items[0]).value, fed + [items[0]], items[1..]);
      assert fed + [items[0]] + items[1..] == fed + items;
    }
  }

  /**
   * The listing determines the tree: rebuilding succeeds with `t` exactly on
   * t's own depth-first listing.
   */
  lemma ListingDeterminesTree<T>(t: TapTree<T>, items: seq<Listed<T>>)
    requires Height(t) <= TAPROOT_MAX_DEPTH
    ensures Rebuild(items) == Ok(t) <==> items == Listing(t, 0)
  {
    ReplayListing([], t, 0);
    assert Rebuild(Listing(t, 0)) == Ok(t);
    if Rebuild(items) == Ok(t) {
      ReplayHolds([], [], items);
      var pending := Replay([], items).value;
      assert pending == [Pending(0, t)] && pending[..0] == [];
      assert PendingListing(pending) == [] + Listing(t, 0);
      assert items == [] + items == Listing(t, 0);
    }
  }

  /**
   * From branches to witness data: whatever tree the heap merge commits to,
   * listing its scripts and feeding them back rebuilds that very tree.
   */
  method CommitAndRelist<T(!new)>(branches: seq<T>)
    returns (committed: TapTree<T>, relisted: Result<TapTree<T>, TaprootBuilderError>)
    requires 1 <= |branches| <= U64_MAX
    ensures BestTree(committed, branches)
    ensures relisted == Ok(committed)
  {
    var tree := BranchesToTree(branches);
    committed := tree.value;
    ListingDeterminesTree(committed, Listing(committed, 0));
    relisted := RelistScripts(Listing(committed, 0));
  }
}
