/** The index-addressed store of the three standalone programs: the nodes sit
    in a vector and a child is named by its position (`store: &[Node]`,
    `Node::Branch(u32, u32)`).  A vector is viewed as the map from each
    position to its node, so the definitions of `Tree` apply unchanged. */
module IndexStore {
  import opened Tree

  type Nodes = seq<Node<nat>>

  /** Position `i` names `store[i]`. */
  ghost function AsMap(store: Nodes): map<nat, Node<nat>> {
    map i: nat | i < |store| :: store[i]
  }

  /** An index is in the map exactly when it is in range, and names the node
      at that position. */
  lemma AsMapLookup(store: Nodes, i: nat)
    ensures i in AsMap(store) <==> i < |store|
    ensures i < |store| ==> AsMap(store)[i] == store[i]
  {
  }

  /** What the builder macros guarantee: every branch names children that were
      pushed before it. */
  ghost predicate ChildrenBefore(store: Nodes) {
    forall i | 0 <= i < |store| && store[i].Branch? :: store[i].left < i && store[i].right < i
  }

  /** Ranking each position by itself. */
  ghost function IndexRank(store: Nodes): map<nat, nat> {
    map i | i in AsMap(store) :: i
  }

  /** A vector built by the macros has no dangling index and no cycle, and the
      position itself witnesses it. */
  lemma ChildrenBeforeWellFounded(store: Nodes)
    requires ChildrenBefore(store)
    ensures WellFounded(AsMap(store), IndexRank(store))
    ensures forall i: nat | i < |store| :: i in IndexRank(store)
  {
  }

  /** The `l!` and `b!` macros of each program's `main`: push a node onto the
      vector and return its position. */
  class Builder {
    var store: Nodes

    constructor ()
      ensures store == []
    {
      store := [];
    }

    /** `l!(n)` */
    method Leaf(n: u32) returns (i: nat)
      modifies this
      ensures store == old(store) + [Node.Leaf(n)]
      ensures i == |old(store)| && store[i] == Node.Leaf(n)
      ensures ChildrenBefore(old(store)) ==> ChildrenBefore(store)
    {
      i := |store|;
      store := store + [Node.Leaf(n)];
    }

    /** `b!(l, r)`: the children come from earlier macro calls. */
    method Branch(l: nat, r: nat) returns (i: nat)
      modifies this
      ensures store == old(store) + [Node.Branch(l, r)]
      ensures i == |old(store)| && store[i] == Node.Branch(l, r)
      ensures ChildrenBefore(old(store)) && l < i && r < i ==> ChildrenBefore(store)
    {
      i := |store|;
      store := store + [Node.Branch(l, r)];
    }
  }

  /** The tree every `main` builds, bottom up: the leaves 1 and 2; a branch
      over them (sum 3); a branch with that branch as both children (sum 6); a
      branch with the sum-6 branch as both children (sum 12); a branch over the
      sum-6 and sum-3 branches (sum 9); and the root over the sum-12 and sum-9
      branches (21).  Subtrees are shared, and no path is longer than the
      root's position. */
  method BuildSample() returns (store: Nodes, root: nat)
    ensures ChildrenBefore(store) && root < |store|
    ensures WellFounded(AsMap(store), IndexRank(store)) && root in IndexRank(store)
    ensures PathSum(AsMap(store), IndexRank(store), root) == 21
    ensures Depth(AsMap(store), IndexRank(store), root) <= 6
  {
    var b := new Builder();
    var one := b.Leaf(1);
    var two := b.Leaf(2);
    var branch2 := b.Branch(one, two);
    var branch4 := b.Branch(branch2, branch2);
    var branch8 := b.Branch(branch4, branch4);
    var right := b.Branch(branch4, branch2);
    root := b.Branch(branch8, right);
    store := b.store;
    SampleFacts(store);
  }

  /** In a built vector, a position ranks no lower than the longest path below
      it. */
  lemma DepthBelowPosition(store: Nodes, i: nat)
    requires ChildrenBefore(store) && i < |store|
    ensures WellFounded(AsMap(store), IndexRank(store)) && i in IndexRank(store)
    ensures Depth(AsMap(store), IndexRank(store), i) <= i
  {
    ChildrenBeforeWellFounded(store);
    DepthBelowRank(AsMap(store), IndexRank(store), i);
  }

  /** One step of the path sum at a branch of a built vector. */
  lemma BranchSum(store: Nodes, i: nat)
    requires ChildrenBefore(store) && i < |store| && store[i].Branch?
    ensures WellFounded(AsMap(store), IndexRank(store)) && i in IndexRank(store)
    ensures store[i].left in IndexRank(store) && store[i].right in IndexRank(store)
    ensures PathSum(AsMap(store), IndexRank(store), i) ==
      PathSum(AsMap(store), IndexRank(store), store[i].left) + PathSum(AsMap(store), IndexRank(store), store[i].right)
  {
    ChildrenBeforeWellFounded(store);
    AsMapLookup(store, i);
  }

  /** The path sum at a leaf of a built vector. */
  lemma LeafSum(store: Nodes, i: nat)
    requires ChildrenBefore(store) && i < |store| && store[i].Leaf?
    ensures WellFounded(AsMap(store), IndexRank(store)) && i in IndexRank(store)
    ensures PathSum(AsMap(store), IndexRank(store), i) == store[i].value as nat
  {
    ChildrenBeforeWellFounded(store);
    AsMapLookup(store, i);
  }

  /** The sample bottom-up: its positions sum to 1, 2, 3, 6, 12, 9 and 21. */
  lemma SampleFacts(s: Nodes)
    requires |s| == 7 && ChildrenBefore(s)
    requires s[0] == Node.Leaf(1) && s[1] == Node.Leaf(2) && s[2] == Node.Branch(0, 1)
    requires s[3] == Node.Branch(2, 2) && s[4] == Node.Branch(3, 3)
    requires s[5] == Node.Branch(3, 2) && s[6] == Node.Branch(4, 5)
    ensures WellFounded(AsMap(s), IndexRank(s))
    ensures forall i: nat | i < 7 :: i in IndexRank(s)
    ensures PathSum(AsMap(s), IndexRank(s), 0) == 1 && PathSum(AsMap(s), IndexRank(s), 1) == 2
    ensures PathSum(AsMap(s), IndexRank(s), 2) == 3 && PathSum(AsMap(s), IndexRank(s), 3) == 6
    ensures PathSum(AsMap(s), IndexRank(s), 4) == 12 && PathSum(AsMap(s), IndexRank(s), 5) == 9
    ensures PathSum(AsMap(s), IndexRank(s), 6) == 21
    ensures Depth(AsMap(s), IndexRank(s), 6) <= 6
  {
    LeafSum(s, 0);
    LeafSum(s, 1);
    BranchSum(s, 2);
    BranchSum(s, 3);
    BranchSum(s, 4);
    BranchSum(s, 5);
    BranchSum(s, 6);
    DepthBelowPosition(s, 6);
  }

  /** A left spine of `n` branches over one leaf: position 0 is `Leaf(1)`, and
      position `i > 0` is `Branch(i - 1, 0)`. */
  function Chain(n: nat): (store: Nodes)
    ensures |store| == n + 1 && ChildrenBefore(store)
  {
    seq(n + 1, i => if i == 0 then Node.Leaf(1) else Node.Branch(i - 1, 0))
  }

  /** Position `i` of a chain sums to `i + 1`, keeps `i` right children
      deferred in the chase shapes and needs `i + 1` entries in the push-both
      shape. */
  lemma {:induction false} ChainFacts(n: nat, i: nat)
    requires i <= n
    ensures WellFounded(AsMap(Chain(n)), IndexRank(Chain(n))) && i in IndexRank(Chain(n))
    ensures PositiveLeaves(AsMap(Chain(n)), IndexRank(Chain(n)))
    ensures PathSum(AsMap(Chain(n)), IndexRank(Chain(n)), i) == i + 1
    ensures ChaseDepth(AsMap(Chain(n)), IndexRank(Chain(n)), i) == i
    ensures i > 0 ==> PushBothDepth(AsMap(Chain(n)), IndexRank(Chain(n)), i) == i + 1
  {
    var s := Chain(n);
    ChildrenBeforeWellFounded(s);
    AsMapLookup(s, i);
    AsMapLookup(s, 0);
    if i > 0 {
      ChainFacts(n, i - 1);
    }
  }
}
