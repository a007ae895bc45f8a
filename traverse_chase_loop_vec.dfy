/** `src/traverse_chase_loop_vec.rs`: the chase-left shape on a growable
    stack, over a vector of nodes addressed by position. */
module TraverseChaseLoopVec {
  import opened Tree
  import opened Steps
  import opened IndexStore

  /** `traverse_stack`: the full path sum, with at most one deferred right
      child per level of the chase (the ghost `peak`). */
  method TraverseStack(store: Nodes, root: nat, ghost rank: map<nat, nat>)
    returns (sum: nat, ghost peak: nat)
    requires WellFounded(AsMap(store), rank) && root in rank
    ensures sum == PathSum(AsMap(store), rank, root)
    // an upper bound only: the loop invariant `|stack| <= peak <= bound` is
    // what shows that the stack never outgrows it
    ensures peak <= Max(1, ChaseDepth(AsMap(store), rank, root))
  {
    ghost var m := AsMap(store);
    ghost var bound := Max(1, ChaseDepth(m, rank, root));
    ChaseFitsDepth(m, rank, root, 0, bound);
    ChaseStartLoop(m, rank, root, bound);
    var stack: seq<nat> := [root];
    sum := 0;
    peak := 1;
    while stack != []
      invariant ChaseState(m, rank, root, bound, None, stack, [], sum)
      invariant |stack| <= peak <= bound
      decreases StackSize(m, rank, stack)
    {
      ghost var before := stack;
      ChasePop(m, rank, root, bound, stack, [], sum);
      var node := stack[|stack| - 1];
      stack := stack[..|stack| - 1];
      while true
        invariant ChaseState(m, rank, root, bound, Some(node), stack, [], sum)
        invariant |stack| <= peak <= bound
        invariant Size(m, rank, node) + StackSize(m, rank, stack) <= StackSize(m, rank, before)
        decreases Size(m, rank, node) + StackSize(m, rank, stack)
      {
        AsMapLookup(store, node);
        match store[node]
        case Leaf(n) =>
          ChaseLeaf(m, rank, root, bound, node, stack, [], sum);
          sum := sum + n as nat;
          break;
        case Branch(l, r) =>
          ChaseBranch(m, rank, root, bound, node, stack, [], sum);
          stack := stack + [r];
          peak := Max(peak, |stack|);
          node := l;
      }
    }
    ChaseEnd(m, rank, root, bound, [], sum);
  }

  /** `main`: the sample tree sums to 21. */
  method Sample() returns (sum: nat)
    ensures sum == 21
  {
    var store, root := BuildSample();
    ghost var peak;
    sum, peak := TraverseStack(store, root, IndexRank(store));
  }

  /** The growable stack sums a spine deeper than any bounded stack in full. */
  method ChainBeyondCapacity() returns (sum: nat)
    ensures sum == 34
  {
    ChainFacts(33, 33);
    ghost var peak;
    sum, peak := TraverseStack(Chain(33), 33, IndexRank(Chain(33)));
  }
}
