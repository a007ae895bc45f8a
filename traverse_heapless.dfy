/** `src/traverse_heapless.rs`: the push-both shape on a 32-entry bounded
    stack, over a vector of nodes addressed by position. */
module TraverseHeapless {
  import opened Tree
  import opened BoundedStack
  import opened Steps
  import opened IndexStore

  /** `traverse_stack`: as in `Btt.HeaplessTraverseSum`, a push onto the full
      stack is dropped and the ghost `lost` collects the dropped positions. */
  method TraverseStack(store: Nodes, root: nat, ghost rank: map<nat, nat>)
    returns (sum: nat, ghost lost: seq<nat>)
    requires WellFounded(AsMap(store), rank) && root in rank
    ensures AllRanked(rank, lost)
    ensures sum + StackSum(AsMap(store), rank, lost) == PathSum(AsMap(store), rank, root)
    ensures lost == [] <==> PushBothDepth(AsMap(store), rank, root) <= Capacity
    ensures sum <= PathSum(AsMap(store), rank, root)
    ensures PushBothDepth(AsMap(store), rank, root) <= Capacity ==> sum == PathSum(AsMap(store), rank, root)
    ensures PositiveLeaves(AsMap(store), rank) ==>
      (sum == PathSum(AsMap(store), rank, root) <==> PushBothDepth(AsMap(store), rank, root) <= Capacity)
  {
    ghost var m := AsMap(store);
    var stack := new Stack<nat>(Capacity);
    PushBothStart(m, rank, root, Capacity);
    var pushed := stack.Push(root);
    lost := if pushed then [] else [root];
    sum := 0;
    while true
      invariant stack.Valid() && fresh(stack.data) && stack.capacity == Capacity
      invariant PushBothState(m, rank, root, Capacity, stack.Contents, lost, sum)
      decreases StackSize(m, rank, stack.Contents)
    {
      ghost var before := stack.Contents;
      var top := stack.Pop();
      if top.None? {
        break;
      }
      var node := top.value;
      AsMapLookup(store, node);
      match store[node]
      case Leaf(n) =>
        PushBothLeaf(m, rank, root, Capacity, before, lost, sum);
        sum := sum + n as nat;
      case Branch(l, r) =>
        PushBothBranch(m, rank, root, Capacity, before, lost, sum);
        // the right child always finds room: its parent was just popped
        var pushedR := stack.Push(r);
        var pushedL := stack.Push(l);
        lost := lost + (if pushedL then [] else [l]);
    }
    PushBothEnd(m, rank, root, Capacity, lost, sum);
  }

  /** `main`: the sample tree sums to 21; no path in it is longer than 6. */
  method Sample() returns (sum: nat)
    ensures sum == 21
  {
    var store, root := BuildSample();
    DepthBounds(AsMap(store), IndexRank(store), root);
    ghost var lost;
    sum, lost := TraverseStack(store, root, IndexRank(store));
  }

  /** A left spine of 31 branches needs exactly 32 entries and is summed in
      full. */
  method ChainAtCapacity() returns (sum: nat)
    ensures sum == 32
  {
    ChainFacts(31, 31);
    ghost var lost;
    sum, lost := TraverseStack(Chain(31), 31, IndexRank(Chain(31)));
  }

  /** One more branch, 32 levels deep, needs 33 entries: a push is dropped and
      the sum falls short of the true 33. */
  method ChainBeyondCapacity() returns (sum: nat)
    ensures sum < 33
  {
    ChainFacts(32, 32);
    ghost var lost;
    sum, lost := TraverseStack(Chain(32), 32, IndexRank(Chain(32)));
  }
}
