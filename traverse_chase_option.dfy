/** `src/traverse_chase_option.rs`: the cursor shape on a 32-entry bounded
    stack, over a vector of nodes addressed by position. */
module TraverseChaseOption {
  import opened Tree
  import opened BoundedStack
  import opened Steps
  import opened IndexStore

  /** `traverse_stack`: as in `Btt.HeaplessOptionTraverseSum`, a push onto the
      full stack is dropped and the ghost `lost` collects the dropped
      positions.  A leaf root pushes nothing, and the stack holds at most one
      deferred right child per level (the ghost `peak`). */
  method TraverseStack(store: Nodes, root: nat, ghost rank: map<nat, nat>)
    returns (sum: nat, ghost lost: seq<nat>, ghost peak: nat)
    requires WellFounded(AsMap(store), rank) && root in rank
    ensures AllRanked(rank, lost)
    ensures sum + StackSum(AsMap(store), rank, lost) == PathSum(AsMap(store), rank, root)
    ensures lost == [] <==> ChaseDepth(AsMap(store), rank, root) <= Capacity
    ensures sum <= PathSum(AsMap(store), rank, root)
    ensures ChaseDepth(AsMap(store), rank, root) <= Capacity ==> sum == PathSum(AsMap(store), rank, root)
    ensures PositiveLeaves(AsMap(store), rank) ==>
      (sum == PathSum(AsMap(store), rank, root) <==> ChaseDepth(AsMap(store), rank, root) <= Capacity)
    // an upper bound only: the loop invariant `|stack| <= peak <= bound` is
    // what shows that the stack never outgrows it
    ensures peak <= ChaseDepth(AsMap(store), rank, root) && peak <= Capacity
  {
    ghost var m := AsMap(store);
    // the run is tracked against the room it needs, when that is less than 32
    ghost var bound := Min(ChaseDepth(m, rank, root), Capacity);
    var stack := new Stack<nat>(Capacity);
    var cursor := Some(root);
    sum := 0;
    lost := [];
    peak := 0;
    ChaseStartCursor(m, rank, root, bound);
    while cursor.Some?
      invariant stack.Valid() && fresh(stack.data) && stack.capacity == Capacity
      invariant ChaseState(m, rank, root, bound, cursor, stack.Contents, lost, sum)
      invariant cursor.None? ==> stack.Contents == []
      invariant |stack.Contents| <= peak <= bound
      decreases CurrentSize(m, rank, cursor) + StackSize(m, rank, stack.Contents)
    {
      cursor, sum, lost, peak := CursorStep(store, rank, root, bound, stack, cursor.value, sum, lost, peak);
    }
    ChaseEndWithin(m, rank, root, bound, Capacity, lost, sum);
  }

  /** The body of the `while let Some(current) = cursor` loop, as in
      `Btt.CursorStep`. */
  method CursorStep(store: Nodes, ghost rank: map<nat, nat>, ghost root: nat, ghost bound: nat,
                    stack: Stack<nat>, current: nat, sum: nat, ghost lost: seq<nat>, ghost peak: nat)
    returns (cursor: Option<nat>, sum': nat, ghost lost': seq<nat>, ghost peak': nat)
    requires stack.Valid() && stack.capacity == Capacity
    requires ChaseState(AsMap(store), rank, root, bound, Some(current), stack.Contents, lost, sum)
    requires bound == Min(ChaseDepth(AsMap(store), rank, root), Capacity)
    requires |stack.Contents| <= peak <= bound
    modifies stack, stack.data
    ensures stack.Valid()
    ensures current < |store|
    ensures store[current].Leaf? ==>
      && sum' == sum + store[current].value as nat && lost' == lost
      && (old(stack.Contents) == [] ==> cursor == None && stack.Contents == [])
      && (old(stack.Contents) != [] ==>
            cursor == Some(old(stack.Contents)[|old(stack.Contents)| - 1]) &&
            stack.Contents == old(stack.Contents)[..|old(stack.Contents)| - 1])
    ensures store[current].Branch? ==>
      && cursor == Some(store[current].left) && sum' == sum
      && stack.Contents == BoundedPush(old(stack.Contents), store[current].right, Capacity)
      && lost' == lost + Discarded(old(stack.Contents), store[current].right, Capacity)
    ensures ChaseState(AsMap(store), rank, root, bound, cursor, stack.Contents, lost', sum')
    ensures cursor.None? ==> stack.Contents == []
    ensures |stack.Contents| <= peak' <= bound
    ensures CurrentSize(AsMap(store), rank, cursor) + StackSize(AsMap(store), rank, stack.Contents)
      < Size(AsMap(store), rank, current) + old(StackSize(AsMap(store), rank, stack.Contents))
  {
    ghost var m := AsMap(store);
    sum', lost', peak' := sum, lost, peak;
    AsMapLookup(store, current);
    match store[current]
    case Leaf(n) =>
      ChaseLeafThenPop(m, rank, root, bound, current, stack.Contents, lost, sum);
      sum' := sum + n as nat;
      cursor := stack.Pop();
    case Branch(l, r) =>
      ghost var before := stack.Contents;
      ChaseBranchWithin(m, rank, root, bound, Capacity, current, before, lost, sum);
      var pushed := stack.Push(r);
      lost' := lost + Discarded(before, r, Capacity);
      peak' := Max(peak, |stack.Contents|);
      cursor := Some(l);
  }

  /** `main`: the sample tree sums to 21; no path in it is longer than 6. */
  method Sample() returns (sum: nat)
    ensures sum == 21
  {
    var store, root := BuildSample();
    DepthBounds(AsMap(store), IndexRank(store), root);
    ghost var lost, peak;
    sum, lost, peak := TraverseStack(store, root, IndexRank(store));
  }

  /** A left spine of 32 branches defers exactly 32 right children and is
      summed in full. */
  method ChainAtCapacity() returns (sum: nat)
    ensures sum == 33
  {
    ChainFacts(32, 32);
    ghost var lost, peak;
    sum, lost, peak := TraverseStack(Chain(32), 32, IndexRank(Chain(32)));
  }

  /** One more branch defers 33: a push is dropped and the sum falls short of
      the true 34. */
  method ChainBeyondCapacity() returns (sum: nat)
    ensures sum < 34
  {
    ChainFacts(33, 33);
    ghost var lost, peak;
    sum, lost, peak := TraverseStack(Chain(33), 33, IndexRank(Chain(33)));
  }
}
