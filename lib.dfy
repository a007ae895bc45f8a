/** The six `Traverse` implementations of `src/lib.rs`: each sums the leaf
    values reachable from a root digest, with an explicit stack.

    Every method takes the ghost `rank` that witnesses that the digests
    reachable from `root` are all in the store and form no cycle (see
    `Tree.WellFounded`).  On other stores `traverse_sum` may panic on a
    missing key, loop forever on a cycle, or, in a bounded variant, stop
    early because the push that closes a cycle is dropped; the model says
    nothing about them.  The store is a value and is only read.

    The growable variants return `PathSum` unconditionally and report, as the
    ghost `peak`, a bound on the entries their stack ever holds.  The bounded
    variants are modelled as written: a push onto a full stack is dropped, and
    the ghost `lost` collects the dropped digests. */
module Btt {
  import opened Tree
  import opened BoundedStack
  import opened Steps

  type Byte = bv8

  /** `[u8; 32]` */
  type Digest = s: seq<Byte> | |s| == 32 witness seq(32, _ => 0)

  /** `HashMap<Digest, Node>` */
  type Store = map<Digest, Node<Digest>>

  /** `Simple::traverse_sum`: push-both shape on a growable stack. */
  method SimpleTraverseSum(store: Store, root: Digest, ghost rank: map<Digest, nat>)
    returns (sum: nat, ghost peak: nat)
    requires WellFounded(store, rank) && root in rank
    ensures sum == PathSum(store, rank, root)
    // an upper bound only: the loop invariant `|stack| <= peak <= bound` is
    // what shows that the stack never outgrows it
    ensures peak <= Max(1, PushBothDepth(store, rank, root))
  {
    ghost var bound := Max(1, PushBothDepth(store, rank, root));
    PushBothFitsDepth(store, rank, root, 0, bound);
    PushBothStart(store, rank, root, bound);
    var stack := [root];
    sum := 0;
    peak := 1;
    while stack != []
      invariant PushBothState(store, rank, root, bound, stack, [], sum)
      invariant |stack| <= peak <= bound
      decreases StackSize(store, rank, stack)
    {
      ghost var before := stack;
      var node := stack[|stack| - 1];
      stack := stack[..|stack| - 1];
      match store[node]
      case Leaf(n) =>
        PushBothLeaf(store, rank, root, bound, before, [], sum);
        sum := sum + n as nat;
      case Branch(l, r) =>
        PushBothBranch(store, rank, root, bound, before, [], sum);
        stack := stack + [r];
        stack := stack + [l];
        peak := Max(peak, |stack|);
    }
    PushBothEnd(store, rank, root, bound, [], sum);
  }

  /** `Heapless::traverse_sum`: push-both shape on a bounded stack.  The
      result misses exactly the path sums of the dropped digests, and a push
      is dropped exactly when the tree is too deep for 32 entries. */
  method HeaplessTraverseSum(store: Store, root: Digest, ghost rank: map<Digest, nat>)
    returns (sum: nat, ghost lost: seq<Digest>)
    requires WellFounded(store, rank) && root in rank
    ensures AllRanked(rank, lost)
    ensures sum + StackSum(store, rank, lost) == PathSum(store, rank, root)
    ensures lost == [] <==> PushBothDepth(store, rank, root) <= Capacity
    ensures sum <= PathSum(store, rank, root)
    ensures PushBothDepth(store, rank, root) <= Capacity ==> sum == PathSum(store, rank, root)
    ensures PositiveLeaves(store, rank) ==>
      (sum == PathSum(store, rank, root) <==> PushBothDepth(store, rank, root) <= Capacity)
  {
    var stack := new Stack<Digest>(Capacity);
    PushBothStart(store, rank, root, Capacity);
    var pushed := stack.Push(root);
    lost := if pushed then [] else [root];
    sum := 0;
    while true
      invariant stack.Valid() && fresh(stack.data) && stack.capacity == Capacity
      invariant PushBothState(store, rank, root, Capacity, stack.Contents, lost, sum)
      decreases StackSize(store, rank, stack.Contents)
    {
      ghost var before := stack.Contents;
      var top := stack.Pop();
      if top.None? {
        break;
      }
      var node := top.value;
      match store[node]
      case Leaf(n) =>
        PushBothLeaf(store, rank, root, Capacity, before, lost, sum);
        sum := sum + n as nat;
      case Branch(l, r) =>
        PushBothBranch(store, rank, root, Capacity, before, lost, sum);
        // the right child always finds room: its parent was just popped
        var pushedR := stack.Push(r);
        var pushedL := stack.Push(l);
        lost := lost + (if pushedL then [] else [l]);
    }
    PushBothEnd(store, rank, root, Capacity, lost, sum);
  }

  /** `HeaplessLoop::traverse_sum`: chase-left shape on a bounded stack. */
  method HeaplessLoopTraverseSum(store: Store, root: Digest, ghost rank: map<Digest, nat>)
    returns (sum: nat, ghost lost: seq<Digest>)
    requires WellFounded(store, rank) && root in rank
    ensures AllRanked(rank, lost)
    ensures sum + StackSum(store, rank, lost) == PathSum(store, rank, root)
    ensures lost == [] <==> ChaseDepth(store, rank, root) <= Capacity
    ensures sum <= PathSum(store, rank, root)
    ensures ChaseDepth(store, rank, root) <= Capacity ==> sum == PathSum(store, rank, root)
    ensures PositiveLeaves(store, rank) ==>
      (sum == PathSum(store, rank, root) <==> ChaseDepth(store, rank, root) <= Capacity)
  {
    var stack := new Stack<Digest>(Capacity);
    ChaseStartLoop(store, rank, root, Capacity);
    var pushed := stack.Push(root);
    lost := if pushed then [] else [root];
    sum := 0;
    while true
      invariant stack.Valid() && fresh(stack.data) && stack.capacity == Capacity
      invariant ChaseState(store, rank, root, Capacity, None, stack.Contents, lost, sum)
      decreases StackSize(store, rank, stack.Contents)
    {
      ghost var before := stack.Contents;
      var top := stack.Pop();
      if top.None? {
        break;
      }
      ChasePop(store, rank, root, Capacity, before, lost, sum);
      sum, lost := ChaseLeft(store, rank, root, stack, top.value, sum, lost);
    }
    ChaseEnd(store, rank, root, Capacity, lost, sum);
  }

  /** The inner `loop` of `HeaplessLoop::traverse_sum`: defer right children
      until the current node is a leaf, and add its value.  The new stack, sum
      and dropped digests are those of the walk `ChaseWalk` from `node`. */
  method ChaseLeft(store: Store, ghost rank: map<Digest, nat>, ghost root: Digest, stack: Stack<Digest>,
                   node: Digest, sum: nat, ghost lost: seq<Digest>)
    returns (sum': nat, ghost lost': seq<Digest>)
    requires stack.Valid() && stack.capacity == Capacity
    requires ChaseState(store, rank, root, Capacity, Some(node), stack.Contents, lost, sum)
    modifies stack, stack.data
    ensures stack.Valid()
    ensures ChaseState(store, rank, root, Capacity, None, stack.Contents, lost', sum')
    ensures StackSize(store, rank, stack.Contents) < Size(store, rank, node) + old(StackSize(store, rank, stack.Contents))
    ensures var w := ChaseWalk(store, rank, node, old(stack.Contents), Capacity);
      stack.Contents == w.stack && lost' == lost + w.dropped && sum' == sum + w.leaf
  {
    ChaseWalkKeepsState(store, rank, root, Capacity, node, stack.Contents, lost, sum);
    ghost var w0 := ChaseWalk(store, rank, node, stack.Contents, Capacity);
    sum', lost' := sum, lost;
    var current := node;
    while true
      invariant stack.Valid() && WellFounded(store, rank) && current in rank
      invariant var w := ChaseWalk(store, rank, current, stack.Contents, Capacity);
        w.stack == w0.stack && lost' + w.dropped == lost + w0.dropped && sum' + w.leaf == sum + w0.leaf
      decreases rank[current]
    {
      match store[current]
      case Leaf(n) =>
        sum' := sum' + n as nat;
        assert lost' + [] == lost';
        return;
      case Branch(l, r) =>
        ghost var before := stack.Contents;
        var pushedR := stack.Push(r);
        ChaseWalkBranch(store, rank, current, before, Capacity);
        AppendAssociative(lost', Discarded(before, r, Capacity), ChaseWalk(store, rank, l, stack.Contents, Capacity).dropped);
        lost' := lost' + Discarded(before, r, Capacity);
        current := l;
    }
  }

  /** `HeaplessOption::traverse_sum`: cursor shape on a bounded stack.  A
      leaf root pushes nothing, and the stack holds at most one deferred right
      child per level (the ghost `peak` bounds the entries the stack holds). */
  method HeaplessOptionTraverseSum(store: Store, root: Digest, ghost rank: map<Digest, nat>)
    returns (sum: nat, ghost lost: seq<Digest>, ghost peak: nat)
    requires WellFounded(store, rank) && root in rank
    ensures AllRanked(rank, lost)
    ensures sum + StackSum(store, rank, lost) == PathSum(store, rank, root)
    ensures lost == [] <==> ChaseDepth(store, rank, root) <= Capacity
    ensures sum <= PathSum(store, rank, root)
    ensures ChaseDepth(store, rank, root) <= Capacity ==> sum == PathSum(store, rank, root)
    ensures PositiveLeaves(store, rank) ==>
      (sum == PathSum(store, rank, root) <==> ChaseDepth(store, rank, root) <= Capacity)
    // an upper bound only: the loop invariant `|stack| <= peak <= bound` is
    // what shows that the stack never outgrows it
    ensures peak <= ChaseDepth(store, rank, root) && peak <= Capacity
  {
    // the run is tracked against the room it needs, when that is less than 32
    ghost var bound := Min(ChaseDepth(store, rank, root), Capacity);
    var stack := new Stack<Digest>(Capacity);
    var cursor := Some(root);
    sum := 0;
    lost := [];
    peak := 0;
    ChaseStartCursor(store, rank, root, bound);
    while cursor.Some?
      invariant stack.Valid() && fresh(stack.data) && stack.capacity == Capacity
      invariant ChaseState(store, rank, root, bound, cursor, stack.Contents, lost, sum)
      invariant cursor.None? ==> stack.Contents == []
      invariant |stack.Contents| <= peak <= bound
      decreases CurrentSize(store, rank, cursor) + StackSize(store, rank, stack.Contents)
    {
      cursor, sum, lost, peak := CursorStep(store, rank, root, bound, stack, cursor.value, sum, lost, peak);
    }
    ChaseEndWithin(store, rank, root, bound, Capacity, lost, sum);
  }

  /** The body of the `while let Some(current) = cursor` loop of
      `HeaplessOption::traverse_sum`: a leaf adds its value and pops the next
      current node; a branch pushes its right child (dropped when the stack
      is full) and continues with its left child. */
  method CursorStep(store: Store, ghost rank: map<Digest, nat>, ghost root: Digest, ghost bound: nat,
                    stack: Stack<Digest>, current: Digest, sum: nat, ghost lost: seq<Digest>, ghost peak: nat)
    returns (cursor: Option<Digest>, sum': nat, ghost lost': seq<Digest>, ghost peak': nat)
    requires stack.Valid() && stack.capacity == Capacity
    requires ChaseState(store, rank, root, bound, Some(current), stack.Contents, lost, sum)
    requires bound == Min(ChaseDepth(store, rank, root), Capacity)
    requires |stack.Contents| <= peak <= bound
    modifies stack, stack.data
    ensures stack.Valid()
    ensures store[current].Leaf? ==>
      && sum' == sum + store[current].value as nat && lost' == lost
      && (old(stack.Contents) == [] ==> cursor == None && stack.Contents == [])
      && (old(stack.Contents) != [] ==>
            cursor == Some(old(stack.Contents)[|old(stack.Contents)| - 1]) &&
            stack.Contents == old(stack.Contents)[..|old(stack.Contents)| - 1])
    ensures store[current].Branch? ==>
      && cursor == Some(store[current].left) && sum' == sum
      && stack.Contents == BoundedPush(old(stack.Contents), store[current].right, Capacity)
      && lost' == lost + Discarded(old(stack.Contents), store[current].right, Capacity)
    ensures ChaseState(store, rank, root, bound, cursor, stack.Contents, lost', sum')
    ensures cursor.None? ==> stack.Contents == []
    ensures |stack.Contents| <= peak' <= bound
    ensures CurrentSize(store, rank, cursor) + StackSize(store, rank, stack.Contents)
      < Size(store, rank, current) + old(StackSize(store, rank, stack.Contents))
  {
    sum', lost', peak' := sum, lost, peak;
    match store[current]
    case Leaf(n) =>
      ChaseLeafThenPop(store, rank, root, bound, current, stack.Contents, lost, sum);
      sum' := sum + n as nat;
      cursor := stack.Pop();
    case Branch(l, r) =>
      ghost var before := stack.Contents;
      ChaseBranchWithin(store, rank, root, bound, Capacity, current, before, lost, sum);
      var pushed := stack.Push(r);
      lost' := lost + Discarded(before, r, Capacity);
      peak' := Max(peak, |stack.Contents|);
      cursor := Some(l);
  }

  /** `VecLoop::traverse_sum`: chase-left shape on a growable stack. */
  method VecLoopTraverseSum(store: Store, root: Digest, ghost rank: map<Digest, nat>)
    returns (sum: nat, ghost peak: nat)
    requires WellFounded(store, rank) && root in rank
    ensures sum == PathSum(store, rank, root)
    // an upper bound only: the loop invariant `|stack| <= peak <= bound` is
    // what shows that the stack never outgrows it
    ensures peak <= Max(1, ChaseDepth(store, rank, root))
  {
    ghost var bound := Max(1, ChaseDepth(store, rank, root));
    ChaseFitsDepth(store, rank, root, 0, bound);
    ChaseStartLoop(store, rank, root, bound);
    var stack := [root];
    sum := 0;
    peak := 1;
    while stack != []
      invariant ChaseState(store, rank, root, bound, None, stack, [], sum)
      invariant |stack| <= peak <= bound
      decreases StackSize(store, rank, stack)
    {
      ghost var before := stack;
      ChasePop(store, rank, root, bound, stack, [], sum);
      var node := stack[|stack| - 1];
      stack := stack[..|stack| - 1];
      while true
        invariant ChaseState(store, rank, root, bound, Some(node), stack, [], sum)
        invariant |stack| <= peak <= bound
        invariant Size(store, rank, node) + StackSize(store, rank, stack) <= StackSize(store, rank, before)
        decreases Size(store, rank, node) + StackSize(store, rank, stack)
      {
        match store[node]
        case Leaf(n) =>
          ChaseLeaf(store, rank, root, bound, node, stack, [], sum);
          sum := sum + n as nat;
          break;
        case Branch(l, r) =>
          ChaseBranch(store, rank, root, bound, node, stack, [], sum);
          stack := stack + [r];
          peak := Max(peak, |stack|);
          node := l;
      }
    }
    ChaseEnd(store, rank, root, bound, [], sum);
  }

  /** `VecOption::traverse_sum`: cursor shape on a growable stack.  A leaf
      root pushes nothing (its chase depth is 0). */
  method VecOptionTraverseSum(store: Store, root: Digest, ghost rank: map<Digest, nat>)
    returns (sum: nat, ghost peak: nat)
    requires WellFounded(store, rank) && root in rank
    ensures sum == PathSum(store, rank, root)
    // an upper bound only: the loop invariant `|stack| <= peak <= bound` is
    // what shows that the stack never outgrows it
    ensures peak <= ChaseDepth(store, rank, root)
  {
    ghost var bound := ChaseDepth(store, rank, root);
    ChaseFitsDepth(store, rank, root, 0, bound);
    ChaseStartCursor(store, rank, root, bound);
    var stack := [];
    var cursor := Some(root);
    sum := 0;
    peak := 0;
    while cursor.Some?
      invariant ChaseState(store, rank, root, bound, cursor, stack, [], sum)
      invariant cursor.None? ==> stack == []
      invariant |stack| <= peak <= bound
      decreases CurrentSize(store, rank, cursor) + StackSize(store, rank, stack)
    {
      var current := cursor.value;
      match store[current]
      case Leaf(n) =>
        ChaseLeaf(store, rank, root, bound, current, stack, [], sum);
        sum := sum + n as nat;
        if stack == [] {
          cursor := None;
        } else {
          ChasePop(store, rank, root, bound, stack, [], sum);
          cursor := Some(stack[|stack| - 1]);
          stack := stack[..|stack| - 1];
        }
      case Branch(l, r) =>
        ChaseBranch(store, rank, root, bound, current, stack, [], sum);
        stack := stack + [r];
        peak := Max(peak, |stack|);
        cursor := Some(l);
    }
    ChaseEnd(store, rank, root, bound, [], sum);
  }

  /** Cross-variant equivalence: whenever the push-both shape fits into the
      32 entries of the bounded stack, all six traversals return the path sum.
      The chase shapes never need more room than the push-both shape. */
  method AllVariantsAgree(store: Store, root: Digest, ghost rank: map<Digest, nat>)
    returns (simple: nat, heapless: nat, heaplessLoop: nat, heaplessOption: nat, vecLoop: nat, vecOption: nat)
    requires WellFounded(store, rank) && root in rank
    requires PushBothDepth(store, rank, root) <= Capacity
    ensures simple == heapless == heaplessLoop == heaplessOption == vecLoop == vecOption
    ensures simple == PathSum(store, rank, root)
  {
    DepthBounds(store, rank, root);
    ghost var peak, lost;
    simple, peak := SimpleTraverseSum(store, root, rank);
    heapless, lost := HeaplessTraverseSum(store, root, rank);
    heaplessLoop, lost := HeaplessLoopTraverseSum(store, root, rank);
    heaplessOption, lost, peak := HeaplessOptionTraverseSum(store, root, rank);
    vecLoop, peak := VecLoopTraverseSum(store, root, rank);
    vecOption, peak := VecOptionTraverseSum(store, root, rank);
  }

  /** A tree whose longest path has fewer than 32 branches fits every bounded
      traversal; one with 32 branches may not (see
      `TraverseHeapless.ChainBeyondCapacity`). */
  lemma ShallowTreesFit(store: Store, root: Digest, rank: map<Digest, nat>)
    requires WellFounded(store, rank) && root in rank
    requires Depth(store, rank, root) < Capacity
    ensures PushBothDepth(store, rank, root) <= Capacity
    ensures ChaseDepth(store, rank, root) <= Capacity
  {
    DepthBounds(store, rank, root);
  }
}
