/** The states of the traversal loops, as values, and the one step each loop
    iteration takes.  On a bounded stack a push onto a full stack is dropped;
    a growable stack is the case where no push is ever dropped. */
module Steps {
  import opened Tree
  import opened BoundedStack

  /** The invariant of the push-both loop, between two pops: the stack `s`
      and the dropped digests `lost` account for everything not yet in `sum`,
      and as long as nothing was dropped, the rest of the run fits into `cap`
      entries exactly when the whole run does. */
  ghost predicate PushBothState<K>(store: map<K, Node<K>>, rank: map<K, nat>, root: K, cap: nat,
                                   s: seq<K>, lost: seq<K>, sum: nat)
  {
    && WellFounded(store, rank) && root in rank
    && AllRanked(rank, s) && AllRanked(rank, lost) && |s| <= cap
    && sum + StackSum(store, rank, s) + StackSum(store, rank, lost) == PathSum(store, rank, root)
    && (lost == [] ==> (StackPushBothFits(store, rank, s, cap) <==> PushBothFits(store, rank, root, 0, cap)))
    && (lost != [] ==> !PushBothFits(store, rank, root, 0, cap))
  }

  lemma PushBothStart<K>(store: map<K, Node<K>>, rank: map<K, nat>, root: K, cap: nat)
    requires WellFounded(store, rank) && root in rank && cap >= 1
    ensures BoundedPush([], root, cap) == [root] && Discarded([], root, cap) == []
    ensures PushBothState(store, rank, root, cap, [root], [], 0)
  {
    Pushed(store, rank, [], root, cap);
  }

  /** Popping a leaf adds its value. */
  lemma PushBothLeaf<K>(store: map<K, Node<K>>, rank: map<K, nat>, root: K, cap: nat,
                        s: seq<K>, lost: seq<K>, sum: nat)
    requires PushBothState(store, rank, root, cap, s, lost, sum) && s != []
    requires s[|s| - 1] in rank && store[s[|s| - 1]].Leaf?
    ensures PushBothState(store, rank, root, cap, s[..|s| - 1], lost, sum + store[s[|s| - 1]].value as nat)
    ensures StackSize(store, rank, s[..|s| - 1]) < StackSize(store, rank, s)
  {
    Popped(rank, s);
  }

  /** Popping a branch pushes its right and then its left child.  The right
      child always finds room, since its parent was just popped; nothing is
      dropped while the rest of the run fits. */
  lemma PushBothBranch<K>(store: map<K, Node<K>>, rank: map<K, nat>, root: K, cap: nat,
                          s: seq<K>, lost: seq<K>, sum: nat)
    requires PushBothState(store, rank, root, cap, s, lost, sum) && s != []
    requires s[|s| - 1] in rank && store[s[|s| - 1]].Branch?
    ensures
      var t, l, r := s[..|s| - 1], store[s[|s| - 1]].left, store[s[|s| - 1]].right;
      var t2, lost2 := BoundedPush(t + [r], l, cap), lost + Discarded(t + [r], l, cap);
      && |t| < cap
      && PushBothState(store, rank, root, cap, t2, lost2, sum)
      && StackSize(store, rank, t2) < StackSize(store, rank, s)
      && (lost == [] && PushBothFits(store, rank, root, 0, cap) ==> |t| + 2 <= cap)
  {
    Popped(rank, s);
    var t, d := s[..|s| - 1], s[|s| - 1];
    var l, r := store[d].left, store[d].right;
    Pushed(store, rank, t, r, cap);
    var t1 := t + [r];
    Pushed(store, rank, t1, l, cap);
    if |t1| < cap {
      assert lost + Discarded(t1, l, cap) == lost;
    } else {
      Pushed(store, rank, lost, l, cap);
    }
  }

  /** The push-both loop has ended: `sum` misses exactly the dropped digests,
      and a digest was dropped exactly when the run does not fit. */
  lemma PushBothEnd<K>(store: map<K, Node<K>>, rank: map<K, nat>, root: K, cap: nat, lost: seq<K>, sum: nat)
    requires PushBothState(store, rank, root, cap, [], lost, sum)
    ensures sum + StackSum(store, rank, lost) == PathSum(store, rank, root)
    ensures lost == [] <==> PushBothDepth(store, rank, root) <= cap
    ensures sum <= PathSum(store, rank, root)
    ensures PushBothDepth(store, rank, root) <= cap ==> sum == PathSum(store, rank, root)
    ensures PositiveLeaves(store, rank) ==>
      (sum == PathSum(store, rank, root) <==> PushBothDepth(store, rank, root) <= cap)
  {
    PushBothFitsDepth(store, rank, root, 0, cap);
    if PositiveLeaves(store, rank) {
      PositiveStackSum(store, rank, lost);
    }
  }

  /** The path sum still owed by the current node of a chase, if any. */
  ghost function CurrentSum<K>(store: map<K, Node<K>>, rank: map<K, nat>, cur: Option<K>): nat
    requires WellFounded(store, rank) && (cur.Some? ==> cur.value in rank)
  {
    if cur.Some? then PathSum(store, rank, cur.value) else 0
  }

  ghost function CurrentSize<K>(store: map<K, Node<K>>, rank: map<K, nat>, cur: Option<K>): nat
    requires WellFounded(store, rank) && (cur.Some? ==> cur.value in rank)
  {
    if cur.Some? then Size(store, rank, cur.value) else 0
  }

  ghost predicate CurrentFits<K>(store: map<K, Node<K>>, rank: map<K, nat>, cur: Option<K>, h: nat, cap: nat)
    requires WellFounded(store, rank) && (cur.Some? ==> cur.value in rank)
  {
    cur.Some? ==> ChaseFits(store, rank, cur.value, h, cap)
  }

  /** The invariant of the chase-left and cursor loops: the current node
      `cur` (if any), the stack `s` of deferred right children and the
      dropped digests `lost` account for everything not yet in `sum`, and as
      long as nothing was dropped, the rest of the run fits into `cap`
      entries exactly when the whole run does. */
  ghost predicate ChaseState<K>(store: map<K, Node<K>>, rank: map<K, nat>, root: K, cap: nat,
                                cur: Option<K>, s: seq<K>, lost: seq<K>, sum: nat)
  {
    && WellFounded(store, rank) && root in rank
    && (cur.Some? ==> cur.value in rank)
    && AllRanked(rank, s) && AllRanked(rank, lost) && |s| <= cap
    && sum + CurrentSum(store, rank, cur) + StackSum(store, rank, s) + StackSum(store, rank, lost)
       == PathSum(store, rank, root)
    && (lost == [] ==>
          (StackChaseFits(store, rank, s, cap) && CurrentFits(store, rank, cur, |s|, cap)
           <==> ChaseFits(store, rank, root, 0, cap)))
    && (lost != [] ==> !ChaseFits(store, rank, root, 0, cap))
  }

  /** The cursor shape starts with the root as current node and an empty stack. */
  lemma ChaseStartCursor<K>(store: map<K, Node<K>>, rank: map<K, nat>, root: K, cap: nat)
    requires WellFounded(store, rank) && root in rank
    ensures ChaseState(store, rank, root, cap, Some(root), [], [], 0)
  {
  }

  /** The chase-left shape starts with the root on the stack. */
  lemma ChaseStartLoop<K>(store: map<K, Node<K>>, rank: map<K, nat>, root: K, cap: nat)
    requires WellFounded(store, rank) && root in rank && cap >= 1
    ensures BoundedPush([], root, cap) == [root] && Discarded([], root, cap) == []
    ensures ChaseState(store, rank, root, cap, None, [root], [], 0)
  {
    Pushed(store, rank, [], root, cap);
  }

  /** The top of the stack becomes the current node. */
  lemma ChasePop<K>(store: map<K, Node<K>>, rank: map<K, nat>, root: K, cap: nat,
                    s: seq<K>, lost: seq<K>, sum: nat)
    requires ChaseState(store, rank, root, cap, None, s, lost, sum) && s != []
    ensures ChaseState(store, rank, root, cap, Some(s[|s| - 1]), s[..|s| - 1], lost, sum)
    ensures Size(store, rank, s[|s| - 1]) + StackSize(store, rank, s[..|s| - 1]) == StackSize(store, rank, s)
  {
    Popped(rank, s);
  }

  /** A current leaf adds its value; there is no current node any more. */
  lemma ChaseLeaf<K>(store: map<K, Node<K>>, rank: map<K, nat>, root: K, cap: nat,
                     c: K, s: seq<K>, lost: seq<K>, sum: nat)
    requires ChaseState(store, rank, root, cap, Some(c), s, lost, sum) && store[c].Leaf?
    ensures ChaseState(store, rank, root, cap, None, s, lost, sum + store[c].value as nat)
  {
  }

  /** The cursor shape at a leaf: add its value, and the top of the stack (if
      any) becomes the current node. */
  lemma ChaseLeafThenPop<K>(store: map<K, Node<K>>, rank: map<K, nat>, root: K, cap: nat,
                            c: K, s: seq<K>, lost: seq<K>, sum: nat)
    requires ChaseState(store, rank, root, cap, Some(c), s, lost, sum) && store[c].Leaf?
    ensures s == [] ==> ChaseState(store, rank, root, cap, None, s, lost, sum + store[c].value as nat)
    ensures s != [] ==>
      && ChaseState(store, rank, root, cap, Some(s[|s| - 1]), s[..|s| - 1], lost, sum + store[c].value as nat)
      && Size(store, rank, s[|s| - 1]) + StackSize(store, rank, s[..|s| - 1]) < Size(store, rank, c) + StackSize(store, rank, s)
  {
    ChaseLeaf(store, rank, root, cap, c, s, lost, sum);
    if s != [] {
      ChasePop(store, rank, root, cap, s, lost, sum + store[c].value as nat);
    }
  }

  /** A current branch defers its right child and continues with its left
      child.  Nothing is dropped while the rest of the run fits. */
  lemma ChaseBranch<K>(store: map<K, Node<K>>, rank: map<K, nat>, root: K, cap: nat,
                       c: K, s: seq<K>, lost: seq<K>, sum: nat)
    requires ChaseState(store, rank, root, cap, Some(c), s, lost, sum) && store[c].Branch?
    ensures store[c].left in rank
    ensures
      var l, r := store[c].left, store[c].right;
      && ChaseState(store, rank, root, cap, Some(l), BoundedPush(s, r, cap), lost + Discarded(s, r, cap), sum)
      && Size(store, rank, l) + StackSize(store, rank, BoundedPush(s, r, cap)) < Size(store, rank, c) + StackSize(store, rank, s)
      && (lost == [] && ChaseFits(store, rank, root, 0, cap) ==> |s| + 1 <= cap)
  {
    var l, r := store[c].left, store[c].right;
    if |s| < cap {
      Pushed(store, rank, s, r, cap);
      assert lost + Discarded(s, r, cap) == lost;
    } else {
      Pushed(store, rank, lost, r, cap);
    }
  }

  /** `ChaseBranch` on a stack with room for `room` entries, for a run tracked
      against the room it needs, `cap = min(chase depth, room)`: while the run
      fits, a deferred right child always finds one of the first `cap` slots
      free, so the push is the one the tracked run makes. */
  lemma ChaseBranchWithin<K>(store: map<K, Node<K>>, rank: map<K, nat>, root: K, cap: nat, room: nat,
                             c: K, s: seq<K>, lost: seq<K>, sum: nat)
    requires ChaseState(store, rank, root, cap, Some(c), s, lost, sum) && store[c].Branch?
    requires cap == Min(ChaseDepth(store, rank, root), room)
    ensures store[c].left in rank
    ensures
      var l, r := store[c].left, store[c].right;
      && ChaseState(store, rank, root, cap, Some(l), BoundedPush(s, r, room), lost + Discarded(s, r, room), sum)
      && Size(store, rank, l) + StackSize(store, rank, BoundedPush(s, r, room)) < Size(store, rank, c) + StackSize(store, rank, s)
      && |BoundedPush(s, r, room)| <= cap
  {
    ChaseFitsDepth(store, rank, root, 0, cap);
    ChaseBranch(store, rank, root, cap, c, s, lost, sum);
  }

  /** Where one inner chase ends up, seen from outside the loop. */
  datatype Walk<K> = Walk(stack: seq<K>, dropped: seq<K>, leaf: nat)

  /** The inner `loop` of the chase-left shape, from the current node `c` on
      the stack `s` with room for `cap` entries: each branch on the left path
      from `c` defers its right child, and the walk stops at the first leaf.
      The result is the stack at that point, the right children that found no
      room, and the value of the leaf. */
  ghost function ChaseWalk<K>(store: map<K, Node<K>>, rank: map<K, nat>, c: K, s: seq<K>, cap: nat): Walk<K>
    requires WellFounded(store, rank) && c in rank
    decreases rank[c]
  {
    match store[c]
    case Leaf(n) => Walk(s, [], n as nat)
    case Branch(l, r) =>
      var w := ChaseWalk(store, rank, l, BoundedPush(s, r, cap), cap);
      Walk(w.stack, Discarded(s, r, cap) + w.dropped, w.leaf)
  }

  /** The walk accounts for everything it passes: the path sums of `c` and of
      the stack become the leaf's value plus the path sums of the stack and of
      the dropped children at the end.  The walk only ever adds to the stack,
      and never beyond `cap` entries. */
  lemma {:induction false} ChaseWalkAccounts<K>(store: map<K, Node<K>>, rank: map<K, nat>, c: K, s: seq<K>, cap: nat)
    requires WellFounded(store, rank) && c in rank && AllRanked(rank, s)
    ensures
      var w := ChaseWalk(store, rank, c, s, cap);
      && AllRanked(rank, w.stack) && AllRanked(rank, w.dropped)
      && PathSum(store, rank, c) + StackSum(store, rank, s)
         == w.leaf + StackSum(store, rank, w.stack) + StackSum(store, rank, w.dropped)
      && s <= w.stack
      && (|s| <= cap ==> |w.stack| <= cap)
    decreases rank[c]
  {
    match store[c]
    case Leaf(_) =>
    case Branch(l, r) =>
      var t, d := BoundedPush(s, r, cap), Discarded(s, r, cap);
      Pushed(store, rank, s, r, cap);
      Pushed(store, rank, [], r, cap);
      assert [] + [r] == [r];
      ChaseWalkAccounts(store, rank, l, t, cap);
      var w := ChaseWalk(store, rank, l, t, cap);
      StackSumAppend(store, rank, d, w.dropped);
  }

  lemma AppendAssociative<K>(a: seq<K>, b: seq<K>, c: seq<K>)
    ensures a + b + c == a + (b + c)
  {
  }

  /** One step of the walk at a branch. */
  lemma ChaseWalkBranch<K>(store: map<K, Node<K>>, rank: map<K, nat>, c: K, s: seq<K>, cap: nat)
    requires WellFounded(store, rank) && c in rank && store[c].Branch?
    ensures store[c].left in rank
    ensures
      var w := ChaseWalk(store, rank, store[c].left, BoundedPush(s, store[c].right, cap), cap);
      ChaseWalk(store, rank, c, s, cap) == Walk(w.stack, Discarded(s, store[c].right, cap) + w.dropped, w.leaf)
  {
  }

  /** The walk keeps the invariant of the chase: from a current node `c` it
      reaches a state with no current node, and leaves less work than it found. */
  lemma {:induction false} ChaseWalkKeepsState<K>(store: map<K, Node<K>>, rank: map<K, nat>, root: K, cap: nat,
                                                  c: K, s: seq<K>, lost: seq<K>, sum: nat)
    requires ChaseState(store, rank, root, cap, Some(c), s, lost, sum)
    ensures
      var w := ChaseWalk(store, rank, c, s, cap);
      && ChaseState(store, rank, root, cap, None, w.stack, lost + w.dropped, sum + w.leaf)
      && StackSize(store, rank, w.stack) < Size(store, rank, c) + StackSize(store, rank, s)
    decreases rank[c]
  {
    match store[c]
    case Leaf(_) =>
      ChaseLeaf(store, rank, root, cap, c, s, lost, sum);
      assert lost + [] == lost;
    case Branch(l, r) =>
      ChaseWalkBranch(store, rank, c, s, cap);
      ChaseBranch(store, rank, root, cap, c, s, lost, sum);
      var t, d := BoundedPush(s, r, cap), Discarded(s, r, cap);
      ChaseWalkKeepsState(store, rank, root, cap, l, t, lost + d, sum);
      var w := ChaseWalk(store, rank, l, t, cap);
      AppendAssociative(lost, d, w.dropped);
  }

  /** The chase has ended: `sum` misses exactly the dropped digests, and a
      digest was dropped exactly when the run does not fit. */
  lemma ChaseEnd<K>(store: map<K, Node<K>>, rank: map<K, nat>, root: K, cap: nat, lost: seq<K>, sum: nat)
    requires ChaseState(store, rank, root, cap, None, [], lost, sum)
    ensures sum + StackSum(store, rank, lost) == PathSum(store, rank, root)
    ensures lost == [] <==> ChaseDepth(store, rank, root) <= cap
    ensures sum <= PathSum(store, rank, root)
    ensures ChaseDepth(store, rank, root) <= cap ==> sum == PathSum(store, rank, root)
    ensures PositiveLeaves(store, rank) ==>
      (sum == PathSum(store, rank, root) <==> ChaseDepth(store, rank, root) <= cap)
  {
    ChaseFitsDepth(store, rank, root, 0, cap);
    if PositiveLeaves(store, rank) {
      PositiveStackSum(store, rank, lost);
    }
  }

  /** `ChaseEnd` for a run tracked against `cap = min(chase depth, room)`,
      stated against the room of the stack. */
  lemma ChaseEndWithin<K>(store: map<K, Node<K>>, rank: map<K, nat>, root: K, cap: nat, room: nat,
                          lost: seq<K>, sum: nat)
    requires ChaseState(store, rank, root, cap, None, [], lost, sum)
    requires cap == Min(ChaseDepth(store, rank, root), room)
    ensures sum + StackSum(store, rank, lost) == PathSum(store, rank, root)
    ensures lost == [] <==> ChaseDepth(store, rank, root) <= room
    ensures sum <= PathSum(store, rank, root)
    ensures ChaseDepth(store, rank, root) <= room ==> sum == PathSum(store, rank, root)
    ensures PositiveLeaves(store, rank) ==>
      (sum == PathSum(store, rank, root) <==> ChaseDepth(store, rank, root) <= room)
  {
    ChaseEnd(store, rank, root, cap, lost, sum);
  }
}
