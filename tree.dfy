/** The logical tree of the traversals: nodes, read-only stores, and the
    recursive reference definitions every traversal is proved against.

    A store maps a key (a 32-byte digest in `lib.rs`, a position in the
    standalone files) to a node.  The key type is a parameter `K` so that both
    kinds of store share one definition of the path sum.  */
module Tree {

  /** Rust's `u32`: the type of leaf values. */
  newtype u32 = x: int | 0 <= x < 0x1_0000_0000

  datatype Node<K> = Branch(left: K, right: K) | Leaf(value: u32)

  datatype Option<T> = None | Some(value: T)

  function Max(a: int, b: int): int {
    if a < b then b else a
  }

  function Min(a: int, b: int): int {
    if a < b then a else b
  }

  /** `rank` witnesses that the part of the store a traversal can reach is
      finite and acyclic: every ranked key is in the store, and the children of
      a ranked branch are ranked strictly lower.  A root with a rank therefore
      never leads to a missing key or to a cycle, on which `traverse_sum` and
      `traverse_stack` may panic, loop forever or stop early.  Keys that are
      not ranked are unconstrained. */
  ghost predicate WellFounded<K>(store: map<K, Node<K>>, rank: map<K, nat>) {
    forall d {:trigger store[d]} {:trigger d in store} | d in rank ::
      d in store &&
      (store[d].Branch? ==>
         store[d].left in rank && rank[store[d].left] < rank[d] &&
         store[d].right in rank && rank[store[d].right] < rank[d])
  }

  /** The specification of every traversal: a leaf gives its value, a branch
      the sum of both children.  A key reached along several paths is counted
      once per path. */
  ghost function PathSum<K>(store: map<K, Node<K>>, rank: map<K, nat>, d: K): nat
    requires WellFounded(store, rank) && d in rank
    decreases rank[d]
  {
    match store[d]
    case Leaf(v) => v as nat
    case Branch(l, r) => PathSum(store, rank, l) + PathSum(store, rank, r)
  }

  /** The number of nodes of the unfolded tree below `d`: it bounds the work
      left to a traversal and so proves that every traversal terminates. */
  ghost function Size<K>(store: map<K, Node<K>>, rank: map<K, nat>, d: K): (n: nat)
    requires WellFounded(store, rank) && d in rank
    ensures n >= 1
    decreases rank[d]
  {
    match store[d]
    case Leaf(_) => 1
    case Branch(l, r) => 1 + Size(store, rank, l) + Size(store, rank, r)
  }

  /** The number of branches on the longest path from `d` to a leaf. */
  ghost function Depth<K>(store: map<K, Node<K>>, rank: map<K, nat>, d: K): nat
    requires WellFounded(store, rank) && d in rank
    decreases rank[d]
  {
    match store[d]
    case Leaf(_) => 0
    case Branch(l, r) => 1 + Max(Depth(store, rank, l), Depth(store, rank, r))
  }

  /** How far the stack of the chase-left and cursor shapes grows above its
      height at the moment they start on `d`: a branch defers its right child
      (one entry) while its left child is explored, and the right child is
      explored after that entry has been popped again. */
  ghost function ChaseDepth<K>(store: map<K, Node<K>>, rank: map<K, nat>, d: K): nat
    requires WellFounded(store, rank) && d in rank
    decreases rank[d]
  {
    match store[d]
    case Leaf(_) => 0
    case Branch(l, r) => Max(1 + ChaseDepth(store, rank, l), ChaseDepth(store, rank, r))
  }

  /** How far the stack of the push-both shape grows above its height after
      `d` has been popped: a branch pushes two entries, pops the left child
      (one entry stays) and later pops the right child at the original height. */
  ghost function PushBothDepth<K>(store: map<K, Node<K>>, rank: map<K, nat>, d: K): nat
    requires WellFounded(store, rank) && d in rank
    decreases rank[d]
  {
    match store[d]
    case Leaf(_) => 0
    case Branch(l, r) =>
      Max(2, Max(1 + PushBothDepth(store, rank, l), PushBothDepth(store, rank, r)))
  }

  ghost predicate AllRanked<K>(rank: map<K, nat>, s: seq<K>) {
    forall i | 0 <= i < |s| :: s[i] in rank
  }

  /** The path sums of every key on a stack (top = last element). */
  ghost function StackSum<K>(store: map<K, Node<K>>, rank: map<K, nat>, s: seq<K>): nat
    requires WellFounded(store, rank) && AllRanked(rank, s)
  {
    if s == [] then 0
    else StackSum(store, rank, s[..|s| - 1]) + PathSum(store, rank, s[|s| - 1])
  }

  ghost function StackSize<K>(store: map<K, Node<K>>, rank: map<K, nat>, s: seq<K>): nat
    requires WellFounded(store, rank) && AllRanked(rank, s)
  {
    if s == [] then 0
    else StackSize(store, rank, s[..|s| - 1]) + Size(store, rank, s[|s| - 1])
  }

  /** Whether the push-both shape, having popped `d` off a stack that still
      holds `h` entries, processes the whole subtree of `d` without ever
      holding more than `cap` entries: a branch pushes two entries, pops its
      left child (one entry stays) and later pops its right child at height h. */
  ghost predicate PushBothFits<K>(store: map<K, Node<K>>, rank: map<K, nat>, d: K, h: nat, cap: nat)
    requires WellFounded(store, rank) && d in rank
    decreases rank[d]
  {
    match store[d]
    case Leaf(_) => h <= cap
    case Branch(l, r) => h + 2 <= cap && PushBothFits(store, rank, l, h + 1, cap) && PushBothFits(store, rank, r, h, cap)
  }

  /** Whether the chase-left and cursor shapes, making `d` the current node
      while the stack holds `h` entries, process the whole subtree of `d`
      without ever holding more than `cap` entries: a branch defers its right
      child (one entry), goes on with its left child, and the right child
      becomes current after that entry has been popped again. */
  ghost predicate ChaseFits<K>(store: map<K, Node<K>>, rank: map<K, nat>, d: K, h: nat, cap: nat)
    requires WellFounded(store, rank) && d in rank
    decreases rank[d]
  {
    match store[d]
    case Leaf(_) => h <= cap
    case Branch(l, r) => h + 1 <= cap && ChaseFits(store, rank, l, h + 1, cap) && ChaseFits(store, rank, r, h, cap)
  }

  /** Whether the push-both shape drains the stack `s` within `cap` entries:
      the entry at position i is popped when i entries lie below it. */
  ghost predicate StackPushBothFits<K>(store: map<K, Node<K>>, rank: map<K, nat>, s: seq<K>, cap: nat)
    requires WellFounded(store, rank) && AllRanked(rank, s)
  {
    s == [] ||
    (StackPushBothFits(store, rank, s[..|s| - 1], cap) && PushBothFits(store, rank, s[|s| - 1], |s| - 1, cap))
  }

  /** The same for the chase-left and cursor shapes: the entry at position i
      becomes the current node when i entries lie below it. */
  ghost predicate StackChaseFits<K>(store: map<K, Node<K>>, rank: map<K, nat>, s: seq<K>, cap: nat)
    requires WellFounded(store, rank) && AllRanked(rank, s)
  {
    s == [] ||
    (StackChaseFits(store, rank, s[..|s| - 1], cap) && ChaseFits(store, rank, s[|s| - 1], |s| - 1, cap))
  }

  /** Pushing `x` keeps every key of the stack ranked. */
  lemma PushedRanked<K>(rank: map<K, nat>, s: seq<K>, x: K)
    requires AllRanked(rank, s) && x in rank
    ensures AllRanked(rank, s + [x])
  {
  }

  /** Pushing `x` adds its own share to each stack fold. */
  lemma PushedSum<K>(store: map<K, Node<K>>, rank: map<K, nat>, s: seq<K>, x: K)
    requires WellFounded(store, rank) && AllRanked(rank, s) && x in rank && AllRanked(rank, s + [x])
    ensures StackSum(store, rank, s + [x]) == StackSum(store, rank, s) + PathSum(store, rank, x)
  {
    assert (s + [x])[..|s|] == s;
  }

  lemma PushedSize<K>(store: map<K, Node<K>>, rank: map<K, nat>, s: seq<K>, x: K)
    requires WellFounded(store, rank) && AllRanked(rank, s) && x in rank && AllRanked(rank, s + [x])
    ensures StackSize(store, rank, s + [x]) == StackSize(store, rank, s) + Size(store, rank, x)
  {
    assert (s + [x])[..|s|] == s;
  }

  lemma PushedFits<K>(store: map<K, Node<K>>, rank: map<K, nat>, s: seq<K>, x: K, cap: nat)
    requires WellFounded(store, rank) && AllRanked(rank, s) && x in rank && AllRanked(rank, s + [x])
    ensures StackPushBothFits(store, rank, s + [x], cap) == (StackPushBothFits(store, rank, s, cap) && PushBothFits(store, rank, x, |s|, cap))
    ensures StackChaseFits(store, rank, s + [x], cap) == (StackChaseFits(store, rank, s, cap) && ChaseFits(store, rank, x, |s|, cap))
  {
    assert (s + [x])[..|s|] == s;
  }

  /** Pushing `x` adds its own share to each stack fold. */
  lemma Pushed<K>(store: map<K, Node<K>>, rank: map<K, nat>, s: seq<K>, x: K, cap: nat)
    requires WellFounded(store, rank) && AllRanked(rank, s) && x in rank
    ensures AllRanked(rank, s + [x])
    ensures StackSum(store, rank, s + [x]) == StackSum(store, rank, s) + PathSum(store, rank, x)
    ensures StackSize(store, rank, s + [x]) == StackSize(store, rank, s) + Size(store, rank, x)
    ensures StackPushBothFits(store, rank, s + [x], cap) == (StackPushBothFits(store, rank, s, cap) && PushBothFits(store, rank, x, |s|, cap))
    ensures StackChaseFits(store, rank, s + [x], cap) == (StackChaseFits(store, rank, s, cap) && ChaseFits(store, rank, x, |s|, cap))
  {
    PushedRanked(rank, s, x);
    PushedSum(store, rank, s, x);
    PushedSize(store, rank, s, x);
    PushedFits(store, rank, s, x, cap);
  }

  /** Two stacks placed one on the other: their folds add up. */
  lemma {:induction false} StackSumAppend<K>(store: map<K, Node<K>>, rank: map<K, nat>, a: seq<K>, b: seq<K>)
    requires WellFounded(store, rank) && AllRanked(rank, a) && AllRanked(rank, b)
    ensures AllRanked(rank, a + b)
    ensures StackSum(store, rank, a + b) == StackSum(store, rank, a) + StackSum(store, rank, b)
    decreases |b|
  {
    if b == [] {
      assert a + b == a;
    } else {
      var t := b[..|b| - 1];
      Popped(rank, b);
      StackSumAppend(store, rank, a, t);
      assert a + b == (a + t) + [b[|b| - 1]];
      PushedSum(store, rank, a + t, b[|b| - 1]);
    }
  }

  /** Popping the top entry leaves a stack whose keys are still ranked. */
  lemma Popped<K>(rank: map<K, nat>, s: seq<K>)
    requires AllRanked(rank, s) && s != []
    ensures AllRanked(rank, s[..|s| - 1]) && s[|s| - 1] in rank
  {
    var t := s[..|s| - 1];
    assert forall i | 0 <= i < |t| :: t[i] == s[i];
  }

  /** The path sum does not depend on which rank witnesses well-foundedness. */
  lemma {:induction false} PathSumRankIndependent<K>(store: map<K, Node<K>>, rank1: map<K, nat>, rank2: map<K, nat>, d: K)
    requires WellFounded(store, rank1) && WellFounded(store, rank2) && d in rank1 && d in rank2
    ensures PathSum(store, rank1, d) == PathSum(store, rank2, d)
    decreases rank1[d]
  {
    match store[d]
    case Leaf(_) =>
    case Branch(l, r) =>
      PathSumRankIndependent(store, rank1, rank2, l);
      PathSumRankIndependent(store, rank1, rank2, r);
  }

  /** A branch whose two children are the same key counts that child twice:
      sharing is never deduplicated. */
  lemma {:induction false} SharedChildCountedTwice<K>(store: map<K, Node<K>>, rank: map<K, nat>, d: K, c: K)
    requires WellFounded(store, rank) && d in rank && store[d] == Branch(c, c)
    ensures c in rank && PathSum(store, rank, d) == 2 * PathSum(store, rank, c)
  {
  }

  /** The chase-left stack never needs more room than the push-both stack,
      and never more than one entry per branch on the longest path. */
  lemma {:induction false} DepthBounds<K>(store: map<K, Node<K>>, rank: map<K, nat>, d: K)
    requires WellFounded(store, rank) && d in rank
    ensures ChaseDepth(store, rank, d) <= Depth(store, rank, d)
    ensures ChaseDepth(store, rank, d) <= PushBothDepth(store, rank, d) <= Depth(store, rank, d) + 1
    decreases rank[d]
  {
    match store[d]
    case Leaf(_) =>
    case Branch(l, r) =>
      DepthBounds(store, rank, l);
      DepthBounds(store, rank, r);
  }

  /** The longest path below `d` is no longer than `d`'s rank. */
  lemma {:induction false} DepthBelowRank<K>(store: map<K, Node<K>>, rank: map<K, nat>, d: K)
    requires WellFounded(store, rank) && d in rank
    ensures Depth(store, rank, d) <= rank[d]
    decreases rank[d]
  {
    match store[d]
    case Leaf(_) =>
    case Branch(l, r) =>
      DepthBelowRank(store, rank, l);
      DepthBelowRank(store, rank, r);
  }

  /** The push-both shape stays within `cap` entries exactly when the
      closed-form depth says so. */
  lemma {:induction false} PushBothFitsDepth<K>(store: map<K, Node<K>>, rank: map<K, nat>, d: K, h: nat, cap: nat)
    requires WellFounded(store, rank) && d in rank
    ensures PushBothFits(store, rank, d, h, cap) <==> h + PushBothDepth(store, rank, d) <= cap
    decreases rank[d]
  {
    match store[d]
    case Leaf(_) =>
    case Branch(l, r) =>
      PushBothFitsDepth(store, rank, l, h + 1, cap);
      PushBothFitsDepth(store, rank, r, h, cap);
  }

  /** The chase-left and cursor shapes stay within `cap` entries exactly when
      the closed-form depth says so. */
  lemma {:induction false} ChaseFitsDepth<K>(store: map<K, Node<K>>, rank: map<K, nat>, d: K, h: nat, cap: nat)
    requires WellFounded(store, rank) && d in rank
    ensures ChaseFits(store, rank, d, h, cap) <==> h + ChaseDepth(store, rank, d) <= cap
    decreases rank[d]
  {
    match store[d]
    case Leaf(_) =>
    case Branch(l, r) =>
      ChaseFitsDepth(store, rank, l, h + 1, cap);
      ChaseFitsDepth(store, rank, r, h, cap);
  }

  /** When every leaf carries a positive value, every subtree sums to at least
      one and every stack to at least its length. */
  ghost predicate PositiveLeaves<K>(store: map<K, Node<K>>, rank: map<K, nat>) {
    forall d | d in rank && d in store && store[d].Leaf? :: store[d].value > 0
  }

  lemma {:induction false} PositivePathSum<K>(store: map<K, Node<K>>, rank: map<K, nat>, d: K)
    requires WellFounded(store, rank) && PositiveLeaves(store, rank) && d in rank
    ensures PathSum(store, rank, d) >= 1
    decreases rank[d]
  {
    match store[d]
    case Leaf(_) =>
    case Branch(l, r) =>
      PositivePathSum(store, rank, l);
  }

  lemma {:induction false} PositiveStackSum<K>(store: map<K, Node<K>>, rank: map<K, nat>, s: seq<K>)
    requires WellFounded(store, rank) && PositiveLeaves(store, rank) && AllRanked(rank, s)
    ensures StackSum(store, rank, s) >= |s|
    decreases |s|
  {
    if s != [] {
      PositiveStackSum(store, rank, s[..|s| - 1]);
      PositivePathSum(store, rank, s[|s| - 1]);
    }
  }
}
