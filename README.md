# Binary-tree traversals over a content-addressed store

The repository benchmarks six iterative depth-first traversals that all sum
the leaf values of a binary tree. Nodes are not linked by references. They
sit in a store, and a branch names its two children by key. In `src/lib.rs`
the store is a `HashMap` from 32-byte digests to nodes. In the three
standalone programs it is a vector, and a child is named by its position.
Every traversal keeps an explicit stack of keys still to visit. The
traversals differ on two axes:

- **Capacity.** The stack is either a growable `Vec` or a `heapless::Vec`
  with room for 32 entries. A push onto the full bounded stack fails, and the
  code ignores the failure (`let _ = stack.push(..)`), so that subtree is
  silently skipped.
- **Shape.** *Push-both* pops a node and pushes its right child, then its
  left child. *Chase-left* defers only the right child and keeps following
  the left child in an inner `loop` until it reaches a leaf. *Cursor* does
  the same with a single loop and an `Option` cursor.

The model has these parts:

- `Tree` gives the nodes and the reference definitions. `PathSum` is the sum
  over every root-to-leaf path; a shared subtree counts once per path.
  `Depth` is the longest path. `PushBothDepth` and `ChaseDepth` are closed
  forms of how far each shape's stack grows above its height once the root is
  popped or taken as the cursor. A run from the root therefore needs
  `Max(1, PushBothDepth)` entries in the push-both shape and
  `Max(1, ChaseDepth)` in the chase-left shape, because their first push is
  the root itself. The cursor shape needs `ChaseDepth`. A ghost `rank` map
  witnesses that nothing reachable from the root is missing from the store
  and that the store reachable from the root has no cycle.
- `Steps` gives the loop invariants of the two shapes and one lemma per loop
  step.
- `BoundedStack` models `heapless::Vec<_, 32>` as a class over a fixed
  array.
- `Btt` holds the six `traverse_sum` methods of `src/lib.rs`.
- `IndexStore` models the vector stores and the `b!`/`l!` builder macros of
  the standalone programs.
- `TraverseHeapless`, `TraverseChaseOption` and `TraverseChaseLoopVec` each
  hold one standalone `traverse_stack` and its `main`.

The growable traversals are proved to return `PathSum`. The bounded
traversals are modelled as written, including the dropped pushes. A ghost
output `lost` collects the dropped keys. The sum returned plus the path sums
of the dropped keys is exactly `PathSum`. Something is dropped exactly when
the shape's closed-form depth exceeds 32.

One might expect all six variants to agree whenever the root's longest path
has at most 32 branches. That holds for the chase and cursor shapes. The
push-both shape needs fewer than 32: a root whose longest path has 32
branches can need 33 entries. A left spine is such a root, because after each
pop of a branch both of its children are on the stack. This model follows
the code. `TraverseHeapless.ChainBeyondCapacity` shows the spine of 32
branches losing a leaf. `Btt.ShallowTreesFit` proves that fewer than 32
branches always fit.

The inner `loop` of `HeaplessLoop::traverse_sum` is written as its own
method, `Btt.ChaseLeft`. It has the same loop and the same single push per
branch. Its result is stated through `Steps.ChaseWalk`, a ghost function of
the walk down the left children: the stack it leaves, the pushes it drops and
the leaf it reaches. Likewise the body of each cursor loop is its own method,
`Btt.CursorStep` and `TraverseChaseOption.CursorStep`. This keeps each proof
small.

## Model

| member | source | states |
|---|---|---|
| Btt.SimpleTraverseSum | src/lib.rs:37-57 | For every store in which the root reaches no missing key and no cycle, the result is the path sum of the root. The stack never holds more than max(1, push-both depth) entries. |
| Btt.HeaplessTraverseSum | src/lib.rs:63-83 | The result plus the path sums of the dropped digests equals the path sum of the root. A push is dropped if and only if the push-both depth exceeds 32. The result never exceeds the path sum, and equals it when the push-both depth is at most 32. When every leaf is positive, the result is correct if and only if the push-both depth is at most 32. |
| Btt.HeaplessLoopTraverseSum | src/lib.rs:89-112 | The same accounting and the same bounds on the result as `Btt.HeaplessTraverseSum`, for the chase-left shape and its chase depth. |
| Btt.ChaseLeft | src/lib.rs:96-107 | The inner `loop` leaves exactly the stack, the dropped digests and the added leaf value of the left walk from `node` (`Steps.ChaseWalk`). It keeps the chase invariant and leaves less work on the stack than it found. |
| Btt.HeaplessOptionTraverseSum | src/lib.rs:118-142 | The same accounting and the same bounds on the result as `Btt.HeaplessTraverseSum`, for the cursor shape and its chase depth. The stack never holds more than chase-depth entries, so a leaf root pushes nothing, and never more than 32. |
| Btt.CursorStep | src/lib.rs:125-137 | One pass of the cursor loop. A leaf adds its value and pops the next cursor. A branch pushes its right child through the bounded push, records it as dropped exactly when the push fails, and moves the cursor to the left child. The chase invariant is kept, the work left shrinks, and the stack stays within the chase depth. |
| Btt.VecLoopTraverseSum | src/lib.rs:148-171 | The result is the path sum of the root. The stack never holds more than max(1, chase depth) entries. |
| Btt.VecOptionTraverseSum | src/lib.rs:177-201 | The result is the path sum of the root. The stack never holds more than chase-depth entries, so a leaf root pushes nothing. |
| Btt.AllVariantsAgree | src/lib.rs:30-32 | If the push-both shape fits in 32 entries, all six `Traverse` implementations return the same sum, and that sum is the path sum. |
| Btt.ShallowTreesFit | src/lib.rs:64 | A root whose longest path has fewer than 32 branches fits both bounded shapes. |
| BoundedStack.Stack.constructor | src/lib.rs:64 | `heapless::Vec::new()` gives an empty stack with the requested capacity. |
| BoundedStack.Stack.Push | src/lib.rs:75-76 | A push succeeds exactly when the stack has a free slot. The new contents are `BoundedPush` of the old: the value appended when there was room, the stack unchanged otherwise. |
| BoundedStack.Stack.Pop | src/lib.rs:69 | Pop returns `None` on an empty stack. Otherwise it returns the last entry and removes it. |
| BoundedStack.FullPushIsDiscarded | src/lib.rs:64-65 | After 32 pushes, a further push fails and its value is nowhere on the stack. |
| TraverseHeapless.TraverseStack | src/traverse_heapless.rs:35-65 | The push-both accounting and the bounds on the result of `Btt.HeaplessTraverseSum`, over a vector store indexed by position. |
| TraverseHeapless.Sample | src/traverse_heapless.rs:1-25 | The tree built by `main` sums to 21. |
| TraverseHeapless.ChainAtCapacity | src/traverse_heapless.rs:36-37 | A left spine of 31 branches needs exactly 32 entries and is summed in full, to 32. |
| TraverseHeapless.ChainBeyondCapacity | src/traverse_heapless.rs:52-53 | A left spine of 32 branches overflows the stack, and the result falls short of the true sum 33. |
| TraverseChaseOption.TraverseStack | src/traverse_chase_option.rs:35-69 | The cursor accounting and the bounds on the result of `Btt.HeaplessOptionTraverseSum`, over a vector store. The stack never holds more than chase-depth entries, and never more than 32. |
| TraverseChaseOption.CursorStep | src/traverse_chase_option.rs:46-59 | One pass of the cursor loop over a vector store, with the same leaf and branch outcomes as `Btt.CursorStep`. The position looked up is in range. |
| TraverseChaseOption.Sample | src/traverse_chase_option.rs:1-25 | The tree built by `main` sums to 21. |
| TraverseChaseOption.ChainAtCapacity | src/traverse_chase_option.rs:36 | A left spine of 32 branches defers exactly 32 right children and is summed in full, to 33. |
| TraverseChaseOption.ChainBeyondCapacity | src/traverse_chase_option.rs:55 | A left spine of 33 branches drops a right child, and the result falls short of the true sum 34. |
| TraverseChaseLoopVec.TraverseStack | src/traverse_chase_loop_vec.rs:35-68 | The result is the path sum of the root. The stack never holds more than max(1, chase depth) entries. |
| TraverseChaseLoopVec.Sample | src/traverse_chase_loop_vec.rs:1-25 | The tree built by `main` sums to 21. |
| TraverseChaseLoopVec.ChainBeyondCapacity | src/traverse_chase_loop_vec.rs:36 | The growable stack sums a left spine of 33 branches in full, to 34. |
| IndexStore.Builder.constructor | src/traverse_heapless.rs:2 | The store starts as an empty vector. |
| IndexStore.Builder.Leaf | src/traverse_heapless.rs:11-17 | `l!` appends a leaf, returns its position and keeps every child before its parent. |
| IndexStore.Builder.Branch | src/traverse_heapless.rs:4-10 | `b!` appends a branch and returns its position. If both children come earlier, every child still comes before its parent. |
| IndexStore.BuildSample | src/traverse_heapless.rs:19-22 | The macro calls of `main` build a vector that needs no rank beyond the positions themselves. The root sums to 21 and has no path longer than 6 branches. |
| IndexStore.SampleFacts | src/traverse_heapless.rs:19-22 | The sample vector is well founded with every position ranked. Bottom-up, positions 0 to 6 sum to 1, 2, 3, 6, 12, 9 and 21, and the root has no path longer than 6 branches. |
| IndexStore.ChildrenBeforeWellFounded | src/traverse_heapless.rs:4-10 | If every branch names earlier positions, then no index is dangling and there is no cycle. |
| IndexStore.AsMapLookup | src/traverse_heapless.rs:47 | `store[node as usize]` looks up a key of the store exactly when the node is in range. |
| IndexStore.ChainFacts | src/traverse_chase_option.rs:55 | On a left spine, position i sums to i + 1 and defers i right children in the chase shapes. It needs i + 1 entries in the push-both shape. |
| Tree.PathSumRankIndependent | src/lib.rs:31 | The sum depends only on the store and the root, not on which rank witnesses that the traversal terminates. |
| Tree.SharedChildCountedTwice | src/lib.rs:48-51 | A branch whose two children are one shared key counts that subtree twice. |
| Tree.DepthBounds | src/lib.rs:102-104 | The chase shapes never need more entries than the push-both shape. The push-both shape needs at most one more entry than the longest path has branches. |
| Tree.PushBothFitsDepth | src/lib.rs:74-76 | The push-both run from height h stays within `cap` entries exactly when h + push-both depth ≤ `cap`. |
| Tree.ChaseFitsDepth | src/lib.rs:102-104 | The chase run from height h stays within `cap` entries exactly when h + chase depth ≤ `cap`. |
| Tree.PositiveStackSum | src/lib.rs:72 | If every leaf is positive, a stack of n keys carries a path sum of at least n, so a lost key always lowers the result. |
| Steps.PushBothBranch | src/lib.rs:74-77 | After a branch is popped, its right child always finds room. Only the left child can be dropped, and nothing is dropped while the run fits. |
| Steps.ChaseBranch | src/lib.rs:102-105 | A deferred right child is dropped only when the stack is full, and never while the run fits. |
| Steps.PushBothEnd | src/lib.rs:69 | When the push-both loop stops, the sum misses exactly the dropped keys, and a key was dropped exactly when the run does not fit. With positive leaves, the sum is correct exactly when the run fits. |
| Steps.ChaseEnd | src/lib.rs:124 | When the chase loop stops, the sum misses exactly the dropped keys, and a key was dropped exactly when the run does not fit. With positive leaves, the sum is correct exactly when the run fits. |
| Steps.ChaseEndWithin | src/lib.rs:119 | The same conclusions as `Steps.ChaseEnd` for a run bounded by the smaller of the chase depth and the stack's room, stated against the room. |
| Steps.ChaseLeafThenPop | src/lib.rs:126-129 | A leaf's value is added and the cursor moves to the popped key. The chase invariant is kept and the work left shrinks. |
| Steps.ChaseBranchWithin | src/lib.rs:131-135 | Deferring a branch's right child through the bounded push keeps the chase invariant, shrinks the work left and keeps the stack within the chase depth. |
| Steps.ChaseWalkAccounts | src/lib.rs:96-107 | The left walk loses no path sum: the leaf it reaches, the keys it leaves on the stack and the keys it drops together carry the path sum of its start and the stack it found. It only pushes, and it never overfills the room. |
| Steps.ChaseWalkKeepsState | src/lib.rs:96-107 | The left walk from a key under the chase invariant ends under the chase invariant with its leaf added and its dropped keys recorded, and with less work on the stack. |
| Tree.StackSumAppend | src/lib.rs:103 | The path sum of a stack is the sum over its entries, so appending entries adds their sums. |

## Left out

- Integer width: `sum += n` on `u32` can overflow, which panics in a debug build and wraps in a release build. The model sums into an unbounded `nat`. Leaf values are `u32`.
- Positions are `nat` rather than `u32`, so the truncating `(store.len() - 1) as u32` of the builder macros is not modelled.
- Missing keys (a panic on `store[&node]` or `store[node as usize]`) and cycles are excluded by the precondition that a well-founded rank exists. On a reachable cycle the code either runs forever or, in a bounded variant, may stop once a push that closes the cycle is dropped: `Heapless::traverse_sum` on `A ↦ Branch(A, L)`, `L ↦ Leaf(v)` returns 32·v, and `HeaplessOption::traverse_sum` stops on a left spine of 32 branches with leaf right children whose last left child is `A ↦ Branch(L, A)`, because the push of `A` finds the stack full. When the cycle goes through left children, the stack of a growable variant grows without bound. When it goes through a right child, as in `A ↦ Branch(L, A)`, the stack stays bounded and the code loops forever, or panics once `sum += n` overflows in a debug build. A missing key named only by a dropped push is never looked up. The model excludes all of these stores and does not describe what the code does on them.
- The `mca!`/`asm!` profiling markers are left out; they have no effect on the result.
- `src/main.rs` is left out: it draws random digests, dispatches through `Box<dyn Traverse>` and prints.
- The `println!` in each standalone `main` is left out. The `Sample` methods return the printed sum instead.
- The hashing inside `HashMap` and the memory layout of `heapless::Vec` are not modelled. The store is a Dafny `map`, and the bounded stack is an array with a length.
- `Vec::with_capacity(32)` is modelled as an unbounded sequence, because the initial capacity does not affect the result.
- Btt.SimpleTraverseSum: the ghost `peak` is only an upper bound on the stack's occupancy. It is not proved to be the maximum reached.
- Btt.VecLoopTraverseSum: the ghost `peak` is only an upper bound on the stack's occupancy. It is not proved to be the maximum reached.
- Btt.VecOptionTraverseSum: the ghost `peak` is only an upper bound on the stack's occupancy. It is not proved to be the maximum reached.
- Btt.HeaplessOptionTraverseSum: the ghost `peak` is only an upper bound on the stack's occupancy. It is not proved to be the maximum reached.
- TraverseChaseOption.TraverseStack: the ghost `peak` is only an upper bound on the stack's occupancy. It is not proved to be the maximum reached.
- TraverseChaseLoopVec.TraverseStack: the ghost `peak` is only an upper bound on the stack's occupancy. It is not proved to be the maximum reached.
