/** The fixed-capacity stack of the `heapless` crate (`heapless::Vec<T, N>`):
    an array of N slots and a length.  A push onto a full stack leaves the
    stack unchanged and reports the failure; the traversals ignore that report
    (`let _ = stack.push(..)`). */
module BoundedStack {
  import opened Tree

  /** The capacity every bounded traversal asks for (`heapless::Vec<_, 32>`). */
  const Capacity: nat := 32

  /** The entries after a push of `x` onto `s` with room for `cap` entries. */
  function BoundedPush<T>(s: seq<T>, x: T, cap: nat): seq<T> {
    if |s| < cap then s + [x] else s
  }

  /** What that push loses. */
  function Discarded<T>(s: seq<T>, x: T, cap: nat): seq<T> {
    if |s| < cap then [] else [x]
  }

  class Stack<T(0)> {
    /** The entries, bottom first: the top of the stack is the last element. */
    ghost var Contents: seq<T>

    const capacity: nat
    const data: array<T>
    var len: nat

    ghost predicate Valid()
      reads this, data
    {
      data.Length == capacity && len == |Contents| <= capacity &&
      forall i | 0 <= i < len :: data[i] == Contents[i]
    }

    constructor (capacity: nat)
      ensures Valid() && fresh(data)
      ensures this.capacity == capacity && Contents == []
    {
      this.capacity := capacity;
      data := new T[capacity];
      len := 0;
      Contents := [];
    }

    /** `heapless::Vec::push`: succeeds exactly when there is a free slot. */
    method Push(x: T) returns (ok: bool)
      requires Valid()
      modifies this, data
      ensures Valid()
      ensures ok == (|old(Contents)| < capacity)
      ensures Contents == BoundedPush(old(Contents), x, capacity)
    {
      ok := len < capacity;
      if ok {
        data[len] := x;
        len := len + 1;
        Contents := Contents + [x];
      }
    }

    /** `heapless::Vec::pop`: the top entry, or `None` on an empty stack. */
    method Pop() returns (top: Option<T>)
      requires Valid()
      modifies this
      ensures Valid()
      ensures old(Contents) == [] ==> top == None && Contents == []
      ensures old(Contents) != [] ==>
        top == Some(old(Contents)[|old(Contents)| - 1]) &&
        Contents == old(Contents)[..|old(Contents)| - 1]
    {
      if len == 0 {
        top := None;
      } else {
        len := len - 1;
        top := Some(data[len]);
        Contents := Contents[..len];
      }
    }
  }

  /** A push onto a full stack loses the pushed value: after `capacity` pushes
      of `x`, a push of `y` fails and `y` is nowhere on the stack. */
  method FullPushIsDiscarded(x: int, y: int) returns (ok: bool, contents: seq<int>)
    requires x != y
    ensures !ok
    ensures contents == seq(Capacity, _ => x)
    ensures y !in contents
  {
    var stack := new Stack<int>(Capacity);
    var i := 0;
    while i < Capacity
      invariant 0 <= i <= Capacity
      invariant stack.Valid() && fresh(stack.data) && stack.capacity == Capacity
      invariant stack.Contents == seq(i, _ => x)
    {
      var pushed := stack.Push(x);
      assert pushed;
      i := i + 1;
    }
    ok := stack.Push(y);
    contents := stack.data[..stack.len];
  }
}
