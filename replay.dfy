/**
 * The agent's experience replay memory: a bounded FIFO of transitions that
 * evicts the oldest entry once it holds `capacity` of them (Python's
 * `deque(maxlen=capacity)`), modelled as a ring buffer over an array.
 */
module Replay {
  import opened GameTypes

  /** The last (at most) `n` elements of `s`, in order. */
  function Window<T>(s: seq<T>, n: nat): (w: seq<T>)
  {
    if |s| <= n then s else s[|s| - n..]
  }

  /** What a bounded deque holds after appending each element of `xs` in turn to an empty one. */
  function Fill<T>(n: nat, xs: seq<T>): seq<T>
  {
    if |xs| == 0 then [] else Window(Fill(n, xs[..|xs| - 1]) + [xs[|xs| - 1]], n)
  }

  /** Trimming before an append does not change the window after it. */
  lemma {:induction false} WindowAppend<T>(s: seq<T>, t: T, n: nat)
    ensures Window(Window(s, n) + [t], n) == Window(s + [t], n)
  {
    if |s| > n {
      var w := s[|s| - n..];
      if n > 0 {
        assert (w + [t])[1..] == (s + [t])[|s| + 1 - n..];
      } else {
        assert Window(w + [t], n) == [];
      }
    }
  }

  /**
   * Appending `xs` one at a time to an empty bounded deque leaves exactly
   * the last `n` of them, in insertion order: the oldest are evicted first.
   */
  lemma {:induction false} FillKeepsNewest<T>(n: nat, xs: seq<T>)
    ensures Fill(n, xs) == Window(xs, n)
  {
    if |xs| > 0 {
      var init, last := xs[..|xs| - 1], xs[|xs| - 1];
      assert init + [last] == xs;
      FillKeepsNewest(n, init);
      WindowAppend(init, last, n);
    }
  }

  /** With capacity 3, pushing four transitions keeps the last three, oldest evicted. */
  lemma CapacityThree<T>(a: T, b: T, c: T, d: T)
    ensures Fill(3, [a, b, c, d]) == [b, c, d]
  {
    FillKeepsNewest(3, [a, b, c, d]);
  }

  /** Physical array index of the `i`-th oldest element of a ring starting at `start`. */
  function Slot(start: nat, i: nat, n: nat): nat
  {
    if start + i < n then start + i else start + i - n
  }

  /** Existence of a free position: fewer than `n` used positions below `n` leave one unused. */
  lemma {:induction false} FreePosition(used: set<nat>, n: nat)
    requires |used| < n
    requires forall p :: p in used ==> p < n
    ensures exists p: nat :: p < n && p !in used
  {
    if n - 1 in used {
      var smaller := used - {n - 1};
      FreePosition(smaller, n - 1);
      var p: nat :| p < n - 1 && p !in smaller;
      assert p !in used;
    } else {
      assert n - 1 !in used;
    }
  }

  class ReplayBuffer {
    /** The transitions held, oldest first. */
    ghost var Contents: seq<Transition>

    const capacity: nat
    const data: array<Transition>
    var start: nat
    var len: nat

    ghost predicate Valid()
      reads this, data
    {
      && data.Length == capacity
      && len <= capacity
      && (capacity == 0 ==> start == 0)
      && (capacity > 0 ==> start < capacity)
      && |Contents| == len
      && forall i :: 0 <= i < len ==> Contents[i] == data[Slot(start, i, capacity)]
    }

    constructor (capacity: nat)
      ensures Valid() && fresh(data)
      ensures this.capacity == capacity && Contents == []
    {
      this.capacity := capacity;
      data := new Transition[capacity];
      start, len := 0, 0;
      Contents := [];
    }

    /** `len(buffer)`. */
    function Length(): (n: nat)
      reads this, data
      requires Valid()
      ensures n == |Contents| && n <= capacity
    {
      len
    }

    /**
     * `buffer.append(t)` on a bounded deque: the length becomes
     * min(old length + 1, capacity) and the contents are the newest
     * `capacity` elements of the old contents followed by `t`.
     */
    method Push(t: Transition)
      requires Valid()
      modifies this, data
      ensures Valid()
      ensures Contents == Window(old(Contents) + [t], capacity)
      ensures |Contents| == if old(|Contents|) < capacity then old(|Contents|) + 1 else capacity
    {
      if capacity == 0 {
        return;
      }
      if len < capacity {
        data[Slot(start, len, capacity)] := t;
        len := len + 1;
        Contents := Contents + [t];
      } else {
        data[start] := t;
        start := if start + 1 == capacity then 0 else start + 1;
        Contents := Contents[1..] + [t];
      }
    }

    /**
     * `random.sample(buffer, n)`: `n` transitions read from `n` distinct
     * positions of the buffer, the choice of positions left open.
     */
    method Sample(n: nat) returns (batch: seq<Transition>, ghost positions: seq<nat>)
      requires Valid()
      requires n <= Length()
      ensures |batch| == n && |positions| == n
      ensures forall k :: 0 <= k < n ==> positions[k] < |Contents| && batch[k] == Contents[positions[k]]
      ensures forall j, k :: 0 <= j < k < n ==> positions[j] != positions[k]
    {
      batch, positions := [], [];
      var used: set<nat> := {};
      while |batch| < n
        invariant |positions| == |batch| <= n
        invariant forall k :: 0 <= k < |positions| ==> positions[k] in used
        invariant forall x :: x in used ==> x < len
        invariant |used| == |positions|
        invariant forall k :: 0 <= k < |batch| ==> positions[k] < len && batch[k] == Contents[positions[k]]
        invariant forall j, k :: 0 <= j < k < |batch| ==> positions[j] != positions[k]
      {
        FreePosition(used, len);
        var p: nat :| p < len && p !in used;
        batch := batch + [data[Slot(start, p, capacity)]];
        positions := positions + [p];
        used := used + {p};
      }
    }
  }
}
