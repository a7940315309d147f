/** Value-level model of the 1-based array heap of runtime/include/priority_queue.h.

    A heap is the sequence of its occupied slots: slot `i` of the C array is position `i - 1` here, so
    the parent of position `k` is `(k - 1) / 2` and its children are `2 * k + 1` and `2 * k + 2`.
    Priorities are read through a function at the moment of each call, as the C code does through
    `get_priority_fn`; a smaller number is a higher priority. */
module Heap {

  const ULONG_MAX: nat := 0xFFFF_FFFF_FFFF_FFFF

  type uint64 = x: nat | x <= ULONG_MAX

  function Parent(k: nat): nat
    requires k > 0
  {
    (k - 1) / 2
  }

  ghost predicate HeapOrdered<T(!new)>(s: seq<T>, p: T -> uint64) {
    forall k :: 0 < k < |s| ==> p(s[Parent(k)]) <= p(s[k])
  }

  /** `a` lies on the path from the root to `b` (both ends included). */
  predicate OnRootPath(a: nat, b: nat)
    decreases b
  {
    a == b || (b > 0 && OnRootPath(a, Parent(b)))
  }

  lemma {:induction false} AncestorNotLater<T(!new)>(s: seq<T>, p: T -> uint64, a: nat, b: nat)
    requires HeapOrdered(s, p) && b < |s| && OnRootPath(a, b)
    ensures a <= b && p(s[a]) <= p(s[b])
    decreases b
  {
    if a != b {
      AncestorNotLater(s, p, a, Parent(b));
    }
  }

  lemma {:induction false} RootOnEveryPath(b: nat)
    ensures OnRootPath(0, b)
  {
    if b > 0 { RootOnEveryPath(Parent(b)); }
  }

  lemma RootIsMinimum<T(!new)>(s: seq<T>, p: T -> uint64)
    requires HeapOrdered(s, p) && s != []
    ensures forall k :: 0 <= k < |s| ==> p(s[0]) <= p(s[k])
  {
    forall k | 0 <= k < |s| ensures p(s[0]) <= p(s[k]) {
      RootOnEveryPath(k);
      AncestorNotLater(s, p, 0, k);
    }
  }

  // ---------- Percolation ----------

  function Swap<T>(s: seq<T>, i: nat, j: nat): (r: seq<T>)
    requires i < |s| && j < |s|
    ensures |r| == |s|
  {
    s[i := s[j]][j := s[i]]
  }

  /** The child that priority_queue_find_smallest_child picks: ties go to the right child. */
  function SmallestChild<T>(s: seq<T>, p: T -> uint64, k: nat): (c: nat)
    requires 2 * k + 1 < |s|
    ensures c < |s| && c > 0 && Parent(c) == k
  {
    if 2 * k + 2 >= |s| then 2 * k + 1
    else if p(s[2 * k + 1]) < p(s[2 * k + 2]) then 2 * k + 1
    else 2 * k + 2
  }

  function SiftDown<T>(s: seq<T>, p: T -> uint64, k: nat): (r: seq<T>)
    ensures |r| == |s|
    decreases |s| - k
  {
    if 2 * k + 1 >= |s| then s else
    var c := SmallestChild(s, p, k);
    if p(s[k]) <= p(s[c]) then s else SiftDown(Swap(s, k, c), p, c)
  }

  function SiftUp<T>(s: seq<T>, p: T -> uint64, k: nat): (r: seq<T>)
    requires k < |s|
    ensures |r| == |s|
    decreases k
  {
    if k > 0 && p(s[k]) < p(s[Parent(k)]) then SiftUp(Swap(s, k, Parent(k)), p, Parent(k)) else s
  }

  /** The position at which percolating up from `k` stops. */
  function UpStop<T>(s: seq<T>, p: T -> uint64, k: nat): (j: nat)
    requires k < |s|
    ensures j <= k
    decreases k
  {
    if k > 0 && p(s[k]) < p(s[Parent(k)]) then UpStop(Swap(s, k, Parent(k)), p, Parent(k)) else k
  }

  /** Heap order holds everywhere except possibly between position `k` and its children. */
  ghost predicate OrderedExceptBelow<T(!new)>(s: seq<T>, p: T -> uint64, k: nat) {
    (forall j :: 0 < j < |s| && Parent(j) != k ==> p(s[Parent(j)]) <= p(s[j])) &&
    (k > 0 ==> forall j :: 0 < j < |s| && Parent(j) == k ==> p(s[Parent(k)]) <= p(s[j]))
  }

  /** Heap order holds everywhere except possibly between position `k` and its parent. */
  ghost predicate OrderedExceptAbove<T(!new)>(s: seq<T>, p: T -> uint64, k: nat) {
    (forall j :: 0 < j < |s| && j != k ==> p(s[Parent(j)]) <= p(s[j])) &&
    (k > 0 ==> forall j :: 0 < j < |s| && Parent(j) == k ==> p(s[Parent(k)]) <= p(s[j]))
  }

  lemma {:induction false} SiftDownRestoresOrder<T(!new)>(s: seq<T>, p: T -> uint64, k: nat)
    requires OrderedExceptBelow(s, p, k)
    ensures HeapOrdered(SiftDown(s, p, k), p)
    decreases |s| - k
  {
    if 2 * k + 1 < |s| {
      var c := SmallestChild(s, p, k);
      if p(s[k]) > p(s[c]) {
        SwapDownKeepsOrder(s, p, k);
        SiftDownRestoresOrder(Swap(s, k, c), p, c);
      }
    }
  }

  lemma SwapDownKeepsOrder<T(!new)>(s: seq<T>, p: T -> uint64, k: nat)
    requires OrderedExceptBelow(s, p, k) && 2 * k + 1 < |s|
    requires p(s[k]) > p(s[SmallestChild(s, p, k)])
    ensures OrderedExceptBelow(Swap(s, k, SmallestChild(s, p, k)), p, SmallestChild(s, p, k))
  {
    var c := SmallestChild(s, p, k);
    var r := Swap(s, k, c);
    forall j | 0 < j < |r| && Parent(j) != c ensures p(r[Parent(j)]) <= p(r[j]) {
      if Parent(j) == k { assert j == 2 * k + 1 || j == 2 * k + 2; }
      if j == k { assert p(s[Parent(k)]) <= p(s[c]); }
    }
    forall j | 0 < j < |r| && Parent(j) == c ensures p(r[Parent(c)]) <= p(r[j]) {
      assert p(s[Parent(j)]) <= p(s[j]);
    }
  }

  lemma {:induction false} SiftUpRestoresOrder<T(!new)>(s: seq<T>, p: T -> uint64, k: nat)
    requires k < |s| && OrderedExceptAbove(s, p, k)
    ensures HeapOrdered(SiftUp(s, p, k), p)
    decreases k
  {
    if k > 0 && p(s[k]) < p(s[Parent(k)]) {
      SwapUpKeepsOrder(s, p, k);
      SiftUpRestoresOrder(Swap(s, k, Parent(k)), p, Parent(k));
    }
  }

  lemma SwapUpKeepsOrder<T(!new)>(s: seq<T>, p: T -> uint64, k: nat)
    requires 0 < k < |s| && OrderedExceptAbove(s, p, k) && p(s[k]) < p(s[Parent(k)])
    ensures OrderedExceptAbove(Swap(s, k, Parent(k)), p, Parent(k))
  {
    var h := Parent(k);
    var r := Swap(s, k, h);
    forall j | 0 < j < |r| && j != h ensures p(r[Parent(j)]) <= p(r[j]) {
      if Parent(j) == h && j != k { assert p(s[h]) <= p(s[j]); }
    }
    if h > 0 {
      forall j | 0 < j < |r| && Parent(j) == h ensures p(r[Parent(h)]) <= p(r[j]) {
        assert p(s[Parent(h)]) <= p(s[h]);
        assert p(s[Parent(j)]) <= p(s[j]) || j == k;
      }
    }
  }

  lemma {:induction false} SiftUpRoot<T(!new)>(s: seq<T>, p: T -> uint64, k: nat)
    requires k < |s|
    ensures UpStop(s, p, k) > 0 ==> SiftUp(s, p, k)[0] == s[0]
    ensures UpStop(s, p, k) == 0 ==> SiftUp(s, p, k)[0] == s[k]
    decreases k
  {
    if k > 0 && p(s[k]) < p(s[Parent(k)]) {
      SiftUpRoot(Swap(s, k, Parent(k)), p, Parent(k));
    }
  }

  lemma {:induction false} SiftDownLeavesAbove<T(!new)>(s: seq<T>, p: T -> uint64, k: nat)
    ensures forall j :: 0 <= j < k && j < |s| ==> SiftDown(s, p, k)[j] == s[j]
    decreases |s| - k
  {
    if 2 * k + 1 < |s| {
      var c := SmallestChild(s, p, k);
      if p(s[k]) > p(s[c]) { SiftDownLeavesAbove(Swap(s, k, c), p, c); }
    }
  }

  lemma {:induction false} SiftDownBag<T>(s: seq<T>, p: T -> uint64, k: nat)
    ensures multiset(SiftDown(s, p, k)) == multiset(s)
    decreases |s| - k
  {
    if 2 * k + 1 < |s| {
      var c := SmallestChild(s, p, k);
      if p(s[k]) > p(s[c]) { SiftDownBag(Swap(s, k, c), p, c); }
    }
  }

  lemma {:induction false} SiftUpBag<T>(s: seq<T>, p: T -> uint64, k: nat)
    requires k < |s|
    ensures multiset(SiftUp(s, p, k)) == multiset(s)
    decreases k
  {
    if k > 0 && p(s[k]) < p(s[Parent(k)]) { SiftUpBag(Swap(s, k, Parent(k)), p, Parent(k)); }
  }

  // ---------- Removing one slot ----------

  /** priority_queue_delete_nolock once the slot is found: the last item moves into slot `k` and is
      percolated down, never up. */
  function RemoveAt<T>(s: seq<T>, p: T -> uint64, k: nat): (r: seq<T>)
    requires k < |s|
    ensures |r| == |s| - 1
  {
    var n := |s| - 1;
    SiftDown(s[k := s[n]][..n], p, k)
  }

  lemma RemoveAtBag<T>(s: seq<T>, p: T -> uint64, k: nat)
    requires k < |s|
    ensures multiset(RemoveAt(s, p, k)) == multiset(s) - multiset{s[k]}
  {
    hide SiftDown;
    var n := |s| - 1;
    MoveLastBag(s, k);
    SiftDownBag(s[k := s[n]][..n], p, k);
  }

  lemma MoveLastBag<T>(s: seq<T>, k: nat)
    requires k < |s|
    ensures multiset(s[k := s[|s| - 1]][..|s| - 1]) == multiset(s) - multiset{s[k]}
  {
    var n := |s| - 1;
    if k == n {
      assert s[k := s[n]][..n] == s[..n] && s == s[..n] + [s[n]];
    } else {
      var a, b := s[..k], s[k + 1..n];
      assert s == a + [s[k]] + b + [s[n]];
      assert s[k := s[n]][..n] == a + [s[n]] + b;
    }
  }

  /** What the caller of a delete can check beforehand: slot 0, the last slot, or a last item that is
      not earlier than the parent of the vacated slot. */
  predicate MovedItemFits<T>(s: seq<T>, p: T -> uint64, k: nat)
    requires k < |s|
  {
    k == 0 || k == |s| - 1 || p(s[Parent(k)]) <= p(s[|s| - 1])
  }

  /** Deleting slot `k` of a heap keeps heap order if and only if the moved item fits there. */
  lemma DeleteKeepsOrderIff<T(!new)>(s: seq<T>, p: T -> uint64, k: nat)
    requires HeapOrdered(s, p) && k < |s|
    ensures HeapOrdered(RemoveAt(s, p, k), p) <==> MovedItemFits(s, p, k)
  {
    if MovedItemFits(s, p, k) {
      RemoveFittingKeepsOrder(s, p, k);
    } else {
      RemoveUnfittingBreaksOrder(s, p, k);
    }
  }

  lemma RemoveFittingKeepsOrder<T(!new)>(s: seq<T>, p: T -> uint64, k: nat)
    requires HeapOrdered(s, p) && k < |s| && MovedItemFits(s, p, k)
    ensures HeapOrdered(RemoveAt(s, p, k), p)
  {
    hide SiftDown, SmallestChild;
    var n := |s| - 1;
    var t := s[k := s[n]][..n];
    forall j | 0 < j < |t| && Parent(j) != k ensures p(t[Parent(j)]) <= p(t[j]) {
      assert p(s[Parent(j)]) <= p(s[j]);
    }
    if k > 0 {
      forall j | 0 < j < |t| && Parent(j) == k ensures p(t[Parent(k)]) <= p(t[j]) {
        assert p(s[Parent(j)]) <= p(s[j]);
        assert p(s[Parent(k)]) <= p(s[k]);
      }
    }
    SiftDownRestoresOrder(t, p, k);
  }

  lemma RemoveUnfittingBreaksOrder<T(!new)>(s: seq<T>, p: T -> uint64, k: nat)
    requires HeapOrdered(s, p) && k < |s| && !MovedItemFits(s, p, k)
    ensures !HeapOrdered(RemoveAt(s, p, k), p)
  {
    UnfittingItemStays(s, p, k);
    var t := s[k := s[|s| - 1]][..|s| - 1];
    assert p(t[Parent(k)]) > p(t[k]);
  }

  lemma UnfittingItemStays<T(!new)>(s: seq<T>, p: T -> uint64, k: nat)
    requires HeapOrdered(s, p) && k < |s| && !MovedItemFits(s, p, k)
    ensures var t := s[k := s[|s| - 1]][..|s| - 1]; SiftDown(t, p, k) == t
  {
    var t := s[k := s[|s| - 1]][..|s| - 1];
    assert p(s[Parent(k)]) <= p(s[k]);
    if 2 * k + 1 < |t| {
      var c := SmallestChild(t, p, k);
      assert p(s[Parent(c)]) <= p(s[c]);
    }
  }

  /** The heap shapes for which deleting slot `k` is safe whatever the priorities are: exactly the
      root, the last slot, and the slots whose parent lies on the path to the last slot. */
  predicate SafeSlot(n: nat, k: nat)
    requires k < n
  {
    k == 0 || k == n - 1 || OnRootPath(Parent(k), n - 1)
  }

  ghost predicate DeleteAlwaysKeepsOrder(n: nat, k: nat)
    requires k < n
  {
    forall s: seq<uint64>, p: uint64 -> uint64 ::
      |s| == n && HeapOrdered(s, p) ==> HeapOrdered(RemoveAt(s, p, k), p)
  }

  lemma SafeSlotsExactly(n: nat, k: nat)
    requires k < n
    ensures DeleteAlwaysKeepsOrder(n, k) <==> SafeSlot(n, k)
  {
    if SafeSlot(n, k) {
      forall s: seq<uint64>, p: uint64 -> uint64 | |s| == n && HeapOrdered(s, p)
        ensures HeapOrdered(RemoveAt(s, p, k), p)
      {
        SafeSlotMovedItemFits(s, p, k);
        DeleteKeepsOrderIff(s, p, k);
      }
    } else {
      var s := PathHeap(n);
      var p := (x: uint64) => x;
      PathHeapOrdered(n, p);
      DeleteKeepsOrderIff(s, p, k);
      assert !HeapOrdered(RemoveAt(s, p, k), p);
    }
  }

  lemma SafeSlotMovedItemFits<T(!new)>(s: seq<T>, p: T -> uint64, k: nat)
    requires HeapOrdered(s, p) && k < |s| && SafeSlot(|s|, k)
    ensures MovedItemFits(s, p, k)
  {
    if k != 0 && k != |s| - 1 { AncestorNotLater(s, p, Parent(k), |s| - 1); }
  }

  /** The witness heap: 0 along the path to the last slot, 1 everywhere else. */
  function PathHeap(n: nat): (s: seq<uint64>)
    requires n > 0
    ensures |s| == n
  {
    seq(n, (i: nat) => if OnRootPath(i, n - 1) then 0 else 1)
  }

  lemma PathHeapOrdered(n: nat, p: uint64 -> uint64)
    requires n > 0 && forall x :: p(x) == x
    ensures HeapOrdered(PathHeap(n), p)
  {
    forall k | 0 < k < n ensures p(PathHeap(n)[Parent(k)]) <= p(PathHeap(n)[k]) {
      if OnRootPath(k, n - 1) { ParentStaysOnPath(k, n - 1); }
    }
  }

  lemma {:induction false} ParentStaysOnPath(a: nat, b: nat)
    requires a > 0 && OnRootPath(a, b)
    ensures OnRootPath(Parent(a), b)
    decreases b
  {
    if a != b { ParentStaysOnPath(a, Parent(b)); }
  }

  /** Up to five items every delete is safe; with six, deleting the fifth item is not. */
  lemma FiveItemsAlwaysSafe(n: nat, k: nat)
    requires k < n <= 5
    ensures SafeSlot(n, k) && DeleteAlwaysKeepsOrder(n, k)
  {
    assert SafeSlot(n, k) by {
      if k == 1 || k == 2 {
        RootOnEveryPath(n - 1);
      } else if k == 3 && n == 5 {
        assert Parent(3) == 1 && Parent(4) == 1;
      }
    }
    SafeSlotsExactly(n, k);
  }

  lemma SixItemWitness()
    ensures !DeleteAlwaysKeepsOrder(6, 4)
  {
    assert Parent(4) == 1 && Parent(5) == 2 && Parent(2) == 0;
    assert !OnRootPath(1, 0) && !OnRootPath(1, 2) && !OnRootPath(1, 5);
    SafeSlotsExactly(6, 4);
  }
}
