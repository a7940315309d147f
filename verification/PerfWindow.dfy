/** The execution-time window of runtime/include/perf_window.h: a circular buffer of the last durations
    that is kept sorted, with a reverse index between the two orders. */
module PerfWindows {
  import opened Sets

  const CAPACITY: nat := 256

  /** What the circular buffer holds after the durations `h` were added, oldest first: the first fills
      every slot and each later one overwrites the next slot round. */
  ghost function Ring(h: seq<nat>): (r: seq<nat>)
    requires h != []
    ensures |r| == CAPACITY
  {
    var n := |h| - 1;
    if n == 0 then seq(CAPACITY, _ => h[0]) else Ring(h[..n])[(n - 1) % CAPACITY := h[n]]
  }

  /** The durations as if the first one had been added CAPACITY times. */
  ghost function Padded(h: seq<nat>): (r: seq<nat>)
    requires h != []
    ensures |r| == CAPACITY + |h| - 1
  {
    seq(CAPACITY, _ => h[0]) + h[1..]
  }

  lemma NextSlotDiffers(j: nat, k: nat)
    requires k < j < k + CAPACITY
    ensures j % CAPACITY != k % CAPACITY
  {
  }

  /** The ring, read from the slot that comes next, is exactly the last CAPACITY durations. */
  lemma {:induction false} RingIsTheLastDurations(h: seq<nat>, j: nat)
    requires h != [] && |h| - 1 <= j < |h| - 1 + CAPACITY
    ensures Ring(h)[j % CAPACITY] == Padded(h)[j]
  {
    var n := |h| - 1;
    if n > 0 {
      if j == n - 1 + CAPACITY {
        assert j % CAPACITY == (n - 1) % CAPACITY;
      } else {
        RingIsTheLastDurations(h[..n], j);
        NextSlotDiffers(j, n - 1);
        assert Padded(h[..n])[j] == Padded(h)[j];
      }
    }
  }

  /** So the next slot to be overwritten always holds the oldest duration of the window. */
  lemma OldestIsReplaced(h: seq<nat>, x: nat)
    requires h != []
    ensures var slot := (|h| - 1) % CAPACITY;
            Ring(h)[slot] == Padded(h)[|h| - 1] && Ring(h + [x]) == Ring(h)[slot := x]
  {
    RingIsTheLastDurations(h, |h| - 1);
    assert (h + [x])[..|h|] == h;
  }

  datatype Node = Node(time: nat, slot: nat)

  /** `byTermination` and the nodes' slots are inverse permutations. */
  ghost predicate Linked(d: seq<Node>, t: seq<nat>) {
    |d| == CAPACITY && |t| == CAPACITY &&
    (forall j :: 0 <= j < CAPACITY ==> t[j] < CAPACITY && d[t[j]].slot == j) &&
    (forall i :: 0 <= i < CAPACITY ==> d[i].slot < CAPACITY && t[d[i].slot] == i)
  }

  ghost predicate Shows(d: seq<Node>, t: seq<nat>, ring: seq<nat>)
    requires Linked(d, t)
  {
    |ring| == CAPACITY && forall j :: 0 <= j < CAPACITY ==> d[t[j]].time == ring[j]
  }

  ghost predicate Sorted(d: seq<Node>) {
    forall i, j :: 0 <= i < j < |d| ==> d[i].time <= d[j].time
  }

  /** Sorted but for the node at `i`. */
  ghost predicate SortedExcept(d: seq<Node>, i: nat) {
    forall a, b :: 0 <= a < b < |d| && a != i && b != i ==> d[a].time <= d[b].time
  }

  function SwapNodes(d: seq<Node>, i: nat, j: nat): seq<Node>
    requires i < |d| && j < |d|
  {
    d[i := d[j]][j := d[i]]
  }

  function SwapSlots(d: seq<Node>, t: seq<nat>, i: nat, j: nat): seq<nat>
    requires i < |d| && j < |d| && d[i].slot < |t| && d[j].slot < |t|
  {
    t[d[i].slot := j][d[j].slot := i]
  }

  /** perf_window_swap moves two nodes without changing what any termination slot reads. */
  lemma SwapKeepsView(d: seq<Node>, t: seq<nat>, i: nat, j: nat, ring: seq<nat>)
    requires Linked(d, t) && Shows(d, t, ring) && i < CAPACITY && j < CAPACITY && i != j
    ensures Linked(SwapNodes(d, i, j), SwapSlots(d, t, i, j))
    ensures Shows(SwapNodes(d, i, j), SwapSlots(d, t, i, j), ring)
  {
  }

  /** While a newly written duration travels right (left), all nodes it has passed are on their side. */
  ghost predicate Rising(d: seq<Node>, t: seq<nat>, ring: seq<nat>, i: nat) {
    i < CAPACITY && Linked(d, t) && Shows(d, t, ring) && SortedExcept(d, i) &&
    forall a :: 0 <= a < i ==> d[a].time <= d[i].time
  }

  ghost predicate Falling(d: seq<Node>, t: seq<nat>, ring: seq<nat>, i: nat) {
    i < CAPACITY && Linked(d, t) && Shows(d, t, ring) && SortedExcept(d, i) &&
    forall a :: i < a < CAPACITY ==> d[i].time <= d[a].time
  }

  lemma RisingStep(d: seq<Node>, t: seq<nat>, ring: seq<nat>, i: nat)
    requires Rising(d, t, ring, i) && i + 1 < CAPACITY && d[i + 1].time < d[i].time
    ensures Linked(d, t)
    ensures Rising(SwapNodes(d, i, i + 1), SwapSlots(d, t, i, i + 1), ring, i + 1)
  {
    SwapKeepsView(d, t, i, i + 1, ring);
    hide Linked, Shows;
  }

  lemma FallingStep(d: seq<Node>, t: seq<nat>, ring: seq<nat>, i: nat)
    requires Falling(d, t, ring, i) && i >= 1 && d[i - 1].time > d[i].time
    ensures Linked(d, t)
    ensures Falling(SwapNodes(d, i, i - 1), SwapSlots(d, t, i, i - 1), ring, i - 1)
  {
    SwapKeepsView(d, t, i, i - 1, ring);
    hide Linked, Shows;
  }

  lemma RisingDone(d: seq<Node>, t: seq<nat>, ring: seq<nat>, i: nat)
    requires Rising(d, t, ring, i) && (i + 1 == CAPACITY || d[i + 1].time >= d[i].time)
    ensures Settled(d, t, ring)
  {
    forall a, b | 0 <= a < b < |d| ensures d[a].time <= d[b].time {
      if a == i && b > i + 1 { assert d[i + 1].time <= d[b].time; }
    }
  }

  lemma FallingDone(d: seq<Node>, t: seq<nat>, ring: seq<nat>, i: nat)
    requires Falling(d, t, ring, i) && (i == 0 || d[i - 1].time <= d[i].time)
    ensures Settled(d, t, ring)
  {
    forall a, b | 0 <= a < b < |d| ensures d[a].time <= d[b].time {
      if b == i && a < i - 1 { assert d[a].time <= d[i - 1].time; }
    }
  }

  ghost predicate Settled(d: seq<Node>, t: seq<nat>, ring: seq<nat>) {
    Linked(d, t) && Shows(d, t, ring) && Sorted(d)
  }

  /** Overwriting the node of termination slot `k` disturbs only that node and that slot. */
  lemma Overwrite(d: seq<Node>, t: seq<nat>, ring: seq<nat>, k: nat, newest: nat)
    requires Settled(d, t, ring) && k < CAPACITY
    ensures t[k] < CAPACITY
    ensures var d' := d[t[k] := Node(newest, d[t[k]].slot)];
            if newest > d[t[k]].time then Rising(d', t, ring[k := newest], t[k])
            else Falling(d', t, ring[k := newest], t[k])
  {
  }

  class PerfWindow {
    var byDuration: array<Node>
    var byTermination: array<nat>
    var count: nat
    /** Every duration ever added, oldest first. */
    ghost var added: seq<nat>

    ghost predicate Shape()
      reads this
    {
      byDuration.Length == CAPACITY && byTermination.Length == CAPACITY
    }

    ghost predicate Valid()
      reads this, byDuration, byTermination
    {
      Shape() &&
      if added == [] then count == 0 else
      count == CAPACITY + |added| - 1 && Settled(byDuration[..], byTermination[..], Ring(added))
    }

    constructor ()
      ensures Valid() && added == [] && fresh(byDuration) && fresh(byTermination)
    {
      byDuration := new Node[CAPACITY](_ => Node(0, 0));
      byTermination := new nat[CAPACITY](_ => 0);
      count := 0;
      added := [];
    }

    /** perf_window_swap; its assertions are the `assert`s below. */
    method Swap(i: nat, j: nat)
      requires Shape() && i < CAPACITY && j < CAPACITY && Linked(byDuration[..], byTermination[..])
      modifies byDuration, byTermination
      ensures byDuration[..] == SwapNodes(old(byDuration[..]), i, j)
      ensures byTermination[..] == SwapSlots(old(byDuration[..]), old(byTermination[..]), i, j)
    {
      var first, second := byDuration[i].slot, byDuration[j].slot;
      assert byTermination[first] == i && byTermination[second] == j;
      byTermination[first] := j;
      byTermination[second] := i;
      var tmp := byDuration[i];
      byDuration[i] := byDuration[j];
      byDuration[j] := tmp;
      assert byDuration[byTermination[first]].time == old(byDuration[i].time);
      assert byDuration[byTermination[second]].time == old(byDuration[j].time);
    }

    method Fill(newest: nat)
      requires Shape()
      modifies this`count, byDuration, byTermination
      ensures count == CAPACITY
      ensures Linked(byDuration[..], byTermination[..])
      ensures forall i :: 0 <= i < CAPACITY ==> byDuration[i].time == newest
    {
      for i := 0 to CAPACITY
        invariant forall k :: 0 <= k < i ==> byTermination[k] == k && byDuration[k] == Node(newest, k)
      {
        byTermination[i] := i;
        byDuration[i] := Node(newest, i);
      }
      count := CAPACITY;
    }

    method Add(newest: nat)
      requires Valid() && newest > 0
      modifies this, byDuration, byTermination
      ensures Valid() && added == old(added) + [newest]
      ensures byDuration == old(byDuration) && byTermination == old(byTermination)
    {
      if count == 0 {
        Fill(newest);
        added := [newest];
        return;
      }
      ghost var d, t, slot := byDuration[..], byTermination[..], (|added| - 1) % CAPACITY;
      assert count % CAPACITY == slot;
      ghost var ring := Ring(added)[slot := newest];
      Overwrite(d, t, Ring(added), slot, newest);
      OldestIsReplaced(added, newest);
      hide Settled, Rising, Falling, Ring;
      var idx := byTermination[count % CAPACITY];
      var previous := byDuration[idx].time;
      byDuration[idx] := Node(newest, byDuration[idx].slot);
      assert byDuration[..] == d[idx := Node(newest, d[idx].slot)];
      if newest > previous {
        ShiftRight(idx, ring);
      } else {
        ShiftLeft(idx, ring);
      }
      count := count + 1;
      added := added + [newest];
    }

    method ShiftRight(idx: nat, ghost ring: seq<nat>)
      requires Shape() && Rising(byDuration[..], byTermination[..], ring, idx)
      modifies byDuration, byTermination
      ensures Settled(byDuration[..], byTermination[..], ring)
    {
      assert idx < CAPACITY;
      hide Rising, Settled;
      var i := idx;
      while i + 1 < CAPACITY && byDuration[i + 1].time < byDuration[i].time
        invariant i < CAPACITY && Rising(byDuration[..], byTermination[..], ring, i)
      {
        RisingStep(byDuration[..], byTermination[..], ring, i);
        Swap(i, i + 1);
        i := i + 1;
      }
      RisingDone(byDuration[..], byTermination[..], ring, i);
    }

    method ShiftLeft(idx: nat, ghost ring: seq<nat>)
      requires Shape() && Falling(byDuration[..], byTermination[..], ring, idx)
      modifies byDuration, byTermination
      ensures Settled(byDuration[..], byTermination[..], ring)
    {
      assert idx < CAPACITY;
      hide Falling, Settled;
      var i := idx;
      while i >= 1 && byDuration[i - 1].time > byDuration[i].time
        invariant 0 <= i < CAPACITY && Falling(byDuration[..], byTermination[..], ring, i)
      {
        FallingStep(byDuration[..], byTermination[..], ring, i);
        Swap(i, i - 1);
        i := i - 1;
      }
      FallingDone(byDuration[..], byTermination[..], ring, i);
    }

    /** The duration at the precomputed index, or at the percentile's own index when that is 0. */
    method GetPercentile(percentile: nat, precomputed: nat) returns (r: nat, ghost idx: nat)
      requires Valid() && 50 <= percentile <= 99 && precomputed < CAPACITY
      ensures added == [] ==> r == 0
      ensures added != [] ==>
        idx == (if precomputed == 0 then CAPACITY * percentile / 100 else precomputed) &&
        IsOrderStatistic(r, idx, Ring(added))
    {
      idx := 0;
      if count == 0 { return 0, 0; }
      var size := CAPACITY;
      if count < CAPACITY { size := count; }
      var i := precomputed;
      if precomputed == 0 || count < CAPACITY { i := size * percentile / 100; }
      idx := i;
      r := byDuration[i].time;
      SortedReadsOrderStatistic(byDuration[..], byTermination[..], Ring(added), i);
    }
  }

  // ---------- What a percentile means ----------

  ghost function NotAbove(ring: seq<nat>, r: nat): set<nat> {
    set j: nat | j < |ring| && ring[j] <= r
  }

  ghost function NotBelow(ring: seq<nat>, r: nat): set<nat> {
    set j: nat | j < |ring| && ring[j] >= r
  }

  /** `r` has rank `idx` among the durations of the window: more than `idx` of them are at most `r`
      and at least all but `idx` of them are at least `r`. */
  ghost predicate IsOrderStatistic(r: nat, idx: nat, ring: seq<nat>) {
    r in ring && |NotAbove(ring, r)| > idx && |NotBelow(ring, r)| + idx >= |ring|
  }

  ghost function SlotsFrom(d: seq<Node>, lo: nat, hi: nat): set<nat>
    requires lo <= hi <= |d|
    decreases hi - lo
  {
    if lo == hi then {} else SlotsFrom(d, lo, hi - 1) + {d[hi - 1].slot}
  }

  lemma {:induction false} SlotsAreDistinct(d: seq<Node>, t: seq<nat>, lo: nat, hi: nat)
    requires Linked(d, t) && lo <= hi <= CAPACITY
    ensures |SlotsFrom(d, lo, hi)| == hi - lo
    ensures forall j :: j in SlotsFrom(d, lo, hi) ==> j < CAPACITY && lo <= t[j] < hi
    decreases hi - lo
  {
    if lo < hi {
      SlotsAreDistinct(d, t, lo, hi - 1);
      assert t[d[hi - 1].slot] == hi - 1;
    }
  }

  lemma EnoughNotAbove(d: seq<Node>, t: seq<nat>, ring: seq<nat>, idx: nat)
    requires Settled(d, t, ring) && idx < CAPACITY
    ensures |NotAbove(ring, d[idx].time)| > idx
  {
    hide SlotsFrom;
    SlotsAreDistinct(d, t, 0, idx + 1);
    forall j | j in SlotsFrom(d, 0, idx + 1) ensures j in NotAbove(ring, d[idx].time) {
      assert d[t[j]].time == ring[j];
    }
    SubsetSize(SlotsFrom(d, 0, idx + 1), NotAbove(ring, d[idx].time));
  }

  lemma EnoughNotBelow(d: seq<Node>, t: seq<nat>, ring: seq<nat>, idx: nat)
    requires Settled(d, t, ring) && idx < CAPACITY
    ensures |NotBelow(ring, d[idx].time)| + idx >= CAPACITY
  {
    hide SlotsFrom;
    SlotsAreDistinct(d, t, idx, CAPACITY);
    forall j | j in SlotsFrom(d, idx, CAPACITY) ensures j in NotBelow(ring, d[idx].time) {
      assert d[t[j]].time == ring[j];
    }
    SubsetSize(SlotsFrom(d, idx, CAPACITY), NotBelow(ring, d[idx].time));
  }

  lemma SortedReadsOrderStatistic(d: seq<Node>, t: seq<nat>, ring: seq<nat>, idx: nat)
    requires Settled(d, t, ring) && idx < CAPACITY
    ensures IsOrderStatistic(d[idx].time, idx, ring)
  {
    hide NotAbove, NotBelow;
    EnoughNotAbove(d, t, ring, idx);
    EnoughNotBelow(d, t, ring, idx);
    assert ring[d[idx].slot] == d[idx].time;
  }

  /** No two durations share a rank, so the percentile read is determined by the last durations alone. */
  lemma OrderStatisticIsUnique(a: nat, b: nat, idx: nat, ring: seq<nat>)
    requires IsOrderStatistic(a, idx, ring) && IsOrderStatistic(b, idx, ring)
    ensures a == b
  {
    if a < b { RanksDiffer(a, b, idx, ring); } else if b < a { RanksDiffer(b, a, idx, ring); }
  }

  lemma RanksDiffer(a: nat, b: nat, idx: nat, ring: seq<nat>)
    requires a < b && IsOrderStatistic(a, idx, ring)
    ensures !IsOrderStatistic(b, idx, ring)
  {
    var low, high := NotAbove(ring, a), NotBelow(ring, b);
    assert low !! high;
    assert |low + high| == |low| + |high|;
    SmallSet(low + high, |ring|);
  }
}
