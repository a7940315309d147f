/** The priority queue of runtime/include/priority_queue.h: its operations as functions on a queue
    value, the law they obey over every run, and the in-place array code proved to compute them. */
module PriorityQueues {
  import opened Heap
  import opened Options

  /** `items` are the occupied slots, `highest` is the memoised priority that lock-free peeks read. */
  datatype Queue<T> = Queue(items: seq<T>, highest: uint64, capacity: nat)

  function EmptyQueue<T>(capacity: nat): Queue<T> {
    Queue([], ULONG_MAX, capacity)
  }

  /** What `highest` should be: the priority of the first slot, or ULONG_MAX when there is none. */
  function HeadPriority<T>(s: seq<T>, p: T -> uint64): uint64 {
    if s == [] then ULONG_MAX else p(s[0])
  }

  /** Append and percolate up. The memo is rewritten only for a first item or when the new item
      reaches the root. */
  function Enqueue<T>(q: Queue<T>, x: T, p: T -> uint64): (r: (Queue<T>, bool))
    ensures r.1 <==> |q.items| < q.capacity
    ensures r.0.capacity == q.capacity
    ensures |r.0.items| == |q.items| + if r.1 then 1 else 0
  {
    var n := |q.items|;
    if n >= q.capacity then (q, false) else
    var s := q.items + [x];
    var up := SiftUp(s, p, n);
    (Queue(up, if n == 0 || UpStop(s, p, n) == 0 then p(up[0]) else q.highest, q.capacity), true)
  }

  /** Vacate slot `k`. The memo is rewritten only when the root was touched. */
  function RemoveSlot<T>(q: Queue<T>, p: T -> uint64, k: nat): (r: Queue<T>)
    requires k < |q.items|
    ensures |r.items| == |q.items| - 1 && r.capacity == q.capacity
  {
    var s := RemoveAt(q.items, p, k);
    Queue(s, if k == 0 then HeadPriority(s, p) else q.highest, q.capacity)
  }

  function DequeueIfEarlier<T>(q: Queue<T>, p: T -> uint64, target: uint64): (r: (Queue<T>, Option<T>))
  {
    if q.items == [] || q.highest >= target then (q, None)
    else (RemoveSlot(q, p, 0), Some(q.items[0]))
  }

  function IndexOf<T(==)>(s: seq<T>, x: T): (k: nat)
    requires x in s
    ensures k < |s| && s[k] == x && forall j :: 0 <= j < k ==> s[j] != x
  {
    if s[0] == x then 0 else 1 + IndexOf(s[1..], x)
  }

  function Delete<T(==)>(q: Queue<T>, x: T, p: T -> uint64): (r: (Queue<T>, bool))
    ensures r.1 <==> x in q.items
    ensures r.0.capacity == q.capacity
    ensures |r.0.items| == |q.items| - if r.1 then 1 else 0
  {
    if x in q.items then (RemoveSlot(q, p, IndexOf(q.items, x)), true) else (q, false)
  }

  function Grow<T>(q: Queue<T>): Queue<T> {
    q.(capacity := if q.capacity == 0 then 1 else 2 * q.capacity)
  }

  lemma EnqueueBag<T>(q: Queue<T>, x: T, p: T -> uint64)
    requires |q.items| < q.capacity
    ensures multiset(Enqueue(q, x, p).0.items) == multiset(q.items) + multiset{x}
  {
    SiftUpBag(q.items + [x], p, |q.items|);
  }

  lemma DeleteBag<T>(q: Queue<T>, x: T, p: T -> uint64)
    ensures multiset(Delete(q, x, p).0.items) == multiset(q.items) - multiset{x}
  {
    if x in q.items { RemoveAtBag(q.items, p, IndexOf(q.items, x)); }
  }

  // ---------- Fixed priorities: the queue is a bag with a minimum ----------

  ghost predicate Sound<T(!new)>(q: Queue<T>, p: T -> uint64) {
    |q.items| <= q.capacity && HeapOrdered(q.items, p) && q.highest == HeadPriority(q.items, p)
  }

  ghost predicate IsMinimum<T(!new)>(x: T, bag: multiset<T>, p: T -> uint64) {
    x in bag && forall y :: y in bag ==> p(x) <= p(y)
  }

  lemma RootIsBagMinimum<T(!new)>(q: Queue<T>, p: T -> uint64)
    requires Sound(q, p) && q.items != []
    ensures IsMinimum(q.items[0], multiset(q.items), p)
  {
    RootIsMinimum(q.items, p);
    forall y | y in multiset(q.items) ensures p(q.items[0]) <= p(y) {
      var k := IndexOfMember(q.items, y);
    }
    assert q.items[0] in q.items;
  }

  lemma IndexOfMember<T>(s: seq<T>, x: T) returns (k: nat)
    requires x in multiset(s)
    ensures k < |s| && s[k] == x
  {
    assert x in s;
    k :| k < |s| && s[k] == x;
  }

  lemma EnqueueKeepsOrder<T(!new)>(q: Queue<T>, x: T, p: T -> uint64)
    requires HeapOrdered(q.items, p)
    ensures HeapOrdered(Enqueue(q, x, p).0.items, p)
  {
    var n := |q.items|;
    var s := q.items + [x];
    forall j | 0 < j < |s| && j != n ensures p(s[Parent(j)]) <= p(s[j]) {
      assert p(q.items[Parent(j)]) <= p(q.items[j]);
    }
    SiftUpRestoresOrder(s, p, n);
  }

  lemma EnqueueSound<T(!new)>(q: Queue<T>, x: T, p: T -> uint64)
    requires Sound(q, p)
    ensures Sound(Enqueue(q, x, p).0, p)
  {
    EnqueueKeepsOrder(q, x, p);
    if |q.items| < q.capacity { SiftUpRoot(q.items + [x], p, |q.items|); }
  }

  lemma RemoveSlotSound<T(!new)>(q: Queue<T>, p: T -> uint64, k: nat)
    requires Sound(q, p) && k < |q.items| && MovedItemFits(q.items, p, k)
    ensures Sound(RemoveSlot(q, p, k), p)
  {
    DeleteKeepsOrderIff(q.items, p, k);
    if k > 0 {
      var n := |q.items| - 1;
      SiftDownLeavesAbove(q.items[k := q.items[n]][..n], p, k);
    }
  }

  datatype Op<T> = Add(x: T) | Take(target: uint64) | Double
  datatype Answer<T> = Added | Full | Got(x: T) | Nothing | Doubled

  function Apply<T>(q: Queue<T>, op: Op<T>, p: T -> uint64): (Queue<T>, Answer<T>) {
    match op
    case Add(x) => var (q', ok) := Enqueue(q, x, p); (q', if ok then Added else Full)
    case Take(target) =>
      var (q', got) := DequeueIfEarlier(q, p, target);
      (q', if got.Some? then Got(got.value) else Nothing)
    case Double => (Grow(q), Doubled)
  }

  function Run<T>(capacity: nat, ops: seq<Op<T>>, p: T -> uint64): Queue<T> {
    if ops == [] then EmptyQueue(capacity)
    else Apply(Run(capacity, ops[..|ops| - 1], p), ops[|ops| - 1], p).0
  }

  /** The reference: a bounded bag. A take answers with some minimum, and does so exactly when a
      member lies strictly below the target. */
  ghost predicate BagStep<T(!new)>(bag: multiset<T>, cap: nat, op: Op<T>, a: Answer<T>,
                                   bag': multiset<T>, cap': nat, p: T -> uint64)
  {
    match op
    case Add(x) =>
      cap' == cap &&
      if |bag| < cap then a == Added && bag' == bag + multiset{x} else a == Full && bag' == bag
    case Take(target) =>
      cap' == cap &&
      if exists y :: y in bag && p(y) < target
      then a.Got? && IsMinimum(a.x, bag, p) && p(a.x) < target && bag' == bag - multiset{a.x}
      else a == Nothing && bag' == bag
    case Double => a == Doubled && bag' == bag && cap' == if cap == 0 then 1 else 2 * cap
  }

  lemma ApplyIsBagStep<T(!new)>(q: Queue<T>, op: Op<T>, p: T -> uint64)
    requires Sound(q, p)
    ensures var (q', a) := Apply(q, op, p);
            Sound(q', p) &&
            BagStep(multiset(q.items), q.capacity, op, a, multiset(q'.items), q'.capacity, p)
  {
    match op
    case Add(x) =>
      EnqueueSound(q, x, p);
      if |q.items| < q.capacity { EnqueueBag(q, x, p); }
    case Take(target) =>
      if q.items != [] {
        RootIsBagMinimum(q, p);
        RemoveSlotSound(q, p, 0);
        RemoveAtBag(q.items, p, 0);
      }
    case Double =>
  }

  lemma {:induction false} EveryRunIsSound<T(!new)>(capacity: nat, ops: seq<Op<T>>, p: T -> uint64)
    ensures Sound(Run(capacity, ops, p), p)
  {
    if ops != [] {
      EveryRunIsSound(capacity, ops[..|ops| - 1], p);
      ApplyIsBagStep(Run(capacity, ops[..|ops| - 1], p), ops[|ops| - 1], p);
    }
  }

  /** Every step of every run is a step of the bag. */
  lemma EveryRunIsABag<T(!new)>(capacity: nat, ops: seq<Op<T>>, p: T -> uint64, i: nat)
    requires i < |ops|
    ensures var q, q' := Run(capacity, ops[..i], p), Run(capacity, ops[..i + 1], p);
            BagStep(multiset(q.items), q.capacity, ops[i], Apply(q, ops[i], p).1,
                    multiset(q'.items), q'.capacity, p)
  {
    EveryRunIsSound(capacity, ops[..i], p);
    ApplyIsBagStep(Run(capacity, ops[..i], p), ops[i], p);
    assert ops[..i + 1][..i] == ops[..i];
  }

  /** What one step accepted and what it handed out. */
  function In<T>(op: Op<T>, a: Answer<T>): multiset<T> {
    if op.Add? && a.Added? then multiset{op.x} else multiset{}
  }

  function Out<T>(a: Answer<T>): multiset<T> {
    if a.Got? then multiset{a.x} else multiset{}
  }

  function LastAnswer<T>(capacity: nat, ops: seq<Op<T>>, p: T -> uint64): Answer<T>
    requires ops != []
  {
    Apply(Run(capacity, ops[..|ops| - 1], p), ops[|ops| - 1], p).1
  }

  function Accepted<T>(capacity: nat, ops: seq<Op<T>>, p: T -> uint64): multiset<T> {
    if ops == [] then multiset{}
    else Accepted(capacity, ops[..|ops| - 1], p) + In(ops[|ops| - 1], LastAnswer(capacity, ops, p))
  }

  function HandedOut<T>(capacity: nat, ops: seq<Op<T>>, p: T -> uint64): multiset<T> {
    if ops == [] then multiset{}
    else HandedOut(capacity, ops[..|ops| - 1], p) + Out(LastAnswer(capacity, ops, p))
  }

  lemma ApplyConserves<T(!new)>(q: Queue<T>, op: Op<T>, p: T -> uint64)
    ensures multiset(Apply(q, op, p).0.items) + Out(Apply(q, op, p).1)
         == multiset(q.items) + In(op, Apply(q, op, p).1)
  {
    match op
    case Add(x) => if |q.items| < q.capacity { EnqueueBag(q, x, p); }
    case Take(target) =>
      if q.items != [] && q.highest < target {
        RemoveAtBag(q.items, p, 0);
        assert q.items[0] in multiset(q.items);
      }
    case Double =>
  }

  lemma BalanceStep<T>(held: multiset<T>, out: multiset<T>, acc: multiset<T>,
                       held': multiset<T>, stepOut: multiset<T>, stepIn: multiset<T>)
    requires held + out == acc && held' + stepOut == held + stepIn
    ensures held' + (out + stepOut) == acc + stepIn
  {
    assert held' + (out + stepOut) == (held' + stepOut) + out;
    assert (held + stepIn) + out == (held + out) + stepIn;
  }

  lemma {:induction false} NothingLostOrInvented<T(!new)>(capacity: nat, ops: seq<Op<T>>, p: T -> uint64)
    ensures multiset(Run(capacity, ops, p).items) + HandedOut(capacity, ops, p)
         == Accepted(capacity, ops, p)
  {
    if ops != [] {
      var before, op := ops[..|ops| - 1], ops[|ops| - 1];
      var q, a := Run(capacity, before, p), LastAnswer(capacity, ops, p);
      NothingLostOrInvented(capacity, before, p);
      ApplyConserves(q, op, p);
      BalanceStep(multiset(q.items), HandedOut(capacity, before, p), Accepted(capacity, before, p),
                  multiset(Run(capacity, ops, p).items), Out(a), In(op, a));
    }
  }

  // ---------- The array code ----------

  /** The priority of `x`. Reading it through a named function keeps it visibly independent of the heap. */
  function At<T>(p: T -> uint64, x: T): uint64 {
    p(x)
  }

  /** Percolating up `s` from `k` and `s0` from `k0` end alike. */
  ghost predicate SameClimb<T>(s: seq<T>, k: nat, s0: seq<T>, k0: nat, p: T -> uint64) {
    k < |s| && k0 < |s0| &&
    SiftUp(s, p, k) == SiftUp(s0, p, k0) && UpStop(s, p, k) == UpStop(s0, p, k0)
  }

  lemma ClimbStep<T>(s: seq<T>, k: nat, s0: seq<T>, k0: nat, p: T -> uint64) returns (t: seq<T>)
    requires 0 < k && SameClimb(s, k, s0, k0, p) && At(p, s[k]) < At(p, s[(k + 1) / 2 - 1])
    ensures t == Swap(s, k, (k + 1) / 2 - 1) && SameClimb(t, (k + 1) / 2 - 1, s0, k0, p)
  {
    assert Parent(k) == (k + 1) / 2 - 1;
    t := Swap(s, k, Parent(k));
  }

  lemma UpDone<T>(s: seq<T>, p: T -> uint64, k: nat)
    requires k < |s| && (k == 0 || p(s[k]) >= p(s[(k + 1) / 2 - 1]))
    ensures SiftUp(s, p, k) == s && UpStop(s, p, k) == k
  {
  }

  /** Who calls. Percolating down and dequeueing assert that it is not the listener, in a build with assertions. */
  datatype Thread = Listener | WorkerThread

  class PriorityQueue<T(0, ==)> {
    /** Slot 0 is never used. Slots past `size` hold leftovers; the C code stores NULL there. */
    var items: array<T>
    var size: nat
    var capacity: nat
    var highest: uint64
    /** Whether the program was built with its assertions. */
    const checked: bool

    ghost predicate Valid()
      reads this
    {
      size <= capacity && items.Length == capacity + 1
    }

    /** `s` is what slots 1 to `size` hold. */
    ghost predicate Holds(s: seq<T>)
      requires Valid()
      reads this, items
    {
      |s| == size && forall j :: 0 <= j < |s| ==> s[j] == items[j + 1]
    }

    ghost function Value(): Queue<T>
      requires Valid()
      reads this, items
    {
      Queue(items[1..size + 1], highest, capacity)
    }

    constructor (capacity: nat, checked: bool)
      ensures Valid() && Value() == EmptyQueue(capacity) && fresh(items) && this.checked == checked
    {
      this.checked := checked;
      items := new T[capacity + 1];
      size := 0;
      this.capacity := capacity;
      highest := ULONG_MAX;
    }

    /** priority_queue_append followed by priority_queue_percolate_up. */
    method EnqueueNolock(x: T, p: T -> uint64) returns (ok: bool)
      requires Valid()
      modifies this, items
      ensures Valid() && items == old(items)
      ensures (Value(), ok) == Enqueue(old(Value()), x, p)
    {
      if size == capacity { return false; }
      size := size + 1;
      items[size] := x;
      ghost var s := old(items[1..size + 1]) + [x];
      PercolateUp(p, s);
      assert items[1..size + 1] == SiftUp(s, p, size - 1);
      ok := true;
    }

    method SwapSlots(i: nat, j: nat, ghost s: seq<T>)
      requires Valid() && 1 <= i <= size && 1 <= j <= size && Holds(s)
      modifies items
      ensures Holds(Swap(s, i - 1, j - 1))
    {
      items[i], items[j] := items[j], items[i];
    }

    method PercolateUp(p: T -> uint64, ghost s0: seq<T>)
      requires Valid() && size > 0 && Holds(s0)
      modifies `highest, items
      ensures Valid() && Holds(SiftUp(s0, p, size - 1))
      ensures highest == if size == 1 || UpStop(s0, p, size - 1) == 0
                         then At(p, items[1]) else old(highest)
    {
      hide SiftUp, UpStop;
      if size == 1 {
        highest := At(p, items[1]);
        UpDone(s0, p, 0);
        return;
      }
      var i := size;
      ghost var s := s0;
      while i / 2 != 0 && At(p, items[i]) < At(p, items[i / 2])
        invariant 1 <= i <= size && Valid() && Holds(s)
        invariant SameClimb(s, i - 1, s0, size - 1, p)
        invariant highest == if i == 1 then At(p, items[1]) else old(highest)
      {
        assert At(p, items[i]) != ULONG_MAX;
        SwapSlots(i, i / 2, s);
        s := ClimbStep(s, i - 1, s0, size - 1, p);
        if i / 2 == 1 { highest := At(p, items[1]); }
        i := i / 2;
      }
      UpDone(s, p, i - 1);
    }

    method FindSmallestChild(p: T -> uint64, parent: nat, ghost s: seq<T>) returns (child: nat)
      requires Valid() && 1 <= parent && 2 * parent <= size && Holds(s)
      ensures child == SmallestChild(s, p, parent - 1) + 1
    {
      if 2 * parent + 1 > size {
        child := 2 * parent;
      } else if At(p, items[2 * parent]) < At(p, items[2 * parent + 1]) {
        child := 2 * parent;
      } else {
        child := 2 * parent + 1;
      }
    }

    method PercolateDown(p: T -> uint64, start: nat, caller: Thread, ghost s0: seq<T>)
      requires Valid() && start >= 1 && Holds(s0) && (checked ==> caller != Listener)
      modifies `highest, items
      ensures Valid() && Holds(SiftDown(s0, p, start - 1))
      ensures highest == if start == 1 then HeadPriority(SiftDown(s0, p, 0), p) else old(highest)
    {
      var parent := start;
      ghost var s := s0;
      while 2 * parent <= size
        invariant parent >= 1 && Valid() && Holds(s) && highest == old(highest)
        invariant SiftDown(s, p, parent - 1) == SiftDown(s0, p, start - 1)
        decreases size - parent
      {
        var child := FindSmallestChild(p, parent, s);
        if At(p, items[parent]) <= At(p, items[child]) { break; }
        SwapSlots(parent, child, s);
        s := Swap(s, parent - 1, child - 1);
        parent := child;
      }
      assert SiftDown(s, p, parent - 1) == s;
      if start == 1 {
        if size != 0 { highest := At(p, items[1]); } else { highest := ULONG_MAX; }
      }
    }

    method DequeueIfEarlierNolock(p: T -> uint64, target: uint64, caller: Thread) returns (x: Option<T>)
      requires Valid() && (checked ==> caller != Listener)
      modifies this, items
      ensures Valid() && items == old(items)
      ensures (Value(), x) == DequeueIfEarlier(old(Value()), p, target)
    {
      if size == 0 || highest >= target { return None; }
      x := Some(items[1]);
      VacateSlot(p, 1, caller);
    }

    /** The two stores and the percolation that a dequeue and a delete share. */
    method VacateSlot(p: T -> uint64, i: nat, caller: Thread)
      requires Valid() && 1 <= i <= size && (checked ==> caller != Listener)
      modifies this, items
      ensures Valid() && items == old(items)
      ensures Value() == RemoveSlot(old(Value()), p, i - 1)
    {
      hide SiftDown, SmallestChild;
      ghost var s := items[1..size + 1];
      items[i] := items[size];
      size := size - 1;
      ghost var t := s[i - 1 := s[|s| - 1]][..|s| - 1];
      PercolateDown(p, i, caller, t);
      assert items[1..size + 1] == SiftDown(t, p, i - 1) == RemoveAt(s, p, i - 1);
    }

    /** `aborts`: the item is there and the listener reaches the assertion of the percolation. */
    method DeleteNolock(x: T, p: T -> uint64, caller: Thread) returns (found: bool, aborts: bool)
      requires Valid()
      modifies this, items
      ensures Valid() && items == old(items)
      ensures aborts <==> checked && caller == Listener && x in old(Value()).items
      ensures !aborts ==> (Value(), found) == Delete(old(Value()), x, p)
    {
      var i := 1;
      while i <= size
        invariant 1 <= i <= size + 1 && Valid() && Value() == old(Value()) && items == old(items)
        invariant forall j :: 1 <= j < i ==> items[j] != x
      {
        if items[i] == x {
          ghost var s := items[1..size + 1];
          assert s[i - 1] == x;
          assert forall j :: 0 <= j < i - 1 ==> s[j] == items[j + 1];
          assert IndexOf(s, x) == i - 1;
          if checked && caller == Listener { return true, true; }
          VacateSlot(p, i, caller);
          return true, false;
        }
        i := i + 1;
      }
      found, aborts := false, false;
      ghost var s := items[1..size + 1];
      assert forall j :: 0 <= j < size ==> s[j] == items[j + 1];
    }

    method TopNolock() returns (x: Option<T>)
      requires Valid()
      ensures x == if Value().items == [] then None else Some(Value().items[0])
    {
      x := if size == 0 then None else Some(items[1]);
    }

    method GrowNolock()
      requires Valid()
      modifies this
      ensures Valid() && fresh(items)
      ensures Value() == Grow(old(Value()))
    {
      capacity := if capacity == 0 then 1 else 2 * capacity;
      var bigger := new T[capacity + 1];
      forall i | 0 <= i <= size { bigger[i] := items[i]; }
      items := bigger;
      assert items[1..size + 1] == old(items[1..size + 1]);
    }
  }
}
