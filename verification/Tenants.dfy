/** Common ground of the two multi-tenancy schedulers: tenant classes, replenishment timeouts, and heaps
    of tenants that hold each tenant at most once. */
module Tenants {
  import opened Heap
  import opened PriorityQueues
  import opened Sets
  import opened Bags

  const MAX_TENANTS: nat := 32
  const TENANT_QUEUE_SIZE: nat := 4096

  datatype MtClass = Default | Guaranteed

  datatype Sandbox = Sandbox(id: nat, tenant: nat, deadline: uint64)

  function Deadline(s: Sandbox): uint64 {
    s.deadline
  }

  /** The priority of a tenant's queue: the deadline at its head. */
  function HeadDeadline(queues: seq<Queue<Sandbox>>): nat -> uint64 {
    (t: nat) => if t < |queues| && queues[t].items != [] then queues[t].items[0].deadline else ULONG_MAX
  }

  function TimeoutOf(timeouts: seq<uint64>): nat -> uint64 {
    (t: nat) => if t < |timeouts| then timeouts[t] else 0
  }

  /** `q` holds exactly the tenants `s`, each once. */
  ghost predicate Exactly(q: Queue<nat>, s: set<nat>) {
    q.capacity == MAX_TENANTS && multiset(q.items) == multiset(s)
  }

  ghost predicate HeadOf(t: nat, q: Queue<nat>) {
    q.items != [] && t == q.items[0]
  }

  lemma ExactlyMembers(q: Queue<nat>, s: set<nat>)
    requires Exactly(q, s)
    ensures forall x :: x in q.items <==> x in s
    ensures |q.items| == |s|
  {
    forall x ensures x in q.items <==> x in s {
      assert x in q.items <==> x in multiset(q.items);
      assert x in s <==> x in multiset(s);
    }
    assert |q.items| == |multiset(q.items)|;
  }

  /** With at most 32 tenants a tenant that is not in the heap can always be added. */
  lemma ExactlyEnqueue(q: Queue<nat>, s: set<nat>, x: nat, p: nat -> uint64)
    requires Exactly(q, s) && x !in s && forall y :: y in s + {x} ==> y < MAX_TENANTS
    ensures Enqueue(q, x, p).1 && Exactly(Enqueue(q, x, p).0, s + {x})
  {
    ExactlyMembers(q, s);
    SmallSet(s + {x}, MAX_TENANTS);
    assert |s + {x}| == |s| + 1;
    EnqueueBag(q, x, p);
    assert multiset(s + {x}) == multiset(s) + multiset{x};
  }

  lemma ExactlyDelete(q: Queue<nat>, s: set<nat>, x: nat, p: nat -> uint64)
    requires Exactly(q, s) && x in s
    ensures Delete(q, x, p).1 && Exactly(Delete(q, x, p).0, s - {x})
  {
    ExactlyMembers(q, s);
    DeleteBag(q, x, p);
    assert multiset(s - {x}) == multiset(s) - multiset{x};
  }

  // ---------- The memo of a tenant heap ----------

  /** The memo reads ULONG_MAX exactly when the heap is empty, even where heap order is lost. */
  ghost predicate Marked(q: Queue<nat>) {
    q.highest == ULONG_MAX <==> q.items == []
  }

  ghost predicate AllBelowMax(s: set<nat>, p: nat -> uint64) {
    forall y :: y in s ==> p(y) < ULONG_MAX
  }

  lemma MarkedEnqueue(q: Queue<nat>, x: nat, p: nat -> uint64)
    requires Marked(q) && p(x) < ULONG_MAX
    ensures Marked(Enqueue(q, x, p).0)
  {
    if |q.items| < q.capacity { SiftUpRoot(q.items + [x], p, |q.items|); }
  }

  lemma MarkedDelete(q: Queue<nat>, s: set<nat>, x: nat, p: nat -> uint64)
    requires Marked(q) && Exactly(q, s) && x in s && AllBelowMax(s - {x}, p)
    ensures Marked(Delete(q, x, p).0)
  {
    ExactlyMembers(q, s);
    ExactlyDelete(q, s, x, p);
    var r := Delete(q, x, p).0;
    ExactlyMembers(r, s - {x});
    if r.items != [] { assert r.items[0] in r.items; }
  }

  // ---------- Replenishment timeouts ----------

  /** get_next_timeout_of_tenant at cycle `now`. */
  function NextTimeout(boot: nat, now: nat, period: nat): nat
    requires period > 0 && boot <= now
  {
    boot + ((now - boot) / period + 1) * period
  }

  /** What a 64-bit word holds of it. */
  function Wrapped(x: nat): (r: uint64)
    ensures (x - r) % (ULONG_MAX + 1) == 0 && r <= x
  {
    x % (ULONG_MAX + 1)
  }

  /** `timeout` lies on the period's grid from boot, after `now` and within one period of it. */
  ghost predicate OnGridAfter(timeout: nat, boot: nat, now: nat, period: nat)
    requires period > 0
  {
    now < timeout <= now + period && exists k: nat :: timeout == boot + k * period
  }

  lemma NextTimeoutOnGrid(boot: nat, now: nat, period: nat)
    requires period > 0 && boot <= now
    ensures OnGridAfter(NextTimeout(boot, now, period), boot, now, period)
  {
    var d := now - boot;
    var k := d / period;
    assert d == k * period + d % period;
    assert (k + 1) * period == k * period + period;
    assert NextTimeout(boot, now, period) == boot + (k + 1) * period;
  }

  lemma NextTimeoutMonotone(boot: nat, early: nat, late: nat, period: nat)
    requires period > 0 && boot <= early <= late
    ensures NextTimeout(boot, early, period) <= NextTimeout(boot, late, period)
  {
    hide NextTimeout;
    NextTimeoutOnGrid(boot, early, period);
    NextTimeoutOnGrid(boot, late, period);
    var i: nat :| NextTimeout(boot, early, period) == boot + i * period;
    var j: nat :| NextTimeout(boot, late, period) == boot + j * period;
    if j < i { GridGap(j, i, period); } else if i < j { GridGap(i, j, period); }
  }

  /** It is the only such point, so the timeout is exactly the next replenishment. */
  lemma GridPointIsUnique(a: nat, b: nat, boot: nat, now: nat, period: nat)
    requires period > 0 && OnGridAfter(a, boot, now, period) && OnGridAfter(b, boot, now, period)
    ensures a == b
  {
    var i: nat :| a == boot + i * period;
    var j: nat :| b == boot + j * period;
    if i < j { GridGap(i, j, period); } else if j < i { GridGap(j, i, period); }
  }

  lemma GridGap(i: nat, j: nat, period: nat)
    requires i < j
    ensures i * period + period <= j * period
  {
    assert j * period == i * period + (j - i) * period;
    assert (j - i) * period == period + (j - i - 1) * period;
  }

  // ---------- Class members ----------

  /** The busy tenants of class `c`. */
  ghost function InClass(queues: seq<Queue<Sandbox>>, cls: seq<MtClass>, c: MtClass): set<nat> {
    set t: nat | t < |queues| && t < |cls| && queues[t].items != [] && cls[t] == c
  }

  predicate AllIdle(queues: seq<Queue<Sandbox>>) {
    forall t :: 0 <= t < |queues| ==> queues[t].items == []
  }

  /** `x` is at the head of its tenant's queue. */
  predicate IsHead(x: Sandbox, queues: seq<Queue<Sandbox>>) {
    x.tenant < |queues| && queues[x.tenant].items != [] && x == queues[x.tenant].items[0]
  }

  /** The request overtakes the head of a tenant that already has requests. */
  predicate Overtakes(x: Sandbox, queues: seq<Queue<Sandbox>>) {
    x.tenant < |queues| && queues[x.tenant].items != [] && x.deadline < queues[x.tenant].items[0].deadline
  }

  // ---------- The two class heaps ----------

  datatype Heaps = Heaps(guaranteed: Queue<nat>, default: Queue<nat>)

  function InsertTenant(h: Heaps, c: MtClass, t: nat, p: nat -> uint64): (Heaps, bool) {
    if c == Guaranteed then var (q, ok) := Enqueue(h.guaranteed, t, p); (h.(guaranteed := q), ok)
    else var (q, ok) := Enqueue(h.default, t, p); (h.(default := q), ok)
  }

  function RemoveTenant(h: Heaps, c: MtClass, t: nat, p: nat -> uint64): (Heaps, bool) {
    if c == Guaranteed then var (q, ok) := Delete(h.guaranteed, t, p); (h.(guaranteed := q), ok)
    else var (q, ok) := Delete(h.default, t, p); (h.(default := q), ok)
  }

  function Pick(h: Heaps, c: MtClass): Queue<nat> {
    if c == Guaranteed then h.guaranteed else h.default
  }

  /** Each busy tenant is in the heap of its class, once, and in no other. */
  ghost predicate Members(h: Heaps, queues: seq<Queue<Sandbox>>, cls: seq<MtClass>) {
    Exactly(h.guaranteed, InClass(queues, cls, Guaranteed)) && Exactly(h.default, InClass(queues, cls, Default))
  }

  /** `h'` has `s` as the members of class `c` and is `h` for the other class. */
  ghost predicate Replaces(h: Heaps, c: MtClass, h': Heaps, s: set<nat>) {
    Exactly(Pick(h', c), s) &&
    (c == Guaranteed ==> h'.default == h.default) && (c == Default ==> h'.guaranteed == h.guaranteed)
  }

  lemma InsertKeeps(h: Heaps, c: MtClass, s: set<nat>, t: nat, p: nat -> uint64)
    requires Exactly(Pick(h, c), s) && t !in s && forall y :: y in s + {t} ==> y < MAX_TENANTS
    ensures InsertTenant(h, c, t, p).1 && Replaces(h, c, InsertTenant(h, c, t, p).0, s + {t})
    ensures Marked(Pick(h, c)) && AllBelowMax({t}, p) ==> Marked(Pick(InsertTenant(h, c, t, p).0, c))
  {
    ExactlyEnqueue(Pick(h, c), s, t, p);
    if Marked(Pick(h, c)) && AllBelowMax({t}, p) { MarkedEnqueue(Pick(h, c), t, p); }
    hide Enqueue, Exactly, Marked, AllBelowMax;
  }

  lemma RemoveKeeps(h: Heaps, c: MtClass, s: set<nat>, t: nat, p: nat -> uint64)
    requires Exactly(Pick(h, c), s) && t in s
    ensures RemoveTenant(h, c, t, p).1 && Replaces(h, c, RemoveTenant(h, c, t, p).0, s - {t})
    ensures Marked(Pick(h, c)) && AllBelowMax(s - {t}, p) ==> Marked(Pick(RemoveTenant(h, c, t, p).0, c))
  {
    ExactlyDelete(Pick(h, c), s, t, p);
    if Marked(Pick(h, c)) && AllBelowMax(s - {t}, p) { MarkedDelete(Pick(h, c), s, t, p); }
    hide Delete, Exactly, Marked, AllBelowMax;
  }

  /** Delete and re-add a tenant whose priority has changed: neither step can panic. */
  lemma ReheapifyKeeps(h: Heaps, c: MtClass, s: set<nat>, t: nat, p: nat -> uint64)
    requires Exactly(Pick(h, c), s) && t in s && forall y :: y in s ==> y < MAX_TENANTS
    ensures RemoveTenant(h, c, t, p).1 && Replaces(h, c, RemoveTenant(h, c, t, p).0, s - {t})
    ensures var r := InsertTenant(RemoveTenant(h, c, t, p).0, c, t, p); r.1 && Replaces(h, c, r.0, s)
    ensures Marked(Pick(h, c)) && AllBelowMax(s - {t}, p) ==>
      var h' := RemoveTenant(h, c, t, p).0;
      Marked(Pick(h', c)) && (AllBelowMax({t}, p) ==> Marked(Pick(InsertTenant(h', c, t, p).0, c)))
  {
    hide InsertTenant, RemoveTenant, Marked, AllBelowMax;
    RemoveKeeps(h, c, s, t, p);
    InsertKeeps(RemoveTenant(h, c, t, p).0, c, s - {t}, t, p);
    assert s - {t} + {t} == s;
  }

  /** Promotion and demotion: out of the heap of class `c`, into that of `c'`; neither step can panic. */
  lemma MoveKeeps(h: Heaps, c: MtClass, c': MtClass, from: set<nat>, to: set<nat>, t: nat, p: nat -> uint64)
    requires c != c' && Exactly(Pick(h, c), from) && Exactly(Pick(h, c'), to)
    requires t in from && t !in to && t < MAX_TENANTS && forall y :: y in to ==> y < MAX_TENANTS
    ensures RemoveTenant(h, c, t, p).1
    ensures var r := InsertTenant(RemoveTenant(h, c, t, p).0, c', t, p);
            r.1 && Exactly(Pick(r.0, c), from - {t}) && Exactly(Pick(r.0, c'), to + {t})
    ensures Marked(Pick(h, c)) && Marked(Pick(h, c')) && AllBelowMax(from - {t}, p) && AllBelowMax({t}, p) ==>
      var r := InsertTenant(RemoveTenant(h, c, t, p).0, c', t, p); Marked(Pick(r.0, c)) && Marked(Pick(r.0, c'))
  {
    hide InsertTenant, RemoveTenant, Exactly, Marked, AllBelowMax;
    RemoveKeeps(h, c, from, t, p);
    InsertKeeps(RemoveTenant(h, c, t, p).0, c', to, t, p);
  }

  /** Moving a busy tenant to the other class moves it between the two member sets. */
  lemma ClassChange(queues: seq<Queue<Sandbox>>, cls: seq<MtClass>, t: nat, c: MtClass)
    requires t < |queues| == |cls| && queues[t].items != [] && cls[t] != c
    ensures InClass(queues, cls[t := c], c) == InClass(queues, cls, c) + {t}
    ensures InClass(queues, cls[t := c], cls[t]) == InClass(queues, cls, cls[t]) - {t}
  {
  }

  /** Replacing one class heap by one that fits the new queues, where the other class is as before. */
  lemma MembersChange(h: Heaps, h': Heaps, queues: seq<Queue<Sandbox>>, queues': seq<Queue<Sandbox>>,
                      cls: seq<MtClass>, c: MtClass)
    requires Members(h, queues, cls) && Replaces(h, c, h', InClass(queues', cls, c))
    requires forall d :: d != c ==> InClass(queues', cls, d) == InClass(queues, cls, d)
    ensures Members(h', queues', cls)
  {
    assert InClass(queues', cls, if c == Guaranteed then Default else Guaranteed)
        == InClass(queues, cls, if c == Guaranteed then Default else Guaranteed);
  }

  /** One level of the scheduler: each tenant's queue and class, and the class heaps. */
  datatype TenantQueues = TenantQueues(queues: seq<Queue<Sandbox>>, cls: seq<MtClass>, heaps: Heaps)

  /** Delete tenant `t` from the heap of its class, add it to that of `c`, and change its class. The second result
      is whether neither step panics. */
  function MoveTenant(q: TenantQueues, t: nat, c: MtClass): (TenantQueues, bool)
    requires t < |q.cls|
  {
    var (without, found) := RemoveTenant(q.heaps, q.cls[t], t, HeadDeadline(q.queues));
    var (with, room) := InsertTenant(without, c, t, HeadDeadline(q.queues));
    (q.(heaps := with, cls := q.cls[t := c]), found && room)
  }

  /** A busy tenant changes its class: neither the delete nor the add can panic. */
  lemma MoveMembers(h: Heaps, queues: seq<Queue<Sandbox>>, cls: seq<MtClass>, t: nat, c': MtClass)
    requires Members(h, queues, cls) && t < |queues| == |cls| <= MAX_TENANTS && queues[t].items != [] && cls[t] != c'
    ensures var p := HeadDeadline(queues); var r := RemoveTenant(h, cls[t], t, p); var i := InsertTenant(r.0, c', t, p);
            r.1 && i.1 && Members(i.0, queues, cls[t := c']) &&
            |Pick(i.0, cls[t]).items| == |Pick(h, cls[t]).items| - 1 &&
            (Marked(h.guaranteed) && Marked(h.default) && AllBelowMax(InClass(queues, cls, cls[t]), p) ==>
               Marked(i.0.guaranteed) && Marked(i.0.default))
  {
    var c, p := cls[t], HeadDeadline(queues);
    var from, to := InClass(queues, cls, c), InClass(queues, cls, c');
    ClassChange(queues, cls, t, c');
    MembersAreBounded(queues, cls);
    assert t in from && t !in to;
    if AllBelowMax(from, p) { assert AllBelowMax({t}, p) && AllBelowMax(from - {t}, p); }
    hide InsertTenant, RemoveTenant, Exactly, InClass, Marked, AllBelowMax, HeadDeadline;
    MoveKeeps(h, c, c', from, to, t, p);
    MoveCounts(h, c, c', t, p);
  }

  lemma MoveCounts(h: Heaps, c: MtClass, c': MtClass, t: nat, p: nat -> uint64)
    requires c' != c && RemoveTenant(h, c, t, p).1
    ensures |Pick(InsertTenant(RemoveTenant(h, c, t, p).0, c', t, p).0, c).items| == |Pick(h, c).items| - 1
  {
    hide Enqueue, Delete;
  }

  lemma SameOrder(s: seq<nat>, p: nat -> uint64, p': nat -> uint64)
    requires HeapOrdered(s, p) && forall x :: x in s ==> p(x) == p'(x)
    ensures HeapOrdered(s, p')
  {
  }

  /** Deleting the head of the timeout heap, giving it a later timeout and adding it back keeps the heap
      ordered: the delete is at the root and the others' timeouts did not change. */
  lemma RenewKeeps(q: Queue<nat>, paid: set<nat>, t: nat, timeouts: seq<uint64>, next: uint64)
    requires Exactly(q, paid) && q.items != [] && t == q.items[0] && t < |timeouts|
    requires forall y :: y in paid ==> y < MAX_TENANTS
    ensures var p' := TimeoutOf(timeouts[t := next]);
            var r := Enqueue(Delete(q, t, TimeoutOf(timeouts)).0, t, p').0;
            Exactly(r, paid) && r.items != [] &&
            (HeapOrdered(q.items, TimeoutOf(timeouts)) ==> HeapOrdered(r.items, p'))
  {
    hide Enqueue, Delete, HeapOrdered;
    var p, p' := TimeoutOf(timeouts), TimeoutOf(timeouts[t := next]);
    ExactlyMembers(q, paid);
    assert t in q.items;
    ExactlyDelete(q, paid, t, p);
    var without := Delete(q, t, p).0;
    ExactlyEnqueue(without, paid - {t}, t, p');
    assert paid - {t} + {t} == paid;
    ExactlyMembers(Enqueue(without, t, p').0, paid);
    if HeapOrdered(q.items, p) {
      HeadDeleteKeepsOrder(q, p);
      ExactlyMembers(without, paid - {t});
      assert forall y :: y in without.items ==> p(y) == p'(y);
      SameOrder(without.items, p, p');
      EnqueueKeepsOrder(without, t, p');
    }
  }

  lemma HeadDeleteKeepsOrder(q: Queue<nat>, p: nat -> uint64)
    requires q.items != [] && HeapOrdered(q.items, p)
    ensures HeapOrdered(Delete(q, q.items[0], p).0.items, p)
  {
    DeleteKeepsOrderIff(q.items, p, 0);
  }

  /** Tracking one more tenant keeps an ordered timeout heap ordered. */
  lemma TrackKeeps(q: Queue<nat>, tracked: set<nat>, t: nat, timeouts: seq<uint64>, next: uint64)
    requires Exactly(q, tracked) && t !in tracked && t < |timeouts| && t < MAX_TENANTS
    requires forall y :: y in tracked ==> y < MAX_TENANTS
    ensures Exactly(Enqueue(q, t, TimeoutOf(timeouts[t := next])).0, tracked + {t})
    ensures HeapOrdered(q.items, TimeoutOf(timeouts)) ==>
      HeapOrdered(Enqueue(q, t, TimeoutOf(timeouts[t := next])).0.items, TimeoutOf(timeouts[t := next]))
  {
    var p, p' := TimeoutOf(timeouts), TimeoutOf(timeouts[t := next]);
    ExactlyMembers(q, tracked);
    ExactlyEnqueue(q, tracked, t, p');
    if HeapOrdered(q.items, p) {
      SameOrder(q.items, p, p');
      EnqueueKeepsOrder(q, t, p');
    }
  }

  /** When the head of an ordered timeout heap is not due, nothing is. */
  lemma NothingDue(q: Queue<nat>, paid: set<nat>, timeouts: seq<uint64>, now: nat)
    requires Exactly(q, paid) && q.items != [] && HeapOrdered(q.items, TimeoutOf(timeouts))
    requires (forall t :: t in paid ==> t < |timeouts|) && q.items[0] in paid && timeouts[q.items[0]] > now
    ensures forall t :: t in paid ==> timeouts[t] > now
  {
    ExactlyMembers(q, paid);
    RootIsMinimum(q.items, TimeoutOf(timeouts));
    forall t | t in paid ensures timeouts[t] > now {
      var k := IndexOf(q.items, t);
      assert TimeoutOf(timeouts)(q.items[0]) <= TimeoutOf(timeouts)(q.items[k]);
    }
  }

  /** A tenant without sandboxes is in no class heap, so its class may change freely. */
  lemma IdleClassIsFree(queues: seq<Queue<Sandbox>>, cls: seq<MtClass>, t: nat, c: MtClass)
    requires t < |queues| && t < |cls| && queues[t].items == []
    ensures InClass(queues, cls[t := c], Guaranteed) == InClass(queues, cls, Guaranteed)
    ensures InClass(queues, cls[t := c], Default) == InClass(queues, cls, Default)
  {
  }

  lemma MembersAreBounded(queues: seq<Queue<Sandbox>>, cls: seq<MtClass>)
    ensures forall c, y :: y in InClass(queues, cls, c) ==> y < |queues|
  {
  }

  /** Giving tenant `t` another queue changes only its own membership. */
  lemma QueueChange(queues: seq<Queue<Sandbox>>, cls: seq<MtClass>, t: nat, q: Queue<Sandbox>)
    requires t < |queues| == |cls|
    ensures var s := InClass(queues, cls, cls[t]);
            (t in s <==> queues[t].items != []) &&
            InClass(queues[t := q], cls, cls[t]) ==
              if q.items == [] then s - {t} else if queues[t].items == [] then s + {t} else s
    ensures forall d :: d != cls[t] ==> InClass(queues[t := q], cls, d) == InClass(queues, cls, d)
  {
    var s := InClass(queues, cls, cls[t]);
    assert InClass(queues[t := q], cls, cls[t]) ==
      if q.items == [] then s - {t} else if queues[t].items == [] then s + {t} else s;
  }

  // ---------- Conservation ----------

  function QueueBags(queues: seq<Queue<Sandbox>>): seq<multiset<Sandbox>> {
    seq(|queues|, (t: nat) requires t < |queues| => multiset(queues[t].items))
  }

  /** All sandboxes held by the tenants' queues. */
  function Held(queues: seq<Queue<Sandbox>>): multiset<Sandbox> {
    Sum(QueueBags(queues))
  }

  lemma HeldUpdate(queues: seq<Queue<Sandbox>>, t: nat, q: Queue<Sandbox>)
    requires t < |queues|
    ensures Held(queues[t := q]) + multiset(queues[t].items) == Held(queues) + multiset(q.items)
  {
    SumUpdate(QueueBags(queues), t, multiset(q.items));
    assert QueueBags(queues[t := q]) == QueueBags(queues)[t := multiset(q.items)];
  }

  lemma NothingHeld(queues: seq<Queue<Sandbox>>)
    requires forall t :: 0 <= t < |queues| ==> queues[t].items == []
    ensures Held(queues) == multiset{}
  {
    SumOfEmpty(QueueBags(queues));
  }

  lemma HeldAfterAdd(queues: seq<Queue<Sandbox>>, x: Sandbox, t: nat)
    requires t < |queues| && |queues[t].items| < queues[t].capacity
    ensures Held(queues[t := Enqueue(queues[t], x, Deadline).0]) == Held(queues) + multiset{x}
  {
    var q := Enqueue(queues[t], x, Deadline).0;
    EnqueueBag(queues[t], x, Deadline);
    HeldUpdate(queues, t, q);
    hide Enqueue;
    GainBalance(Held(queues[t := q]), Held(queues), multiset(queues[t].items), x);
  }

  lemma HeldAfterTake(queues: seq<Queue<Sandbox>>, t: nat)
    requires t < |queues| && queues[t].items != []
    ensures Held(queues[t := RemoveSlot(queues[t], Deadline, 0)]) + multiset{queues[t].items[0]} == Held(queues)
  {
    var q := RemoveSlot(queues[t], Deadline, 0);
    RemoveAtBag(queues[t].items, Deadline, 0);
    HeldUpdate(queues, t, q);
    hide RemoveSlot;
    assert queues[t].items[0] in multiset(queues[t].items);
    LossBalance(Held(queues[t := q]), Held(queues), multiset(queues[t].items), queues[t].items[0]);
  }

  lemma HeldAfterDelete(queues: seq<Queue<Sandbox>>, x: Sandbox, t: nat)
    requires t < |queues| && x in queues[t].items
    ensures Held(queues[t := Delete(queues[t], x, Deadline).0]) + multiset{x} == Held(queues)
  {
    var q := Delete(queues[t], x, Deadline).0;
    DeleteBag(queues[t], x, Deadline);
    HeldUpdate(queues, t, q);
    hide Delete;
    LossBalance(Held(queues[t := q]), Held(queues), multiset(queues[t].items), x);
  }
}
