/** The per-worker runqueue of src/local_runqueue_mtds.c: a queue of sandboxes per tenant, two heaps of
    tenants by class, and a heap of replenishment timeouts. */
module LocalMtds {
  import opened Heap
  import opened Options
  import opened PriorityQueues
  import opened Sets
  import opened Tenants
  import opened Ranks

  ghost function PaidBusy(queues: seq<Queue<Sandbox>>, periods: seq<nat>): set<nat> {
    set t: nat | t < |queues| && t < |periods| && queues[t].items != [] && periods[t] > 0
  }

  ghost predicate QueueOk(q: Queue<Sandbox>, t: nat) {
    q.capacity == TENANT_QUEUE_SIZE && |q.items| <= TENANT_QUEUE_SIZE &&
    forall x :: x in q.items ==> x.tenant == t
  }

  ghost predicate QueuesOk(queues: seq<Queue<Sandbox>>) {
    forall t: nat :: t < |queues| ==> QueueOk(queues[t], t)
  }

  /** A free tenant is never guaranteed. */
  ghost predicate ClassesOk(cls: seq<MtClass>, periods: seq<nat>) {
    |cls| == |periods| && forall t :: 0 <= t < |cls| && periods[t] == 0 ==> cls[t] == Default
  }

  ghost function Paid(periods: seq<nat>): set<nat> {
    set t: nat | t < |periods| && periods[t] > 0
  }

  /** A tenant's timeout is deleted wherever it stands in the heap, so order is only certain to survive
      with at most five paid tenants. */
  ghost predicate TimeoutsOk(q: Queue<nat>, timeouts: seq<uint64>, periods: seq<nat>) {
    |Paid(periods)| <= 5 ==> HeapOrdered(q.items, TimeoutOf(timeouts))
  }

  /** What local_runqueue_mtds_add does to the queues: a tenant's first sandbox puts the tenant into its class heap,
      and one that is earlier than the tenant's memo takes it out and puts it back. The second result is whether
      none of the panics on the class heaps is reached. */
  function AddSandbox(q: TenantQueues, x: Sandbox): (TenantQueues, bool)
    requires x.tenant < |q.queues| == |q.cls|
  {
    var t, c := x.tenant, q.cls[x.tenant];
    var queues' := q.queues[t := Enqueue(q.queues[t], x, Deadline).0];
    var p := HeadDeadline(queues');
    if |queues'[t].items| == 1 then (TenantQueues(queues', q.cls, InsertTenant(q.heaps, c, t, p).0), true)
    else if x.deadline < q.queues[t].highest then
      var (without, found) := RemoveTenant(q.heaps, c, t, p);
      var (with, room) := InsertTenant(without, c, t, p);
      (TenantQueues(queues', q.cls, with), found && room)
    else (TenantQueues(queues', q.cls, q.heaps), true)
  }

  /** What local_runqueue_mtds_delete does to the queues, for a paid or a free tenant. */
  function RemoveSandbox(q: TenantQueues, x: Sandbox, paid: bool): (TenantQueues, bool)
    requires x.tenant < |q.queues| == |q.cls|
  {
    var t, c := x.tenant, q.cls[x.tenant];
    var queues' := q.queues[t := Delete(q.queues[t], x, Deadline).0];
    var p := HeadDeadline(queues');
    var (without, found) := RemoveTenant(q.heaps, c, t, p);
    if queues'[t].items == []
    then (TenantQueues(queues', if paid then q.cls[t := Guaranteed] else q.cls, without), found)
    else (TenantQueues(queues', q.cls, InsertTenant(without, c, t, p).0), found)
  }

  class LocalRunqueue {
    /** Per tenant: the replenishment period, 0 for a free tenant. */
    const periods: seq<nat>
    const boot: nat
    /** Per tenant on this worker: its sandboxes, its class, its next replenishment. */
    var queues: seq<Queue<Sandbox>>
    var cls: seq<MtClass>
    var timeouts: seq<uint64>
    /** Heaps of tenants. */
    var guaranteed: Queue<nat>
    var default: Queue<nat>
    var timeoutQueue: Queue<nat>

    ghost predicate Shape()
      reads this
    {
      |periods| <= MAX_TENANTS && |queues| == |cls| == |timeouts| == |periods| &&
      QueuesOk(queues) && ClassesOk(cls, periods)
    }

    ghost predicate Valid()
      reads this
    {
      Shape() && Members(Heaps(guaranteed, default), queues, cls) && Exactly(timeoutQueue, PaidBusy(queues, periods)) &&
      TimeoutsOk(timeoutQueue, timeouts, periods)
    }

    ghost function View(): TenantQueues
      reads this
    {
      TenantQueues(queues, cls, Heaps(guaranteed, default))
    }

    /** Each tenant's queue is an ordered heap and, with at most five tenants, so are the class heaps. */
    ghost predicate Ordered()
      reads this
    {
      AllSound(queues) && Ranked(Heaps(guaranteed, default), queues, false)
    }

    ghost predicate TimeoutsOrdered()
      reads this
    {
      HeapOrdered(timeoutQueue.items, TimeoutOf(timeouts))
    }

    /** tenant_policy_specific_init for every tenant and local_runqueue_mtds_initialize. */
    constructor (periods: seq<nat>, boot: nat)
      requires |periods| <= MAX_TENANTS
      ensures Valid() && Ordered() && this.periods == periods && this.boot == boot
      ensures forall t :: 0 <= t < |periods| ==>
        queues[t].items == [] && cls[t] == if periods[t] == 0 then Default else Guaranteed
    {
      this.periods := periods;
      this.boot := boot;
      queues := seq(|periods|, _ => EmptyQueue(TENANT_QUEUE_SIZE));
      cls := seq(|periods|, (t: nat) requires t < |periods| => if periods[t] == 0 then Default else Guaranteed);
      timeouts := seq(|periods|, _ => 0);
      guaranteed, default, timeoutQueue := EmptyQueue(MAX_TENANTS), EmptyQueue(MAX_TENANTS), EmptyQueue(MAX_TENANTS);
      new;
      assert InClass(queues, cls, Guaranteed) == {} && InClass(queues, cls, Default) == {};
      assert PaidBusy(queues, periods) == {};
    }

    /** local_runqueue_mtds_add. `panics`: the tenant's own queue on this worker is full. The other
        panics and asserts of the code are the `assert`s below. */
    method Add(sandbox: Sandbox, clock: nat) returns (panics: bool)
      requires Valid() && sandbox.tenant < |periods|
      requires boot <= clock
      modifies this
      ensures panics <==> |old(queues)[sandbox.tenant].items| == TENANT_QUEUE_SIZE
      ensures !panics ==> Valid() && cls == old(cls) && queues[sandbox.tenant].items != []
      ensures !panics ==> Held(queues) == Held(old(queues)) + multiset{sandbox} && (old(Ordered()) ==> Ordered())
      ensures !panics ==> AddSandbox(old(View()), sandbox) == (View(), true)
      ensures !panics ==>
        queues == old(queues)[sandbox.tenant := Enqueue(old(queues)[sandbox.tenant], sandbox, Deadline).0]
      ensures !panics ==>
        timeouts == TimeoutsAfterAdd(old(queues), periods, old(timeouts), sandbox.tenant, boot, clock)
      ensures !panics ==>
        TimeoutStarts(old(timeouts), timeouts, sandbox.tenant, old(queues)[sandbox.tenant].items == [],
                      periods[sandbox.tenant], boot, clock)
    {
      assert QueueOk(queues[sandbox.tenant], sandbox.tenant);
      AddStartsTimeout(queues, periods, timeouts, sandbox.tenant, boot, clock);
      hide TimeoutStarts;
      panics := |queues[sandbox.tenant].items| == TENANT_QUEUE_SIZE;
      if !panics { Admit(sandbox, clock); }
    }

    method Admit(sandbox: Sandbox, clock: nat)
      requires Valid() && sandbox.tenant < |periods| && |queues[sandbox.tenant].items| < TENANT_QUEUE_SIZE
      requires boot <= clock
      modifies this
      ensures Valid() && cls == old(cls) && queues[sandbox.tenant].items != []
      ensures Held(queues) == Held(old(queues)) + multiset{sandbox} && (old(Ordered()) ==> Ordered())
      ensures AddSandbox(old(View()), sandbox) == (View(), true)
      ensures queues == old(queues)[sandbox.tenant := Enqueue(old(queues)[sandbox.tenant], sandbox, Deadline).0]
      ensures timeouts == TimeoutsAfterAdd(old(queues), periods, old(timeouts), sandbox.tenant, boot, clock)
    {
      hide Enqueue, Exactly, InClass, PaidBusy, QueuesOk, ClassesOk, InsertTenant, RemoveTenant, Held, HeadDeadline,
        HeapOrdered, Paid, NextTimeout, Wrapped, AllSound, Ranked, QueueOk, Sound;
      var t := sandbox.tenant;
      QueueGrows(queues, cls, periods, sandbox);
      if Ordered() { AddOrdered(Heaps(guaranteed, default), queues, cls, sandbox); }
      TenantsAreBounded(queues, cls, periods);
      var c, previous := cls[t], queues[t].highest;
      ghost var s, paid := InClass(queues, cls, c), PaidBusy(queues, periods);
      var queues' := queues[t := Enqueue(queues[t], sandbox, Deadline).0];
      var heaps := Heaps(guaranteed, default);
      if |queues'[t].items| == 1 {
        timeouts := TimeoutsAfterAdd(queues, periods, timeouts, t, boot, clock);
        if periods[t] > 0 {
          TrackKeeps(timeoutQueue, paid, t, old(timeouts), timeouts[t]);
          assert timeouts == old(timeouts)[t := timeouts[t]];
          timeoutQueue := Enqueue(timeoutQueue, t, TimeoutOf(timeouts)).0;
        }
        InsertKeeps(heaps, c, s, t, HeadDeadline(queues'));
        heaps := InsertTenant(heaps, c, t, HeadDeadline(queues')).0;
      } else {
        if sandbox.deadline < previous {
          ReheapifyKeeps(heaps, c, s, t, HeadDeadline(queues'));
          var (without, found) := RemoveTenant(heaps, c, t, HeadDeadline(queues'));
          assert found;
          var (with, room) := InsertTenant(without, c, t, HeadDeadline(queues'));
          assert room;
          heaps := with;
        }
      }
      queues, guaranteed, default := queues', heaps.guaranteed, heaps.default;
      assert Shape() && Exactly(timeoutQueue, PaidBusy(queues, periods)) && TimeoutsOk(timeoutQueue, timeouts, periods);
      assert Exactly(guaranteed, InClass(queues, cls, Guaranteed));
      assert Exactly(default, InClass(queues, cls, Default));
    }

    /** local_runqueue_mtds_delete. `panics`: the sandbox is not in its tenant's queue. */
    method Remove(sandbox: Sandbox) returns (panics: bool)
      requires Valid() && sandbox.tenant < |periods|
      modifies this
      ensures panics <==> sandbox !in old(queues)[sandbox.tenant].items
      ensures !panics && sandbox == old(queues)[sandbox.tenant].items[0] ==> (old(Ordered()) ==> Ordered())
      ensures !panics ==> Valid() && timeouts == old(timeouts) && Held(queues) + multiset{sandbox} == Held(old(queues))
      ensures !panics && old(TimeoutsOrdered()) ==>
        (TimeoutsOrdered() <==> (queues[sandbox.tenant].items == [] && periods[sandbox.tenant] > 0 ==>
                                   TimeoutLeavesOrder(old(timeoutQueue), sandbox.tenant, timeouts)))
      ensures !panics ==> View() == RemoveSandbox(old(View()), sandbox, periods[sandbox.tenant] > 0).0
      ensures !panics ==>
        queues == old(queues)[sandbox.tenant := Delete(old(queues)[sandbox.tenant], sandbox, Deadline).0]
      ensures !panics ==>
        cls == if queues[sandbox.tenant].items == [] && periods[sandbox.tenant] > 0
               then old(cls)[sandbox.tenant := Guaranteed] else old(cls)
    {
      hide Delete, Exactly, InClass, PaidBusy, QueuesOk, ClassesOk, Held, HeadDeadline, TimeoutsOk, AllSound, Ranked, Sound,
        HeapOrdered, TimeoutLeavesOrder;
      var t := sandbox.tenant;
      if sandbox !in queues[t].items { return true; }
      panics := false;
      QueueShrinks(queues, cls, periods, sandbox);
      TenantsAreBounded(queues, cls, periods);
      if Ordered() && sandbox == queues[t].items[0] { RemoveOrdered(Heaps(guaranteed, default), queues, cls, sandbox); }
      var c := cls[t];
      ghost var s, paid := InClass(queues, cls, c), PaidBusy(queues, periods);
      queues := queues[t := Delete(queues[t], sandbox, Deadline).0];
      Reposition(t, c, s);
      assert Members(Heaps(guaranteed, default), queues, cls);
      if |queues[t].items| == 0 && periods[t] > 0 { Retire(t, paid); }
    }

    /** Take tenant `t` out of its class heap, and put it back if it still has sandboxes. */
    method Reposition(t: nat, c: MtClass, ghost s: set<nat>)
      requires t < |queues| && t in s && forall y :: y in s ==> y < MAX_TENANTS
      requires Exactly(Pick(Heaps(guaranteed, default), c), s)
      modifies this`guaranteed, this`default
      ensures Replaces(old(Heaps(guaranteed, default)), c, Heaps(guaranteed, default),
                       if queues[t].items == [] then s - {t} else s)
      ensures var r := RemoveTenant(old(Heaps(guaranteed, default)), c, t, HeadDeadline(queues)).0;
              Heaps(guaranteed, default) ==
                if queues[t].items == [] then r else InsertTenant(r, c, t, HeadDeadline(queues)).0
    {
      ReheapifyKeeps(Heaps(guaranteed, default), c, s, t, HeadDeadline(queues));
      hide InsertTenant, RemoveTenant;
      var (heaps, found) := RemoveTenant(Heaps(guaranteed, default), c, t, HeadDeadline(queues));
      assert found;
      if |queues[t].items| > 0 {
        heaps := InsertTenant(heaps, c, t, HeadDeadline(queues)).0;
      }
      guaranteed, default := heaps.guaranteed, heaps.default;
    }

    /** A paid tenant's last sandbox on this worker is gone: stop its timeout, restore its class. */
    method Retire(t: nat, ghost paid: set<nat>)
      requires Shape() && t < |periods| && queues[t].items == [] && periods[t] > 0
      requires Members(Heaps(guaranteed, default), queues, cls)
      requires Exactly(timeoutQueue, paid) && t in paid && paid - {t} == PaidBusy(queues, periods)
      requires TimeoutsOk(timeoutQueue, timeouts, periods)
      modifies this`timeoutQueue, this`cls
      ensures Valid() && cls == old(cls)[t := Guaranteed]
      ensures old(TimeoutsOrdered()) ==> (TimeoutsOrdered() <==> TimeoutLeavesOrder(old(timeoutQueue), t, timeouts))
    {
      RetireKeeps(timeoutQueue, paid, t, timeouts, periods);
      timeoutQueue := PriorityQueues.Delete(timeoutQueue, t, TimeoutOf(timeouts)).0;
      IdleClassIsFree(queues, cls, t, Guaranteed);
      cls := cls[t := Guaranteed];
    }

    /** local_runqueue_mtds_get_next. Budgets are shared with other workers, so each test of one is its
        own reading: `budget(k, t)` is what the k-th reading of tenant `t` finds. `readings` counts them. */
    method GetNext(budget: (nat, nat) -> int) returns (next: Option<Sandbox>, ghost readings: nat)
      requires Valid()
      modifies this`cls, this`guaranteed, this`default
      ensures Valid()
      ensures next.None? <==> forall t :: 0 <= t < |queues| ==> queues[t].items == []
      ensures next.Some? ==>
        var t := next.value.tenant;
        t < |queues| && queues[t].items != [] && next.value == queues[t].items[0] &&
        (cls[t] == Guaranteed <==> guaranteed.items != []) && (cls[t] == Default ==> default.items != []) &&
        (if guaranteed.items != [] then t == guaranteed.items[0] && budget(readings, t) > 0
         else t == default.items[0] && InClass(queues, cls, Guaranteed) == {})
      ensures forall t :: 0 <= t < |cls| && cls[t] != old(cls)[t] ==> Demoted(t, old(cls), cls, budget, readings)
      ensures old(Ordered()) ==>
        Ordered() && (next.Some? ==> IsMinimum(next.value, multiset(queues[next.value.tenant].items), Deadline))
      ensures old(Ordered()) && next.Some? && |periods| <= 5 ==> EarliestOfClass(next.value, queues, cls)
    {
      hide Ranked, AllSound, Exactly, InClass, PaidBusy, TimeoutsOk, EarliestOfClass, IsMinimum, ClassesOk, HeadDeadline;
      readings := 0;
      var k := 0;
      while guaranteed.items != [] && budget(k, guaranteed.items[0]) <= 0
        invariant Valid() && k == readings && (old(Ordered()) ==> Ordered())
        invariant forall t :: 0 <= t < |cls| && cls[t] != old(cls)[t] ==> Demoted(t, old(cls), cls, budget, k)
        decreases |guaranteed.items|
      {
        Demote(guaranteed.items[0]);
        k := k + 1;
        readings := k;
      }
      TopsAreBusy(this);
      if guaranteed.items == [] && default.items == [] { return None, readings; }
      var t := if guaranteed.items == [] then default.items[0] else guaranteed.items[0];
      assert queues[t].items != [] && QueueOk(queues[t], t);
      assert queues[t].items[0] in queues[t].items;
      next := Some(queues[t].items[0]);
      if Ordered() { PickIsEarliest(Heaps(guaranteed, default), queues, cls, cls[t], t); }
    }

    /** local_runqueue_mtds_demote and the class change that follows it. */
    method Demote(t: nat)
      requires Valid() && guaranteed.items != [] && t == guaranteed.items[0]
      modifies this`cls, this`guaranteed, this`default
      ensures Valid() && |guaranteed.items| == |old(guaranteed).items| - 1 && (old(Ordered()) ==> Ordered())
      ensures t < |old(cls)| && MoveTenant(old(View()), t, Default) == (View(), true)
      ensures t < |cls| && old(cls)[t] == Guaranteed && cls == old(cls)[t := Default]
    {
      ExactlyMembers(guaranteed, InClass(queues, cls, Guaranteed));
      assert t in guaranteed.items;
      assert t < |cls| && cls[t] == Guaranteed && queues[t].items != [];
      MoveBetween(t, Guaranteed, Default);
    }

    /** Delete tenant `t` from the heap of class `c`, add it to that of `c'`, and change its class. */
    method MoveBetween(t: nat, c: MtClass, c': MtClass)
      requires Valid() && t < |queues| && queues[t].items != [] && cls[t] == c && c' != c
      requires c' == Guaranteed ==> periods[t] > 0
      modifies this`cls, this`guaranteed, this`default
      ensures Valid() && cls == old(cls)[t := c'] && (old(Ordered()) ==> Ordered())
      ensures MoveTenant(old(View()), t, c') == (View(), true)
      ensures |Pick(Heaps(guaranteed, default), c).items| == |Pick(old(Heaps(guaranteed, default)), c).items| - 1
    {
      hide Exactly, InClass, PaidBusy, QueuesOk, InsertTenant, RemoveTenant, HeadDeadline, Members, Ranked, AllSound,
        Marked, AllBelowMax, TimeoutsOk;
      MoveMembers(Heaps(guaranteed, default), queues, cls, t, c');
      if Ranked(Heaps(guaranteed, default), queues, false) {
        MoveRanked(Heaps(guaranteed, default), queues, cls, t, c', false);
      }
      var (without, found) := RemoveTenant(Heaps(guaranteed, default), c, t, HeadDeadline(queues));
      assert found;
      var (with, room) := InsertTenant(without, c', t, HeadDeadline(queues));
      assert room;
      guaranteed, default := with.guaranteed, with.default;
      cls := cls[t := c'];
    }

    /** One turn of the promotion loop: the tenant at the head of the timeout heap becomes guaranteed and
        gets its next timeout, computed from a fresh clock reading. */
    method PromoteTop(t: nat, clock: nat)
      requires Valid() && timeoutQueue.items != [] && t == timeoutQueue.items[0]
      requires boot <= clock && forall u :: 0 <= u < |periods| ==> clock + periods[u] <= ULONG_MAX
      modifies this`cls, this`timeouts, this`guaranteed, this`default, this`timeoutQueue
      ensures Valid() && timeoutQueue.items != [] && (old(TimeoutsOrdered()) ==> TimeoutsOrdered())
      ensures old(Ordered()) ==> Ordered()
      ensures t < |periods| && periods[t] > 0 && cls == old(cls)[t := Guaranteed]
      ensures NextTimeout(boot, clock, periods[t]) <= ULONG_MAX
      ensures timeouts == old(timeouts)[t := NextTimeout(boot, clock, periods[t])]
    {
      hide Ranked, AllSound, Exactly, InClass, ClassesOk, QueuesOk, HeapOrdered, Enqueue, Delete, NextTimeout, Members,
        Paid;
      ghost var paid := PaidBusy(queues, periods);
      ExactlyMembers(timeoutQueue, paid);
      assert t in timeoutQueue.items;
      assert t in paid && t < |periods| && periods[t] > 0 && queues[t].items != [];
      if cls[t] == Default {
        Promote(t);
      } else {
        assert cls == cls[t := Guaranteed];
      }
      TenantsAreBounded(queues, cls, periods);
      NextTimeoutOnGrid(boot, clock, periods[t]);
      RenewKeeps(timeoutQueue, paid, t, timeouts, NextTimeout(boot, clock, periods[t]));
      timeoutQueue := PriorityQueues.Delete(timeoutQueue, t, TimeoutOf(timeouts)).0;
      timeouts := timeouts[t := NextTimeout(boot, clock, periods[t])];
      timeoutQueue := Enqueue(timeoutQueue, t, TimeoutOf(timeouts)).0;
    }

    /** local_runqueue_mtds_promote and the class change that follows it. */
    method Promote(t: nat)
      requires Valid() && t < |queues| && queues[t].items != [] && cls[t] == Default && periods[t] > 0
      modifies this`cls, this`guaranteed, this`default
      ensures Valid() && cls == old(cls)[t := Guaranteed] && (old(Ordered()) ==> Ordered())
      ensures MoveTenant(old(View()), t, Guaranteed) == (View(), true)
    {
      MoveBetween(t, Default, Guaranteed);
    }

    /** local_timeout_queue_process_promotions at cycle `now`; `clock(k)` is the k-th later reading. The loop
        ends and renews only due tenants; from an ordered heap it renews them all. */
    method ProcessPromotions(now: nat, clock: nat -> nat) returns (ghost turns: nat)
      requires Valid() && boot <= now && forall i: nat :: now <= clock(i)
      requires forall i: nat, u :: 0 <= u < |periods| ==> clock(i) + periods[u] <= ULONG_MAX
      modifies this`cls, this`timeouts, this`guaranteed, this`default, this`timeoutQueue
      ensures Valid() && (old(TimeoutsOrdered()) ==> TimeoutsOrdered()) && (old(Ordered()) ==> Ordered())
      ensures forall t :: 0 <= t < |periods| ==>
        (cls[t] == old(cls)[t] && timeouts[t] == old(timeouts)[t]) ||
        (t in PaidBusy(queues, periods) && old(timeouts)[t] <= now < timeouts[t] &&
         Renewed(t, cls, timeouts, periods, boot, clock, turns))
      ensures old(TimeoutsOrdered()) ==> forall t :: t in PaidBusy(queues, periods) ==> timeouts[t] > now
    {
      hide InClass, QueuesOk, ClassesOk, HeapOrdered, NextTimeout, TimeoutsOk, Ranked, AllSound, Members, Exactly;
      ghost var paid := PaidBusy(queues, periods);
      turns := 0;
      ExactlyMembers(timeoutQueue, paid);
      if timeoutQueue.items == [] { return; }
      var k := 0;
      while now >= timeouts[timeoutQueue.items[0]]
        invariant Valid() && timeoutQueue.items != [] && (old(TimeoutsOrdered()) ==> TimeoutsOrdered())
        invariant old(Ordered()) ==> Ordered()
        invariant timeoutQueue.items[0] in paid && k == turns
        invariant forall t :: 0 <= t < |periods| ==>
          (cls[t] == old(cls)[t] && timeouts[t] == old(timeouts)[t]) ||
          (t in paid && old(timeouts)[t] <= now < timeouts[t] && Renewed(t, cls, timeouts, periods, boot, clock, k))
        decreases |Due(paid, timeouts, now)|
      {
        ghost var before := Due(paid, timeouts, now);
        var t := timeoutQueue.items[0];
        NextTimeoutOnGrid(boot, clock(k), periods[t]);
        PromoteTop(t, clock(k));
        k := k + 1;
        turns := k;
        ExactlyMembers(timeoutQueue, paid);
        assert timeoutQueue.items[0] in timeoutQueue.items;
        DueShrinks(before, Due(paid, timeouts, now), t);
      }
      if TimeoutsOrdered() { NothingDue(timeoutQueue, paid, timeouts, now); }
    }
  }

  /** The first sandbox of a paid tenant starts its timeout at the next point of its grid; nothing else touches a
      timeout. */
  ghost predicate TimeoutStarts(before: seq<uint64>, after: seq<uint64>, t: nat, idle: bool, period: nat, boot: nat,
                                clock: nat)
  {
    |after| == |before| && (forall u :: 0 <= u < |before| && u != t ==> after[u] == before[u]) &&
    (t < |before| ==>
       if idle && period > 0 then exists v: nat :: OnGridAfter(v, boot, clock, period) && after[t] == Wrapped(v)
       else after[t] == before[t])
  }

  lemma AddStartsTimeout(queues: seq<Queue<Sandbox>>, periods: seq<nat>, timeouts: seq<uint64>, t: nat, boot: nat,
                         clock: nat)
    requires t < |queues| == |periods| == |timeouts| && boot <= clock
    ensures TimeoutStarts(timeouts, TimeoutsAfterAdd(queues, periods, timeouts, t, boot, clock), t,
                          queues[t].items == [], periods[t], boot, clock)
  {
    if queues[t].items == [] && periods[t] > 0 {
      hide NextTimeout, OnGridAfter, Wrapped;
      NextTimeoutOnGrid(boot, clock, periods[t]);
    }
  }

  /** What local_runqueue_mtds_add does to the timeouts: a paid tenant's first sandbox starts one. */
  function TimeoutsAfterAdd(queues: seq<Queue<Sandbox>>, periods: seq<nat>, timeouts: seq<uint64>,
                            t: nat, boot: nat, clock: nat): seq<uint64>
    requires t < |queues| == |periods| == |timeouts| && boot <= clock
  {
    if queues[t].items != [] || periods[t] == 0 then timeouts
    else timeouts[t := Wrapped(NextTimeout(boot, clock, periods[t]))]
  }

  lemma TenantsAreBounded(queues: seq<Queue<Sandbox>>, cls: seq<MtClass>, periods: seq<nat>)
    ensures forall c, y :: y in InClass(queues, cls, c) ==> y < |queues|
    ensures forall y :: y in PaidBusy(queues, periods) ==> y < |queues|
  {
  }

  /** Tenant `t` is guaranteed and its timeout is the next replenishment after one of the `turns` readings. */
  ghost predicate Renewed(t: nat, cls: seq<MtClass>, timeouts: seq<uint64>, periods: seq<nat>, boot: nat,
                          clock: nat -> nat, turns: nat)
  {
    t < |cls| && t < |timeouts| && t < |periods| && periods[t] > 0 && cls[t] == Guaranteed &&
    exists i: nat :: i < turns && OnGridAfter(timeouts[t], boot, clock(i), periods[t])
  }

  ghost function Due(paid: set<nat>, timeouts: seq<uint64>, now: nat): set<nat> {
    set t: nat | t in paid && t < |timeouts| && timeouts[t] <= now
  }

  lemma DueShrinks(before: set<nat>, after: set<nat>, t: nat)
    requires t in before && t !in after && after <= before
    ensures |after| < |before|
  {
    assert after <= before - {t};
    assert before == (before - {t}) + {t};
    SubsetSize(after, before - {t});
  }

  /** `t` was guaranteed and one of the first `readings` readings of its budget found it used up. */
  ghost predicate Demoted(t: nat, before: seq<MtClass>, after: seq<MtClass>, budget: (nat, nat) -> int, readings: nat) {
    t < |before| && t < |after| && before[t] == Guaranteed && after[t] == Default &&
    exists i: nat :: i < readings && budget(i, t) <= 0
  }

  /** The heads of the class heaps are busy tenants, and both heaps are empty only when all are idle. */
  lemma TopsAreBusy(l: LocalRunqueue)
    requires l.Valid()
    ensures l.guaranteed.items != [] ==>
      var t := l.guaranteed.items[0]; t < |l.queues| && l.queues[t].items != [] && l.cls[t] == Guaranteed
    ensures l.default.items != [] ==>
      var t := l.default.items[0]; t < |l.queues| && l.queues[t].items != [] && l.cls[t] == Default
    ensures l.guaranteed.items == [] <==> InClass(l.queues, l.cls, Guaranteed) == {}
    ensures l.guaranteed.items == [] && l.default.items == [] <==>
      forall t :: 0 <= t < |l.queues| ==> l.queues[t].items == []
  {
    var g, d := InClass(l.queues, l.cls, Guaranteed), InClass(l.queues, l.cls, Default);
    ExactlyMembers(l.guaranteed, g);
    ExactlyMembers(l.default, d);
    if l.guaranteed.items == [] && l.default.items == [] {
      forall t | 0 <= t < |l.queues| ensures l.queues[t].items == [] {
        assert t !in g && t !in d;
      }
    }
    if l.guaranteed.items != [] { assert l.guaranteed.items[0] in l.guaranteed.items; }
    if l.default.items != [] { assert l.default.items[0] in l.default.items; }
  }

  /** An added sandbox keeps ordered queues and ordered class heaps ordered. */
  lemma AddOrdered(h: Heaps, queues: seq<Queue<Sandbox>>, cls: seq<MtClass>, x: Sandbox)
    requires Members(h, queues, cls) && Ranked(h, queues, false) && AllSound(queues) && QueuesOk(queues)
    requires x.tenant < |queues| == |cls| && |queues[x.tenant].items| < TENANT_QUEUE_SIZE
    ensures var t := x.tenant; var queues' := queues[t := Enqueue(queues[t], x, Deadline).0];
            var p' := HeadDeadline(queues');
            AllSound(queues') &&
            if queues[t].items == [] then Ranked(InsertTenant(h, cls[t], t, p').0, queues', false)
            else if x.deadline >= queues[t].highest then Ranked(h, queues', false)
            else Ranked(InsertTenant(RemoveTenant(h, cls[t], t, p').0, cls[t], t, p').0, queues', false)
  {
    assert QueueOk(queues[x.tenant], x.tenant) && Sound(queues[x.tenant], Deadline);
    hide Enqueue, Ranked, Members, InsertTenant, RemoveTenant, Sound, HeadDeadline;
    EnqueueSound(queues[x.tenant], x, Deadline);
    AddRanked(h, queues, cls, x, false);
  }

  /** So does deleting the head sandbox of a tenant. */
  lemma RemoveOrdered(h: Heaps, queues: seq<Queue<Sandbox>>, cls: seq<MtClass>, x: Sandbox)
    requires Members(h, queues, cls) && Ranked(h, queues, false) && AllSound(queues)
    requires x.tenant < |queues| == |cls| && queues[x.tenant].items != [] && x == queues[x.tenant].items[0]
    ensures var t := x.tenant; var q := Delete(queues[t], x, Deadline).0; var queues' := queues[t := q];
            var p' := HeadDeadline(queues'); var r := RemoveTenant(h, cls[t], t, p').0;
            AllSound(queues') && Ranked(if q.items == [] then r else InsertTenant(r, cls[t], t, p').0, queues', false)
  {
    var t := x.tenant;
    assert Sound(queues[t], Deadline) && IndexOf(queues[t].items, x) == 0;
    var q := Delete(queues[t], x, Deadline).0;
    RemoveSlotSound(queues[t], Deadline, 0);
    hide Delete, RemoveSlot, Ranked, Members, InsertTenant, RemoveTenant, Sound, HeadDeadline;
    TakeRanked(h, queues, cls, t, q, false);
  }

  /** The head sandbox of the head tenant: earliest of its tenant and, with at most five tenants, of its class. */
  lemma PickIsEarliest(h: Heaps, queues: seq<Queue<Sandbox>>, cls: seq<MtClass>, c: MtClass, t: nat)
    requires Members(h, queues, cls) && Ranked(h, queues, false) && AllSound(queues) && HeadOf(t, Pick(h, c))
    requires t < |queues| == |cls| && queues[t].items != [] && queues[t].items[0].tenant == t && cls[t] == c
    ensures IsMinimum(queues[t].items[0], multiset(queues[t].items), Deadline)
    ensures |queues| <= 5 ==> EarliestOfClass(queues[t].items[0], queues, cls)
  {
    assert Sound(queues[t], Deadline);
    RootIsBagMinimum(queues[t], Deadline);
    if |queues| <= 5 { HeadIsEarliestOfClass(h, queues, cls, c, t); }
  }

  /** Where the timeout of tenant `t` stands, the item moved there fits below its parent. */
  ghost predicate TimeoutLeavesOrder(q: Queue<nat>, t: nat, timeouts: seq<uint64>) {
    t in q.items && MovedItemFits(q.items, TimeoutOf(timeouts), IndexOf(q.items, t))
  }

  /** Deleting a timeout leaves an ordered heap ordered if and only if the moved one fits, and with at most five it
      always does. */
  lemma RetireKeeps(q: Queue<nat>, paid: set<nat>, t: nat, timeouts: seq<uint64>, periods: seq<nat>)
    requires Exactly(q, paid) && t in paid && paid - {t} <= Paid(periods) && t in Paid(periods)
    requires TimeoutsOk(q, timeouts, periods)
    ensures Delete(q, t, TimeoutOf(timeouts)).1 && Exactly(Delete(q, t, TimeoutOf(timeouts)).0, paid - {t})
    ensures TimeoutsOk(Delete(q, t, TimeoutOf(timeouts)).0, timeouts, periods)
    ensures HeapOrdered(q.items, TimeoutOf(timeouts)) ==>
      (HeapOrdered(Delete(q, t, TimeoutOf(timeouts)).0.items, TimeoutOf(timeouts)) <==> TimeoutLeavesOrder(q, t, timeouts))
  {
    var p := TimeoutOf(timeouts);
    ExactlyMembers(q, paid);
    ExactlyDelete(q, paid, t, p);
    if HeapOrdered(q.items, p) { DeleteKeepsOrderIff(q.items, p, IndexOf(q.items, t)); }
    if |Paid(periods)| <= 5 {
      SubsetSize(paid, Paid(periods));
      var k := IndexOf(q.items, t);
      FiveItemsAlwaysSafe(|q.items|, k);
      SafeSlotMovedItemFits(q.items, p, k);
      DeleteKeepsOrderIff(q.items, p, k);
    }
  }

  lemma EnqueueKeepsTenant(q: Queue<Sandbox>, x: Sandbox)
    requires QueueOk(q, x.tenant) && |q.items| < TENANT_QUEUE_SIZE
    ensures QueueOk(Enqueue(q, x, Deadline).0, x.tenant)
  {
    EnqueueBag(q, x, Deadline);
    hide Enqueue;
    var r := Enqueue(q, x, Deadline).0;
    forall y | y in r.items ensures y.tenant == x.tenant {
      assert y in multiset(r.items);
      assert y in multiset(q.items) || y == x;
    }
  }

  lemma DeleteKeepsTenant(q: Queue<Sandbox>, x: Sandbox)
    requires QueueOk(q, x.tenant)
    ensures QueueOk(Delete(q, x, Deadline).0, x.tenant)
  {
    DeleteBag(q, x, Deadline);
    hide Delete;
    var r := Delete(q, x, Deadline).0;
    forall y | y in r.items ensures y.tenant == x.tenant {
      assert y in multiset(r.items);
      assert y in multiset(q.items);
    }
  }

  /** A sandbox added to tenant `t` makes `t` busy and disturbs no other tenant. */
  lemma QueueGrows(queues: seq<Queue<Sandbox>>, cls: seq<MtClass>, periods: seq<nat>, x: Sandbox)
    requires x.tenant < |queues| == |cls| == |periods| && QueuesOk(queues)
    requires |queues[x.tenant].items| < TENANT_QUEUE_SIZE
    ensures var t := x.tenant; var q := Enqueue(queues[t], x, Deadline).0; var queues' := queues[t := q];
            QueuesOk(queues') && Held(queues') == Held(queues) + multiset{x} &&
            InClass(queues', cls, cls[t]) ==
              (if queues[t].items == [] then InClass(queues, cls, cls[t]) + {t} else InClass(queues, cls, cls[t])) &&
            (forall d :: d != cls[t] ==> InClass(queues', cls, d) == InClass(queues, cls, d)) &&
            PaidBusy(queues', periods) ==
              (if queues[t].items == [] && periods[t] > 0 then PaidBusy(queues, periods) + {t}
               else PaidBusy(queues, periods)) &&
            (queues[t].items == [] <==> |q.items| == 1) &&
            (t in InClass(queues, cls, cls[t]) <==> queues[t].items != []) &&
            (periods[t] > 0 ==> (t in PaidBusy(queues, periods) <==> queues[t].items != []))
  {
    hide Enqueue, Held;
    assert QueueOk(queues[x.tenant], x.tenant);
    EnqueueKeepsTenant(queues[x.tenant], x);
    HeldAfterAdd(queues, x, x.tenant);
  }

  /** A sandbox deleted from tenant `t` leaves the others alone; the last one makes `t` idle. */
  lemma QueueShrinks(queues: seq<Queue<Sandbox>>, cls: seq<MtClass>, periods: seq<nat>, x: Sandbox)
    requires x.tenant < |queues| == |cls| == |periods| && x in queues[x.tenant].items && QueuesOk(queues)
    ensures var t := x.tenant; var q := Delete(queues[t], x, Deadline).0; var queues' := queues[t := q];
            QueuesOk(queues') && Held(queues') + multiset{x} == Held(queues) &&
            t in InClass(queues, cls, cls[t]) && (periods[t] > 0 ==> t in PaidBusy(queues, periods)) &&
            InClass(queues', cls, cls[t]) ==
              (if q.items == [] then InClass(queues, cls, cls[t]) - {t} else InClass(queues, cls, cls[t])) &&
            (forall d :: d != cls[t] ==> InClass(queues', cls, d) == InClass(queues, cls, d)) &&
            PaidBusy(queues', periods) ==
              (if q.items == [] && periods[t] > 0 then PaidBusy(queues, periods) - {t}
               else PaidBusy(queues, periods))
  {
    hide Delete, Held;
    assert QueueOk(queues[x.tenant], x.tenant);
    DeleteKeepsTenant(queues[x.tenant], x);
    HeldAfterDelete(queues, x, x.tenant);
  }

  // ---------- The queues as values ----------

  /** Exact and, as far as they can be, ordered queues and class heaps; free tenants are never guaranteed. */
  ghost predicate RunqueueOk(q: TenantQueues, paid: seq<bool>) {
    |q.queues| == |q.cls| == |paid| <= MAX_TENANTS && QueuesOk(q.queues) && AllSound(q.queues) &&
    Members(q.heaps, q.queues, q.cls) && Ranked(q.heaps, q.queues, false) &&
    forall t :: 0 <= t < |paid| && !paid[t] ==> q.cls[t] == Default
  }

  lemma AddSandboxKeeps(q: TenantQueues, paid: seq<bool>, x: Sandbox)
    requires RunqueueOk(q, paid) && x.tenant < |q.queues| && |q.queues[x.tenant].items| < TENANT_QUEUE_SIZE
    ensures AddSandbox(q, x).1 && RunqueueOk(AddSandbox(q, x).0, paid)
  {
    hide Enqueue, Members, Ranked, AllSound, InsertTenant, RemoveTenant, HeadDeadline, Sound;
    var t := x.tenant;
    assert QueueOk(q.queues[t], t);
    EnqueueKeepsTenant(q.queues[t], x);
    AddSandboxMembers(q, x);
    AddOrdered(q.heaps, q.queues, q.cls, x);
    assert q.queues[t].items == [] <==> |Enqueue(q.queues[t], x, Deadline).0.items| == 1;
  }

  lemma AddSandboxMembers(q: TenantQueues, x: Sandbox)
    requires |q.queues| == |q.cls| <= MAX_TENANTS && Members(q.heaps, q.queues, q.cls) && x.tenant < |q.queues|
    requires |q.queues[x.tenant].items| < q.queues[x.tenant].capacity
    ensures var r := AddSandbox(q, x); r.1 && Members(r.0.heaps, r.0.queues, r.0.cls)
  {
    hide Enqueue, Exactly, InClass, InsertTenant, RemoveTenant, HeadDeadline, Marked, AllBelowMax;
    var t, c := x.tenant, q.cls[x.tenant];
    var queues', s := q.queues[t := Enqueue(q.queues[t], x, Deadline).0], InClass(q.queues, q.cls, c);
    QueueChange(q.queues, q.cls, t, queues'[t]);
    MembersAreBounded(q.queues, q.cls);
    if q.queues[t].items == [] {
      InsertKeeps(q.heaps, c, s, t, HeadDeadline(queues'));
    } else if x.deadline < q.queues[t].highest {
      ReheapifyKeeps(q.heaps, c, s, t, HeadDeadline(queues'));
    }
    MembersChange(q.heaps, AddSandbox(q, x).0.heaps, q.queues, queues', q.cls, c);
  }

  lemma RemoveHeadKeeps(q: TenantQueues, paid: seq<bool>, x: Sandbox)
    requires RunqueueOk(q, paid) && IsHead(x, q.queues)
    ensures var r := RemoveSandbox(q, x, paid[x.tenant]); r.1 && RunqueueOk(r.0, paid)
  {
    hide Delete, Members, Ranked, AllSound, InsertTenant, RemoveTenant, HeadDeadline, Sound;
    var t := x.tenant;
    assert QueueOk(q.queues[t], t);
    DeleteKeepsTenant(q.queues[t], x);
    RemoveSandboxMembers(q, x, paid[t]);
    RemoveOrdered(q.heaps, q.queues, q.cls, x);
  }

  lemma RemoveSandboxMembers(q: TenantQueues, x: Sandbox, paid: bool)
    requires |q.queues| == |q.cls| <= MAX_TENANTS && Members(q.heaps, q.queues, q.cls) && x.tenant < |q.queues|
    requires q.queues[x.tenant].items != []
    ensures var r := RemoveSandbox(q, x, paid); r.1 && Members(r.0.heaps, r.0.queues, r.0.cls)
  {
    hide Delete, Exactly, InClass, InsertTenant, RemoveTenant, HeadDeadline, Marked, AllBelowMax;
    var t, c := x.tenant, q.cls[x.tenant];
    var queues', s := q.queues[t := Delete(q.queues[t], x, Deadline).0], InClass(q.queues, q.cls, c);
    QueueChange(q.queues, q.cls, t, queues'[t]);
    MembersAreBounded(q.queues, q.cls);
    ReheapifyKeeps(q.heaps, c, s, t, HeadDeadline(queues'));
    MembersChange(q.heaps, RemoveSandbox(q, x, paid).0.heaps, q.queues, queues', q.cls, c);
    if queues'[t].items == [] { IdleClassIsFree(queues', q.cls, t, Guaranteed); }
  }

  lemma MoveKeepsRunqueue(q: TenantQueues, paid: seq<bool>, t: nat, c: MtClass)
    requires RunqueueOk(q, paid) && t < |q.queues| && q.queues[t].items != [] && q.cls[t] != c
    requires c == Guaranteed ==> paid[t]
    ensures MoveTenant(q, t, c).1 && RunqueueOk(MoveTenant(q, t, c).0, paid)
  {
    hide Exactly, InClass, QueuesOk, AllSound, InsertTenant, RemoveTenant, HeadDeadline, Members, Ranked, Marked, AllBelowMax;
    MoveMembers(q.heaps, q.queues, q.cls, t, c);
    MoveRanked(q.heaps, q.queues, q.cls, t, c, false);
  }
}
