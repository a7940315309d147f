/** The global request queues of src/global_request_scheduler_mtds.c: a queue of requests per tenant, two
    heaps of tenants by class, replenishment timeouts and budgets. Each operation is one atomic step. */
module GlobalMtds {
  import opened Heap
  import opened Options
  import opened PriorityQueues
  import opened Tenants
  import opened Ranks
  import opened Sets

  /** A tenant's request queue only ever grows by an enqueue and shrinks at its head, so it stays an
      ordered heap with an exact memo. Deadlines are below ULONG_MAX. */
  ghost predicate RequestsOk(q: Queue<Sandbox>, t: nat) {
    q.capacity == TENANT_QUEUE_SIZE && Sound(q, Deadline) &&
    forall x :: x in q.items ==> x.tenant == t && x.deadline < ULONG_MAX
  }

  ghost predicate AllRequestsOk(queues: seq<Queue<Sandbox>>) {
    forall t: nat :: t < |queues| ==> RequestsOk(queues[t], t)
  }

  ghost predicate HeapsOk(h: Heaps, queues: seq<Queue<Sandbox>>, cls: seq<MtClass>) {
    Members(h, queues, cls) && Marked(h.guaranteed) && Marked(h.default)
  }

  /** Delete tenant `t` from its class heap, if it is there, and add it with its new priority. */
  function Rekeyed(h: Heaps, c: MtClass, t: nat, p: nat -> uint64): (Heaps, bool) {
    InsertTenant(RemoveTenant(h, c, t, p).0, c, t, p)
  }

  function QueuesAfterAdd(queues: seq<Queue<Sandbox>>, x: Sandbox): seq<Queue<Sandbox>>
    requires x.tenant < |queues|
  {
    queues[x.tenant := Enqueue(queues[x.tenant], x, Deadline).0]
  }

  /** The class heaps after an add: the tenant is rekeyed if the memo of its queue drops. */
  function HeapsAfterAdd(h: Heaps, queues: seq<Queue<Sandbox>>, cls: seq<MtClass>, x: Sandbox): (Heaps, bool)
    requires x.tenant < |queues| == |cls|
  {
    var queues' := QueuesAfterAdd(queues, x);
    if queues'[x.tenant].highest < queues[x.tenant].highest
    then Rekeyed(h, cls[x.tenant], x.tenant, HeadDeadline(queues')) else (h, true)
  }

  /** What an add does to the request queues and the class heaps; the second result is whether re-adding the tenant
      does not panic. */
  function AddRequest(g: TenantQueues, x: Sandbox): (TenantQueues, bool)
    requires x.tenant < |g.queues| == |g.cls|
  {
    var (heaps, room) := HeapsAfterAdd(g.heaps, g.queues, g.cls, x);
    (g.(queues := QueuesAfterAdd(g.queues, x), heaps := heaps), room)
  }

  /** The delete of an add finds the tenant, and so percolates down. */
  predicate AddPercolates(g: TenantQueues, x: Sandbox)
    requires x.tenant < |g.queues| == |g.cls|
  {
    QueuesAfterAdd(g.queues, x)[x.tenant].highest < g.queues[x.tenant].highest &&
    x.tenant in Pick(g.heaps, g.cls[x.tenant]).items
  }

  /** How a removal ends. `stuck`: the tenant's requests answer nothing, against the assertion. `ok`: none of the
      panics on the class heaps is reached. */
  datatype Removal = Removal(g: TenantQueues, got: Option<Sandbox>, stuck: bool, ok: bool)

  /** Dequeue the head request of tenant `t`, delete the tenant from the heap of class `c` and, if it has requests
      left, add it again. */
  function TakeHead(g: TenantQueues, t: nat, c: MtClass): Removal
    requires t < |g.queues|
  {
    var (q, got) := DequeueIfEarlier(g.queues[t], Deadline, ULONG_MAX);
    if got.None? then Removal(g, None, true, true) else
    var queues' := g.queues[t := q];
    var (without, found) := RemoveTenant(g.heaps, c, t, HeadDeadline(queues'));
    var heaps := if q.items == [] then without else InsertTenant(without, c, t, HeadDeadline(queues')).0;
    Removal(g.(queues := queues', heaps := heaps), got, false, found)
  }

  /** global_request_scheduler_mtds_remove_with_mt_class. */
  function RemoveRequest(g: TenantQueues, budget: seq<int>, target: uint64, c: MtClass): Removal {
    var h := g.heaps;
    var nothing := Removal(g, None, false, true);
    if c == Guaranteed && h.guaranteed.highest >= target then nothing
    else if c == Default && h.guaranteed.highest == ULONG_MAX && h.default.highest >= target then nothing
    else if h.guaranteed.items == [] && (c == Guaranteed || h.default.items == []) then nothing
    else
      var from := if h.guaranteed.items == [] then Default else Guaranteed;
      var t := Pick(h, from).items[0];
      if t >= |g.queues| || t >= |g.cls| || t >= |budget| then nothing.(ok := false)
      else if from == Guaranteed && g.cls[t] == Guaranteed && budget[t] <= 0 then
        var (g', ok) := MoveTenant(g, t, Default);
        Removal(g', None, false, ok)
      else TakeHead(g, t, from)
  }

  /** What the promotion of a replenished tenant does. */
  function PromoteRequest(g: TenantQueues, t: nat): (TenantQueues, bool)
    requires t < |g.queues| == |g.cls|
  {
    if g.cls[t] == Guaranteed then (g, true)
    else if g.queues[t].items == [] then (g.(cls := g.cls[t := Guaranteed]), true)
    else MoveTenant(g, t, Guaranteed)
  }

  lemma HeapsChange(h: Heaps, h': Heaps, queues: seq<Queue<Sandbox>>, queues': seq<Queue<Sandbox>>,
                    cls: seq<MtClass>, c: MtClass)
    requires HeapsOk(h, queues, cls) && Replaces(h, c, h', InClass(queues', cls, c)) && Marked(Pick(h', c))
    requires forall d :: d != c ==> InClass(queues', cls, d) == InClass(queues, cls, d)
    ensures HeapsOk(h', queues', cls)
  {
    hide Exactly, InClass, Marked;
    MembersChange(h, h', queues, queues', cls, c);
  }

  /** Adding a request: the class heaps fit the new queues, and re-adding the tenant cannot panic. */
  lemma AddKeeps(h: Heaps, queues: seq<Queue<Sandbox>>, cls: seq<MtClass>, x: Sandbox)
    requires AllRequestsOk(queues) && x.tenant < |queues| == |cls| <= MAX_TENANTS && x.deadline < ULONG_MAX
    requires |queues[x.tenant].items| < TENANT_QUEUE_SIZE && HeapsOk(h, queues, cls)
    ensures var queues', r := QueuesAfterAdd(queues, x), HeapsAfterAdd(h, queues, cls, x);
            AllRequestsOk(queues') && Held(queues') == Held(queues) + multiset{x} && r.1 && HeapsOk(r.0, queues', cls)
  {
    hide Enqueue, Exactly, InClass, AllRequestsOk, Held, Marked, AllBelowMax, HeadDeadline, InsertTenant, RemoveTenant;
    AddFacts(queues, cls, x);
    MembersAreBounded(queues, cls);
    var t, c := x.tenant, cls[x.tenant];
    var q := Enqueue(queues[t], x, Deadline).0;
    var queues', s := queues[t := q], InClass(queues, cls, c);
    var p := HeadDeadline(queues');
    if q.highest < queues[t].highest {
      if t in s {
        ReheapifyKeeps(h, c, s, t, p);
      } else {
        ExactlyMembers(Pick(h, c), s);
        AbsentDelete(h, c, t, p);
        InsertKeeps(h, c, s, t, p);
      }
      HeapsChange(h, Rekeyed(h, c, t, p).0, queues, queues', cls, c);
    } else {
      HeapsChange(h, h, queues, queues', cls, c);
    }
  }

  // ---------- The assertion that the listener reaches ----------

  /** The rekeying delete of an add runs on the listener; it finds the tenant, and so reaches the assertion of
      the percolation that the listener is not running, if and only if the request overtakes its tenant's head. */
  lemma ListenerAssertsIff(h: Heaps, queues: seq<Queue<Sandbox>>, cls: seq<MtClass>, x: Sandbox)
    requires AllRequestsOk(queues) && HeapsOk(h, queues, cls) && x.tenant < |queues| == |cls|
    requires |queues[x.tenant].items| < TENANT_QUEUE_SIZE
    ensures AddPercolates(TenantQueues(queues, cls, h), x) <==> Overtakes(x, queues)
  {
    var t := x.tenant;
    assert RequestsOk(queues[t], t);
    HeadAfterEnqueue(queues[t], x);
    ExactlyMembers(Pick(h, cls[t]), InClass(queues, cls, cls[t]));
    hide Enqueue;
  }

  /** A tenant with two routes is enough: a request due at 200, then one due at 100. */
  lemma TwoRequestsReachTheAssert()
    ensures var q := Enqueue(EmptyQueue(TENANT_QUEUE_SIZE), Sandbox(0, 0, 200), Deadline).0;
            var h := Heaps(EmptyQueue(MAX_TENANTS), Enqueue(EmptyQueue(MAX_TENANTS), 0, HeadDeadline([q])).0);
            AllRequestsOk([q]) && HeapsOk(h, [q], [Default]) && Overtakes(Sandbox(1, 0, 100), [q])
  {
    var x := Sandbox(0, 0, 200);
    var q := Enqueue(EmptyQueue(TENANT_QUEUE_SIZE), x, Deadline).0;
    assert q.items == [x];
    assert InClass([q], [Default], Guaranteed) == {} && InClass([q], [Default], Default) == {0};
    var d := Enqueue(EmptyQueue(MAX_TENANTS), 0, HeadDeadline([q])).0;
    assert d.items == [0];
  }

  // ---------- Deadlines of ULONG_MAX ----------

  /** After an add the class heaps fit the new queues if and only if the deadline is below ULONG_MAX or the
      tenant was busy: an idle tenant whose first request is due at ULONG_MAX is left out of its heap. */
  lemma FirstRequestIsSeenIff(h: Heaps, queues: seq<Queue<Sandbox>>, cls: seq<MtClass>, x: Sandbox)
    requires AllRequestsOk(queues) && x.tenant < |queues| == |cls| <= MAX_TENANTS
    requires |queues[x.tenant].items| < TENANT_QUEUE_SIZE && HeapsOk(h, queues, cls)
    ensures HeapsOk(HeapsAfterAdd(h, queues, cls, x).0, QueuesAfterAdd(queues, x), cls)
            <==> x.deadline < ULONG_MAX || queues[x.tenant].items != []
  {
    hide HeapsOk, AllRequestsOk, HeapsAfterAdd, QueuesAfterAdd, Held;
    if x.deadline < ULONG_MAX {
      AddKeeps(h, queues, cls, x);
    } else {
      LateRequest(h, queues, cls, x);
    }
  }

  lemma LateRequest(h: Heaps, queues: seq<Queue<Sandbox>>, cls: seq<MtClass>, x: Sandbox)
    requires AllRequestsOk(queues) && x.tenant < |queues| == |cls| && x.deadline == ULONG_MAX
    requires |queues[x.tenant].items| < TENANT_QUEUE_SIZE && HeapsOk(h, queues, cls)
    ensures HeapsOk(HeapsAfterAdd(h, queues, cls, x).0, QueuesAfterAdd(queues, x), cls) <==> queues[x.tenant].items != []
  {
    hide Enqueue, Marked, InClass, Exactly, HeadDeadline, Rekeyed, Sound;
    var t := x.tenant;
    assert RequestsOk(queues[t], t);
    HeadAfterEnqueue(queues[t], x);
    var queues' := QueuesAfterAdd(queues, x);
    QueueChange(queues, cls, t, queues'[t]);
    assert HeapsAfterAdd(h, queues, cls, x).0 == h;
    if queues[t].items == [] {
      ExactlyMembers(Pick(h, cls[t]), InClass(queues, cls, cls[t]));
      LeftOut(h, queues', cls, t);
    } else {
      HeapsChange(h, h, queues, queues', cls, cls[t]);
    }
  }

  lemma LeftOut(h: Heaps, queues: seq<Queue<Sandbox>>, cls: seq<MtClass>, t: nat)
    requires t < |cls| && t in InClass(queues, cls, cls[t]) && t !in Pick(h, cls[t]).items
    ensures !HeapsOk(h, queues, cls)
  {
    if HeapsOk(h, queues, cls) { ExactlyMembers(Pick(h, cls[t]), InClass(queues, cls, cls[t])); }
  }

  /** A dequeue of a tenant's requests finds nothing in a non-empty queue, which the code asserts against, if
      and only if all of them are due at ULONG_MAX. */
  lemma DequeueIsStuckIff(q: Queue<Sandbox>)
    requires Sound(q, Deadline) && q.items != []
    ensures DequeueIfEarlier(q, Deadline, ULONG_MAX).1.None? <==> forall x :: x in q.items ==> x.deadline == ULONG_MAX
  {
    RootIsBagMinimum(q, Deadline);
    assert q.items[0] in q.items;
    forall x | x in q.items ensures q.items[0].deadline <= x.deadline { assert x in multiset(q.items); }
  }

  function Drained(q: Queue<Sandbox>, n: nat): Queue<Sandbox>
    requires n <= |q.items|
    decreases n
  {
    if n == 0 then q else Drained(RemoveSlot(q, Deadline, 0), n - 1)
  }

  /** A request due at ULONG_MAX gets a busy tenant there: once the others are taken, it is stuck. */
  lemma LateRequestSticks(q: Queue<Sandbox>, x: Sandbox)
    requires RequestsOk(q, x.tenant) && |q.items| < TENANT_QUEUE_SIZE && x.deadline == ULONG_MAX
    ensures var r := Enqueue(q, x, Deadline).0;
            |r.items| == |q.items| + 1 &&
            Drained(r, |q.items|).items == [x] &&
            DequeueIfEarlier(Drained(r, |q.items|), Deadline, ULONG_MAX).1.None?
  {
    var r := Enqueue(q, x, Deadline).0;
    EnqueueSound(q, x, Deadline);
    EnqueueBag(q, x, Deadline);
    hide Enqueue;
    forall y | y in multiset(q.items) ensures y.deadline < ULONG_MAX { assert y in q.items; }
    DrainToLate(r, multiset(q.items), x);
  }

  lemma {:induction false} DrainToLate(r: Queue<Sandbox>, others: multiset<Sandbox>, x: Sandbox)
    requires Sound(r, Deadline) && multiset(r.items) == others + multiset{x} && x.deadline == ULONG_MAX
    requires forall y :: y in others ==> y.deadline < ULONG_MAX
    ensures |others| <= |r.items| && Drained(r, |others|).items == [x]
    ensures DequeueIfEarlier(Drained(r, |others|), Deadline, ULONG_MAX).1.None?
    decreases |others|
  {
    hide RemoveSlot, RemoveAt, IsMinimum;
    assert |r.items| == |multiset(r.items)| == |others| + 1;
    if |others| == 0 {
      assert r.items[0] in multiset(r.items);
      assert r.items == [x];
    } else {
      var root := HeadIsNotLate(r, others, x);
      RemoveSlotSound(r, Deadline, 0);
      HeadLeaves(r, others, x, root);
      DrainToLate(RemoveSlot(r, Deadline, 0), others - multiset{root}, x);
    }
  }

  lemma HeadIsNotLate(r: Queue<Sandbox>, others: multiset<Sandbox>, x: Sandbox) returns (root: Sandbox)
    requires Sound(r, Deadline) && multiset(r.items) == others + multiset{x} && x.deadline == ULONG_MAX && |others| > 0
    requires forall y :: y in others ==> y.deadline < ULONG_MAX
    ensures r.items != [] && root == r.items[0] && root in others
  {
    var y :| y in others;
    assert y in multiset(r.items);
    RootIsBagMinimum(r, Deadline);
    root := r.items[0];
    assert root in multiset(r.items);
  }

  lemma HeadLeaves(r: Queue<Sandbox>, others: multiset<Sandbox>, x: Sandbox, root: Sandbox)
    requires r.items != [] && root == r.items[0] && root in others && multiset(r.items) == others + multiset{x}
    ensures multiset(RemoveSlot(r, Deadline, 0).items) == (others - multiset{root}) + multiset{x}
  {
    hide RemoveAt;
    RemoveAtBag(r.items, Deadline, 0);
    assert (others + multiset{x}) - multiset{root} == (others - multiset{root}) + multiset{x};
  }

  /** Order of the class heaps. With assertions compiled in, an add that would delete a tenant from the middle of
      its heap does not get there, so the guaranteed tenants leave their heap at its root only. */
  lemma AddKeepsRanks(h: Heaps, queues: seq<Queue<Sandbox>>, cls: seq<MtClass>, x: Sandbox, checked: bool)
    requires AllRequestsOk(queues) && HeapsOk(h, queues, cls) && Ranked(h, queues, checked)
    requires x.tenant < |queues| == |cls| && |queues[x.tenant].items| < TENANT_QUEUE_SIZE && x.deadline < ULONG_MAX
    requires !(checked && Overtakes(x, queues))
    ensures Ranked(HeapsAfterAdd(h, queues, cls, x).0, QueuesAfterAdd(queues, x), checked)
  {
    var t := x.tenant;
    assert RequestsOk(queues[t], t);
    HeadAfterEnqueue(queues[t], x);
    AddRanked(h, queues, cls, x, checked);
    if queues[t].items == [] {
      ExactlyMembers(Pick(h, cls[t]), InClass(queues, cls, cls[t]));
      AbsentDelete(h, cls[t], t, HeadDeadline(QueuesAfterAdd(queues, x)));
    }
    hide Enqueue, Ranked, InsertTenant, RemoveTenant, HeadDeadline;
  }

  /** Taking the head request of tenant `t`: the class heaps fit the new queues once `t` is deleted from its
      heap and, if it has requests left, added again; neither step can panic. */
  lemma TakeKeeps(h: Heaps, queues: seq<Queue<Sandbox>>, cls: seq<MtClass>, t: nat)
    requires AllRequestsOk(queues) && t < |queues| == |cls| <= MAX_TENANTS && queues[t].items != []
    requires HeapsOk(h, queues, cls)
    ensures var q := RemoveSlot(queues[t], Deadline, 0); var queues' := queues[t := q];
            var r := RemoveTenant(h, cls[t], t, HeadDeadline(queues'));
            AllRequestsOk(queues') && DequeueIfEarlier(queues[t], Deadline, ULONG_MAX) == (q, Some(queues[t].items[0])) &&
            queues[t].items[0].tenant == t && IsMinimum(queues[t].items[0], multiset(queues[t].items), Deadline) &&
            Held(queues') + multiset{queues[t].items[0]} == Held(queues) &&
            r.1 && HeapsOk(if q.items == [] then r.0 else InsertTenant(r.0, cls[t], t, HeadDeadline(queues')).0,
                           queues', cls)
  {
    TakeFacts(queues, cls, t);
    MembersAreBounded(queues, cls);
    hide RemoveSlot, Exactly, InClass, AllRequestsOk, Held, Marked, AllBelowMax, HeadDeadline, InsertTenant,
      RemoveTenant, IsMinimum, DequeueIfEarlier;
    var c, q := cls[t], RemoveSlot(queues[t], Deadline, 0);
    var queues', s := queues[t := q], InClass(queues, cls, c);
    var p := HeadDeadline(queues');
    ReheapifyKeeps(h, c, s, t, p);
    var without := RemoveTenant(h, c, t, p).0;
    HeapsChange(h, if q.items == [] then without else InsertTenant(without, c, t, p).0, queues, queues', cls, c);
  }

  /** Where a removed sandbox came from: the head of the queue of a guaranteed tenant with budget left, or
      of a default tenant when no guaranteed tenant has requests. */
  ghost predicate TakenFairly(queues: seq<Queue<Sandbox>>, cls: seq<MtClass>, budget: seq<int>, x: Sandbox) {
    var t := x.tenant;
    t < |queues| && t < |cls| && t < |budget| && queues[t].items != [] && x == queues[t].items[0] &&
    IsMinimum(x, multiset(queues[t].items), Deadline) &&
    if cls[t] == Guaranteed then budget[t] > 0 else InClass(queues, cls, Guaranteed) == {}
  }

  /** When a request is handed out: if guaranteed tenants have requests, their head tenant must have budget
      left, and for a caller that runs guaranteed work be earlier than `target`; otherwise only a caller that
      runs default work is served, from the default tenants and earlier than `target`. */
  ghost predicate Eligible(guaranteed: Queue<nat>, default: Queue<nat>, budget: seq<int>, target: uint64, c: MtClass) {
    if guaranteed.items != [] then
      guaranteed.items[0] < |budget| && budget[guaranteed.items[0]] > 0 &&
      (c == Guaranteed ==> guaranteed.highest < target)
    else c == Default && default.items != [] && default.highest < target
  }

  /** When the head of the guaranteed tenants is demoted instead: its budget is used up. */
  ghost predicate Demotes(guaranteed: Queue<nat>, budget: seq<int>, target: uint64, c: MtClass) {
    guaranteed.items != [] && guaranteed.items[0] < |budget| && budget[guaranteed.items[0]] <= 0 &&
    (c == Guaranteed ==> guaranteed.highest < target)
  }

  /** Tenant `t` is guaranteed with a full budget, and its timeout is its first replenishment after the
      reading made in one of the first `turns` turns. */
  ghost predicate Replenished(t: nat, cls: seq<MtClass>, timeouts: seq<uint64>, budget: seq<int>, max: seq<int>,
                              periods: seq<nat>, boot: nat, clock: nat -> nat, turns: nat)
  {
    t < |cls| && t < |timeouts| && t < |budget| && t < |max| && t < |periods| && periods[t] > 0 &&
    cls[t] == Guaranteed && budget[t] == max[t] &&
    exists i: nat :: i < turns && boot <= clock(i) && timeouts[t] == Wrapped(NextTimeout(boot, clock(i), periods[t]))
  }

  /** What the promotion loop does to each tenant: nothing, or a replenishment of a tracked one. */
  ghost predicate Promoted(before: Standing, after: Standing, tracked: set<nat>, max: seq<int>, periods: seq<nat>, boot: nat,
                           clock: nat -> nat, turns: nat)
  {
    |after.cls| == |before.cls| && |after.timeouts| == |before.timeouts| && |after.budget| == |before.budget| &&
    forall t :: 0 <= t < |periods| && t < |after.cls| && t < |after.timeouts| && t < |after.budget| ==>
      (after.cls[t] == before.cls[t] && after.timeouts[t] == before.timeouts[t] && after.budget[t] == before.budget[t]) ||
      (t in tracked && Replenished(t, after.cls, after.timeouts, after.budget, max, periods, boot, clock, turns))
  }

  /** Per tenant: its class, its next replenishment and its remaining budget. */
  datatype Standing = Standing(cls: seq<MtClass>, timeouts: seq<uint64>, budget: seq<int>)

  lemma TurnPromotes(before: Standing, s: Standing, tracked: set<nat>, max: seq<int>, periods: seq<nat>, boot: nat,
                     clock: nat -> nat, k: nat, t: nat)
    requires Promoted(before, s, tracked, max, periods, boot, clock, k) && t in tracked
    requires t < |s.cls| == |s.timeouts| == |s.budget| == |max| == |periods| && periods[t] > 0 && boot <= clock(k)
    ensures Promoted(before, Standing(s.cls[t := Guaranteed],
                                      s.timeouts[t := Wrapped(NextTimeout(boot, clock(k), periods[t]))],
                                      s.budget[t := max[t]]), tracked, max, periods, boot, clock, k + 1)
  {
    hide NextTimeout, Wrapped;
  }

  /** How an add ends: done, with the panic on a full queue, or with the assertion that percolation is not run by
      the listener. */
  datatype AddOutcome = Accepted | QueueFull | ListenerAsserts

  class GlobalQueues {
    const periods: seq<nat>
    const maxBudget: seq<int>
    const boot: nat
    /** Whether the program was built with its assertions. */
    const checked: bool
    var queues: seq<Queue<Sandbox>>
    var cls: seq<MtClass>
    var timeouts: seq<uint64>
    var budget: seq<int>
    var guaranteed: Queue<nat>
    var default: Queue<nat>
    var timeoutQueue: Queue<nat>
    /** The tenants whose replenishments are tracked. */
    ghost var tracked: set<nat>

    ghost predicate Shape()
      reads this
    {
      |periods| <= MAX_TENANTS &&
      |queues| == |cls| == |timeouts| == |budget| == |periods| == |maxBudget| && AllRequestsOk(queues) &&
      (forall t :: t in tracked ==> t < |periods| && periods[t] > 0) && Exactly(timeoutQueue, tracked) &&
      HeapOrdered(timeoutQueue.items, TimeoutOf(timeouts))
    }

    ghost function View(): TenantQueues
      reads this
    {
      TenantQueues(queues, cls, Heaps(guaranteed, default))
    }

    /** A tenant is in the heap its class names, once, if and only if it has requests. The timeout heap only
        loses its root, so it stays ordered. */
    ghost predicate Valid()
      reads this
    {
      Shape() && HeapsOk(Heaps(guaranteed, default), queues, cls) && Ranked(Heaps(guaranteed, default), queues, checked)
    }

    constructor (periods: seq<nat>, maxBudget: seq<int>, boot: nat, checked: bool)
      requires |periods| == |maxBudget| <= MAX_TENANTS
      ensures Valid() && this.periods == periods && this.maxBudget == maxBudget && this.boot == boot &&
              this.checked == checked
      ensures Held(queues) == multiset{} && budget == maxBudget && tracked == {}
    {
      this.periods, this.maxBudget, this.boot, this.checked := periods, maxBudget, boot, checked;
      queues := seq(|periods|, _ => EmptyQueue(TENANT_QUEUE_SIZE));
      cls := seq(|periods|, (t: nat) requires t < |periods| => if periods[t] == 0 then Default else Guaranteed);
      timeouts := seq(|periods|, _ => 0);
      budget := maxBudget;
      guaranteed, default, timeoutQueue := EmptyQueue(MAX_TENANTS), EmptyQueue(MAX_TENANTS), EmptyQueue(MAX_TENANTS);
      tracked := {};
      new;
      assert InClass(queues, cls, Guaranteed) == {} && InClass(queues, cls, Default) == {};
      NothingHeld(queues);
    }

    /** global_request_scheduler_mtds_add, which runs on the listener. */
    method Add(sandbox: Sandbox) returns (outcome: AddOutcome)
      requires Valid() && sandbox.tenant < |periods|
      modifies this`queues, this`guaranteed, this`default
      ensures outcome == QueueFull <==> |old(queues)[sandbox.tenant].items| == TENANT_QUEUE_SIZE
      ensures outcome == ListenerAsserts <==>
        (checked && Overtakes(sandbox, old(queues)) && |old(queues)[sandbox.tenant].items| < TENANT_QUEUE_SIZE)
      ensures outcome == Accepted ==>
        queues == QueuesAfterAdd(old(queues), sandbox) && Held(queues) == Held(old(queues)) + multiset{sandbox} &&
        (HeapsOk(Heaps(guaranteed, default), queues, cls) <==>
           sandbox.deadline < ULONG_MAX || old(queues)[sandbox.tenant].items != []) &&
        (sandbox.deadline < ULONG_MAX ==> Valid()) && AddRequest(old(View()), sandbox) == (View(), true)
    {
      var t := sandbox.tenant;
      assert RequestsOk(queues[t], t);
      hide HeapsOk, Ranked, AllRequestsOk, RequestsOk, Held, HeapOrdered, Exactly, HeadDeadline, Rekeyed;
      var (q, room) := Enqueue(queues[t], sandbox, Deadline);
      if !room { return QueueFull; }
      ListenerAssertsIff(Heaps(guaranteed, default), queues, cls, sandbox);
      if q.highest < queues[t].highest && t in Pick(Heaps(guaranteed, default), cls[t]).items {
        if checked { return ListenerAsserts; }
      }
      Admit(sandbox);
      outcome := Accepted;
    }

    method Admit(sandbox: Sandbox)
      requires Valid() && sandbox.tenant < |periods| && !(checked && Overtakes(sandbox, queues))
      requires |queues[sandbox.tenant].items| < TENANT_QUEUE_SIZE
      modifies this`queues, this`guaranteed, this`default
      ensures queues == QueuesAfterAdd(old(queues), sandbox) && Held(queues) == Held(old(queues)) + multiset{sandbox}
      ensures HeapsOk(Heaps(guaranteed, default), queues, cls) <==>
        sandbox.deadline < ULONG_MAX || old(queues)[sandbox.tenant].items != []
      ensures sandbox.deadline < ULONG_MAX ==> Valid()
      ensures AddRequest(old(View()), sandbox) == (View(), true)
    {
      hide Enqueue, Rekeyed, HeapsOk, Exactly, AllRequestsOk, RequestsOk, Held, InClass, AllBelowMax, HeadDeadline,
        Ranked, HeapOrdered;
      var t := sandbox.tenant;
      HeldAfterRequest(queues, sandbox);
      FirstRequestIsSeenIff(Heaps(guaranteed, default), queues, cls, sandbox);
      if sandbox.deadline < ULONG_MAX {
        AddKeeps(Heaps(guaranteed, default), queues, cls, sandbox);
        AddKeepsRanks(Heaps(guaranteed, default), queues, cls, sandbox, checked);
      } else {
        LateRequestIsNotRekeyed(queues, sandbox);
      }
      var last := queues[t].highest;
      queues := queues[t := Enqueue(queues[t], sandbox, Deadline).0];
      if queues[t].highest < last {
        var (heaps, room) := Rekeyed(Heaps(guaranteed, default), cls[t], t, HeadDeadline(queues));
        assert room;
        guaranteed, default := heaps.guaranteed, heaps.default;
      }
    }

    /** global_request_scheduler_mtds_remove_with_mt_class. */
    method RemoveWithMtClass(target: uint64, targetClass: MtClass) returns (removed: Option<Sandbox>)
      requires Valid()
      modifies this`queues, this`cls, this`guaranteed, this`default
      ensures Valid()
      ensures removed.Some? ==>
        TakenFairly(old(queues), old(cls), budget, removed.value) &&
        HeadOf(removed.value.tenant, if old(guaranteed).items != [] then old(guaranteed) else old(default)) &&
        (targetClass == Guaranteed ==> old(cls)[removed.value.tenant] == Guaranteed) &&
        queues == old(queues)[removed.value.tenant := RemoveSlot(old(queues)[removed.value.tenant], Deadline, 0)] &&
        Held(queues) + multiset{removed.value} == Held(old(queues))
      ensures removed.Some? <==> Eligible(old(guaranteed), old(default), budget, target, targetClass)
      ensures removed.Some? && KeptSound(old(cls)[removed.value.tenant], |periods|, checked) ==>
        EarliestOfClass(removed.value, old(queues), old(cls))
      ensures removed.None? ==> queues == old(queues)
      ensures cls == if Demotes(old(guaranteed), budget, target, targetClass)
                     then old(cls)[old(guaranteed).items[0] := Default] else old(cls)
      ensures RemoveRequest(old(View()), budget, target, targetClass) == Removal(View(), removed, false, true)
    {
      hide Ranked, HeapOrdered, TakeHead, MoveTenant, EarliestOfClass, IsMinimum, RemoveSlot, Held, RequestsOk;
      if targetClass == Guaranteed {
        if guaranteed.highest >= target { return None; }
      } else {
        if guaranteed.highest == ULONG_MAX && default.highest >= target { return None; }
      }
      ExactlyMembers(guaranteed, InClass(queues, cls, Guaranteed));
      ExactlyMembers(default, InClass(queues, cls, Default));
      var c := Guaranteed;
      if guaranteed.items == [] {
        if targetClass == Guaranteed { return None; }
        c := Default;
        if default.items == [] { return None; }
      }
      var t := if c == Guaranteed then guaranteed.items[0] else default.items[0];
      assert t in (if c == Guaranteed then guaranteed.items else default.items);
      assert t < |queues| && queues[t].items != [] && cls[t] == c;
      if c == Guaranteed && budget[t] <= 0 {
        DemoteTop(t);
        return None;
      }
      if KeptSound(c, |periods|, checked) {
        TakenIsEarliest(Heaps(guaranteed, default), queues, cls, c, t, checked);
      }
      var x := TakeFrom(t, c);
      removed := Some(x);
    }

    /** global_request_scheduler_mtds_demote_nolock and the class change that follows it. */
    method DemoteTop(t: nat)
      requires Valid() && t < |queues| && queues[t].items != [] && cls[t] == Guaranteed && HeadOf(t, guaranteed)
      modifies this`cls, this`guaranteed, this`default
      ensures Valid() && cls == old(cls)[t := Default]
      ensures MoveTenant(old(View()), t, Default) == (View(), true)
    {
      MoveBetween(t, Guaranteed, Default);
    }

    /** Delete tenant `t` from the heap of class `c`, add it to that of `c'`, and change its class. */
    method MoveBetween(t: nat, c: MtClass, c': MtClass)
      requires Valid() && t < |queues| && queues[t].items != [] && cls[t] == c && c' != c
      requires c == Guaranteed ==> HeadOf(t, guaranteed)
      modifies this`cls, this`guaranteed, this`default
      ensures Valid() && cls == old(cls)[t := c']
      ensures MoveTenant(old(View()), t, c') == (View(), true)
    {
      hide Exactly, InClass, AllRequestsOk, InsertTenant, RemoveTenant, Marked, AllBelowMax, HeadDeadline, Members, Ranked,
        HeapOrdered;
      MoveKeepsRequests(View(), t, c', checked);
      var (without, found) := RemoveTenant(Heaps(guaranteed, default), c, t, HeadDeadline(queues));
      assert found;
      var (with, room) := InsertTenant(without, c', t, HeadDeadline(queues));
      assert room;
      guaranteed, default := with.guaranteed, with.default;
      cls := cls[t := c'];
    }

    /** Dequeue the head request of tenant `t` and reposition the tenant. */
    method TakeFrom(t: nat, c: MtClass) returns (x: Sandbox)
      requires Valid() && t < |queues| && queues[t].items != [] && cls[t] == c
      requires HeadOf(t, Pick(Heaps(guaranteed, default), c))
      modifies this`queues, this`guaranteed, this`default
      ensures Valid() && x == old(queues)[t].items[0] && x.tenant == t
      ensures IsMinimum(x, multiset(old(queues)[t].items), Deadline)
      ensures queues == old(queues)[t := RemoveSlot(old(queues)[t], Deadline, 0)]
      ensures Held(queues) + multiset{x} == Held(old(queues))
      ensures TakeHead(old(View()), t, c) == Removal(View(), Some(x), false, true)
    {
      hide DequeueIfEarlier, RemoveSlot, InsertTenant, RemoveTenant, HeapsOk, Exactly, AllRequestsOk, RequestsOk, Held,
        InClass, AllBelowMax, HeadDeadline, IsMinimum, Ranked, HeapOrdered;
      TakeHeadKeeps(View(), t, checked);
      var (q, got) := DequeueIfEarlier(queues[t], Deadline, ULONG_MAX);
      assert got.Some?;
      x := got.value;
      queues := queues[t := q];
      var (heaps, found) := RemoveTenant(Heaps(guaranteed, default), c, t, HeadDeadline(queues));
      assert found;
      if |q.items| > 0 {
        heaps := InsertTenant(heaps, c, t, HeadDeadline(queues)).0;
      }
      guaranteed, default := heaps.guaranteed, heaps.default;
    }

    /** global_timeout_queue_add for a paid tenant. A tenant that is tracked already would be in the heap twice. */
    method TimeoutQueueAdd(t: nat, clock: nat)
      requires Valid() && t < |periods| && periods[t] > 0
      requires boot <= clock
      modifies this`timeouts, this`timeoutQueue, this`tracked
      ensures tracked == old(tracked) + {t}
      ensures timeouts == old(timeouts)[t := Wrapped(NextTimeout(boot, clock, periods[t]))]
      ensures t !in old(tracked) ==> Valid()
      ensures t in old(tracked) && |old(timeoutQueue).items| < MAX_TENANTS ==> !Valid()
      ensures t in old(tracked) && |old(timeoutQueue).items| >= MAX_TENANTS ==>
        timeoutQueue == old(timeoutQueue) && (Valid() <==> HeapOrdered(timeoutQueue.items, TimeoutOf(timeouts)))
    {
      hide Exactly, HeapsOk, AllRequestsOk, HeapOrdered, Ranked, NextTimeout, Wrapped;
      if t !in tracked {
        TrackKeeps(timeoutQueue, tracked, t, timeouts, Wrapped(NextTimeout(boot, clock, periods[t])));
      } else {
        TrackedTwice(timeoutQueue, tracked, t, TimeoutOf(timeouts[t := Wrapped(NextTimeout(boot, clock, periods[t]))]));
        assert tracked + {t} == tracked;
      }
      timeouts := timeouts[t := Wrapped(NextTimeout(boot, clock, periods[t]))];
      timeoutQueue := Enqueue(timeoutQueue, t, TimeoutOf(timeouts)).0;
      tracked := tracked + {t};
    }

    /** One turn of the promotion loop: the tenant at the head of the timeout heap becomes guaranteed, its
        budget is replenished and it gets its next timeout. */
    method PromoteTop(t: nat, clock: nat)
      requires Valid() && timeoutQueue.items != [] && t == timeoutQueue.items[0]
      requires boot <= clock
      modifies this`cls, this`timeouts, this`budget, this`guaranteed, this`default, this`timeoutQueue
      ensures Valid() && timeoutQueue.items != []
      ensures t in tracked && cls == old(cls)[t := Guaranteed] && budget == old(budget)[t := maxBudget[t]]
      ensures timeouts == old(timeouts)[t := Wrapped(NextTimeout(boot, clock, periods[t]))]
    {
      hide HeapsOk, Ranked, AllRequestsOk, HeapOrdered, Exactly, Enqueue, Delete, NextTimeout, TimeoutOf, Wrapped;
      ExactlyMembers(timeoutQueue, tracked);
      assert t in timeoutQueue.items;
      BecomeGuaranteed(t);
      budget := budget[t := maxBudget[t]];
      RenewKeeps(timeoutQueue, tracked, t, timeouts, Wrapped(NextTimeout(boot, clock, periods[t])));
      timeoutQueue := Delete(timeoutQueue, t, TimeoutOf(timeouts)).0;
      timeouts := timeouts[t := Wrapped(NextTimeout(boot, clock, periods[t]))];
      timeoutQueue := Enqueue(timeoutQueue, t, TimeoutOf(timeouts)).0;
    }

    /** global_request_scheduler_mtds_promote_lock where it applies, and the class change. */
    method BecomeGuaranteed(t: nat)
      requires Valid() && t < |periods|
      modifies this`cls, this`guaranteed, this`default
      ensures Valid() && cls == old(cls)[t := Guaranteed]
      ensures PromoteRequest(old(View()), t) == (View(), true)
    {
      hide HeapOrdered, MoveTenant, RequestsOk;
      if cls[t] == Default {
        if queues[t].items != [] {
          MoveBetween(t, Default, Guaranteed);
        } else {
          IdleClassIsFree(queues, cls, t, Guaranteed);
          cls := cls[t := Guaranteed];
        }
      } else {
        assert cls == cls[t := Guaranteed];
      }
    }

    /** The first `limit` turns, at most, of global_timeout_queue_process_promotions. The loop reads the
        clock twice a turn: `now(k)` for the k-th test, `clock(k)` for the k-th new timeout. It ends within one
        turn per tracked tenant if no replenishment passes meanwhile, and never if one passes in every turn. */
    method ProcessPromotions(now: nat -> nat, clock: nat -> nat, limit: nat) returns (ghost turns: nat)
      requires Valid() && forall i: nat :: boot <= clock(i)
      modifies this`cls, this`timeouts, this`budget, this`guaranteed, this`default, this`timeoutQueue
      ensures Valid() && turns <= limit
      ensures Promoted(old(Standing(cls, timeouts, budget)), Standing(cls, timeouts, budget), tracked, maxBudget, periods,
                       boot, clock, turns)
      ensures turns < limit ==> forall t :: t in tracked ==> timeouts[t] > now(turns)
      ensures Calm(now, clock, tracked, periods, boot) ==> turns <= |tracked|
      ensures Racing(now, clock, tracked, periods, limit) && SomeDue(tracked, old(timeouts), now(0)) ==> turns == limit
    {
      hide HeapsOk, AllRequestsOk, HeapOrdered, NextTimeout, Wrapped, Ranked, Exactly, Calm, Racing, SomeDue, Promoted,
        LoopOk;
      ghost var g := Loop(now, clock, limit, tracked, maxBudget, periods, boot);
      ghost var start, renewed: set<nat> := Standing(cls, timeouts, budget), {};
      LoopStarts(g, start);
      turns := 0;
      ExactlyMembers(timeoutQueue, tracked);
      if timeoutQueue.items == [] {
        LoopEnds(g, start, start, {}, 0);
        return;
      }
      assert timeoutQueue.items[0] in timeoutQueue.items;
      var k := 0;
      while k < limit && now(k) >= timeouts[timeoutQueue.items[0]]
        invariant Valid() && timeoutQueue.items != [] && timeoutQueue.items[0] in tracked && k == turns <= limit
        invariant LoopOk(g, start, Standing(cls, timeouts, budget), renewed, k)
        decreases limit - k
      {
        var t, at := timeoutQueue.items[0], clock(k);
        LoopTurns(g, start, Standing(cls, timeouts, budget), renewed, k, t);
        PromoteTop(t, at);
        renewed := renewed + {t};
        k := k + 1;
        turns := k;
        ExactlyMembers(timeoutQueue, tracked);
        assert timeoutQueue.items[0] in timeoutQueue.items;
      }
      if k < limit { NothingDue(timeoutQueue, tracked, timeouts, now(k)); }
      LoopEnds(g, start, Standing(cls, timeouts, budget), renewed, k);
    }
  }

  // ---------- The request queues as values ----------

  ghost predicate RequestsExact(g: TenantQueues, checked: bool) {
    |g.queues| == |g.cls| <= MAX_TENANTS && AllRequestsOk(g.queues) && HeapsOk(g.heaps, g.queues, g.cls) &&
    Ranked(g.heaps, g.queues, checked)
  }

  /** An add that does not abort keeps everything exact. */
  lemma AddRequestKeeps(g: TenantQueues, x: Sandbox, checked: bool)
    requires RequestsExact(g, checked) && x.tenant < |g.queues| && x.deadline < ULONG_MAX
    requires |g.queues[x.tenant].items| < TENANT_QUEUE_SIZE && !(checked && AddPercolates(g, x))
    ensures AddRequest(g, x).1 && RequestsExact(AddRequest(g, x).0, checked)
  {
    hide HeapsOk, AllRequestsOk, Ranked, HeapsAfterAdd, QueuesAfterAdd, Held, AddPercolates;
    assert g == TenantQueues(g.queues, g.cls, g.heaps);
    ListenerAssertsIff(g.heaps, g.queues, g.cls, x);
    AddKeeps(g.heaps, g.queues, g.cls, x);
    AddKeepsRanks(g.heaps, g.queues, g.cls, x, checked);
    SameCount(g.queues, x);
  }

  lemma SameCount(queues: seq<Queue<Sandbox>>, x: Sandbox)
    requires x.tenant < |queues|
    ensures |QueuesAfterAdd(queues, x)| == |queues|
  {
  }

  lemma MoveKeepsRequests(g: TenantQueues, t: nat, c: MtClass, checked: bool)
    requires RequestsExact(g, checked) && t < |g.queues| && g.queues[t].items != [] && g.cls[t] != c
    requires g.cls[t] == Guaranteed ==> HeadOf(t, g.heaps.guaranteed)
    ensures MoveTenant(g, t, c).1 && RequestsExact(MoveTenant(g, t, c).0, checked)
  {
    hide Exactly, InClass, AllRequestsOk, InsertTenant, RemoveTenant, Marked, AllBelowMax, HeadDeadline, Members, Ranked;
    HeadsBelowMax(g.queues, g.cls, g.cls[t]);
    MoveMembers(g.heaps, g.queues, g.cls, t, c);
    MoveRanked(g.heaps, g.queues, g.cls, t, c, checked);
  }

  lemma TakeHeadKeeps(g: TenantQueues, t: nat, checked: bool)
    requires RequestsExact(g, checked) && t < |g.queues| && g.queues[t].items != [] && HeadOf(t, Pick(g.heaps, g.cls[t]))
    ensures var r := TakeHead(g, t, g.cls[t]); var q := RemoveSlot(g.queues[t], Deadline, 0); var x := g.queues[t].items[0];
            r == Removal(r.g, Some(x), false, true) && RequestsExact(r.g, checked) &&
            DequeueIfEarlier(g.queues[t], Deadline, ULONG_MAX) == (q, Some(x)) &&
            x.tenant == t && IsMinimum(x, multiset(g.queues[t].items), Deadline) &&
            r.g.queues == g.queues[t := q] && Held(r.g.queues) + multiset{x} == Held(g.queues)
  {
    hide DequeueIfEarlier, RemoveSlot, InsertTenant, RemoveTenant, HeapsOk, AllRequestsOk, Held, HeadDeadline, IsMinimum,
      Ranked, HeadOf;
    TakeKeeps(g.heaps, g.queues, g.cls, t);
    TakeKeepsRanks(g.heaps, g.queues, g.cls, t, checked);
  }

  lemma PromoteKeepsRequests(g: TenantQueues, t: nat, checked: bool)
    requires RequestsExact(g, checked) && t < |g.queues|
    ensures PromoteRequest(g, t).1 && RequestsExact(PromoteRequest(g, t).0, checked)
  {
    if g.cls[t] == Default {
      if g.queues[t].items != [] {
        hide MoveTenant, HeapsOk, AllRequestsOk, Ranked;
        MoveKeepsRequests(g, t, Guaranteed, checked);
      } else {
        hide AllRequestsOk, Ranked;
        IdleClassIsFree(g.queues, g.cls, t, Guaranteed);
      }
    }
  }

  /** A removal: no panic and no stuck dequeue; a request is handed out if and only if one is eligible, taken
      fairly, and the earliest of its class where that heap is kept ordered. */
  lemma RemoveRequestKeeps(g: TenantQueues, budget: seq<int>, target: uint64, c: MtClass, checked: bool)
    requires RequestsExact(g, checked) && |budget| == |g.queues|
    ensures var r := RemoveRequest(g, budget, target, c);
            r.ok && !r.stuck && RequestsExact(r.g, checked) &&
            (r.got.Some? <==> Eligible(g.heaps.guaranteed, g.heaps.default, budget, target, c)) &&
            (r.got.Some? ==> TakenFairly(g.queues, g.cls, budget, r.got.value) &&
                             (KeptSound(g.cls[r.got.value.tenant], |g.queues|, checked) ==>
                                EarliestOfClass(r.got.value, g.queues, g.cls)))
  {
    hide Ranked, TakeHead, MoveTenant, EarliestOfClass, IsMinimum, RemoveSlot, Held, RequestsOk, KeptSound;
    var h := g.heaps;
    ExactlyMembers(h.guaranteed, InClass(g.queues, g.cls, Guaranteed));
    ExactlyMembers(h.default, InClass(g.queues, g.cls, Default));
    if h.guaranteed.items != [] || h.default.items != [] {
      var from := if h.guaranteed.items == [] then Default else Guaranteed;
      var t := Pick(h, from).items[0];
      assert t in Pick(h, from).items;
      assert t < |g.queues| && g.queues[t].items != [] && g.cls[t] == from;
      if from == Guaranteed && budget[t] <= 0 {
        MoveKeepsRequests(g, t, Default, checked);
      } else {
        TakeHeadKeeps(g, t, checked);
        if KeptSound(from, |g.queues|, checked) { TakenIsEarliest(h, g.queues, g.cls, from, t, checked); }
      }
    }
  }

  // ---------- When the promotion loop ends ----------

  /** No tracked tenant's replenishment falls between the first new timeout and the tests that follow it, up to
      one per tracked tenant, and no new timeout passes 2^64. */
  ghost predicate Calm(now: nat -> nat, clock: nat -> nat, tracked: set<nat>, periods: seq<nat>, boot: nat) {
    boot <= clock(0) && (forall i: nat :: clock(0) <= clock(i)) &&
    forall i: nat, t :: i <= |tracked| && t in tracked ==>
      t < |periods| && periods[t] > 0 && now(i) < NextTimeout(boot, clock(0), periods[t]) &&
      NextTimeout(boot, clock(i), periods[t]) <= ULONG_MAX
  }

  /** Between a new timeout and the next test a whole period passes, in each of the first `limit` turns. */
  ghost predicate Racing(now: nat -> nat, clock: nat -> nat, tracked: set<nat>, periods: seq<nat>, limit: nat) {
    forall i: nat, t :: i < limit && t in tracked && t < |periods| ==> clock(i) + periods[t] <= now(i + 1)
  }

  ghost predicate SomeDue(tracked: set<nat>, timeouts: seq<uint64>, now: nat) {
    exists t :: t in tracked && t < |timeouts| && timeouts[t] <= now
  }

  /** `k` different tenants were renewed, none of them due again before the first reading's next replenishment. */
  ghost predicate Progress(renewed: set<nat>, k: nat, tracked: set<nat>, timeouts: seq<uint64>, periods: seq<nat>,
                           boot: nat, first: nat)
  {
    renewed <= tracked && |renewed| == k && boot <= first &&
    forall t :: t in renewed ==>
      t < |timeouts| && t < |periods| && periods[t] > 0 && NextTimeout(boot, first, periods[t]) <= timeouts[t]
  }

  lemma CalmTurn(renewed: set<nat>, k: nat, tracked: set<nat>, timeouts: seq<uint64>, periods: seq<nat>, boot: nat,
                 now: nat -> nat, clock: nat -> nat, t: nat)
    requires Calm(now, clock, tracked, periods, boot) && Progress(renewed, k, tracked, timeouts, periods, boot, clock(0))
    requires t in tracked && t < |timeouts| && t < |periods| && periods[t] > 0 && timeouts[t] <= now(k)
    ensures boot <= clock(k)
    ensures Progress(renewed + {t}, k + 1, tracked, timeouts[t := Wrapped(NextTimeout(boot, clock(k), periods[t]))],
                     periods, boot, clock(0))
  {
    hide NextTimeout;
    SubsetSize(renewed, tracked);
    assert now(k) < NextTimeout(boot, clock(0), periods[t]);
    assert t !in renewed;
    NextTimeoutMonotone(boot, clock(0), clock(k), periods[t]);
  }

  /** What a run of the loop depends on. */
  datatype Loop = Loop(now: nat -> nat, clock: nat -> nat, limit: nat, tracked: set<nat>, max: seq<int>,
                       periods: seq<nat>, boot: nat)

  /** After `k` turns that took the tenants from `start` to `s` and renewed those in `renewed`. */
  ghost predicate LoopOk(g: Loop, start: Standing, s: Standing, renewed: set<nat>, k: nat) {
    Promoted(start, s, g.tracked, g.max, g.periods, g.boot, g.clock, k) &&
    (Calm(g.now, g.clock, g.tracked, g.periods, g.boot) ==>
       Progress(renewed, k, g.tracked, s.timeouts, g.periods, g.boot, g.clock(0))) &&
    (Racing(g.now, g.clock, g.tracked, g.periods, g.limit) && SomeDue(g.tracked, start.timeouts, g.now(0)) ==>
       SomeDue(g.tracked, s.timeouts, g.now(k)))
  }

  lemma LoopStarts(g: Loop, start: Standing)
    ensures LoopOk(g, start, start, {}, 0)
  {
    hide NextTimeout, SomeDue;
  }

  lemma LoopTurns(g: Loop, start: Standing, s: Standing, renewed: set<nat>, k: nat, t: nat)
    requires LoopOk(g, start, s, renewed, k) && k < g.limit && t in g.tracked && g.boot <= g.clock(k)
    requires t < |s.cls| == |s.timeouts| == |s.budget| == |g.max| == |g.periods| && g.periods[t] > 0
    requires s.timeouts[t] <= g.now(k)
    ensures LoopOk(g, start, Standing(s.cls[t := Guaranteed],
                                      s.timeouts[t := Wrapped(NextTimeout(g.boot, g.clock(k), g.periods[t]))],
                                      s.budget[t := g.max[t]]), renewed + {t}, k + 1)
  {
    hide Promoted, Calm, Progress, Racing, SomeDue, NextTimeout, Wrapped;
    TurnPromotes(start, s, g.tracked, g.max, g.periods, g.boot, g.clock, k, t);
    if Calm(g.now, g.clock, g.tracked, g.periods, g.boot) {
      CalmTurn(renewed, k, g.tracked, s.timeouts, g.periods, g.boot, g.now, g.clock, t);
    }
    if Racing(g.now, g.clock, g.tracked, g.periods, g.limit) {
      RacingTurn(g.tracked, s.timeouts, g.periods, g.boot, g.now, g.clock, k, g.limit, t);
    }
  }

  lemma LoopEnds(g: Loop, start: Standing, s: Standing, renewed: set<nat>, k: nat)
    requires LoopOk(g, start, s, renewed, k) && k <= g.limit
    requires k < g.limit ==> forall t :: t in g.tracked && t < |s.timeouts| ==> s.timeouts[t] > g.now(k)
    ensures Promoted(start, s, g.tracked, g.max, g.periods, g.boot, g.clock, k)
    ensures Calm(g.now, g.clock, g.tracked, g.periods, g.boot) ==> k <= |g.tracked|
    ensures Racing(g.now, g.clock, g.tracked, g.periods, g.limit) && SomeDue(g.tracked, start.timeouts, g.now(0)) ==>
      k == g.limit
  {
    hide Promoted, Calm, Racing, NextTimeout;
    if renewed <= g.tracked { SubsetSize(renewed, g.tracked); }
  }

  lemma RacingTurn(tracked: set<nat>, timeouts: seq<uint64>, periods: seq<nat>, boot: nat, now: nat -> nat,
                   clock: nat -> nat, k: nat, limit: nat, t: nat)
    requires Racing(now, clock, tracked, periods, limit) && k < limit && t in tracked && t < |timeouts| == |periods|
    requires periods[t] > 0 && boot <= clock(k)
    ensures SomeDue(tracked, timeouts[t := Wrapped(NextTimeout(boot, clock(k), periods[t]))], now(k + 1))
  {
    NextTimeoutOnGrid(boot, clock(k), periods[t]);
    hide NextTimeout;
  }

  // ---------- Facts about one operation ----------

  lemma TrackedTwice(q: Queue<nat>, tracked: set<nat>, t: nat, p: nat -> uint64)
    requires Exactly(q, tracked) && t in tracked
    ensures |q.items| < MAX_TENANTS ==> forall s: set<nat> :: !Exactly(Enqueue(q, t, p).0, s)
    ensures |q.items| >= MAX_TENANTS ==> Enqueue(q, t, p).0 == q
  {
    if |q.items| < MAX_TENANTS {
      EnqueueBag(q, t, p);
      hide Enqueue;
      forall s: set<nat> ensures !Exactly(Enqueue(q, t, p).0, s) {
        assert (multiset(q.items) + multiset{t})[t] == 2;
        assert multiset(s)[t] <= 1;
      }
    }
  }

  lemma HeldAfterRequest(queues: seq<Queue<Sandbox>>, x: Sandbox)
    requires AllRequestsOk(queues) && x.tenant < |queues| && |queues[x.tenant].items| < TENANT_QUEUE_SIZE
    ensures Held(QueuesAfterAdd(queues, x)) == Held(queues) + multiset{x}
  {
    assert RequestsOk(queues[x.tenant], x.tenant);
    HeldAfterAdd(queues, x, x.tenant);
  }

  lemma LateRequestIsNotRekeyed(queues: seq<Queue<Sandbox>>, x: Sandbox)
    requires AllRequestsOk(queues) && x.tenant < |queues| && |queues[x.tenant].items| < TENANT_QUEUE_SIZE
    requires x.deadline == ULONG_MAX
    ensures QueuesAfterAdd(queues, x)[x.tenant].highest >= queues[x.tenant].highest
  {
    assert RequestsOk(queues[x.tenant], x.tenant);
    HeadAfterEnqueue(queues[x.tenant], x);
  }

  lemma TakeKeepsRanks(h: Heaps, queues: seq<Queue<Sandbox>>, cls: seq<MtClass>, t: nat, checked: bool)
    requires HeapsOk(h, queues, cls) && Ranked(h, queues, checked) && t < |queues| == |cls| && queues[t].items != []
    requires HeadOf(t, Pick(h, cls[t]))
    ensures var q := RemoveSlot(queues[t], Deadline, 0); var queues' := queues[t := q];
            var r := RemoveTenant(h, cls[t], t, HeadDeadline(queues')).0;
            Ranked(if q.items == [] then r else InsertTenant(r, cls[t], t, HeadDeadline(queues')).0, queues', checked)
  {
    hide Ranked, Members, Marked, InsertTenant, RemoveTenant, RemoveSlot, HeadDeadline, HeadOf;
    TakeRanked(h, queues, cls, t, RemoveSlot(queues[t], Deadline, 0), checked);
  }

  lemma TakenIsEarliest(h: Heaps, queues: seq<Queue<Sandbox>>, cls: seq<MtClass>, c: MtClass, t: nat, checked: bool)
    requires AllRequestsOk(queues) && HeapsOk(h, queues, cls) && HeadOf(t, Pick(h, c))
    requires t < |queues| == |cls| && queues[t].items != [] && cls[t] == c && Ranked(h, queues, checked)
    requires KeptSound(c, |queues|, checked)
    ensures EarliestOfClass(queues[t].items[0], queues, cls)
  {
    assert forall u: nat :: u < |queues| ==> RequestsOk(queues[u], u);
    assert queues[t].items[0] in queues[t].items;
    HeadIsEarliestOfClass(h, queues, cls, c, t);
  }

  lemma AbsentDelete(h: Heaps, c: MtClass, t: nat, p: nat -> uint64)
    requires t !in Pick(h, c).items
    ensures RemoveTenant(h, c, t, p).0 == h
  {
  }

  /** An added request keeps the queue ordered; its head moves earlier exactly when the tenant was idle or
      the request is earlier than all others. */
  lemma RequestsGrow(q: Queue<Sandbox>, x: Sandbox)
    requires RequestsOk(q, x.tenant) && |q.items| < q.capacity && x.deadline < ULONG_MAX
    ensures RequestsOk(Enqueue(q, x, Deadline).0, x.tenant) && Enqueue(q, x, Deadline).0.items != []
    ensures q.items == [] ==> Enqueue(q, x, Deadline).0.highest < q.highest
  {
    var r := Enqueue(q, x, Deadline).0;
    EnqueueSound(q, x, Deadline);
    EnqueueBag(q, x, Deadline);
    hide Enqueue;
    forall y | y in r.items ensures y.tenant == x.tenant && y.deadline < ULONG_MAX {
      assert y in multiset(r.items);
      assert y in multiset(q.items) || y == x;
    }
    assert r.items[0] in r.items;
  }

  lemma RequestsShrink(q: Queue<Sandbox>, t: nat)
    requires RequestsOk(q, t) && q.items != []
    ensures RequestsOk(RemoveSlot(q, Deadline, 0), t)
    ensures DequeueIfEarlier(q, Deadline, ULONG_MAX) == (RemoveSlot(q, Deadline, 0), Some(q.items[0]))
    ensures q.items[0].tenant == t
  {
    var r := RemoveSlot(q, Deadline, 0);
    RemoveSlotSound(q, Deadline, 0);
    RemoveAtBag(q.items, Deadline, 0);
    assert q.items[0] in q.items;
    forall y | y in r.items ensures y.tenant == t && y.deadline < ULONG_MAX {
      assert y in multiset(r.items);
      assert y in multiset(q.items);
    }
  }

  lemma AddFacts(queues: seq<Queue<Sandbox>>, cls: seq<MtClass>, x: Sandbox)
    requires AllRequestsOk(queues) && x.tenant < |queues| == |cls| && x.deadline < ULONG_MAX
    requires |queues[x.tenant].items| < TENANT_QUEUE_SIZE
    ensures var t := x.tenant; var q := Enqueue(queues[t], x, Deadline).0; var s := InClass(queues, cls, cls[t]);
            AllRequestsOk(queues[t := q]) && Held(queues[t := q]) == Held(queues) + multiset{x} &&
            (t in s <==> queues[t].items != []) && (t !in s ==> q.highest < queues[t].highest) &&
            AllBelowMax(s - {t}, HeadDeadline(queues[t := q])) && AllBelowMax({t}, HeadDeadline(queues[t := q])) &&
            InClass(queues[t := q], cls, cls[t]) == if t in s then s else s + {t}
    ensures var q := Enqueue(queues[x.tenant], x, Deadline).0;
            forall d :: d != cls[x.tenant] ==> InClass(queues[x.tenant := q], cls, d) == InClass(queues, cls, d)
  {
    assert RequestsOk(queues[x.tenant], x.tenant);
    HeldAfterAdd(queues, x, x.tenant);
    RequestsGrow(queues[x.tenant], x);
    hide Enqueue, Held;
    var q := Enqueue(queues[x.tenant], x, Deadline).0;
    QueueChange(queues, cls, x.tenant, q);
    HeadsBelowMax(queues[x.tenant := q], cls, cls[x.tenant]);
  }

  lemma TakeFacts(queues: seq<Queue<Sandbox>>, cls: seq<MtClass>, t: nat)
    requires AllRequestsOk(queues) && t < |queues| == |cls| && queues[t].items != []
    ensures var q := RemoveSlot(queues[t], Deadline, 0); var x := queues[t].items[0];
            var s := InClass(queues, cls, cls[t]);
            DequeueIfEarlier(queues[t], Deadline, ULONG_MAX) == (q, Some(x)) && x.tenant == t &&
            IsMinimum(x, multiset(queues[t].items), Deadline) &&
            AllRequestsOk(queues[t := q]) && Held(queues[t := q]) + multiset{x} == Held(queues) && t in s &&
            AllBelowMax(s - {t}, HeadDeadline(queues[t := q])) &&
            (q.items != [] ==> AllBelowMax({t}, HeadDeadline(queues[t := q]))) &&
            InClass(queues[t := q], cls, cls[t]) == if q.items == [] then s - {t} else s
    ensures var q := RemoveSlot(queues[t], Deadline, 0);
            forall d :: d != cls[t] ==> InClass(queues[t := q], cls, d) == InClass(queues, cls, d)
  {
    assert RequestsOk(queues[t], t);
    RootIsBagMinimum(queues[t], Deadline);
    HeldAfterTake(queues, t);
    RequestsShrink(queues[t], t);
    hide DequeueIfEarlier, RemoveSlot, Held;
    var q := RemoveSlot(queues[t], Deadline, 0);
    QueueChange(queues, cls, t, q);
    HeadsBelowMax(queues[t := q], cls, cls[t]);
  }

  lemma HeadsBelowMax(queues: seq<Queue<Sandbox>>, cls: seq<MtClass>, c: MtClass)
    requires AllRequestsOk(queues)
    ensures AllBelowMax(InClass(queues, cls, c), HeadDeadline(queues))
  {
    forall y | y in InClass(queues, cls, c) ensures HeadDeadline(queues)(y) < ULONG_MAX {
      assert RequestsOk(queues[y], y) && queues[y].items[0] in queues[y].items;
    }
  }
}
