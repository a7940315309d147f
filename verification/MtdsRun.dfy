/** Runs of the multi-tenancy scheduler: a listener that adds requests, any number of workers that take
    scheduling decisions and run sandboxes, budgets that are charged and replenished, and tenants that are
    promoted and demoted on both levels. A decision is not atomic: its local scans, each reading of a budget,
    the two lock-free peeks, the locked removal and the choice are steps of their own, and all other threads may
    act in between. When a tenant's replenishment falls is left open. */
module MtdsRuns {
  import opened Options
  import opened Heap
  import opened PriorityQueues
  import opened Bags
  import opened Tenants
  import opened Ranks
  import opened LocalMtds
  import opened GlobalMtds
  import opened Mtds

  /** Where a worker stands in its decision. `again`: the second scan, after the pull. */
  datatype Phase =
    | AtRest | Finished
    | Scanning(again: bool)
    | Looked(target: uint64, c: MtClass)
    | Peeked(target: uint64, c: MtClass, guaranteedPeek: uint64)
    | Removing(target: uint64, c: MtClass)

  datatype Worker = Worker(rq: TenantQueues, current: Option<Sandbox>, phase: Phase)

  /** What stops the program: the panics on full queues, the assertion of an add on the listener, the assertion
      that a dequeue answers, the panics on class heaps that are full or lack a tenant, the assertions that a
      scan finds a sandbox and an interrupted worker something to run, and the panic on deleting a sandbox that
      is not queued. */
  datatype Fault = Fine | RequestQueueFull | ListenerAssert(x: Sandbox) | WorkerQueueFull | Stuck | HeapPanic
                 | NothingToRun | NotQueued

  datatype System = System(requests: TenantQueues, budget: seq<int>, workers: seq<Worker>, admitted: seq<Sandbox>,
                           done: seq<Sandbox>, paid: seq<bool>, max: seq<int>, checked: bool, fault: Fault)

  datatype Step =
    | Arrive(sandbox: Sandbox) | Charge(t: nat, cycles: nat) | Replenish(t: nat)
    | Begin(w: nat) | Promote(w: nat, t: nat) | Demote(w: nat) | Look(w: nat) | Peek(w: nat) | PeekAgain(w: nat)
    | Remove(w: nat) | Choose(w: nat) | Finish(w: nat) | Leave(w: nat)

  /** All tenants idle, the paid ones guaranteed. */
  ghost predicate Fresh(q: TenantQueues, paid: seq<bool>) {
    q == TenantQueues(seq(|paid|, _ => EmptyQueue(TENANT_QUEUE_SIZE)),
                      seq(|paid|, (t: nat) requires t < |paid| => if paid[t] then Guaranteed else Default),
                      Heaps(EmptyQueue(MAX_TENANTS), EmptyQueue(MAX_TENANTS)))
  }

  ghost predicate Init(s: System) {
    s.budget == s.max && |s.max| == |s.paid| <= MAX_TENANTS && s.admitted == [] && s.done == [] && s.fault == Fine &&
    Fresh(s.requests, s.paid) &&
    forall w :: 0 <= w < |s.workers| ==>
      Fresh(s.workers[w].rq, s.paid) && s.workers[w].current == None && s.workers[w].phase == AtRest
  }

  // ---------- Steps ----------

  function SetWorker(s: System, w: nat, k: Worker): System
    requires w < |s.workers|
  {
    s.(workers := s.workers[w := k])
  }

  /** Nothing happens after a fault, and a step that is not enabled leaves the state unchanged. */
  function Next(s: System, step: Step): System {
    if s.fault != Fine then s else
    match step
    case Arrive(x) => if x.tenant < |s.requests.queues| == |s.requests.cls| then ArriveStep(s, x) else s
    case Charge(t, cycles) => ChargeStep(s, t, cycles)
    case Replenish(t) => ReplenishStep(s, t)
    case _ => if step.w < |s.workers| then WorkerStep(s, step.w, step) else s
  }

  function WorkerStep(s: System, w: nat, step: Step): System
    requires w < |s.workers|
  {
    match step
    case Begin(_) => BeginStep(s, w)
    case Promote(_, t) => PromoteStep(s, w, t)
    case Demote(_) => DemoteStep(s, w)
    case Look(_) => LookStep(s, w)
    case Peek(_) => PeekStep(s, w)
    case PeekAgain(_) => PeekAgainStep(s, w)
    case Remove(_) => RemoveStep(s, w)
    case Choose(_) => ChooseStep(s, w)
    case Finish(_) => FinishStep(s, w)
    case Leave(_) => LeaveStep(s, w)
    case _ => s
  }

  /** global_request_scheduler_mtds_add, for a sandbox with a new id. */
  function ArriveStep(s: System, x: Sandbox): System
    requires x.tenant < |s.requests.queues| == |s.requests.cls|
  {
    var q := s.requests.queues[x.tenant];
    if exists y :: y in s.admitted && y.id == x.id then s
    else if |q.items| >= q.capacity then s.(fault := RequestQueueFull)
    else if s.checked && AddPercolates(s.requests, x) then s.(fault := ListenerAssert(x))
    else
      var (g, ok) := AddRequest(s.requests, x);
      if ok then s.(requests := g, admitted := s.admitted + [x]) else s.(fault := HeapPanic)
  }

  /** sandbox_process_scheduler_updates for a sandbox of tenant `t`. */
  function ChargeStep(s: System, t: nat, cycles: nat): System {
    if t < |s.budget| && t < |s.paid| && s.paid[t] then s.(budget := s.budget[t := s.budget[t] - cycles]) else s
  }

  /** One turn of global_timeout_queue_process_promotions for a paid tenant. */
  function ReplenishStep(s: System, t: nat): System {
    if t >= |s.paid| || !s.paid[t] || t >= |s.requests.queues| || |s.requests.queues| != |s.requests.cls| ||
       t >= |s.budget| || t >= |s.max|
    then s else
    var (g, ok) := PromoteRequest(s.requests, t);
    if ok then s.(requests := g, budget := s.budget[t := s.max[t]]) else s.(fault := HeapPanic)
  }

  /** An alarm on a running sandbox, or a turn of the idle loop, starts a decision. */
  function BeginStep(s: System, w: nat): System
    requires w < |s.workers|
  {
    if s.workers[w].phase == AtRest then SetWorker(s, w, s.workers[w].(phase := Scanning(false))) else s
  }

  /** One turn of local_timeout_queue_process_promotions that promotes. */
  function PromoteStep(s: System, w: nat, t: nat): System
    requires w < |s.workers|
  {
    var k := s.workers[w];
    if k.phase != Scanning(false) || t >= |k.rq.queues| || t >= |k.rq.cls| || k.rq.queues[t].items == [] ||
       t >= |s.paid| || !s.paid[t] || k.rq.cls[t] == Guaranteed
    then s else
    var (q, ok) := MoveTenant(k.rq, t, Guaranteed);
    if ok then SetWorker(s, w, k.(rq := q)) else s.(fault := HeapPanic)
  }

  /** The head of the guaranteed tenants has no budget left. */
  predicate OutOfBudget(q: TenantQueues, budget: seq<int>) {
    q.heaps.guaranteed.items != [] && q.heaps.guaranteed.items[0] < |budget| && budget[q.heaps.guaranteed.items[0]] <= 0
  }

  /** One turn of the demotion loop of local_runqueue_mtds_get_next. */
  function DemoteStep(s: System, w: nat): System
    requires w < |s.workers|
  {
    var k := s.workers[w];
    if !k.phase.Scanning? || !OutOfBudget(k.rq, s.budget) || k.rq.heaps.guaranteed.items[0] >= |k.rq.cls| then s else
    var (q, ok) := MoveTenant(k.rq, k.rq.heaps.guaranteed.items[0], Default);
    if ok then SetWorker(s, w, k.(rq := q)) else s.(fault := HeapPanic)
  }

  function HeadTenant(h: Heaps): Option<nat> {
    if h.guaranteed.items != [] then Some(h.guaranteed.items[0])
    else if h.default.items != [] then Some(h.default.items[0])
    else None
  }

  /** What local_runqueue_mtds_get_next returns once the demotion loop has ended. */
  function HeadSandbox(q: TenantQueues): Option<Sandbox> {
    var t := HeadTenant(q.heaps);
    if t.Some? && t.value < |q.queues| && q.queues[t.value].items != [] then Some(q.queues[t.value].items[0]) else None
  }

  /** A class heap has a head tenant, but that one has no sandbox. */
  predicate Hollow(q: TenantQueues) {
    HeadTenant(q.heaps).Some? && HeadSandbox(q).None?
  }

  /** The end of the first scan. */
  function LookStep(s: System, w: nat): System
    requires w < |s.workers|
  {
    var k := s.workers[w];
    if k.phase != Scanning(false) || OutOfBudget(k.rq, s.budget) then s
    else if Hollow(k.rq) then s.(fault := NothingToRun)
    else
      var head := HeadSandbox(k.rq);
      var c := if head.Some? && head.value.tenant < |k.rq.cls| then k.rq.cls[head.value.tenant] else Default;
      SetWorker(s, w, k.(phase := Looked(Target(head), c)))
  }

  function PeekStep(s: System, w: nat): System
    requires w < |s.workers|
  {
    var k := s.workers[w];
    if !k.phase.Looked? then s
    else SetWorker(s, w, k.(phase := Peeked(k.phase.target, k.phase.c, s.requests.heaps.guaranteed.highest)))
  }

  function PeekAgainStep(s: System, w: nat): System
    requires w < |s.workers|
  {
    var k := s.workers[w];
    if !k.phase.Peeked? then s
    else SetWorker(s, w, k.(phase :=
      if NotWorthPulling(k.phase.guaranteedPeek, s.requests.heaps.default.highest, k.phase.target, k.phase.c)
      then Scanning(true) else Removing(k.phase.target, k.phase.c)))
  }

  /** The locked removal, and the addition of what it hands out to the worker's runqueue. */
  function RemoveStep(s: System, w: nat): System
    requires w < |s.workers|
  {
    var k := s.workers[w];
    if !k.phase.Removing? then s else
    var r := RemoveRequest(s.requests, s.budget, k.phase.target, k.phase.c);
    if !r.ok then s.(fault := HeapPanic)
    else if r.stuck then s.(fault := Stuck)
    else if r.got.None? then SetWorker(s, w, k.(phase := Scanning(true))).(requests := r.g)
    else Received(s, w, r.g, r.got.value)
  }

  function Received(s: System, w: nat, g: TenantQueues, x: Sandbox): System
    requires w < |s.workers|
  {
    var k := s.workers[w];
    if x.tenant >= |k.rq.queues| || |k.rq.queues| != |k.rq.cls| then s
    else if |k.rq.queues[x.tenant].items| >= k.rq.queues[x.tenant].capacity then s.(fault := WorkerQueueFull)
    else
      var (q, ok) := AddSandbox(k.rq, x);
      if ok then SetWorker(s, w, k.(rq := q, phase := Scanning(true))).(requests := g) else s.(fault := HeapPanic)
  }

  /** The end of the second scan: a decision taken for an interrupted sandbox must find something to run. */
  function ChooseStep(s: System, w: nat): System
    requires w < |s.workers|
  {
    var k := s.workers[w];
    if k.phase != Scanning(true) || OutOfBudget(k.rq, s.budget) then s
    else if Hollow(k.rq) || (HeadSandbox(k.rq).None? && k.current.Some?) then s.(fault := NothingToRun)
    else SetWorker(s, w, k.(current := HeadSandbox(k.rq), phase := AtRest))
  }

  /** The running sandbox returns or errors out: it leaves the runqueue. */
  function FinishStep(s: System, w: nat): System
    requires w < |s.workers|
  {
    var k := s.workers[w];
    if k.phase != AtRest || k.current.None? then s else
    var x := k.current.value;
    if x.tenant >= |k.rq.queues| || |k.rq.queues| != |k.rq.cls| || x.tenant >= |s.paid| || x !in k.rq.queues[x.tenant].items
    then s.(fault := NotQueued) else
    var (q, ok) := RemoveSandbox(k.rq, x, s.paid[x.tenant]);
    if ok then SetWorker(s, w, k.(rq := q, phase := Finished)).(done := s.done + [x]) else s.(fault := HeapPanic)
  }

  /** The cooperative scheduler clears the current sandbox and starts a decision. */
  function LeaveStep(s: System, w: nat): System
    requires w < |s.workers|
  {
    if s.workers[w].phase == Finished then SetWorker(s, w, s.workers[w].(current := None, phase := Scanning(false))) else s
  }

  function Run(s: System, steps: seq<Step>): System {
    if steps == [] then s else Next(Run(s, steps[..|steps| - 1]), steps[|steps| - 1])
  }

  // ---------- The invariant ----------

  /** A sandbox that runs is at the head of its tenant's queue; one that was interrupted is still in it. */
  ghost predicate PhaseFine(k: Worker) {
    k.current.Some? ==>
      (k.phase == AtRest ==> IsHead(k.current.value, k.rq.queues)) &&
      (k.phase != Finished ==>
         k.current.value.tenant < |k.rq.queues| && k.current.value in k.rq.queues[k.current.value.tenant].items)
  }

  ghost predicate WorkerFine(k: Worker, paid: seq<bool>) {
    RunqueueOk(k.rq, paid) && PhaseFine(k)
  }

  ghost predicate WorkersFine(ws: seq<Worker>, paid: seq<bool>) {
    forall w :: 0 <= w < |ws| ==> WorkerFine(ws[w], paid)
  }

  ghost predicate Sizes(s: System) {
    |s.requests.queues| == |s.requests.cls| == |s.budget| == |s.max| == |s.paid| <= MAX_TENANTS
  }

  function WorkerBags(ws: seq<Worker>): seq<multiset<Sandbox>> {
    seq(|ws|, (w: nat) requires w < |ws| => Held(ws[w].rq.queues))
  }

  /** All sandboxes in the workers' queues. */
  function AllHeld(ws: seq<Worker>): multiset<Sandbox> {
    Sum(WorkerBags(ws))
  }

  ghost predicate Conserved(s: System) {
    Held(s.requests.queues) + AllHeld(s.workers) + multiset(s.done) == multiset(s.admitted)
  }

  ghost predicate DistinctIds(s: seq<Sandbox>) {
    forall i, j :: 0 <= i < j < |s| ==> s[i].id != s[j].id
  }

  ghost predicate BelowMax(s: seq<Sandbox>) {
    forall x :: x in s ==> x.deadline < ULONG_MAX
  }

  /** Each tenant's requests are an ordered heap; unless some request is due at ULONG_MAX, each tenant is in exactly
      the heap its class names if it has requests, and the heaps are ordered as far as they can be. */
  ghost predicate RequestsFine(s: System) {
    QueuesOk(s.requests.queues) && AllSound(s.requests.queues) &&
    (BelowMax(s.admitted) ==> RequestsExact(s.requests, s.checked))
  }

  /** The only faults there can be: full queues, an add that overtakes in a build with assertions, and what a
      request due at ULONG_MAX brings about. */
  ghost predicate FaultExplained(s: System) {
    s.fault != NothingToRun && s.fault != NotQueued &&
    (s.fault.ListenerAssert? ==> s.checked && (BelowMax(s.admitted) ==> Overtakes(s.fault.x, s.requests.queues))) &&
    (s.fault == Stuck || s.fault == HeapPanic ==> !BelowMax(s.admitted))
  }

  ghost predicate Inv(s: System) {
    Sizes(s) && RequestsFine(s) && WorkersFine(s.workers, s.paid) && Conserved(s) && DistinctIds(s.admitted) &&
    FaultExplained(s)
  }

  lemma FreshIsOk(q: TenantQueues, paid: seq<bool>)
    requires Fresh(q, paid) && |paid| <= MAX_TENANTS
    ensures RunqueueOk(q, paid) && AllRequestsOk(q.queues) && HeapsOk(q.heaps, q.queues, q.cls)
    ensures forall checked :: Ranked(q.heaps, q.queues, checked)
    ensures Held(q.queues) == multiset{}
  {
    assert InClass(q.queues, q.cls, Guaranteed) == {} && InClass(q.queues, q.cls, Default) == {};
    NothingHeld(q.queues);
  }

  lemma InitInv(s: System)
    requires Init(s)
    ensures Inv(s)
  {
    hide Fresh, RunqueueOk, Held, AllRequestsOk, HeapsOk, Ranked;
    FreshIsOk(s.requests, s.paid);
    FreshQueuesOk(s.requests, s.paid);
    forall w | 0 <= w < |s.workers| ensures RunqueueOk(s.workers[w].rq, s.paid) && Held(s.workers[w].rq.queues) == multiset{} {
      FreshIsOk(s.workers[w].rq, s.paid);
    }
    SumOfEmpty(WorkerBags(s.workers));
  }

  lemma FreshQueuesOk(q: TenantQueues, paid: seq<bool>)
    requires RunqueueOk(q, paid)
    ensures QueuesOk(q.queues) && AllSound(q.queues) && |q.queues| == |q.cls| == |paid|
  {
  }

  // ---------- Conservation ----------

  lemma AllHeldUpdate(ws: seq<Worker>, w: nat, k: Worker)
    requires w < |ws|
    ensures AllHeld(ws[w := k]) + Held(ws[w].rq.queues) == AllHeld(ws) + Held(k.rq.queues)
  {
    hide Held;
    SumUpdate(WorkerBags(ws), w, Held(k.rq.queues));
    assert WorkerBags(ws[w := k]) == WorkerBags(ws)[w := Held(k.rq.queues)];
  }

  /** Replacing one worker without touching its tenants' queues. */
  lemma QuietWorkerKeepsInv(s: System, w: nat, k: Worker)
    requires Inv(s) && w < |s.workers| && k.rq.queues == s.workers[w].rq.queues && WorkerFine(k, s.paid)
    ensures Inv(SetWorker(s, w, k))
  {
    hide Held, AllHeld, WorkerFine, DistinctIds, RequestsFine, BelowMax, Overtakes;
    AllHeldUpdate(s.workers, w, k);
    CancelRight(AllHeld(s.workers[w := k]), AllHeld(s.workers), Held(k.rq.queues));
    QuietRequests(s, SetWorker(s, w, k));
  }

  lemma QuietRequests(s: System, s': System)
    requires RequestsFine(s) && s'.requests == s.requests && s'.admitted == s.admitted && s'.checked == s.checked
    ensures RequestsFine(s')
  {
  }

  lemma WorkerIsFine(s: System, w: nat)
    requires Inv(s) && w < |s.workers|
    ensures WorkerFine(s.workers[w], s.paid)
  {
  }

  lemma FaultKeepsInv(s: System, f: Fault)
    requires Inv(s) && FaultExplained(s.(fault := f))
    ensures Inv(s.(fault := f))
  {
    hide Held, AllHeld, WorkersFine, DistinctIds, RequestsFine, BelowMax;
    QuietRequests(s, s.(fault := f));
  }

  // ---------- Steps of the listener and of tenants ----------

  lemma ArriveKeepsInv(s: System, x: Sandbox)
    requires Inv(s) && s.fault == Fine && x.tenant < |s.requests.queues|
    ensures Inv(ArriveStep(s, x))
  {
    hide Held, AllHeld, WorkersFine, RequestsExact, AllSound, AddPercolates, Overtakes, Conserved, HeapsAfterAdd;
    var q := s.requests.queues[x.tenant];
    assert QueueOk(q, x.tenant);
    if forall y :: y in s.admitted ==> y.id != x.id {
      if |q.items| >= q.capacity {
        FaultKeepsInv(s, RequestQueueFull);
      } else if s.checked && AddPercolates(s.requests, x) {
        if BelowMax(s.admitted) { PercolatingAddOvertakes(s.requests, x, s.checked); }
        FaultKeepsInv(s, ListenerAssert(x));
      } else {
        if BelowMax(s.admitted) { AddHasRoom(s.requests, x, s.checked); }
        AddKeepsQueues(s.requests, x);
        ArriveConserves(s, x);
        ArriveKeepsIds(s.admitted, x);
        if !AddRequest(s.requests, x).1 { FaultKeepsInv(s, HeapPanic); }
      }
    }
  }

  lemma PercolatingAddOvertakes(g: TenantQueues, x: Sandbox, checked: bool)
    requires RequestsExact(g, checked) && x.tenant < |g.queues| && |g.queues[x.tenant].items| < TENANT_QUEUE_SIZE
    requires AddPercolates(g, x)
    ensures Overtakes(x, g.queues)
  {
    assert g == TenantQueues(g.queues, g.cls, g.heaps);
    ListenerAssertsIff(g.heaps, g.queues, g.cls, x);
  }

  lemma AddHasRoom(g: TenantQueues, x: Sandbox, checked: bool)
    requires RequestsExact(g, checked) && x.tenant < |g.queues| && |g.queues[x.tenant].items| < TENANT_QUEUE_SIZE
    requires !(checked && AddPercolates(g, x))
    ensures AddRequest(g, x).1 && (x.deadline < ULONG_MAX ==> RequestsExact(AddRequest(g, x).0, checked))
  {
    if x.deadline < ULONG_MAX {
      AddRequestKeeps(g, x, checked);
    } else {
      LateRequestIsNotRekeyed(g.queues, x);
    }
  }

  lemma AddKeepsQueues(g: TenantQueues, x: Sandbox)
    requires QueuesOk(g.queues) && AllSound(g.queues) && x.tenant < |g.queues| == |g.cls|
    requires |g.queues[x.tenant].items| < TENANT_QUEUE_SIZE
    ensures var g' := AddRequest(g, x).0;
            QueuesOk(g'.queues) && AllSound(g'.queues) && |g'.queues| == |g.queues| && g'.cls == g.cls &&
            Held(g'.queues) == Held(g.queues) + multiset{x}
  {
    hide Enqueue, HeapsAfterAdd, Held;
    assert QueueOk(g.queues[x.tenant], x.tenant) && Sound(g.queues[x.tenant], Deadline);
    EnqueueKeepsTenant(g.queues[x.tenant], x);
    EnqueueSound(g.queues[x.tenant], x, Deadline);
    HeldAfterAdd(g.queues, x, x.tenant);
  }

  lemma ArriveConserves(s: System, x: Sandbox)
    requires Conserved(s)
    ensures forall g: TenantQueues :: Held(g.queues) == Held(s.requests.queues) + multiset{x} ==>
      Conserved(s.(requests := g, admitted := s.admitted + [x]))
  {
    hide Held, AllHeld;
    forall g: TenantQueues | Held(g.queues) == Held(s.requests.queues) + multiset{x}
      ensures Conserved(s.(requests := g, admitted := s.admitted + [x]))
    {
      assert Held(g.queues) + AllHeld(s.workers) + multiset(s.done)
          == (Held(s.requests.queues) + AllHeld(s.workers) + multiset(s.done)) + multiset{x};
    }
  }

  lemma ArriveKeepsIds(admitted: seq<Sandbox>, x: Sandbox)
    requires DistinctIds(admitted) && forall y :: y in admitted ==> y.id != x.id
    ensures DistinctIds(admitted + [x])
  {
    assert forall i :: 0 <= i < |admitted| ==> admitted[i] in admitted;
  }

  lemma TenantStepKeepsInv(s: System, step: Step)
    requires Inv(s) && s.fault == Fine && (step.Charge? || step.Replenish?)
    ensures Inv(Next(s, step))
  {
    hide Held, AllHeld, WorkersFine, RequestsExact, QueuesOk, AllSound, DistinctIds, PromoteRequest, BelowMax, Overtakes;
    if step.Replenish? && step.t < |s.requests.queues| {
      PromoteKeepsQueues(s.requests, step.t);
      if BelowMax(s.admitted) {
        assert RequestsExact(s.requests, s.checked);
        PromoteKeepsRequests(s.requests, step.t, s.checked);
      }
    }
  }

  lemma PromoteKeepsQueues(g: TenantQueues, t: nat)
    requires t < |g.queues| == |g.cls|
    ensures PromoteRequest(g, t).0.queues == g.queues && |PromoteRequest(g, t).0.cls| == |g.cls|
  {
  }

  // ---------- Steps of a worker ----------

  lemma PromoteStepKeepsInv(s: System, w: nat, t: nat)
    requires Inv(s) && s.fault == Fine && w < |s.workers|
    ensures Inv(PromoteStep(s, w, t))
  {
    hide Inv, RunqueueOk, MoveTenant;
    WorkerIsFine(s, w);
    var k := s.workers[w];
    if PromoteStep(s, w, t) != s {
      PaidSizes(k.rq, s.paid);
      MoveKeepsRunqueue(k.rq, s.paid, t, Guaranteed);
      MoveKeepsQueues(k.rq, t, Guaranteed);
      QuietWorkerKeepsInv(s, w, k.(rq := MoveTenant(k.rq, t, Guaranteed).0));
    }
  }

  lemma PaidSizes(q: TenantQueues, paid: seq<bool>)
    requires RunqueueOk(q, paid)
    ensures |q.queues| == |q.cls| == |paid|
  {
  }

  lemma MoveKeepsQueues(q: TenantQueues, t: nat, c: MtClass)
    requires t < |q.cls|
    ensures MoveTenant(q, t, c).0.queues == q.queues
  {
  }

  /** The head tenants of the class heaps are busy and of that class. */
  lemma HeadsAreBusy(q: TenantQueues, paid: seq<bool>)
    requires RunqueueOk(q, paid)
    ensures forall c :: Pick(q.heaps, c).items != [] ==>
      var t := Pick(q.heaps, c).items[0]; t < |q.queues| == |q.cls| && q.queues[t].items != [] && q.cls[t] == c
    ensures q.heaps.guaranteed.items == [] ==> InClass(q.queues, q.cls, Guaranteed) == {}
    ensures HeadTenant(q.heaps).None? ==> AllIdle(q.queues)
  {
    var g, d := InClass(q.queues, q.cls, Guaranteed), InClass(q.queues, q.cls, Default);
    ExactlyMembers(q.heaps.guaranteed, g);
    ExactlyMembers(q.heaps.default, d);
    if q.heaps.guaranteed.items != [] { assert q.heaps.guaranteed.items[0] in q.heaps.guaranteed.items; }
    if q.heaps.default.items != [] { assert q.heaps.default.items[0] in q.heaps.default.items; }
    if HeadTenant(q.heaps).None? {
      forall t | 0 <= t < |q.queues| ensures q.queues[t].items == [] { assert t !in g && t !in d; }
    }
  }

  lemma DemoteStepKeepsInv(s: System, w: nat)
    requires Inv(s) && s.fault == Fine && w < |s.workers|
    ensures Inv(DemoteStep(s, w))
  {
    hide Inv, RunqueueOk, MoveTenant;
    WorkerIsFine(s, w);
    var k := s.workers[w];
    if DemoteStep(s, w) != s {
      HeadsAreBusy(k.rq, s.paid);
      assert Pick(k.rq.heaps, Guaranteed).items != [];
      var t := k.rq.heaps.guaranteed.items[0];
      MoveKeepsRunqueue(k.rq, s.paid, t, Default);
      MoveKeepsQueues(k.rq, t, Default);
      QuietWorkerKeepsInv(s, w, k.(rq := MoveTenant(k.rq, t, Default).0));
    }
  }

  /** A scan ends with the head sandbox of a busy tenant, or with nothing when all are idle. */
  lemma ScanFinds(q: TenantQueues, paid: seq<bool>)
    requires RunqueueOk(q, paid)
    ensures !Hollow(q) && (HeadSandbox(q).None? <==> AllIdle(q.queues))
    ensures HeadSandbox(q).Some? ==> IsHead(HeadSandbox(q).value, q.queues)
  {
    HeadsAreBusy(q, paid);
    var t := HeadTenant(q.heaps);
    if t.Some? {
      var c := if q.heaps.guaranteed.items != [] then Guaranteed else Default;
      assert t.value == Pick(q.heaps, c).items[0];
      assert QueueOk(q.queues[t.value], t.value);
      assert q.queues[t.value].items[0] in q.queues[t.value].items;
    }
  }

  lemma ChooseKeepsInv(s: System, w: nat)
    requires Inv(s) && s.fault == Fine && w < |s.workers|
    ensures Inv(ChooseStep(s, w))
  {
    hide Inv, RunqueueOk, Hollow, HeadSandbox, OutOfBudget;
    WorkerIsFine(s, w);
    var k := s.workers[w];
    ScanFinds(k.rq, s.paid);
    if k.phase == Scanning(true) && !OutOfBudget(k.rq, s.budget) {
      QuietWorkerKeepsInv(s, w, k.(current := HeadSandbox(k.rq), phase := AtRest));
    }
  }

  /** A step that only moves a worker on in its decision. */
  lemma PhaseStepKeepsInv(s: System, w: nat, step: Step)
    requires Inv(s) && s.fault == Fine && w < |s.workers|
    requires step.Begin? || step.Look? || step.Peek? || step.PeekAgain? || step.Leave?
    ensures Inv(WorkerStep(s, w, step))
  {
    hide Inv, RunqueueOk, Hollow, HeadSandbox, OutOfBudget, NotWorthPulling;
    WorkerIsFine(s, w);
    ScanFinds(s.workers[w].rq, s.paid);
    var s' := WorkerStep(s, w, step);
    if s' != s {
      assert s' == SetWorker(s, w, s'.workers[w]);
      QuietWorkerKeepsInv(s, w, s'.workers[w]);
    }
  }

  // ---------- The removal ----------

  /** What a removal does to the request queues, whatever the state of the class heaps. */
  lemma RemovalTakes(g: TenantQueues, budget: seq<int>, target: uint64, c: MtClass)
    requires QueuesOk(g.queues) && AllSound(g.queues) && |g.queues| == |g.cls|
    ensures var r := RemoveRequest(g, budget, target, c);
            |r.g.cls| == |g.cls| && QueuesOk(r.g.queues) && AllSound(r.g.queues) && |r.g.queues| == |g.queues| &&
            (if r.got.None? then r.g.queues == g.queues
             else IsHead(r.got.value, g.queues) && Held(r.g.queues) + multiset{r.got.value} == Held(g.queues))
  {
    hide Held, RemoveSlot, Sound, HeadDeadline, RemoveTenant, InsertTenant;
    var r := RemoveRequest(g, budget, target, c);
    if r.got.Some? {
      var from := if g.heaps.guaranteed.items == [] then Default else Guaranteed;
      var t := Pick(g.heaps, from).items[0];
      assert t < |g.queues| && r == TakeHead(g, t, from);
      assert QueueOk(g.queues[t], t) && Sound(g.queues[t], Deadline);
      assert g.queues[t].items[0] in g.queues[t].items;
      HeadRemovalFine(g.queues[t], t);
      HeldAfterTake(g.queues, t);
    }
  }

  lemma HeadRemovalFine(q: Queue<Sandbox>, t: nat)
    requires QueueOk(q, t) && Sound(q, Deadline) && q.items != []
    ensures QueueOk(RemoveSlot(q, Deadline, 0), t) && Sound(RemoveSlot(q, Deadline, 0), Deadline)
  {
    RemoveSlotSound(q, Deadline, 0);
    RemoveAtBag(q.items, Deadline, 0);
    var r := RemoveSlot(q, Deadline, 0);
    forall y | y in r.items ensures y.tenant == t {
      assert y in multiset(r.items);
      assert y in multiset(q.items);
    }
  }

  lemma RemoveKeepsInv(s: System, w: nat)
    requires Inv(s) && s.fault == Fine && w < |s.workers|
    ensures Inv(RemoveStep(s, w))
  {
    hide Held, AllHeld, RequestsExact, RemoveRequest, Received, RunqueueOk, QueuesOk, AllSound, DistinctIds, BelowMax,
      Overtakes, WorkersFine;
    var k := s.workers[w];
    if k.phase.Removing? {
      var r := RemoveRequest(s.requests, s.budget, k.phase.target, k.phase.c);
      RemovalTakes(s.requests, s.budget, k.phase.target, k.phase.c);
      if BelowMax(s.admitted) { RemoveRequestKeeps(s.requests, s.budget, k.phase.target, k.phase.c, s.checked); }
      if r.ok && !r.stuck {
        if r.got.None? {
          var mid := s.(requests := r.g);
          assert Inv(mid);
          WorkerIsFine(mid, w);
          QuietWorkerKeepsInv(mid, w, k.(phase := Scanning(true)));
        } else {
          ReceivedKeepsInv(s, w, r.g, r.got.value);
        }
      }
    }
  }

  lemma ReceivedKeepsInv(s: System, w: nat, g: TenantQueues, x: Sandbox)
    requires Inv(s) && s.fault == Fine && w < |s.workers| && s.workers[w].phase.Removing?
    requires |g.cls| == |s.requests.cls| && |g.queues| == |s.requests.queues| && QueuesOk(g.queues) && AllSound(g.queues)
    requires BelowMax(s.admitted) ==> RequestsExact(g, s.checked)
    requires IsHead(x, s.requests.queues) && Held(g.queues) + multiset{x} == Held(s.requests.queues)
    ensures Inv(Received(s, w, g, x))
  {
    hide Held, AllHeld, RequestsExact, AddSandbox, RunqueueOk, QueuesOk, AllSound, DistinctIds, BelowMax, Overtakes, Conserved;
    var k := s.workers[w];
    assert WorkerFine(k, s.paid);
    PaidSizes(k.rq, s.paid);
    if |k.rq.queues[x.tenant].items| < k.rq.queues[x.tenant].capacity {
      AddKeepsWorker(k, s.paid, x);
      ReceivedConserves(s, w, g, x);
    } else {
      FaultKeepsInv(s, WorkerQueueFull);
    }
  }

  lemma AddKeepsWorker(k: Worker, paid: seq<bool>, x: Sandbox)
    requires WorkerFine(k, paid) && k.phase.Removing? && x.tenant < |k.rq.queues| == |k.rq.cls|
    requires |k.rq.queues[x.tenant].items| < k.rq.queues[x.tenant].capacity
    ensures AddSandbox(k.rq, x).1
    ensures WorkerFine(k.(rq := AddSandbox(k.rq, x).0, phase := Scanning(true)), paid)
    ensures Held(AddSandbox(k.rq, x).0.queues) == Held(k.rq.queues) + multiset{x}
  {
    assert QueueOk(k.rq.queues[x.tenant], x.tenant);
    AddSandboxKeeps(k.rq, paid, x);
    AddSandboxQueues(k.rq, x);
    MembersStay(k.rq.queues[x.tenant], x);
    HeldAfterAdd(k.rq.queues, x, x.tenant);
    hide AddSandbox, RunqueueOk, Held, Enqueue;
  }

  lemma AddSandboxQueues(q: TenantQueues, x: Sandbox)
    requires x.tenant < |q.queues| == |q.cls|
    ensures AddSandbox(q, x).0.queues == q.queues[x.tenant := Enqueue(q.queues[x.tenant], x, Deadline).0]
  {
    hide Enqueue, InsertTenant, RemoveTenant, HeadDeadline;
  }

  lemma MembersStay(q: Queue<Sandbox>, x: Sandbox)
    requires |q.items| < q.capacity
    ensures forall y :: y in q.items ==> y in Enqueue(q, x, Deadline).0.items
  {
    EnqueueBag(q, x, Deadline);
    hide Enqueue;
    forall y | y in q.items ensures y in Enqueue(q, x, Deadline).0.items {
      assert y in multiset(q.items);
      assert y in multiset(Enqueue(q, x, Deadline).0.items);
    }
  }

  lemma ReceivedConserves(s: System, w: nat, g: TenantQueues, x: Sandbox)
    requires Conserved(s) && w < |s.workers| && Held(g.queues) + multiset{x} == Held(s.requests.queues)
    ensures forall k: Worker :: Held(k.rq.queues) == Held(s.workers[w].rq.queues) + multiset{x} ==>
      Conserved(SetWorker(s, w, k).(requests := g))
  {
    hide Held, AllHeld;
    forall k: Worker | Held(k.rq.queues) == Held(s.workers[w].rq.queues) + multiset{x}
      ensures Conserved(SetWorker(s, w, k).(requests := g))
    {
      AllHeldUpdate(s.workers, w, k);
      GainBalance(AllHeld(s.workers[w := k]), AllHeld(s.workers), Held(s.workers[w].rq.queues), x);
      MoveBalance(Held(s.requests.queues), AllHeld(s.workers), multiset(s.done), multiset(s.admitted),
                  Held(g.queues), AllHeld(s.workers[w := k]), x);
    }
  }

  // ---------- The end of a sandbox ----------

  /** The delete of the running sandbox is a root delete, so its tenant's queue stays ordered. */
  lemma FinishIsRootDelete(k: Worker, paid: seq<bool>)
    requires WorkerFine(k, paid) && k.phase == AtRest && k.current.Some?
    ensures var x := k.current.value;
            x.tenant < |k.rq.queues| == |k.rq.cls| == |paid| && x in k.rq.queues[x.tenant].items &&
            IndexOf(k.rq.queues[x.tenant].items, x) == 0 && RemoveSandbox(k.rq, x, paid[x.tenant]).1 &&
            WorkerFine(k.(rq := RemoveSandbox(k.rq, x, paid[x.tenant]).0, phase := Finished), paid)
  {
    hide RunqueueOk, RemoveSandbox;
    PaidSizes(k.rq, paid);
    var x := k.current.value;
    assert x in k.rq.queues[x.tenant].items;
    RemoveHeadKeeps(k.rq, paid, x);
  }

  lemma FinishKeepsInv(s: System, w: nat)
    requires Inv(s) && s.fault == Fine && w < |s.workers|
    ensures Inv(FinishStep(s, w))
  {
    hide Held, AllHeld, RunqueueOk, PhaseFine, RemoveSandbox, RequestsFine, DistinctIds, BelowMax, Overtakes, Conserved;
    var k := s.workers[w];
    assert WorkerFine(k, s.paid);
    if k.phase == AtRest && k.current.Some? {
      FinishIsRootDelete(k, s.paid);
      FinishConserves(s, w, k.current.value);
      QuietRequests(s, FinishStep(s, w));
    }
  }

  lemma FinishConserves(s: System, w: nat, x: Sandbox)
    requires Conserved(s) && w < |s.workers| && x.tenant < |s.workers[w].rq.queues| == |s.workers[w].rq.cls|
    requires x in s.workers[w].rq.queues[x.tenant].items && x.tenant < |s.paid|
    ensures var k := s.workers[w];
            Conserved(SetWorker(s, w, k.(rq := RemoveSandbox(k.rq, x, s.paid[x.tenant]).0, phase := Finished))
                      .(done := s.done + [x]))
  {
    hide Held, AllHeld, RemoveSandbox;
    var k := s.workers[w];
    var k' := k.(rq := RemoveSandbox(k.rq, x, s.paid[x.tenant]).0, phase := Finished);
    RemoveSandboxQueues(k.rq, x, s.paid[x.tenant]);
    HeldAfterDelete(k.rq.queues, x, x.tenant);
    AllHeldUpdate(s.workers, w, k');
    HeldLoses(AllHeld(s.workers[w := k']), AllHeld(s.workers), Held(k.rq.queues), Held(k'.rq.queues), x);
    FinishBalance(Held(s.requests.queues), AllHeld(s.workers), multiset(s.done), multiset(s.admitted),
                  AllHeld(s.workers[w := k']), x);
  }

  lemma RemoveSandboxQueues(q: TenantQueues, x: Sandbox, paid: bool)
    requires x.tenant < |q.queues| == |q.cls|
    ensures RemoveSandbox(q, x, paid).0.queues == q.queues[x.tenant := Delete(q.queues[x.tenant], x, Deadline).0]
  {
    hide Delete, InsertTenant, RemoveTenant, HeadDeadline;
  }

  lemma HeldLoses(after: multiset<Sandbox>, before: multiset<Sandbox>, own: multiset<Sandbox>, own': multiset<Sandbox>,
                  x: Sandbox)
    requires own' + multiset{x} == own && after + own == before + own'
    ensures after + multiset{x} == before
  {
    assert (after + multiset{x}) + own' == after + own;
    CancelRight(after + multiset{x}, before, own');
  }

  // ---------- Every run ----------

  lemma WorkerStepKeepsInv(s: System, w: nat, step: Step)
    requires Inv(s) && s.fault == Fine && w < |s.workers|
    ensures Inv(WorkerStep(s, w, step))
  {
    hide Inv, PromoteStep, DemoteStep, RemoveStep, ChooseStep, FinishStep, BeginStep, LookStep, PeekStep, PeekAgainStep,
      LeaveStep;
    match step
    case Promote(_, t) => PromoteStepKeepsInv(s, w, t);
    case Demote(_) => DemoteStepKeepsInv(s, w);
    case Remove(_) => RemoveKeepsInv(s, w);
    case Choose(_) => ChooseKeepsInv(s, w);
    case Finish(_) => FinishKeepsInv(s, w);
    case Begin(_) => PhaseStepKeepsInv(s, w, step);
    case Look(_) => PhaseStepKeepsInv(s, w, step);
    case Peek(_) => PhaseStepKeepsInv(s, w, step);
    case PeekAgain(_) => PhaseStepKeepsInv(s, w, step);
    case Leave(_) => PhaseStepKeepsInv(s, w, step);
    case _ =>
  }

  lemma NextKeepsInv(s: System, step: Step)
    requires Inv(s)
    ensures Inv(Next(s, step))
  {
    hide Inv, ArriveStep, ChargeStep, ReplenishStep, WorkerStep;
    if s.fault == Fine {
      if step.Arrive? {
        if step.sandbox.tenant < |s.requests.queues| { ArriveKeepsInv(s, step.sandbox); }
      } else if step.Charge? || step.Replenish? {
        TenantStepKeepsInv(s, step);
      } else if step.w < |s.workers| {
        WorkerStepKeepsInv(s, step.w, step);
      }
    }
  }

  lemma {:induction false} EveryRunKeepsInv(s: System, steps: seq<Step>)
    requires Init(s)
    ensures Inv(Run(s, steps))
  {
    hide Inv, Next;
    if steps == [] {
      InitInv(s);
    } else {
      EveryRunKeepsInv(s, steps[..|steps| - 1]);
      NextKeepsInv(Run(s, steps[..|steps| - 1]), steps[|steps| - 1]);
    }
  }

  // ---------- What every run guarantees ----------

  /** A run stops only because a queue is full, because an add overtakes the head of its tenant's requests in a
      build with assertions, or after a request due at ULONG_MAX: no other panic on a class heap is reached, a scan
      always finds the sandbox of its head tenant, an interrupted worker something to run, and a delete its sandbox. */
  lemma FaultsAreExplained(s: System, steps: seq<Step>)
    requires Init(s)
    ensures var r := Run(s, steps);
            r.fault == Fine || r.fault == RequestQueueFull || r.fault == WorkerQueueFull ||
            (r.fault.ListenerAssert? && r.checked && (BelowMax(r.admitted) ==> Overtakes(r.fault.x, r.requests.queues))) ||
            (r.fault == Stuck && !BelowMax(r.admitted)) || (r.fault == HeapPanic && !BelowMax(r.admitted))
  {
    EveryRunKeepsInv(s, steps);
    hide Run;
  }

  /** On every worker each tenant is in exactly the heap its class names, once, if and only if it has sandboxes
      there; and so it is with the request queues, unless a request is due at ULONG_MAX. */
  lemma TenantsAreInTheirHeaps(s: System, steps: seq<Step>)
    requires Init(s)
    ensures var r := Run(s, steps);
            (forall w :: 0 <= w < |r.workers| ==>
               Members(r.workers[w].rq.heaps, r.workers[w].rq.queues, r.workers[w].rq.cls)) &&
            (BelowMax(r.admitted) ==> Members(r.requests.heaps, r.requests.queues, r.requests.cls))
  {
    EveryRunKeepsInv(s, steps);
    var r := Run(s, steps);
    hide Run, Members;
    forall w | 0 <= w < |r.workers| ensures Members(r.workers[w].rq.heaps, r.workers[w].rq.queues, r.workers[w].rq.cls) {
      WorkerIsFine(r, w);
    }
  }

  /** What a worker at its removal is about to be handed: a request if and only if one is eligible at that moment,
      taken fairly, and the earliest of its class where that heap is kept ordered. */
  lemma PullIsFair(s: System, steps: seq<Step>, target: uint64, c: MtClass)
    requires Init(s)
    ensures var r := Run(s, steps); var got := RemoveRequest(r.requests, r.budget, target, c).got;
            BelowMax(r.admitted) ==>
              (got.Some? <==> Eligible(r.requests.heaps.guaranteed, r.requests.heaps.default, r.budget, target, c)) &&
              (got.Some? ==>
                 TakenFairly(r.requests.queues, r.requests.cls, r.budget, got.value) &&
                 (KeptSound(r.requests.cls[got.value.tenant], |r.requests.queues|, r.checked) ==>
                    EarliestOfClass(got.value, r.requests.queues, r.requests.cls)))
  {
    EveryRunKeepsInv(s, steps);
    var r := Run(s, steps);
    hide Run, RemoveRequest, RequestsExact, Eligible, TakenFairly, EarliestOfClass, KeptSound;
    if BelowMax(r.admitted) { RemoveRequestKeeps(r.requests, r.budget, target, c, r.checked); }
  }

  /** What a decision may pick on a worker: nothing if and only if it holds no sandbox; otherwise the earliest sandbox of
      its tenant, which is guaranteed and has budget left, or default while no guaranteed tenant is busy there; with at
      most five tenants it is the earliest of its class. */
  ghost predicate FairPick(x: Option<Sandbox>, q: TenantQueues, budget: seq<int>) {
    (x.None? <==> AllIdle(q.queues)) &&
    (x.Some? ==>
       IsHead(x.value, q.queues) && x.value.tenant < |q.cls| && x.value.tenant < |budget| &&
       IsMinimum(x.value, multiset(q.queues[x.value.tenant].items), Deadline) &&
       (if q.cls[x.value.tenant] == Guaranteed then budget[x.value.tenant] > 0
        else InClass(q.queues, q.cls, Guaranteed) == {}) &&
       (|q.queues| <= 5 ==> EarliestOfClass(x.value, q.queues, q.cls)))
  }

  /** A worker that ends its second scan makes a fair pick current, and nothing else changes. */
  lemma ChoiceIsFair(s: System, steps: seq<Step>, w: nat)
    requires Init(s)
    ensures var r := Run(s, steps);
            w < |r.workers| && r.fault == Fine && r.workers[w].phase == Scanning(true) &&
            !OutOfBudget(r.workers[w].rq, r.budget) ==>
              var r' := Next(r, Choose(w));
              w < |r'.workers| && r'.fault == Fine && r'.workers[w].phase == AtRest &&
              r'.workers[w].rq == r.workers[w].rq && FairPick(r'.workers[w].current, r.workers[w].rq, r.budget)
  {
    hide Run, Inv, FairPick, OutOfBudget, Next, ChooseStep;
    EveryRunKeepsInv(s, steps);
    var r := Run(s, steps);
    if w < |r.workers| && r.fault == Fine && r.workers[w].phase == Scanning(true) && !OutOfBudget(r.workers[w].rq, r.budget) {
      ScanSteps(r, w);
      ChoiceOutcome(r, w);
    }
  }

  lemma ChoiceOutcome(r: System, w: nat)
    requires Inv(r) && w < |r.workers| && r.fault == Fine && r.workers[w].phase == Scanning(true)
    requires !OutOfBudget(r.workers[w].rq, r.budget)
    ensures var r' := ChooseStep(r, w);
            w < |r'.workers| && r'.fault == Fine && r'.workers[w].phase == AtRest &&
            r'.workers[w].rq == r.workers[w].rq && FairPick(r'.workers[w].current, r.workers[w].rq, r.budget)
  {
    hide Inv, RunqueueOk, FairPick, HeadSandbox, OutOfBudget, Hollow, AllIdle;
    var k := r.workers[w];
    WorkerIsFine(r, w);
    SizesHold(r);
    ScanFinds(k.rq, r.paid);
    ScanIsFair(k.rq, r.paid, r.budget);
    if k.current.Some? && AllIdle(k.rq.queues) { BusyIsNotIdle(k.rq.queues, k.current.value); }
  }

  lemma BusyIsNotIdle(queues: seq<Queue<Sandbox>>, x: Sandbox)
    requires x.tenant < |queues| && x in queues[x.tenant].items
    ensures !AllIdle(queues)
  {
  }

  lemma SizesHold(r: System)
    requires Inv(r)
    ensures Sizes(r)
  {
  }

  /** How the steps of a worker are dispatched. */
  lemma ScanSteps(r: System, w: nat)
    requires w < |r.workers| && r.fault == Fine
    ensures Next(r, Choose(w)) == ChooseStep(r, w) && Next(r, Look(w)) == LookStep(r, w) && Next(r, Peek(w)) == PeekStep(r, w)
    ensures Next(r, PeekAgain(w)) == PeekAgainStep(r, w) && Next(r, Remove(w)) == RemoveStep(r, w)
  {
    hide ChooseStep, LookStep, PeekStep, PeekAgainStep, RemoveStep;
  }

  lemma OtherSteps(r: System, w: nat, t: nat)
    requires w < |r.workers| && r.fault == Fine
    ensures Next(r, Begin(w)) == BeginStep(r, w) && Next(r, Promote(w, t)) == PromoteStep(r, w, t)
    ensures Next(r, Demote(w)) == DemoteStep(r, w) && Next(r, Finish(w)) == FinishStep(r, w) && Next(r, Leave(w)) == LeaveStep(r, w)
  {
    hide BeginStep, PromoteStep, DemoteStep, FinishStep, LeaveStep;
  }

  lemma TenantSteps(r: System, t: nat)
    requires r.fault == Fine
    ensures Next(r, Replenish(t)) == ReplenishStep(r, t)
  {
    hide ReplenishStep;
  }

  lemma ScanIsFair(q: TenantQueues, paid: seq<bool>, budget: seq<int>)
    requires RunqueueOk(q, paid) && |budget| == |paid| && !OutOfBudget(q, budget)
    ensures FairPick(HeadSandbox(q), q, budget)
  {
    ScanFinds(q, paid);
    HeadsAreBusy(q, paid);
    var t := HeadTenant(q.heaps);
    if t.Some? {
      var c := if q.heaps.guaranteed.items != [] then Guaranteed else Default;
      assert HeadOf(t.value, Pick(q.heaps, c)) && t.value < |q.queues| && q.cls[t.value] == c;
      hide RunqueueOk, InClass, EarliestOfClass, IsMinimum, Sound, Hollow;
      HeadIsEarliest(q, paid, c, t.value);
    }
  }

  lemma HeadIsEarliest(q: TenantQueues, paid: seq<bool>, c: MtClass, t: nat)
    requires RunqueueOk(q, paid) && HeadOf(t, Pick(q.heaps, c)) && t < |q.queues| && q.cls[t] == c
    requires q.queues[t].items != []
    ensures q.queues[t].items[0].tenant == t && IsMinimum(q.queues[t].items[0], multiset(q.queues[t].items), Deadline)
    ensures |q.queues| <= 5 ==> EarliestOfClass(q.queues[t].items[0], q.queues, q.cls)
  {
    assert QueueOk(q.queues[t], t) && q.queues[t].items[0] in q.queues[t].items;
    PickIsEarliest(q.heaps, q.queues, q.cls, c, t);
  }

  /** On every worker each tenant's queue is an ordered heap, and the running sandbox is the root of its tenant's
      and the earliest there, so the next delete is a root delete. */
  lemma RunningIsTenantRoot(s: System, steps: seq<Step>, w: nat)
    requires Init(s) && w < |Run(s, steps).workers|
    ensures var k := Run(s, steps).workers[w];
            (forall t :: 0 <= t < |k.rq.queues| ==> Sound(k.rq.queues[t], Deadline)) &&
            (k.phase == AtRest && k.current.Some? ==>
               IsHead(k.current.value, k.rq.queues) &&
               IsMinimum(k.current.value, multiset(k.rq.queues[k.current.value.tenant].items), Deadline) &&
               IndexOf(k.rq.queues[k.current.value.tenant].items, k.current.value) == 0)
  {
    EveryRunKeepsInv(s, steps);
    var r := Run(s, steps);
    WorkerIsFine(r, w);
    hide Run, Inv, Members, Ranked, RemoveSandbox;
    var k := r.workers[w];
    assert forall t: nat :: t < |k.rq.queues| ==> Sound(k.rq.queues[t], Deadline);
    if k.phase == AtRest && k.current.Some? {
      RootIsBagMinimum(k.rq.queues[k.current.value.tenant], Deadline);
      FinishIsRootDelete(k, r.paid);
    }
  }

  /** Every admitted sandbox is in exactly one place, once: the request queues, one worker's queues, or done. */
  lemma InExactlyOnePlace(s: System, steps: seq<Step>, x: Sandbox)
    requires Init(s)
    ensures var r := Run(s, steps);
            Held(r.requests.queues)[x] + AllHeld(r.workers)[x] + multiset(r.done)[x] == (if x in r.admitted then 1 else 0)
  {
    EveryRunKeepsInv(s, steps);
    hide Run, Held, AllHeld;
    var r := Run(s, steps);
    CountDifferent(r.admitted, x);
    assert (Held(r.requests.queues) + AllHeld(r.workers) + multiset(r.done))[x] == multiset(r.admitted)[x];
  }

  // ---------- What each step achieves ----------

  /** The class that a pick runs in; an idle worker counts as default. */
  function ClassOf(x: Option<Sandbox>, q: TenantQueues): MtClass {
    if x.Some? && x.value.tenant < |q.cls| then q.cls[x.value.tenant] else Default
  }

  /** The first scan ends with a fair pick; its deadline and class are what a request must beat. */
  lemma LookIsFair(s: System, steps: seq<Step>, w: nat) returns (x: Option<Sandbox>)
    requires Init(s)
    ensures var r := Run(s, steps);
            w < |r.workers| && r.fault == Fine && r.workers[w].phase == Scanning(false) &&
            !OutOfBudget(r.workers[w].rq, r.budget) ==>
              Next(r, Look(w)) == SetWorker(r, w, r.workers[w].(phase := Looked(Target(x), ClassOf(x, r.workers[w].rq)))) &&
              FairPick(x, r.workers[w].rq, r.budget)
  {
    hide Run, Inv, FairPick, OutOfBudget, Next, LookStep, HeadSandbox;
    EveryRunKeepsInv(s, steps);
    var r := Run(s, steps);
    x := None;
    if w < |r.workers| {
      x := HeadSandbox(r.workers[w].rq);
      if r.fault == Fine && r.workers[w].phase == Scanning(false) && !OutOfBudget(r.workers[w].rq, r.budget) {
        ScanSteps(r, w);
        LookOutcome(r, w);
      }
    }
  }

  lemma LookOutcome(r: System, w: nat)
    requires Inv(r) && w < |r.workers| && r.workers[w].phase == Scanning(false) && !OutOfBudget(r.workers[w].rq, r.budget)
    ensures var x := HeadSandbox(r.workers[w].rq);
            LookStep(r, w) == SetWorker(r, w, r.workers[w].(phase := Looked(Target(x), ClassOf(x, r.workers[w].rq)))) &&
            FairPick(x, r.workers[w].rq, r.budget)
  {
    hide Inv, RunqueueOk, FairPick, HeadSandbox, OutOfBudget, Hollow, AllIdle;
    WorkerIsFine(r, w);
    SizesHold(r);
    ScanFinds(r.workers[w].rq, r.paid);
    ScanIsFair(r.workers[w].rq, r.paid, r.budget);
  }

  /** Undisturbed peeks let a removal be tried whenever a request is eligible. */
  lemma SoloPeeksAreExact(s: System, steps: seq<Step>, w: nat)
    requires Init(s)
    ensures var r := Run(s, steps);
            w < |r.workers| && r.fault == Fine && r.workers[w].phase.Looked? && BelowMax(r.admitted) ==>
              var k := r.workers[w]; var r' := Next(Next(r, Peek(w)), PeekAgain(w));
              (r' == SetWorker(r, w, k.(phase := Removing(k.phase.target, k.phase.c))) ||
               r' == SetWorker(r, w, k.(phase := Scanning(true)))) &&
              (Eligible(r.requests.heaps.guaranteed, r.requests.heaps.default, r.budget, k.phase.target, k.phase.c) ==>
                 r' == SetWorker(r, w, k.(phase := Removing(k.phase.target, k.phase.c))))
  {
    hide Run, Inv, Eligible, NotWorthPulling, Next, PeekStep, PeekAgainStep, BelowMax;
    EveryRunKeepsInv(s, steps);
    var r := Run(s, steps);
    if w < |r.workers| && r.fault == Fine && r.workers[w].phase.Looked? && BelowMax(r.admitted) {
      var k := r.workers[w];
      ScanSteps(r, w);
      PeeksOutcome(r, w);
      ScanSteps(PeekStep(r, w), w);
      PeeksAreExact(r, k.phase.target, k.phase.c);
    }
  }

  lemma PeeksAreExact(r: System, target: uint64, c: MtClass)
    requires Inv(r) && BelowMax(r.admitted)
    ensures NotWorthPulling(r.requests.heaps.guaranteed.highest, r.requests.heaps.default.highest, target, c) ==>
      !Eligible(r.requests.heaps.guaranteed, r.requests.heaps.default, r.budget, target, c)
  {
    hide Eligible, HeapsOk, NotWorthPulling;
    if NotWorthPulling(r.requests.heaps.guaranteed.highest, r.requests.heaps.default.highest, target, c) {
      FreshPeeksAreExact(r.requests.heaps, r.requests.queues, r.requests.cls, r.budget, target, c);
    }
  }

  lemma PeeksOutcome(r: System, w: nat)
    requires w < |r.workers| && r.workers[w].phase.Looked?
    ensures var k := r.workers[w];
            w < |PeekStep(r, w).workers| && PeekStep(r, w).fault == r.fault &&
            PeekAgainStep(PeekStep(r, w), w) == SetWorker(r, w, k.(phase :=
              if NotWorthPulling(r.requests.heaps.guaranteed.highest, r.requests.heaps.default.highest, k.phase.target, k.phase.c)
              then Scanning(true) else Removing(k.phase.target, k.phase.c)))
  {
    hide NotWorthPulling;
    var k := r.workers[w];
    var k1 := k.(phase := Peeked(k.phase.target, k.phase.c, r.requests.heaps.guaranteed.highest));
    assert PeekStep(r, w) == SetWorker(r, w, k1);
  }

  /** Request `x` moved from the request queues to worker `w`. */
  ghost predicate Moves(r: System, r': System, w: nat, x: Sandbox) {
    w < |r.workers| == |r'.workers| && Held(r'.workers[w].rq.queues) == Held(r.workers[w].rq.queues) + multiset{x} &&
    Held(r'.requests.queues) + multiset{x} == Held(r.requests.queues)
  }

  /** A removal hands a request over to its worker if and only if one is eligible: one that is taken fairly. It fails
      only on a full queue, and otherwise moves nothing. */
  lemma RemovalMovesARequest(s: System, steps: seq<Step>, w: nat)
    requires Init(s)
    ensures var r := Run(s, steps);
            w < |r.workers| && r.fault == Fine && r.workers[w].phase.Removing? && BelowMax(r.admitted) ==>
              var k := r.workers[w]; var r' := Next(r, Remove(w));
              if Eligible(r.requests.heaps.guaranteed, r.requests.heaps.default, r.budget, k.phase.target, k.phase.c)
              then exists x :: TakenFairly(r.requests.queues, r.requests.cls, r.budget, x) &&
                     if FullFor(k.rq.queues, x.tenant) then r' == r.(fault := WorkerQueueFull)
                     else Moves(r, r', w, x) && r'.fault == Fine && r'.workers[w].phase == Scanning(true)
              else r'.fault == Fine && r'.requests.queues == r.requests.queues &&
                   r'.workers == r.workers[w := k.(phase := Scanning(true))]
  {
    EveryRunKeepsInv(s, steps);
    var r := Run(s, steps);
    hide Run, Inv;
    if w < |r.workers| && r.fault == Fine && r.workers[w].phase.Removing? && BelowMax(r.admitted) { RemovalMoves(r, w); }
  }

  lemma RemovalMoves(r: System, w: nat)
    requires Inv(r) && w < |r.workers| && r.fault == Fine && r.workers[w].phase.Removing? && BelowMax(r.admitted)
    ensures var k := r.workers[w]; var r' := Next(r, Remove(w));
            if Eligible(r.requests.heaps.guaranteed, r.requests.heaps.default, r.budget, k.phase.target, k.phase.c)
            then exists x :: TakenFairly(r.requests.queues, r.requests.cls, r.budget, x) &&
                   if FullFor(k.rq.queues, x.tenant) then r' == r.(fault := WorkerQueueFull)
                   else Moves(r, r', w, x) && r'.fault == Fine && r'.workers[w].phase == Scanning(true)
            else r'.fault == Fine && r'.requests.queues == r.requests.queues &&
                 r'.workers == r.workers[w := k.(phase := Scanning(true))]
  {
    hide Held, AllHeld, RequestsExact, RemoveRequest, RunqueueOk, QueuesOk, AllSound, DistinctIds, Conserved, Eligible,
      TakenFairly, EarliestOfClass, KeptSound, AddSandbox, WorkersFine, BelowMax, Overtakes;
    var k := r.workers[w];
    var got := RemoveRequest(r.requests, r.budget, k.phase.target, k.phase.c);
    RemovalTakes(r.requests, r.budget, k.phase.target, k.phase.c);
    RemoveRequestKeeps(r.requests, r.budget, k.phase.target, k.phase.c, r.checked);
    if got.got.Some? {
      WorkerIsFine(r, w);
      PaidSizes(k.rq, r.paid);
      QueueSizes(k.rq, r.paid, got.got.value.tenant);
      if !FullFor(k.rq.queues, got.got.value.tenant) { AddKeepsWorker(k, r.paid, got.got.value); }
      assert TakenFairly(r.requests.queues, r.requests.cls, r.budget, got.got.value);
    }
  }

  lemma QueueSizes(q: TenantQueues, paid: seq<bool>, t: nat)
    requires RunqueueOk(q, paid) && t < |q.queues|
    ensures q.queues[t].capacity == TENANT_QUEUE_SIZE && |q.queues[t].items| <= TENANT_QUEUE_SIZE
  {
    assert QueueOk(q.queues[t], t);
  }

  /** While the head of the guaranteed tenants is out of budget, a scan demotes it: its class changes and it leaves
      that heap, no queue and no other tenant's class does. */
  lemma DemotionIsExact(s: System, steps: seq<Step>, w: nat)
    requires Init(s)
    ensures var r := Run(s, steps);
            w < |r.workers| && r.fault == Fine && r.workers[w].phase.Scanning? && OutOfBudget(r.workers[w].rq, r.budget) ==>
              var k := r.workers[w]; var r' := Next(r, Demote(w)); var t := k.rq.heaps.guaranteed.items[0];
              w < |r'.workers| && r'.fault == Fine && t < |k.rq.cls| && r'.workers[w].rq.cls == k.rq.cls[t := Default] &&
              r'.workers[w].rq.queues == k.rq.queues && r'.workers[w].phase == k.phase &&
              |r'.workers[w].rq.heaps.guaranteed.items| == |k.rq.heaps.guaranteed.items| - 1
  {
    hide Run, Inv, Next, DemoteStep, OutOfBudget;
    EveryRunKeepsInv(s, steps);
    var r := Run(s, steps);
    if w < |r.workers| && r.fault == Fine && r.workers[w].phase.Scanning? && OutOfBudget(r.workers[w].rq, r.budget) {
      WorkerIsFine(r, w);
      OtherSteps(r, w, 0);
      DemotionOutcome(r, w);
    }
  }

  lemma DemotionOutcome(r: System, w: nat)
    requires w < |r.workers| && r.fault == Fine && r.workers[w].phase.Scanning? && OutOfBudget(r.workers[w].rq, r.budget)
    requires RunqueueOk(r.workers[w].rq, r.paid)
    ensures var k := r.workers[w]; var r' := DemoteStep(r, w);
            k.rq.heaps.guaranteed.items != [] &&
            var t := k.rq.heaps.guaranteed.items[0];
            w < |r'.workers| && r'.fault == Fine && t < |k.rq.cls| && r'.workers[w].rq.cls == k.rq.cls[t := Default] &&
            r'.workers[w].rq.queues == k.rq.queues && r'.workers[w].phase == k.phase &&
            |r'.workers[w].rq.heaps.guaranteed.items| == |k.rq.heaps.guaranteed.items| - 1
  {
    hide RunqueueOk, MoveTenant;
    DemotionMoves(r.workers[w].rq, r.paid);
  }

  lemma DemotionMoves(q: TenantQueues, paid: seq<bool>)
    requires RunqueueOk(q, paid) && q.heaps.guaranteed.items != []
    ensures var t := q.heaps.guaranteed.items[0];
            t < |q.cls| && MoveTenant(q, t, Default).1 && MoveTenant(q, t, Default).0.cls == q.cls[t := Default] &&
            MoveTenant(q, t, Default).0.queues == q.queues &&
            |MoveTenant(q, t, Default).0.heaps.guaranteed.items| == |q.heaps.guaranteed.items| - 1
  {
    HeadsAreBusy(q, paid);
    assert Pick(q.heaps, Guaranteed).items != [];
    hide InsertTenant, RemoveTenant, HeadDeadline, Marked, AllBelowMax;
    MoveMembers(q.heaps, q.queues, q.cls, q.heaps.guaranteed.items[0], Default);
  }

  /** A promotion on a worker makes a busy paid tenant guaranteed there; no queue and no other class changes. */
  lemma PromotionIsExact(s: System, steps: seq<Step>, w: nat, t: nat)
    requires Init(s)
    ensures var r := Run(s, steps);
            w < |r.workers| && r.fault == Fine && r.workers[w].phase == Scanning(false) && t < |r.paid| && r.paid[t] &&
            t < |r.workers[w].rq.queues| && r.workers[w].rq.queues[t].items != [] ==>
              var k := r.workers[w]; var r' := Next(r, Promote(w, t));
              w < |r'.workers| && r'.fault == Fine && t < |k.rq.cls| && r'.workers[w].rq.cls == k.rq.cls[t := Guaranteed] &&
              r'.workers[w].rq.queues == k.rq.queues && r'.workers[w].phase == k.phase
  {
    hide Run, Inv, Next, PromoteStep;
    EveryRunKeepsInv(s, steps);
    var r := Run(s, steps);
    if w < |r.workers| && r.fault == Fine && r.workers[w].phase == Scanning(false) && t < |r.paid| && r.paid[t] &&
       t < |r.workers[w].rq.queues| && r.workers[w].rq.queues[t].items != [] {
      WorkerIsFine(r, w);
      OtherSteps(r, w, t);
      PromotionOutcome(r, w, t);
    }
  }

  lemma PromotionOutcome(r: System, w: nat, t: nat)
    requires w < |r.workers| && r.fault == Fine && r.workers[w].phase == Scanning(false) && t < |r.paid| && r.paid[t]
    requires RunqueueOk(r.workers[w].rq, r.paid) && t < |r.workers[w].rq.queues| && r.workers[w].rq.queues[t].items != []
    ensures var k := r.workers[w]; var r' := PromoteStep(r, w, t);
            w < |r'.workers| && r'.fault == Fine && t < |k.rq.cls| && r'.workers[w].rq.cls == k.rq.cls[t := Guaranteed] &&
            r'.workers[w].rq.queues == k.rq.queues && r'.workers[w].phase == k.phase
  {
    hide RunqueueOk, MoveTenant;
    var k := r.workers[w];
    PaidSizes(k.rq, r.paid);
    if k.rq.cls[t] == Default {
      MoveKeepsRunqueue(k.rq, r.paid, t, Guaranteed);
      MoveChangesClass(k.rq, t, Guaranteed);
    } else {
      assert k.rq.cls[t := Guaranteed] == k.rq.cls;
    }
  }

  lemma MoveChangesClass(q: TenantQueues, t: nat, c: MtClass)
    requires t < |q.cls|
    ensures MoveTenant(q, t, c).0.cls == q.cls[t := c] && MoveTenant(q, t, c).0.queues == q.queues
  {
  }

  /** A replenishment of a paid tenant restores its budget and makes it guaranteed; nothing else changes class or
      queue. */
  lemma ReplenishIsExact(s: System, steps: seq<Step>, t: nat)
    requires Init(s)
    ensures var r := Run(s, steps);
            r.fault == Fine && BelowMax(r.admitted) && t < |r.paid| && r.paid[t] ==>
              var r' := Next(r, Replenish(t));
              r'.fault == Fine && t < |r.max| && t < |r.budget| && t < |r.requests.cls| &&
              r'.budget == r.budget[t := r.max[t]] && r'.requests.cls == r.requests.cls[t := Guaranteed] &&
              r'.requests.queues == r.requests.queues && r'.workers == r.workers
  {
    hide Run, Inv, Next, ReplenishStep, BelowMax;
    EveryRunKeepsInv(s, steps);
    var r := Run(s, steps);
    if r.fault == Fine && BelowMax(r.admitted) && t < |r.paid| && r.paid[t] {
      TenantSteps(r, t);
      ReplenishOutcome(r, t);
    }
  }

  lemma ReplenishOutcome(r: System, t: nat)
    requires Inv(r) && r.fault == Fine && BelowMax(r.admitted) && t < |r.paid| && r.paid[t]
    ensures var r' := ReplenishStep(r, t);
            r'.fault == Fine && t < |r.max| && t < |r.budget| && t < |r.requests.cls| &&
            r'.budget == r.budget[t := r.max[t]] && r'.requests.cls == r.requests.cls[t := Guaranteed] &&
            r'.requests.queues == r.requests.queues && r'.workers == r.workers
  {
    hide RequestsExact, MoveTenant, WorkersFine, Conserved, DistinctIds, FaultExplained, QueuesOk, AllSound;
    PromoteKeepsRequests(r.requests, t, r.checked);
    MoveChangesClass(r.requests, t, Guaranteed);
    if r.requests.cls[t] == Guaranteed { assert r.requests.cls[t := Guaranteed] == r.requests.cls; }
  }

  /** How an arrival with a new id ends: on a full queue, with the assertion exactly when it overtakes its tenant's head
      in a build with assertions, and otherwise admitted to the request queues. */
  lemma ArriveIsExact(s: System, steps: seq<Step>, x: Sandbox)
    requires Init(s)
    ensures var r := Run(s, steps);
            r.fault == Fine && BelowMax(r.admitted) && x.tenant < |r.requests.queues| &&
            (forall y :: y in r.admitted ==> y.id != x.id) ==>
              var r' := Next(r, Arrive(x));
              if FullFor(r.requests.queues, x.tenant) then r' == r.(fault := RequestQueueFull)
              else if r.checked && Overtakes(x, r.requests.queues) then r' == r.(fault := ListenerAssert(x))
              else r'.fault == Fine && r'.admitted == r.admitted + [x] && r'.workers == r.workers &&
                   Held(r'.requests.queues) == Held(r.requests.queues) + multiset{x}
  {
    EveryRunKeepsInv(s, steps);
    var r := Run(s, steps);
    hide Run, Inv;
    if r.fault == Fine && BelowMax(r.admitted) && x.tenant < |r.requests.queues| &&
       (forall y :: y in r.admitted ==> y.id != x.id) { ArrivalOutcome(r, x); }
  }

  lemma ArrivalOutcome(r: System, x: Sandbox)
    requires Inv(r) && r.fault == Fine && BelowMax(r.admitted) && x.tenant < |r.requests.queues|
    requires forall y :: y in r.admitted ==> y.id != x.id
    ensures var r' := Next(r, Arrive(x));
            if FullFor(r.requests.queues, x.tenant) then r' == r.(fault := RequestQueueFull)
            else if r.checked && Overtakes(x, r.requests.queues) then r' == r.(fault := ListenerAssert(x))
            else r'.fault == Fine && r'.admitted == r.admitted + [x] && r'.workers == r.workers &&
                 Held(r'.requests.queues) == Held(r.requests.queues) + multiset{x}
  {
    hide Held, AllHeld, WorkersFine, RequestsExact, AllSound, AddPercolates, Overtakes, Conserved, AddRequest, DistinctIds;
    assert QueueOk(r.requests.queues[x.tenant], x.tenant);
    if !FullFor(r.requests.queues, x.tenant) {
      PercolatesIff(r.requests, x, r.checked);
      if !(r.checked && AddPercolates(r.requests, x)) {
        AddHasRoom(r.requests, x, r.checked);
        AddKeepsQueues(r.requests, x);
      }
    }
  }

  lemma PercolatesIff(g: TenantQueues, x: Sandbox, checked: bool)
    requires RequestsExact(g, checked) && x.tenant < |g.queues| && |g.queues[x.tenant].items| < TENANT_QUEUE_SIZE
    ensures AddPercolates(g, x) <==> Overtakes(x, g.queues)
  {
    assert g == TenantQueues(g.queues, g.cls, g.heaps);
    ListenerAssertsIff(g.heaps, g.queues, g.cls, x);
  }

  /** The running sandbox that finishes leaves its worker's queues and is done; a worker that leaves it has no current
      sandbox and decides anew, as one that begins does. */
  lemma FinishAndLeaveAreExact(s: System, steps: seq<Step>, w: nat)
    requires Init(s)
    ensures var r := Run(s, steps);
            w < |r.workers| && r.fault == Fine ==>
              var k := r.workers[w];
              (k.phase == AtRest && k.current.Some? ==>
                 var r' := Next(r, Finish(w));
                 r'.fault == Fine && r'.done == r.done + [k.current.value] && r'.requests == r.requests &&
                 |r'.workers| == |r.workers| && r'.workers[w].phase == Finished &&
                 Held(r'.workers[w].rq.queues) + multiset{k.current.value} == Held(k.rq.queues)) &&
              (k.phase == Finished ==> Next(r, Leave(w)) == SetWorker(r, w, Worker(k.rq, None, Scanning(false)))) &&
              (k.phase == AtRest ==> Next(r, Begin(w)) == SetWorker(r, w, Worker(k.rq, k.current, Scanning(false))))
  {
    hide Run, Inv, Next, FinishStep, LeaveStep, BeginStep, Held;
    EveryRunKeepsInv(s, steps);
    var r := Run(s, steps);
    if w < |r.workers| && r.fault == Fine {
      WorkerIsFine(r, w);
      OtherSteps(r, w, 0);
      LeaveOutcome(r, w);
      if r.workers[w].phase == AtRest && r.workers[w].current.Some? { FinishOutcome(r, w); }
    }
  }

  lemma LeaveOutcome(r: System, w: nat)
    requires w < |r.workers|
    ensures var k := r.workers[w];
            (k.phase == Finished ==> LeaveStep(r, w) == SetWorker(r, w, Worker(k.rq, None, Scanning(false)))) &&
            (k.phase == AtRest ==> BeginStep(r, w) == SetWorker(r, w, Worker(k.rq, k.current, Scanning(false))))
  {
  }

  lemma FinishOutcome(r: System, w: nat)
    requires w < |r.workers| && r.fault == Fine && WorkerFine(r.workers[w], r.paid)
    requires r.workers[w].phase == AtRest && r.workers[w].current.Some?
    ensures var k := r.workers[w]; var r' := FinishStep(r, w);
            r'.fault == Fine && r'.done == r.done + [k.current.value] && r'.requests == r.requests &&
            |r'.workers| == |r.workers| && r'.workers[w].phase == Finished &&
            Held(r'.workers[w].rq.queues) + multiset{k.current.value} == Held(k.rq.queues)
  {
    hide Held, RemoveSandbox, WorkerFine, Delete;
    var k := r.workers[w];
    FinishIsRootDelete(k, r.paid);
    var x := k.current.value;
    RemoveSandboxQueues(k.rq, x, r.paid[x.tenant]);
    HeldAfterDelete(k.rq.queues, x, x.tenant);
  }

  // ---------- Budgets ----------

  /** What the steps charge tenant `t` after its last replenishment. */
  function ChargedSince(steps: seq<Step>, t: nat): nat {
    if steps == [] then 0 else
    var n := |steps| - 1;
    if steps[n] == Replenish(t) then 0
    else ChargedSince(steps[..n], t) + if steps[n].Charge? && steps[n].t == t then steps[n].cycles else 0
  }

  lemma FaultStays(r: System, step: Step)
    ensures r.fault != Fine ==> Next(r, step) == r
  {
  }

  /** Along every run, a paid tenant's budget is its maximum less the charges since its last replenishment; a free
      tenant's never changes. */
  lemma {:induction false} BudgetsAreExact(s: System, steps: seq<Step>, t: nat)
    requires Init(s) && t < |s.max|
    ensures var r := Run(s, steps);
            r.max == s.max && r.paid == s.paid && |r.budget| == |s.max| &&
            (r.fault == Fine ==> r.budget[t] == s.max[t] - if s.paid[t] then ChargedSince(steps, t) else 0)
  {
    if steps != [] {
      var n := |steps| - 1;
      BudgetsAreExact(s, steps[..n], t);
      EveryRunKeepsInv(s, steps[..n]);
      hide Run, Inv, Next;
      RunsOneMore(s, steps);
      FaultStays(Run(s, steps[..n]), steps[n]);
      BudgetStep(Run(s, steps[..n]), steps[n], t);
    }
  }

  lemma RunsOneMore(s: System, steps: seq<Step>)
    requires steps != []
    ensures Run(s, steps) == Next(Run(s, steps[..|steps| - 1]), steps[|steps| - 1])
  {
  }

  lemma BudgetStep(r: System, step: Step, t: nat)
    requires Inv(r) && t < |r.budget|
    ensures var r' := Next(r, step);
            r'.max == r.max && r'.paid == r.paid && |r'.budget| == |r.budget| == |r.max| == |r.paid| &&
            (r'.fault == Fine ==>
               r'.budget[t] == if r.paid[t] && step == Replenish(t) then r.max[t]
                               else if r.paid[t] && step.Charge? && step.t == t then r.budget[t] - step.cycles
                               else r.budget[t])
  {
    hide RequestsFine, WorkersFine, Conserved, DistinctIds, FaultExplained, PromoteRequest, ArriveStep, WorkerStep;
    if step.Arrive? {
      if step.sandbox.tenant < |r.requests.queues| { ArriveLeavesBudgets(r, step.sandbox); }
    } else if !step.Charge? && !step.Replenish? {
      if step.w < |r.workers| { WorkersLeaveBudgets(r, step.w, step); }
    }
  }

  lemma ArriveLeavesBudgets(r: System, x: Sandbox)
    requires x.tenant < |r.requests.queues| == |r.requests.cls|
    ensures var r' := ArriveStep(r, x); r'.max == r.max && r'.paid == r.paid && r'.budget == r.budget
  {
    hide AddRequest, AddPercolates;
  }

  lemma WorkersLeaveBudgets(r: System, w: nat, step: Step)
    requires w < |r.workers|
    ensures var r' := WorkerStep(r, w, step); r'.max == r.max && r'.paid == r.paid && r'.budget == r.budget
  {
    hide RemoveRequest, MoveTenant, AddSandbox, RemoveSandbox, HeadSandbox, Hollow, OutOfBudget, NotWorthPulling;
  }
}
