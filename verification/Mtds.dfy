/** The multi-tenancy scheduling decision: scheduler_mtds_get_next of include/scheduler.h, which joins a
    worker's runqueue and the global request queues. */
module Mtds {
  import opened Heap
  import opened Options
  import opened PriorityQueues
  import opened Tenants
  import opened Ranks
  import opened LocalMtds
  import opened GlobalMtds

  /** The test on the lock-free readings of the two global memos, before the lock is taken. */
  predicate NotWorthPulling(guaranteedPeek: uint64, defaultPeek: uint64, target: uint64, c: MtClass) {
    if c == Guaranteed then guaranteedPeek >= target
    else guaranteedPeek == ULONG_MAX && defaultPeek >= target
  }

  /** What a pulled request must be earlier than. */
  function Target(head: Option<Sandbox>): uint64 {
    if head.Some? then head.value.deadline else ULONG_MAX
  }

  /** The head of the worker's runqueue at the start of the decision, and the class it ran in. */
  ghost predicate StartsFrom(head: Option<Sandbox>, c: MtClass, queues: seq<Queue<Sandbox>>, cls: seq<MtClass>,
                             budget: (nat, nat) -> int)
  {
    if head.None? then AllIdle(queues) && c == Default else
    IsHead(head.value, queues) && head.value.tenant < |cls| &&
    (c == Guaranteed ==> cls[head.value.tenant] == Guaranteed && exists k: nat :: budget(k, head.value.tenant) > 0)
  }

  predicate FullFor(queues: seq<Queue<Sandbox>>, t: nat) {
    t < |queues| && |queues[t].items| == TENANT_QUEUE_SIZE
  }

  /** Every sandbox is where it was, but for the pulled one, which went from the global queues to the local. */
  ghost predicate Moved(pulled: Option<Sandbox>, local: seq<Queue<Sandbox>>, global: seq<Queue<Sandbox>>,
                        local': seq<Queue<Sandbox>>, global': seq<Queue<Sandbox>>)
  {
    if pulled.None? then local' == local && global' == global
    else Held(local') == Held(local) + multiset{pulled.value} && Held(global') + multiset{pulled.value} == Held(global)
  }

  /** Request `x`, the head of its tenant's queue in `gq`, moves to its tenant's queue in `lq`. */
  ghost predicate Transfers(x: Sandbox, lq: seq<Queue<Sandbox>>, gq: seq<Queue<Sandbox>>,
                            lq': seq<Queue<Sandbox>>, gq': seq<Queue<Sandbox>>)
  {
    IsHead(x, gq) && gq[x.tenant].highest < ULONG_MAX &&
    x.tenant < |lq| && |lq[x.tenant].items| < lq[x.tenant].capacity &&
    gq' == gq[x.tenant := RemoveSlot(gq[x.tenant], Deadline, 0)] &&
    lq' == lq[x.tenant := Enqueue(lq[x.tenant], x, Deadline).0]
  }

  /** What one decision does to the queues of a worker (`lq`) and to the request queues (`gq`). */
  ghost predicate IsDecision(lq: seq<Queue<Sandbox>>, gq: seq<Queue<Sandbox>>, pulled: Option<Sandbox>,
                             next: Option<Sandbox>, lq': seq<Queue<Sandbox>>, gq': seq<Queue<Sandbox>>)
  {
    (if pulled.None? then lq' == lq && gq' == gq else Transfers(pulled.value, lq, gq, lq', gq')) &&
    if next.None? then AllIdle(lq') else IsHead(next.value, lq')
  }

  /** No request can be handed out to an idle worker. */
  ghost predicate NothingToHandOut(guaranteed: Queue<nat>, queues: seq<Queue<Sandbox>>, budget: seq<int>) {
    AllIdle(queues) || Demotes(guaranteed, budget, ULONG_MAX, Default)
  }

  /** The early test on up-to-date readings rules out only pulls that would fail anyway. */
  lemma FreshPeeksAreExact(h: Heaps, queues: seq<Queue<Sandbox>>, cls: seq<MtClass>, budget: seq<int>,
                           target: uint64, c: MtClass)
    requires HeapsOk(h, queues, cls) && NotWorthPulling(h.guaranteed.highest, h.default.highest, target, c)
    ensures !Eligible(h.guaranteed, h.default, budget, target, c)
  {
  }

  /** An idle worker gets a request unless there is none or the head of the guaranteed tenants has used up
      its budget. */
  lemma IdleWorkerIsServedIff(h: Heaps, queues: seq<Queue<Sandbox>>, cls: seq<MtClass>, budget: seq<int>)
    requires HeapsOk(h, queues, cls) && |queues| == |cls| == |budget|
    ensures Eligible(h.guaranteed, h.default, budget, ULONG_MAX, Default) <==>
            !NothingToHandOut(h.guaranteed, queues, budget)
  {
    var g, d := InClass(queues, cls, Guaranteed), InClass(queues, cls, Default);
    ExactlyMembers(h.guaranteed, g);
    ExactlyMembers(h.default, d);
    if h.guaranteed.items != [] {
      assert h.guaranteed.items[0] in h.guaranteed.items;
      assert queues[h.guaranteed.items[0]].items != [];
    } else if h.default.items != [] {
      assert h.default.items[0] in h.default.items;
      assert queues[h.default.items[0]].items != [];
    } else {
      forall t | 0 <= t < |queues| ensures queues[t].items == [] {
        assert t !in g && t !in d;
      }
    }
  }

  /** Move a request from the global queues to the worker's, if one is eligible. */
  method Pull(local: LocalRunqueue, global: GlobalQueues, target: uint64, c: MtClass, clock: nat)
    returns (pulled: Option<Sandbox>, panics: bool)
    requires local.Valid() && global.Valid() && local.periods == global.periods && local.boot <= clock
    modifies local, global
    ensures global.Valid() && global.budget == old(global.budget)
    ensures pulled.Some? <==> Eligible(old(global.guaranteed), old(global.default), global.budget, target, c)
    ensures pulled.Some? ==> TakenFairly(old(global.queues), old(global.cls), global.budget, pulled.value)
    ensures panics <==> (pulled.Some? && FullFor(old(local.queues), pulled.value.tenant))
    ensures !panics ==> local.Valid() && Moved(pulled, old(local.queues), old(global.queues), local.queues, global.queues)
    ensures !panics && pulled.Some? ==>
      !AllIdle(local.queues) && Transfers(pulled.value, old(local.queues), old(global.queues), local.queues, global.queues)
    ensures pulled.Some? && KeptSound(old(global.cls)[pulled.value.tenant], |global.periods|, global.checked) ==>
      EarliestOfClass(pulled.value, old(global.queues), old(global.cls))
    ensures !panics && old(local.Ordered()) ==> local.Ordered()
  {
    hide Held, HeapsOk, Exactly, AllRequestsOk, QueuesOk, ClassesOk, InClass, PaidBusy, HeapOrdered, Enqueue, RemoveSlot,
      Eligible, Demotes, IsMinimum, Ranked, AllSound, Sound, EarliestOfClass, KeptSound, Members;
    BusyQueuesAnswer(global.queues);
    pulled := global.RemoveWithMtClass(target, c);
    panics := false;
    if pulled.Some? {
      HasRoom(local, pulled.value.tenant);
      panics := local.Add(pulled.value, clock);
    }
  }

  lemma BusyQueuesAnswer(queues: seq<Queue<Sandbox>>)
    requires AllRequestsOk(queues)
    ensures forall t :: 0 <= t < |queues| && queues[t].items != [] ==> queues[t].highest < ULONG_MAX
  {
    forall t | 0 <= t < |queues| && queues[t].items != [] ensures queues[t].highest < ULONG_MAX {
      assert RequestsOk(queues[t], t) && queues[t].items[0] in queues[t].items;
    }
  }

  lemma HasRoom(local: LocalRunqueue, t: nat)
    requires local.Valid() && t < |local.queues|
    ensures local.queues[t].capacity == TENANT_QUEUE_SIZE && |local.queues[t].items| <= TENANT_QUEUE_SIZE
  {
    assert QueueOk(local.queues[t], t);
  }

  /** One decision. The peeks are whatever was read before the lock was taken; `first` and `second` are the
      budget readings of the two local scans. `panics`: the pulled sandbox's tenant queue on this worker is
      full. The ghost results are the local head at the start, its class, and the pulled sandbox. */
  method GetNext(local: LocalRunqueue, global: GlobalQueues, guaranteedPeek: uint64, defaultPeek: uint64,
                 first: (nat, nat) -> int, second: (nat, nat) -> int, clock: nat)
    returns (next: Option<Sandbox>, panics: bool, ghost head: Option<Sandbox>, ghost c: MtClass,
             ghost pulled: Option<Sandbox>)
    requires local.Valid() && global.Valid() && local.periods == global.periods && local.boot <= clock
    modifies local, global
    ensures StartsFrom(head, c, old(local.queues), old(local.cls), first)
    ensures global.Valid() && global.budget == old(global.budget)
    ensures pulled.Some? <==>
      !NotWorthPulling(guaranteedPeek, defaultPeek, Target(head), c) &&
      Eligible(old(global.guaranteed), old(global.default), global.budget, Target(head), c)
    ensures pulled.Some? ==> TakenFairly(old(global.queues), old(global.cls), global.budget, pulled.value)
    ensures panics <==> (pulled.Some? && FullFor(old(local.queues), pulled.value.tenant))
    ensures !panics ==> local.Valid() && Moved(pulled, old(local.queues), old(global.queues), local.queues, global.queues)
    ensures !panics ==> IsDecision(old(local.queues), old(global.queues), pulled, next, local.queues, global.queues)
    ensures !panics && next.Some? ==>
      next.value.tenant < |local.cls| &&
      if local.cls[next.value.tenant] == Guaranteed then exists k: nat :: second(k, next.value.tenant) > 0
      else InClass(local.queues, local.cls, Guaranteed) == {}
    ensures pulled.Some? && KeptSound(old(global.cls)[pulled.value.tenant], |global.periods|, global.checked) ==>
      EarliestOfClass(pulled.value, old(global.queues), old(global.cls))
    ensures !panics && old(local.Ordered()) ==>
      local.Ordered() &&
      (next.Some? ==> IsMinimum(next.value, multiset(local.queues[next.value.tenant].items), Deadline)) &&
      (next.Some? && |local.periods| <= 5 ==> EarliestOfClass(next.value, local.queues, local.cls))
    ensures !panics && guaranteedPeek == old(global.guaranteed).highest && defaultPeek == old(global.default).highest ==>
      (next.None? <==> AllIdle(old(local.queues)) &&
                       NothingToHandOut(old(global.guaranteed), old(global.queues), global.budget))
  {
    hide Held, HeapsOk, Exactly, AllRequestsOk, QueuesOk, ClassesOk, InClass, PaidBusy, HeapOrdered, Eligible, Demotes,
      IsMinimum, TakenFairly, NothingToHandOut, NotWorthPulling, Ranked, AllSound, EarliestOfClass, Transfers, Members,
      KeptSound;
    IdleWorkerIsServedIff(Heaps(global.guaranteed, global.default), global.queues, global.cls, global.budget);
    var found, readings := local.GetNext(first);
    var mtClass := if found.Some? then local.cls[found.value.tenant] else Default;
    head, c, pulled, panics := found, mtClass, None, false;
    if NotWorthPulling(global.guaranteed.highest, global.default.highest, Target(found), mtClass) {
      FreshPeeksAreExact(Heaps(global.guaranteed, global.default), global.queues, global.cls, global.budget,
                         Target(found), mtClass);
    }
    if !NotWorthPulling(guaranteedPeek, defaultPeek, Target(found), mtClass) {
      var got, full := Pull(local, global, Target(found), mtClass, clock);
      pulled, panics := got, full;
      if full { return None, true, head, c, pulled; }
    }
    next, readings := local.GetNext(second);
  }
}
