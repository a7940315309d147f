/** Earliest-deadline-first scheduling: one listener filling a shared min-heap and any number of
    workers, each with a local min-heap and one running sandbox. A scheduling decision is not atomic:
    a worker reads its local head, peeks at the global memo without a lock, removes under the lock and
    then picks, and the other threads may act in between. */
module Edf {
  import opened Heap
  import opened Options
  import opened PriorityQueues
  import opened Bags

  const GLOBAL_CAPACITY: nat := 4096
  const RUNQUEUE_SIZE: nat := 256

  datatype Sandbox = Sandbox(id: nat, deadline: uint64)

  function Deadline(s: Sandbox): uint64 {
    s.deadline
  }

  datatype Phase =
    | AtRest
    | Finished
    | Peeking(localDeadline: uint64)
    | Removing(localDeadline: uint64)
    | Choosing(seen: seq<Sandbox>)  // `seen`: the global heap at the peek or removal that settled it

  /** `mirror` is this worker's entry of runtime_worker_threads_deadline. `pulled` is bookkeeping:
      the members of the local heap in the order in which they were pulled. */
  datatype Worker = Worker(local: Queue<Sandbox>, current: Option<Sandbox>, mirror: uint64,
                           phase: Phase, pulled: seq<Sandbox>)

  datatype System = System(global: Queue<Sandbox>, workers: seq<Worker>,
                           admitted: seq<Sandbox>, done: seq<Sandbox>, failed: bool)

  datatype Step = Arrive(sandbox: Sandbox) | Begin(w: nat) | Peek(w: nat) | Remove(w: nat)
                | Choose(w: nat) | Finish(w: nat) | Leave(w: nat)

  ghost predicate Init(s: System) {
    s.global == EmptyQueue(GLOBAL_CAPACITY) && s.admitted == [] && s.done == [] && !s.failed &&
    forall w :: 0 <= w < |s.workers| ==>
      s.workers[w] == Worker(EmptyQueue(RUNQUEUE_SIZE), None, ULONG_MAX, AtRest, [])
  }

  function Top(q: Queue<Sandbox>): Option<Sandbox> {
    if q.items == [] then None else Some(q.items[0])
  }

  function DeadlineOf(x: Option<Sandbox>): uint64 {
    if x.Some? then x.value.deadline else ULONG_MAX
  }

  /** local_runqueue_minheap_add: grow and retry when full; None is the remaining panic. */
  function LocalAdd(q: Queue<Sandbox>, x: Sandbox): Option<Queue<Sandbox>> {
    var (q1, ok) := Enqueue(q, x, Deadline);
    if ok then Some(q1) else
    var (q2, ok2) := Enqueue(Grow(q), x, Deadline);
    if ok2 then Some(q2) else None
  }

  function Without(s: seq<Sandbox>, x: Sandbox): seq<Sandbox> {
    if s == [] then [] else
    var n := |s| - 1;
    if s[n] == x then s[..n] else Without(s[..n], x) + [s[n]]
  }

  function SetWorker(s: System, w: nat, k: Worker): System
    requires w < |s.workers|
  {
    s.(workers := s.workers[w := k])
  }

  /** A step that is not enabled leaves the state unchanged. */
  function Next(s: System, step: Step): (r: System)
    ensures |r.workers| == |s.workers|
  {
    match step
    case Arrive(x) =>
      if exists y :: y in s.admitted && y.id == x.id then s else
      var (g, ok) := Enqueue(s.global, x, Deadline);
      if ok then s.(global := g, admitted := s.admitted + [x]) else s
    case Begin(w) => if w < |s.workers| then BeginStep(s, w) else s
    case Peek(w) => if w < |s.workers| then PeekStep(s, w) else s
    case Remove(w) => if w < |s.workers| then RemoveStep(s, w) else s
    case Choose(w) => if w < |s.workers| then ChooseStep(s, w) else s
    case Finish(w) => if w < |s.workers| then FinishStep(s, w) else s
    case Leave(w) => if w < |s.workers| then LeaveStep(s, w) else s
  }

  /** An alarm on a running sandbox, or a turn of the idle loop, starts a decision. */
  function BeginStep(s: System, w: nat): (r: System)
    requires w < |s.workers|
    ensures |r.workers| == |s.workers|
  {
    var k := s.workers[w];
    if k.phase != AtRest then s else SetWorker(s, w, k.(phase := Peeking(DeadlineOf(Top(k.local)))))
  }

  function PeekStep(s: System, w: nat): (r: System)
    requires w < |s.workers|
    ensures |r.workers| == |s.workers|
  {
    var k := s.workers[w];
    if !k.phase.Peeking? then s else
    SetWorker(s, w, k.(phase :=
      if s.global.highest < k.phase.localDeadline then Removing(k.phase.localDeadline)
      else Choosing(s.global.items)))
  }

  function RemoveStep(s: System, w: nat): (r: System)
    requires w < |s.workers|
    ensures |r.workers| == |s.workers|
  {
    var k := s.workers[w];
    if !k.phase.Removing? then s else
    var (g, got) := DequeueIfEarlier(s.global, Deadline, k.phase.localDeadline);
    if got.None? then SetWorker(s, w, k.(phase := Choosing(s.global.items))) else
    var added := LocalAdd(k.local, got.value);
    if added.None? || got.value.deadline >= k.phase.localDeadline then s.(failed := true) else
    SetWorker(s, w, k.(local := added.value, phase := Choosing(s.global.items),
                       pulled := k.pulled + [got.value])).(global := g)
  }

  /** A decision taken for an interrupted sandbox must find something to run. */
  function ChooseStep(s: System, w: nat): (r: System)
    requires w < |s.workers|
    ensures |r.workers| == |s.workers|
  {
    var k := s.workers[w];
    if !k.phase.Choosing? then s else
    var next := Top(k.local);
    if next.None? && k.current.Some? then s.(failed := true) else
    SetWorker(s, w, k.(current := next, mirror := DeadlineOf(next), phase := AtRest))
  }

  /** The running sandbox returns or errors out: it leaves the local runqueue. */
  function FinishStep(s: System, w: nat): (r: System)
    requires w < |s.workers|
    ensures |r.workers| == |s.workers|
  {
    var k := s.workers[w];
    if k.phase != AtRest || k.current.None? then s else
    var (q, found) := Delete(k.local, k.current.value, Deadline);
    if !found then s.(failed := true) else
    SetWorker(s, w, k.(local := q, phase := Finished, pulled := Without(k.pulled, k.current.value)))
      .(done := s.done + [k.current.value])
  }

  /** The cooperative scheduler clears the current sandbox and starts a decision. */
  function LeaveStep(s: System, w: nat): (r: System)
    requires w < |s.workers|
    ensures |r.workers| == |s.workers|
  {
    var k := s.workers[w];
    if k.phase != Finished then s else
    SetWorker(s, w, k.(current := None, mirror := ULONG_MAX,
                       phase := Peeking(DeadlineOf(Top(k.local)))))
  }

  function Run(s: System, steps: seq<Step>): System {
    if steps == [] then s else Next(Run(s, steps[..|steps| - 1]), steps[|steps| - 1])
  }

  // ---------- One worker's invariant ----------

  /** Pulled in strictly decreasing deadline order. */
  ghost predicate IsStack(s: seq<Sandbox>) {
    forall i, j :: 0 <= i < j < |s| ==> s[i].deadline > s[j].deadline
  }

  function LastOf(s: seq<Sandbox>): Option<Sandbox> {
    if s == [] then None else Some(s[|s| - 1])
  }

  ghost predicate NoneEarlier(d: uint64, s: seq<Sandbox>) {
    forall i :: 0 <= i < |s| ==> d <= s[i].deadline
  }

  ghost predicate PhaseOk(k: Worker) {
    match k.phase
    case AtRest => k.current == LastOf(k.pulled)
    case Finished => k.current.Some?
    case Peeking(d) => d == DeadlineOf(LastOf(k.pulled)) && (k.current.Some? ==> k.current == LastOf(k.pulled))
    case Removing(d) => d == DeadlineOf(LastOf(k.pulled)) && (k.current.Some? ==> k.current == LastOf(k.pulled))
    case Choosing(seen) =>
      NoneEarlier(DeadlineOf(LastOf(k.pulled)), seen) && (k.current.Some? ==> k.pulled != [])
  }

  ghost predicate WorkerOk(k: Worker) {
    Sound(k.local, Deadline) && IsStack(k.pulled) && multiset(k.pulled) == multiset(k.local.items) &&
    k.mirror == DeadlineOf(k.current) && PhaseOk(k)
  }

  /** The local heap is a stack: its root is the sandbox pulled last. */
  lemma RootIsLastPulled(k: Worker)
    requires Sound(k.local, Deadline) && IsStack(k.pulled) && multiset(k.pulled) == multiset(k.local.items)
    ensures Top(k.local) == LastOf(k.pulled)
  {
    assert |k.pulled| == |multiset(k.pulled)| == |k.local.items|;
    if k.pulled != [] {
      RootIsBagMinimum(k.local, Deadline);
      var root, last := k.local.items[0], k.pulled[|k.pulled| - 1];
      assert last in multiset(k.pulled) && root in multiset(k.local.items);
      var i := IndexOfMember(k.pulled, root);
    }
  }

  lemma {:induction false} WithoutLast(s: seq<Sandbox>)
    requires s != []
    ensures Without(s, s[|s| - 1]) == s[..|s| - 1]
    ensures multiset(s[..|s| - 1]) == multiset(s) - multiset{s[|s| - 1]}
  {
    assert s == s[..|s| - 1] + [s[|s| - 1]];
  }

  /** Deleting the running sandbox deletes the root, so heap order survives. */
  lemma FinishKeepsWorker(k: Worker)
    requires WorkerOk(k) && k.phase == AtRest && k.current.Some?
    ensures Delete(k.local, k.current.value, Deadline).1
    ensures IndexOf(k.local.items, k.current.value) == 0
    ensures WorkerOk(k.(local := Delete(k.local, k.current.value, Deadline).0, phase := Finished,
                        pulled := Without(k.pulled, k.current.value)))
  {
    RootIsLastPulled(k);
    var c := k.current.value;
    assert k.local.items[0] == c;
    RemoveSlotSound(k.local, Deadline, 0);
    DeleteBag(k.local, c, Deadline);
    WithoutLast(k.pulled);
  }

  lemma LocalAddWorks(q: Queue<Sandbox>, x: Sandbox)
    requires Sound(q, Deadline)
    ensures LocalAdd(q, x).Some? && Sound(LocalAdd(q, x).value, Deadline)
    ensures multiset(LocalAdd(q, x).value.items) == multiset(q.items) + multiset{x}
  {
    if |q.items| < q.capacity {
      EnqueueSound(q, x, Deadline);
      EnqueueBag(q, x, Deadline);
    } else {
      EnqueueSound(Grow(q), x, Deadline);
      EnqueueBag(Grow(q), x, Deadline);
    }
  }

  lemma PullKeepsWorker(k: Worker, x: Sandbox, seen: seq<Sandbox>)
    requires WorkerOk(k) && k.phase.Removing? && x.deadline < k.phase.localDeadline
    requires NoneEarlier(x.deadline, seen)
    ensures LocalAdd(k.local, x).Some?
    ensures WorkerOk(k.(local := LocalAdd(k.local, x).value, phase := Choosing(seen),
                        pulled := k.pulled + [x]))
  {
    LocalAddWorks(k.local, x);
    forall i, j | 0 <= i < j < |k.pulled + [x]|
      ensures (k.pulled + [x])[i].deadline > (k.pulled + [x])[j].deadline
    {
      var last := |k.pulled| - 1;
      assert i < last ==> k.pulled[i].deadline > k.pulled[last].deadline;
    }
  }

  lemma ChooseKeepsWorker(k: Worker)
    requires WorkerOk(k) && k.phase.Choosing?
    ensures k.current.Some? ==> Top(k.local).Some?
    ensures WorkerOk(k.(current := Top(k.local), mirror := DeadlineOf(Top(k.local)), phase := AtRest))
  {
    RootIsLastPulled(k);
  }

  // ---------- The system's invariant ----------

  function LocalBags(ws: seq<Worker>): seq<multiset<Sandbox>> {
    seq(|ws|, (w: nat) requires w < |ws| => multiset(ws[w].local.items))
  }

  function AllLocal(ws: seq<Worker>): multiset<Sandbox> {
    Sum(LocalBags(ws))
  }

  lemma AllLocalUpdate(ws: seq<Worker>, w: nat, k: Worker)
    requires w < |ws|
    ensures AllLocal(ws[w := k]) + multiset(ws[w].local.items) == AllLocal(ws) + multiset(k.local.items)
  {
    SumUpdate(LocalBags(ws), w, multiset(k.local.items));
    assert LocalBags(ws[w := k]) == LocalBags(ws)[w := multiset(k.local.items)];
  }

  ghost predicate Conserved(s: System) {
    multiset(s.global.items) + AllLocal(s.workers) + multiset(s.done) == multiset(s.admitted)
  }

  ghost predicate DistinctIds(s: seq<Sandbox>) {
    forall i, j :: 0 <= i < j < |s| ==> s[i].id != s[j].id
  }

  ghost predicate WorkersOk(ws: seq<Worker>) {
    forall w :: 0 <= w < |ws| ==> WorkerOk(ws[w])
  }

  ghost predicate Inv(s: System) {
    !s.failed && Sound(s.global, Deadline) && WorkersOk(s.workers) && Conserved(s) && DistinctIds(s.admitted)
  }

  lemma InitInv(s: System)
    requires Init(s)
    ensures Inv(s)
  {
    SumOfEmpty(LocalBags(s.workers));
  }

  /** Replacing one worker without touching its local heap. */
  lemma QuietWorkerKeepsInv(s: System, w: nat, k: Worker)
    requires Inv(s) && w < |s.workers| && WorkerOk(k) && k.local.items == s.workers[w].local.items
    ensures Inv(SetWorker(s, w, k))
  {
    hide WorkerOk, Sound;
    AllLocalUpdate(s.workers, w, k);
    CancelRight(AllLocal(s.workers[w := k]), AllLocal(s.workers), multiset(k.local.items));
  }

  lemma ArriveKeepsInv(s: System, x: Sandbox)
    requires Inv(s)
    ensures Inv(Next(s, Arrive(x)))
  {
    hide WorkersOk, Enqueue, Sound, AllLocal;
    if |s.global.items| < s.global.capacity && forall y :: y in s.admitted ==> y.id != x.id {
      EnqueueSound(s.global, x, Deadline);
      EnqueueBag(s.global, x, Deadline);
      var s' := Next(s, Arrive(x));
      assert forall i :: 0 <= i < |s.admitted| ==> s.admitted[i] in s.admitted;
      assert multiset(s'.global.items) + AllLocal(s.workers) + multiset(s.done)
          == (multiset(s.global.items) + AllLocal(s.workers) + multiset(s.done)) + multiset{x};
    }
  }

  lemma SeenNotEarlier(s: System, d: uint64)
    requires Sound(s.global, Deadline) && s.global.highest >= d
    ensures NoneEarlier(d, s.global.items)
  {
    if s.global.items != [] { RootIsMinimum(s.global.items, Deadline); }
  }

  lemma RemoveKeepsInv(s: System, w: nat)
    requires Inv(s) && w < |s.workers|
    ensures Inv(RemoveStep(s, w))
  {
    var k := s.workers[w];
    if k.phase.Removing? {
      var d := k.phase.localDeadline;
      assert WorkerOk(k);
      if s.global.items == [] || s.global.highest >= d {
        assert NoneEarlier(d, s.global.items) by { if s.global.items != [] { SeenNotEarlier(s, d); } }
        QuietWorkerKeepsInv(s, w, k.(phase := Choosing(s.global.items)));
      } else {
        PullKeepsInv(s, w);
      }
    }
  }

  lemma PullKeepsInv(s: System, w: nat)
    requires Inv(s) && w < |s.workers| && s.workers[w].phase.Removing?
    requires s.global.items != [] && s.global.highest < s.workers[w].phase.localDeadline
    ensures Inv(RemoveStep(s, w))
  {
    var k, x := s.workers[w], s.global.items[0];
    assert WorkerOk(k);
    SeenNotEarlier(s, x.deadline);
    PullKeepsWorker(k, x, s.global.items);
    RemoveSlotSound(s.global, Deadline, 0);
    LocalAddWorks(k.local, x);
    PullConserves(s, w, x);
    PullStep(s, w, x);
    hide WorkerOk, Sound, LocalAdd, RemoveSlot, Conserved, DistinctIds, RemoveStep;
  }

  lemma PullStep(s: System, w: nat, x: Sandbox)
    requires w < |s.workers| && s.workers[w].phase.Removing? && s.global.items != [] && x == s.global.items[0]
    requires s.global.highest == x.deadline < s.workers[w].phase.localDeadline
    requires LocalAdd(s.workers[w].local, x).Some?
    ensures var k := s.workers[w];
            RemoveStep(s, w) == SetWorker(s, w, k.(local := LocalAdd(k.local, x).value,
                                                   phase := Choosing(s.global.items), pulled := k.pulled + [x]))
                                .(global := RemoveSlot(s.global, Deadline, 0))
  {
    hide LocalAdd, RemoveSlot;
  }

  lemma PullConserves(s: System, w: nat, x: Sandbox)
    requires Conserved(s) && w < |s.workers| && s.global.items != [] && x == s.global.items[0]
    requires LocalAdd(s.workers[w].local, x).Some?
    requires multiset(LocalAdd(s.workers[w].local, x).value.items)
          == multiset(s.workers[w].local.items) + multiset{x}
    ensures var k := s.workers[w];
            Conserved(SetWorker(s, w, k.(local := LocalAdd(k.local, x).value, phase := Choosing(s.global.items),
                                         pulled := k.pulled + [x]))
                      .(global := RemoveSlot(s.global, Deadline, 0)))
  {
    var k := s.workers[w];
    var k' := k.(local := LocalAdd(k.local, x).value, phase := Choosing(s.global.items), pulled := k.pulled + [x]);
    AllLocalUpdate(s.workers, w, k');
    RemoveAtBag(s.global.items, Deadline, 0);
    assert x in multiset(s.global.items);
    hide LocalAdd, RemoveSlot, RemoveAt;
    GainBalance(AllLocal(s.workers[w := k']), AllLocal(s.workers), multiset(k.local.items), x);
    MoveBalance(multiset(s.global.items), AllLocal(s.workers), multiset(s.done), multiset(s.admitted),
                multiset(s.global.items) - multiset{x}, AllLocal(s.workers[w := k']), x);
  }

  lemma FinishKeepsInv(s: System, w: nat)
    requires Inv(s) && w < |s.workers|
    ensures Inv(FinishStep(s, w))
  {
    hide Conserved, DistinctIds, Sound, Delete, AllLocal, Without;
    var k := s.workers[w];
    assert WorkerOk(k);
    if k.phase == AtRest && k.current.Some? {
      FinishKeepsWorker(k);
      FinishConserves(s, w, k.current.value);
      hide WorkerOk;
    }
  }

  lemma FinishConserves(s: System, w: nat, c: Sandbox)
    requires Conserved(s) && w < |s.workers| && Delete(s.workers[w].local, c, Deadline).1
    ensures var k := s.workers[w];
            Conserved(SetWorker(s, w, k.(local := Delete(k.local, c, Deadline).0, phase := Finished,
                                         pulled := Without(k.pulled, c)))
                      .(done := s.done + [c]))
  {
    hide Delete, AllLocal, Without;
    var k := s.workers[w];
    DeleteBag(k.local, c, Deadline);
    var k' := k.(local := Delete(k.local, c, Deadline).0, phase := Finished, pulled := Without(k.pulled, c));
    AllLocalUpdate(s.workers, w, k');
    assert c in multiset(k.local.items);
    LossBalance(AllLocal(s.workers[w := k']), AllLocal(s.workers), multiset(k.local.items), c);
    FinishBalance(multiset(s.global.items), AllLocal(s.workers), multiset(s.done), multiset(s.admitted),
                  AllLocal(s.workers[w := k']), c);
  }

  lemma BeginKeepsInv(s: System, w: nat)
    requires Inv(s) && w < |s.workers|
    ensures Inv(BeginStep(s, w))
  {
    hide Sound, Conserved, DistinctIds;
    var k := s.workers[w];
    assert WorkerOk(k);
    RootIsLastPulled(k);
    if k.phase == AtRest { QuietWorkerKeepsInv(s, w, BeginStep(s, w).workers[w]); }
  }

  lemma PeekKeepsInv(s: System, w: nat)
    requires Inv(s) && w < |s.workers|
    ensures Inv(PeekStep(s, w))
  {
    hide Conserved, DistinctIds;
    var k := s.workers[w];
    assert WorkerOk(k);
    if k.phase.Peeking? {
      if s.global.highest >= k.phase.localDeadline { SeenNotEarlier(s, k.phase.localDeadline); }
      hide Sound;
      QuietWorkerKeepsInv(s, w, PeekStep(s, w).workers[w]);
    }
  }

  lemma ChooseKeepsInv(s: System, w: nat)
    requires Inv(s) && w < |s.workers|
    ensures Inv(ChooseStep(s, w))
  {
    hide Sound, Conserved, DistinctIds;
    var k := s.workers[w];
    assert WorkerOk(k);
    if k.phase.Choosing? {
      ChooseKeepsWorker(k);
      hide WorkerOk;
      QuietWorkerKeepsInv(s, w, ChooseStep(s, w).workers[w]);
    }
  }

  lemma LeaveKeepsInv(s: System, w: nat)
    requires Inv(s) && w < |s.workers|
    ensures Inv(LeaveStep(s, w))
  {
    hide Sound, Conserved, DistinctIds;
    var k := s.workers[w];
    assert WorkerOk(k);
    RootIsLastPulled(k);
    if k.phase == Finished { QuietWorkerKeepsInv(s, w, LeaveStep(s, w).workers[w]); }
  }

  lemma NextKeepsInv(s: System, step: Step)
    requires Inv(s)
    ensures Inv(Next(s, step))
  {
    hide Inv, BeginStep, PeekStep, RemoveStep, ChooseStep, FinishStep, LeaveStep, Enqueue, Deadline;
    if step.Arrive? {
      ArriveKeepsInv(s, step.sandbox);
    } else if step.w < |s.workers| {
      match step
      case Begin(w) => BeginKeepsInv(s, w);
      case Peek(w) => PeekKeepsInv(s, w);
      case Remove(w) => RemoveKeepsInv(s, w);
      case Choose(w) => ChooseKeepsInv(s, w);
      case Finish(w) => FinishKeepsInv(s, w);
      case Leave(w) => LeaveKeepsInv(s, w);
    }
  }

  lemma {:induction false} EveryRunKeepsInv(s: System, steps: seq<Step>)
    requires Init(s)
    ensures Inv(Run(s, steps))
  {
    if steps == [] {
      InitInv(s);
    } else {
      hide Inv;
      EveryRunKeepsInv(s, steps[..|steps| - 1]);
      NextKeepsInv(Run(s, steps[..|steps| - 1]), steps[|steps| - 1]);
    }
  }

  // ---------- What every run guarantees ----------

  /** No panic or assertion of the decision and runqueue code is reached. */
  lemma NoPanic(s: System, steps: seq<Step>)
    requires Init(s)
    ensures !Run(s, steps).failed
  {
    EveryRunKeepsInv(s, steps);
  }

  /** The sandbox a worker runs is the root of its local heap; the heap holds what was pulled, in
      strictly decreasing deadline order; so the next delete is a root delete and heap order stands. */
  lemma RunningIsLocalRoot(s: System, steps: seq<Step>, w: nat)
    requires Init(s) && w < |Run(s, steps).workers|
    ensures var k := Run(s, steps).workers[w];
            HeapOrdered(k.local.items, Deadline) && k.local.highest == HeadPriority(k.local.items, Deadline) &&
            IsStack(k.pulled) && multiset(k.pulled) == multiset(k.local.items) &&
            Top(k.local) == LastOf(k.pulled) && (k.phase == AtRest ==> k.current == Top(k.local))
  {
    EveryRunKeepsInv(s, steps);
    RootIsLastPulled(Run(s, steps).workers[w]);
  }

  /** What a decision is about to return is no later than anything in the local heap, and no later than
      anything the global heap held when the decision was settled. */
  lemma DecisionIsEarliest(s: System, steps: seq<Step>, w: nat)
    requires Init(s) && w < |Run(s, steps).workers| && Run(s, steps).workers[w].phase.Choosing?
    ensures var k := Run(s, steps).workers[w]; var d := DeadlineOf(Top(k.local));
            ChooseStep(Run(s, steps), w).workers[w].current == Top(k.local) &&
            NoneEarlier(d, k.local.items) && NoneEarlier(d, k.phase.seen)
  {
    EveryRunKeepsInv(s, steps);
    var k := Run(s, steps).workers[w];
    ChooseKeepsWorker(k);
    RootIsLastPulled(k);
    if k.local.items != [] { RootIsMinimum(k.local.items, Deadline); }
  }

  /** `seen` is the global heap as it stood at this worker's own peek or removal, its `j`-th step, and
      the worker has not changed since that step. */
  ghost predicate SettledAt(s: System, steps: seq<Step>, w: nat, j: nat, r: System) {
    j < |steps| && (steps[j] == Peek(w) || steps[j] == Remove(w)) && w < |r.workers| &&
    r.workers[w].phase == Choosing(Run(s, steps[..j]).global.items) &&
    var after := Next(Run(s, steps[..j]), steps[j]);
    w < |after.workers| && after.workers[w] == r.workers[w]
  }

  lemma {:induction false} SeenIsTheGlobalHeap(s: System, steps: seq<Step>, w: nat) returns (j: nat)
    requires Init(s) && w < |Run(s, steps).workers| && Run(s, steps).workers[w].phase.Choosing?
    ensures SettledAt(s, steps, w, j, Run(s, steps))
  {
    assert steps != [];
    hide Next;
    var before, step := steps[..|steps| - 1], steps[|steps| - 1];
    var r := Run(s, before);
    if r.workers[w].phase.Choosing? {
      LeavesChoosing(r, step, w);
      j := SeenIsTheGlobalHeap(s, before, w);
      assert before[..j] == steps[..j] && before[j] == steps[j];
    } else {
      EntersChoosing(r, step, w);
      j := |before|;
    }
  }

  ghost predicate Idles(s: System, step: Step, w: nat) {
    w < |s.workers| && w < |Next(s, step).workers| && Next(s, step).workers[w] == s.workers[w]
  }

  lemma LeavesChoosing(s: System, step: Step, w: nat)
    requires w < |s.workers| && s.workers[w].phase.Choosing?
    requires w < |Next(s, step).workers| && Next(s, step).workers[w].phase.Choosing?
    ensures Idles(s, step, w)
  {
    hide LocalAdd, DequeueIfEarlier, Enqueue, Delete;
  }

  lemma EntersChoosing(s: System, step: Step, w: nat)
    requires w < |s.workers| ==> !s.workers[w].phase.Choosing?
    requires w < |Next(s, step).workers| && Next(s, step).workers[w].phase.Choosing?
    ensures step == Peek(w) || step == Remove(w)
    ensures Next(s, step).workers[w].phase == Choosing(s.global.items)
  {
    hide LocalAdd, DequeueIfEarlier, Enqueue, Delete;
  }

  /** Every admitted sandbox is in exactly one place, once: the global heap, one local heap, or done. */
  lemma InExactlyOnePlace(s: System, steps: seq<Step>, x: Sandbox)
    requires Init(s)
    ensures var r := Run(s, steps);
            multiset(r.global.items)[x] + AllLocal(r.workers)[x] + multiset(r.done)[x]
            == (if x in r.admitted then 1 else 0)
  {
    EveryRunKeepsInv(s, steps);
    var r := Run(s, steps);
    CountDifferent(r.admitted, x);
    assert (multiset(r.global.items) + AllLocal(r.workers) + multiset(r.done))[x] == multiset(r.admitted)[x];
  }

  // ---------- Triaged signalling ----------

  predicate WouldPreempt(s: System, w: nat)
    requires w < |s.workers|
  {
    s.global.highest < s.workers[w].mirror
  }

  /** A whole decision by worker `w` with no other thread in between. */
  function Decide(s: System, w: nat): System
    requires w < |s.workers|
  {
    ChooseStep(RemoveStep(PeekStep(BeginStep(s, w), w), w), w)
  }

  /** Signalling a worker is useful exactly when scheduler_worker_would_preempt says so: otherwise a
      decision there changes nothing at all, and when it does say so the decision changes the sandbox. */
  lemma TriageIsExact(s: System, steps: seq<Step>, w: nat)
    requires Init(s) && w < |Run(s, steps).workers| && Run(s, steps).workers[w].phase == AtRest
    ensures var r := Run(s, steps);
            (!WouldPreempt(r, w) ==> Decide(r, w) == r) &&
            (WouldPreempt(r, w) ==> Decide(r, w).workers[w].current != r.workers[w].current)
  {
    EveryRunKeepsInv(s, steps);
    var r := Run(s, steps);
    RootIsLastPulled(r.workers[w]);
    if WouldPreempt(r, w) {
      WantedDecisionSwitches(r, w);
    } else {
      UnwantedDecisionIsIdle(r, w);
    }
  }

  lemma UnwantedDecisionIsIdle(r: System, w: nat)
    requires w < |r.workers| && WorkerOk(r.workers[w]) && r.workers[w].phase == AtRest
    requires Top(r.workers[w].local) == r.workers[w].current && !WouldPreempt(r, w)
    ensures Decide(r, w) == r
  {
    var k := r.workers[w];
    var r2 := PeekStep(BeginStep(r, w), w);
    assert r2 == SetWorker(r, w, k.(phase := Choosing(r.global.items)));
    assert RemoveStep(r2, w) == r2;
    assert ChooseStep(r2, w).workers == r.workers;
  }

  lemma WantedDecisionSwitches(r: System, w: nat)
    requires Inv(r) && w < |r.workers| && r.workers[w].phase == AtRest
    requires Top(r.workers[w].local) == r.workers[w].current && WouldPreempt(r, w)
    ensures Decide(r, w).workers[w].current != r.workers[w].current
  {
    var k, d := r.workers[w], DeadlineOf(r.workers[w].current);
    assert WorkerOk(k) && d == k.mirror;
    var r2 := PeekStep(BeginStep(r, w), w);
    assert r2 == SetWorker(r, w, k.(phase := Removing(d)));
    PullBecomesRoot(r2, w);
  }

  lemma PullBecomesRoot(r: System, w: nat)
    requires Sound(r.global, Deadline) && w < |r.workers| && WorkerOk(r.workers[w])
    requires r.workers[w].phase.Removing? && r.global.highest < r.workers[w].phase.localDeadline
    ensures RemoveStep(r, w).workers[w].phase.Choosing?
    ensures Top(RemoveStep(r, w).workers[w].local) == Top(r.global)
    ensures DeadlineOf(Top(r.global)) < r.workers[w].phase.localDeadline
  {
    var k, x := r.workers[w], r.global.items[0];
    SeenNotEarlier(r, x.deadline);
    PullKeepsWorker(k, x, r.global.items);
    PullStep(r, w, x);
    hide RemoveStep, LocalAdd;
    var k' := RemoveStep(r, w).workers[w];
    RootIsLastPulled(k');
  }

  // ---------- What each step achieves ----------

  /** An arrival with a new id is admitted to the global heap if and only if there is room. */
  lemma ArriveIsExact(s: System, steps: seq<Step>, x: Sandbox)
    requires Init(s)
    ensures var r := Run(s, steps); var r' := Next(r, Arrive(x));
            if (forall y :: y in r.admitted ==> y.id != x.id) && |r.global.items| < GLOBAL_CAPACITY
            then r'.admitted == r.admitted + [x] && multiset(r'.global.items) == multiset(r.global.items) + multiset{x} &&
                 r'.workers == r.workers && r'.done == r.done
            else r' == r
  {
    GlobalCapacity(s, steps);
    var r := Run(s, steps);
    hide Run, Enqueue;
    if |r.global.items| < r.global.capacity { EnqueueBag(r.global, x, Deadline); }
  }

  lemma {:induction false} GlobalCapacity(s: System, steps: seq<Step>)
    requires Init(s)
    ensures Run(s, steps).global.capacity == GLOBAL_CAPACITY
  {
    if steps != [] {
      GlobalCapacity(s, steps[..|steps| - 1]);
      hide Run, Next;
      CapacityStays(Run(s, steps[..|steps| - 1]), steps[|steps| - 1]);
      LastStep(s, steps);
    }
  }

  lemma LastStep(s: System, steps: seq<Step>)
    requires steps != []
    ensures Run(s, steps) == Next(Run(s, steps[..|steps| - 1]), steps[|steps| - 1])
  {
  }

  lemma CapacityStays(r: System, step: Step)
    ensures Next(r, step).global.capacity == r.global.capacity
  {
    hide Enqueue, RemoveSlot, LocalAdd, Delete;
  }

  /** The running sandbox that finishes leaves its local heap and is done; nothing else changes place. */
  lemma FinishIsExact(s: System, steps: seq<Step>, w: nat)
    requires Init(s) && w < |Run(s, steps).workers|
    ensures var r := Run(s, steps); var k := r.workers[w]; var r' := Next(r, Finish(w));
            k.phase == AtRest && k.current.Some? ==>
              r'.done == r.done + [k.current.value] && r'.global == r.global && r'.admitted == r.admitted &&
              multiset(r'.workers[w].local.items) == multiset(k.local.items) - multiset{k.current.value} &&
              r'.workers[w].phase == Finished && forall v :: 0 <= v < |r.workers| && v != w ==> r'.workers[v] == r.workers[v]
  {
    hide Run, Inv, FinishStep;
    EveryRunKeepsInv(s, steps);
    var r := Run(s, steps);
    assert Next(r, Finish(w)) == FinishStep(r, w);
    if r.workers[w].phase == AtRest && r.workers[w].current.Some? { FinishOutcome(r, w); }
  }

  lemma FinishOutcome(r: System, w: nat)
    requires Inv(r) && w < |r.workers| && r.workers[w].phase == AtRest && r.workers[w].current.Some?
    ensures var k := r.workers[w]; var r' := FinishStep(r, w);
            r'.done == r.done + [k.current.value] && r'.global == r.global && r'.admitted == r.admitted &&
            multiset(r'.workers[w].local.items) == multiset(k.local.items) - multiset{k.current.value} &&
            r'.workers[w].phase == Finished && forall v :: 0 <= v < |r.workers| && v != w ==> r'.workers[v] == r.workers[v]
  {
    hide Delete, Without, Sound, Conserved, DistinctIds;
    var k := r.workers[w];
    assert WorkerOk(k);
    FinishKeepsWorker(k);
    hide WorkerOk;
    DeleteBag(k.local, k.current.value, Deadline);
  }

  /** A worker that leaves its finished sandbox has no current one, and its mirror says so. */
  lemma LeaveIsExact(s: System, steps: seq<Step>, w: nat)
    requires Init(s) && w < |Run(s, steps).workers|
    ensures var r := Run(s, steps); var k' := Next(r, Leave(w)).workers[w];
            r.workers[w].phase == Finished ==>
              k'.current == None && k'.mirror == ULONG_MAX && k'.local == r.workers[w].local && k'.phase.Peeking?
  {
  }

  /** `x` is the earliest of what worker `w` and the global heap hold, or nothing when there is nothing to run. */
  ghost predicate EarliestOfBoth(r: System, w: nat, x: Option<Sandbox>)
    requires w < |r.workers|
  {
    NoneEarlier(DeadlineOf(x), r.workers[w].local.items) && NoneEarlier(DeadlineOf(x), r.global.items) &&
    (x.Some? ==> x.value in r.workers[w].local.items || x.value in r.global.items) &&
    (x.None? ==> r.workers[w].local.items == [])
  }

  /** The rest of a decision, with no other thread in between. */
  function Solo(r: System, w: nat): (r': System)
    requires w < |r.workers|
    ensures |r'.workers| == |r.workers|
  {
    ChooseStep(RemoveStep(PeekStep(r, w), w), w)
  }

  lemma SoloFromPeek(r: System, w: nat)
    requires Inv(r) && w < |r.workers| && r.workers[w].phase.Peeking?
    ensures EarliestOfBoth(r, w, Solo(r, w).workers[w].current)
    ensures Solo(r, w).workers[w].phase == AtRest || Solo(r, w).failed
  {
    var k := r.workers[w];
    assert WorkerOk(k);
    RootIsLastPulled(k);
    var d := k.phase.localDeadline;
    if k.local.items != [] { RootIsMinimum(k.local.items, Deadline); }
    if r.global.highest < d {
      SoloPull(r, w);
    } else {
      SeenNotEarlier(r, d);
      SoloStay(r, w);
    }
  }

  lemma SoloStay(r: System, w: nat)
    requires w < |r.workers| && r.workers[w].phase.Peeking? && r.global.highest >= r.workers[w].phase.localDeadline
    ensures var r' := Solo(r, w);
            if Top(r.workers[w].local).None? && r.workers[w].current.Some? then r'.failed && r'.workers[w].current == r.workers[w].current
            else r'.workers[w].current == Top(r.workers[w].local) && r'.workers[w].phase == AtRest
  {
    hide LocalAdd, RemoveSlot;
  }

  lemma SoloPull(r: System, w: nat)
    requires Inv(r) && w < |r.workers| && r.workers[w].phase.Peeking? && r.global.highest < r.workers[w].phase.localDeadline
    requires Top(r.workers[w].local) == LastOf(r.workers[w].pulled)
    requires r.workers[w].local.items != [] ==> NoneEarlier(r.workers[w].local.items[0].deadline, r.workers[w].local.items)
    ensures Solo(r, w).workers[w].current == Top(r.global) && EarliestOfBoth(r, w, Top(r.global))
    ensures Solo(r, w).workers[w].phase == AtRest
  {
    hide RemoveStep, LocalAdd, RemoveSlot, Sound;
    var k := r.workers[w];
    assert WorkerOk(k);
    var r2 := PeekStep(r, w);
    assert r2 == SetWorker(r, w, k.(phase := Removing(k.phase.localDeadline)));
    PullBecomesRoot(r2, w);
    GlobalRoot(r);
  }

  lemma GlobalRoot(r: System)
    requires Sound(r.global, Deadline) && r.global.highest < ULONG_MAX
    ensures r.global.items != [] && Top(r.global).value in r.global.items
    ensures NoneEarlier(DeadlineOf(Top(r.global)), r.global.items)
  {
    RootIsMinimum(r.global.items, Deadline);
    assert r.global.items[0] in r.global.items;
  }

  /** An undisturbed decision, of the idle loop or of an alarm, makes the earliest of all current. */
  lemma SoloDecisionIsEarliest(s: System, steps: seq<Step>, w: nat)
    requires Init(s) && w < |Run(s, steps).workers|
    ensures var r := Run(s, steps);
            r.workers[w].phase == AtRest ==> EarliestOfBoth(r, w, Solo(Next(r, Begin(w)), w).workers[w].current)
  {
    hide Run, Inv, Solo, BeginStep;
    EveryRunKeepsInv(s, steps);
    var r := Run(s, steps);
    assert Next(r, Begin(w)) == BeginStep(r, w);
    if r.workers[w].phase == AtRest {
      BeginKeepsInv(r, w);
      StartOutcome(r, w);
      SoloFromPeek(BeginStep(r, w), w);
      SameHeaps(r, BeginStep(r, w), w, Solo(BeginStep(r, w), w).workers[w].current);
    }
  }

  lemma StartOutcome(r: System, w: nat)
    requires w < |r.workers|
    ensures r.workers[w].phase == AtRest ==>
      BeginStep(r, w).workers[w].phase.Peeking? && BeginStep(r, w).global == r.global &&
      BeginStep(r, w).workers[w].local == r.workers[w].local
    ensures r.workers[w].phase == Finished ==>
      LeaveStep(r, w).workers[w].phase.Peeking? && LeaveStep(r, w).global == r.global &&
      LeaveStep(r, w).workers[w].local == r.workers[w].local
  {
  }

  lemma SameHeaps(r: System, r': System, w: nat, x: Option<Sandbox>)
    requires w < |r.workers| && w < |r'.workers| && r'.global == r.global && r'.workers[w].local == r.workers[w].local
    requires EarliestOfBoth(r', w, x)
    ensures EarliestOfBoth(r, w, x)
  {
  }

  /** So does the undisturbed decision after a sandbox has finished. */
  lemma SoloDecisionAfterFinish(s: System, steps: seq<Step>, w: nat)
    requires Init(s) && w < |Run(s, steps).workers|
    ensures var r := Run(s, steps);
            r.workers[w].phase == Finished ==> EarliestOfBoth(r, w, Solo(Next(r, Leave(w)), w).workers[w].current)
  {
    hide Run, Inv, Solo, LeaveStep;
    EveryRunKeepsInv(s, steps);
    var r := Run(s, steps);
    assert Next(r, Leave(w)) == LeaveStep(r, w);
    if r.workers[w].phase == Finished {
      LeaveKeepsInv(r, w);
      StartOutcome(r, w);
      SoloFromPeek(LeaveStep(r, w), w);
      SameHeaps(r, LeaveStep(r, w), w, Solo(LeaveStep(r, w), w).workers[w].current);
    }
  }
}
