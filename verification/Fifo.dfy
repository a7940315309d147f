/** A worker under the FIFO policy: a list runqueue fed by stealing from the global deque, and the list of
    exited sandboxes waiting to be freed. Both lists thread the same intrusive node of a sandbox. */
module Fifo {
  import opened Options

  datatype Phase = Idle | BackAtBase | Running | Exited

  /** `pulled` and `freed` are bookkeeping: every sandbox ever pulled and freed here, in order. `failed`
      records a broken assertion; `rotated`, that a rotation went past its early return. */
  datatype Worker = Worker(rq: seq<nat>, cleanup: seq<nat>, current: Option<nat>, phase: Phase,
                           pulled: seq<nat>, freed: seq<nat>, failed: bool, rotated: bool)

  /** What a steal returned: a sandbox, or None for -ENOENT and -EAGAIN alike. */
  datatype Step = IdleTurn(got: Option<nat>) | Resume | Alarm(got: Option<nat>) | Finish | Leave(got: Option<nat>)

  ghost predicate Init(k: Worker) {
    k == Worker([], [], None, Idle, [], [], false, false)
  }

  function Head(s: seq<nat>): Option<nat> {
    if s == [] then None else Some(s[0])
  }

  /** local_runqueue_list_append, whose assertion is that the node is on no list. */
  function Append(k: Worker, x: nat): Worker {
    k.(rq := k.rq + [x], failed := k.failed || x in k.rq || x in k.cleanup)
  }

  /** scheduler_fifo_get_next. A sandbox is stolen at most once, so a stolen one is new here. */
  function GetNext(k: Worker, got: Option<nat>): Worker {
    if k.rq == [] then
      if got.None? || got.value in k.pulled then k
      else Append(k.(pulled := k.pulled + [got.value]), got.value)
    else if k.current == Head(k.rq) then Rotate(k)
    else k
  }

  function Rotate(k: Worker): Worker
    requires k.rq != []
  {
    if |k.rq| == 1 then k else k.(rq := k.rq[1..] + [k.rq[0]], rotated := true)
  }

  function Free(k: Worker): Worker {
    k.(freed := k.freed + k.cleanup, cleanup := [])
  }

  function RemoveFrom(s: seq<nat>, x: nat): seq<nat> {
    if s == [] then [] else if s[0] == x then s[1..] else [s[0]] + RemoveFrom(s[1..], x)
  }

  function Next(k: Worker, step: Step): Worker {
    match step
    case IdleTurn(got) =>
      if k.phase != Idle then k else
      var k1 := GetNext(k, got);
      if k1.rq == [] then Free(k1) else k1.(current := Head(k1.rq), phase := Running)
    case Resume => if k.phase == BackAtBase then Free(k).(phase := Idle) else k
    case Alarm(got) =>
      if k.phase != Running then k else
      var k1 := GetNext(k, got);
      k1.(current := Head(k1.rq), failed := k1.failed || k1.rq == [])
    case Finish =>
      if k.phase != Running || k.current.None? then k
      else k.(rq := RemoveFrom(k.rq, k.current.value), phase := Exited)
    case Leave(got) => if k.phase == Exited && k.current.Some? then LeaveStep(k, k.current.value, got) else k
  }

  /** scheduler_cooperative_sched: free what was queued before, decide, then queue the exiting sandbox. */
  function LeaveStep(k: Worker, e: nat, got: Option<nat>): Worker {
    var k1 := GetNext(Free(k.(current := None)), got);
    var k2 := k1.(cleanup := k1.cleanup + [e], failed := k1.failed || e in k1.rq || e in k1.cleanup);
    if k2.rq == [] then k2.(phase := BackAtBase) else k2.(current := Head(k2.rq), phase := Running)
  }

  function Run(k: Worker, steps: seq<Step>): Worker {
    if steps == [] then k else Next(Run(k, steps[..|steps| - 1]), steps[|steps| - 1])
  }

  ghost predicate Distinct(s: seq<nat>) {
    forall i, j :: 0 <= i < j < |s| ==> s[i] != s[j]
  }

  function Active(k: Worker): seq<nat> {
    if k.current.Some? then [k.current.value] else []
  }

  /** Everything pulled is, in order: freed, waiting to be freed, or the one active sandbox. */
  ghost predicate Inv(k: Worker) {
    !k.failed && !k.rotated && Distinct(k.pulled) && k.pulled == k.freed + k.cleanup + Active(k) &&
    (k.phase == Running || k.phase == Exited <==> k.current.Some?) &&
    k.rq == if k.phase == Running then Active(k) else []
  }

  lemma PullKeeps(k: Worker, got: Option<nat>)
    requires k.rq == [] && k.current == None && Distinct(k.pulled) && !k.failed && !k.rotated
    requires k.pulled == k.freed + k.cleanup || exists e :: k.pulled == k.freed + k.cleanup + [e]
    ensures var k1 := GetNext(k, got);
            k1 == k.(rq := k1.rq, pulled := k.pulled + k1.rq) && |k1.rq| <= 1 && Distinct(k1.pulled) &&
            forall x :: x in k1.rq ==> x !in k.pulled
  {
    var k1 := GetNext(k, got);
    if k1.rq != [] {
      assert forall x :: x in k.cleanup ==> x in k.pulled;
    } else {
      assert k.pulled + [] == k.pulled;
    }
  }

  lemma LeaveKeepsInv(k: Worker, e: nat, got: Option<nat>)
    requires Inv(k) && k.phase == Exited && k.current == Some(e)
    ensures Inv(LeaveStep(k, e, got))
  {
    hide GetNext;
    var k0 := Free(k.(current := None));
    assert k0.pulled == k0.freed + k0.cleanup + [e];
    PullKeeps(k0, got);
    var k1 := GetNext(k0, got);
    assert k1.rq == [] || k1.rq == [k1.rq[0]];
    assert e in k0.pulled;
    var k' := LeaveStep(k, e, got);
    assert k1.rq != [] ==> k1.rq == [k1.rq[0]] && Active(k') == k1.rq;
    assert k'.pulled == k'.freed + k'.cleanup + Active(k');
  }

  lemma NextKeepsInv(k: Worker, step: Step)
    requires Inv(k)
    ensures Inv(Next(k, step))
  {
    match step
    case IdleTurn(got) =>
      if k.phase == Idle {
        PullKeeps(k, got);
        var k1 := GetNext(k, got);
        assert k1.rq != [] ==> k1.rq == [k1.rq[0]];
      }
    case Leave(got) =>
      if k.phase == Exited { LeaveKeepsInv(k, k.current.value, got); }
    case _ =>
  }

  lemma {:induction false} EveryRunKeepsInv(k: Worker, steps: seq<Step>)
    requires Init(k)
    ensures Inv(Run(k, steps))
  {
    if steps != [] {
      EveryRunKeepsInv(k, steps[..|steps| - 1]);
      NextKeepsInv(Run(k, steps[..|steps| - 1]), steps[|steps| - 1]);
    }
  }

  /** The runqueue never holds more than one sandbox, so a rotation always takes its early return, and no
      list assertion fails. */
  lemma AtMostOneQueued(k: Worker, steps: seq<Step>)
    requires Init(k)
    ensures var r := Run(k, steps); |r.rq| <= 1 && !r.rotated && !r.failed
  {
    EveryRunKeepsInv(k, steps);
  }

  /** A sandbox is never on the runqueue and the cleanup queue at once; each is freed at most once, only
      after it has left both queues, and in the order in which it was pulled. */
  lemma FreedOnceInOrder(k: Worker, steps: seq<Step>)
    requires Init(k)
    ensures var r := Run(k, steps);
            Distinct(r.freed) && r.freed <= r.pulled && Distinct(r.cleanup) &&
            (forall x :: x in r.rq ==> x !in r.cleanup && x !in r.freed) &&
            (forall x :: x in r.cleanup ==> x !in r.freed) &&
            (forall x :: x in r.pulled ==> x in r.freed || x in r.cleanup || r.current == Some(x))
  {
    EveryRunKeepsInv(k, steps);
    hide Run;
    Parts(Run(k, steps).freed, Run(k, steps).cleanup, Active(Run(k, steps)));
  }

  /** The parts of a sequence without repetition share nothing. */
  lemma Parts(a: seq<nat>, b: seq<nat>, c: seq<nat>)
    requires Distinct(a + b + c)
    ensures Distinct(a) && Distinct(b) && a <= a + b + c
    ensures (forall x :: x in b ==> x !in a) && (forall x :: x in c ==> x !in a && x !in b)
    ensures forall x :: x in a + b + c ==> x in a || x in b || x in c
  {
    var s := a + b + c;
    assert forall i :: 0 <= i < |a| ==> s[i] == a[i];
    assert forall i :: 0 <= i < |b| ==> s[|a| + i] == b[i];
    assert forall i :: 0 <= i < |c| ==> s[|a| + |b| + i] == c[i];
  }

  // ---------- What each step achieves ----------

  /** Whether a steal brings in a sandbox that is new here. */
  predicate Brings(k: Worker, got: Option<nat>) {
    got.Some? && got.value !in k.pulled
  }

  /** An idle worker runs a stolen sandbox at once, as the only one on its runqueue; without one it frees what waits. */
  lemma IdleTurnRunsTheStolen(k: Worker, steps: seq<Step>, got: Option<nat>)
    requires Init(k)
    ensures var r := Run(k, steps); var r' := Next(r, IdleTurn(got));
            r.phase == Idle ==>
              if Brings(r, got)
              then r' == r.(rq := [got.value], current := got, phase := Running, pulled := r.pulled + [got.value])
              else r' == r.(freed := r.freed + r.cleanup, cleanup := [])
  {
    EveryRunKeepsInv(k, steps);
    hide Run;
    NewIsNowhere(Run(k, steps), got);
  }

  lemma NewIsNowhere(r: Worker, got: Option<nat>)
    requires Inv(r)
    ensures Brings(r, got) ==> got.value !in r.cleanup && got.value !in r.rq
  {
    assert forall x :: x in r.cleanup ==> x in r.pulled;
    assert forall x :: x in Active(r) ==> x in r.pulled;
  }

  /** An alarm changes nothing, whatever could be stolen: the running sandbox is the only one queued and goes on. */
  lemma AlarmChangesNothing(k: Worker, steps: seq<Step>, got: Option<nat>)
    requires Init(k)
    ensures Run(k, steps).phase == Running ==> Next(Run(k, steps), Alarm(got)) == Run(k, steps)
  {
    EveryRunKeepsInv(k, steps);
  }

  /** A sandbox that finishes leaves the runqueue empty and stays current until it leaves. */
  lemma FinishEmptiesTheQueue(k: Worker, steps: seq<Step>)
    requires Init(k)
    ensures Run(k, steps).phase == Running ==> Next(Run(k, steps), Finish) == Run(k, steps).(rq := [], phase := Exited)
  {
    EveryRunKeepsInv(k, steps);
    var r := Run(k, steps);
    hide Run;
    if r.phase == Running {
      assert RemoveFrom(r.rq, r.rq[0]) == r.rq[1..];
      assert r.rq[1..] == [];
    }
  }

  /** A sandbox that leaves is the next to be freed, and those before it have been; a stolen sandbox takes over, or the
      base context when there is none. */
  lemma LeaveQueuesTheExited(k: Worker, steps: seq<Step>, got: Option<nat>)
    requires Init(k)
    ensures var r := Run(k, steps); var r' := Next(r, Leave(got));
            r.phase == Exited && r.current.Some? ==>
              r'.freed == r.freed + r.cleanup && r'.cleanup == [r.current.value] && !r'.failed &&
              if Brings(r, got)
              then r'.current == got && r'.rq == [got.value] && r'.phase == Running && r'.pulled == r.pulled + [got.value]
              else r'.current == None && r'.rq == [] && r'.phase == BackAtBase && r'.pulled == r.pulled
  {
    EveryRunKeepsInv(k, steps);
    var r := Run(k, steps);
    hide Run;
    NextKeepsInv(r, Leave(got));
  }

  /** Back at the base context, what waits is freed and the worker is idle. */
  lemma ResumeFrees(k: Worker, steps: seq<Step>)
    requires Init(k)
    ensures var r := Run(k, steps);
            r.phase == BackAtBase ==> Next(r, Resume) == r.(freed := r.freed + r.cleanup, cleanup := [], phase := Idle)
  {
  }
}
