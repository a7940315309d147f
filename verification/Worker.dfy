/** One worker thread: the idle loop, the cooperative and preemptive scheduler, the life of a sandbox,
    deferred alarms and context variants, as atomic steps between which a SIGALRM may arrive.

    The scheduling policy is left open: a decision may first pull one new sandbox from the global
    queue, and then returns a member of the local runqueue, or nothing exactly when that is empty.
    Every assertion and panic of the switch code is a `Panic` outcome here. */
module Worker {
  import opened Accounting
  import opened Options

  datatype Variant = Unused | Fast | Slow | Running

  /** How user code enters the runtime: a system call, the end of the program, or a trap. */
  datatype Entrance = Plain | Finish | Trap

  /** Where a thread of control stands. `who` is the context being left (None: the base context). */
  datatype Pc =
    // idle loop and cooperative scheduler
    | IdleCheck | IdleFree
    | CoopUnset(e: nat) | CoopClear(e: nat) | CoopCheck(e: nat)
    | Pick(who: Option<nat>)
    | SwitchSet(who: Option<nat>, n: nat) | SwitchSys(who: Option<nat>, n: nat)
    | SwitchBook(who: Option<nat>, n: nat) | SwitchContext(who: Option<nat>, n: nat)
    | AwaitUsr1(n: nat) | SwitchBase(e: nat)
    // sandbox code
    | Start
    | ReturnBook | ReturnCharge | ReturnSet
    | ReplayTest | ReplayClear | ReplayRaise
    | User
    | SysSet(k: Entrance) | SysBook(k: Entrance) | SysCharge(k: Entrance) | SysBody
    | FinishSet | FinishDelete | FinishBook | FinishCharge | ExitSet | ExitBook
    | ErrorSet | ErrorDelete | ErrorBook | ErrorCharge

  datatype Sandbox = Sandbox(state: SandboxState, variant: Variant, resume: Pc, tenant: nat, account: Account)

  /** `deferred` is deferred_sigalrm. `pending` is a SIGALRM raised by the replay and not yet delivered.
      `owed` is bookkeeping: an alarm was deferred and no scheduling decision has been taken since. */
  datatype State = State(
    sbs: map<nat, Sandbox>, rq: set<nat>, cur: Option<nat>, base: Variant, pc: Pc,
    deferred: nat, pending: bool, owed: bool, clock: nat, bank: Bank)

  datatype Outcome = Ok(s: State) | Panic

  /** A sandbox allocated and initialised by the listener, ready to be pulled. */
  datatype Arrival = Arrival(id: nat, tenant: nat, allocatedAt: nat, initializedAt: nat)

  datatype Choice = Choice(pull: Option<Arrival>, next: Option<nat>)

  datatype Act = Stay | Enter(k: Entrance)

  /** Times are gaps: each reading of the cycle counter is later than the one before. */
  datatype Step =
    | Work(gap: nat, act: Act, choice: Choice)
    | Alarm(gaps: (nat, nat, nat, nat), choice: Choice)
    | OtherCharge(tenant: nat, id: nat, amount: nat)
    | Replenish(tenant: nat)

  ghost predicate Init(s: State) {
    s.sbs == map[] && s.rq == {} && s.cur == None && s.base == Running && s.pc == IdleCheck &&
    s.deferred == 0 && !s.pending && !s.owed && BankOk(s.bank) && s.bank.ledger == []
  }

  // ---------- Transitions ----------

  function Put(s: State, id: nat, x: Sandbox): State {
    s.(sbs := s.sbs[id := x])
  }

  predicate CanBook(x: Sandbox, now: nat) {
    |x.account.spent| == STATE_COUNT && now > x.account.lastChange
  }

  function Booked(x: Sandbox, last: SandboxState, next: SandboxState, now: nat): Sandbox
    requires CanBook(x, now)
  {
    x.(account := Book(x.account, last, next, now))
  }

  function ChargeFor(s: State, id: nat, x: Sandbox): State {
    s.(bank := PostCharge(s.bank, x.tenant, id, x.account.lastDuration))
  }

  /** sandbox_alloc on the listener, then sandbox_prepare_execution_environment and
      sandbox_set_as_runnable on the worker. */
  function Fresh(a: Arrival, now: nat): Sandbox
    requires a.allocatedAt < a.initializedAt < now
  {
    var account := Book(Opened(a.allocatedAt), Allocated, Initialized, a.initializedAt);
    Sandbox(Runnable, Fast, Start, a.tenant, Book(account, Initialized, Runnable, now))
  }

  predicate Pullable(s: State, a: Arrival) {
    a.id !in s.sbs && a.allocatedAt < a.initializedAt <= s.clock &&
    forall e :: e in s.bank.ledger && e.Charge? ==> e.id != a.id
  }

  function Pulled(s: State, c: Choice, now: nat): State
    requires now > s.clock
  {
    if c.pull.None? || !Pullable(s, c.pull.value) then s
    else Put(s, c.pull.value.id, Fresh(c.pull.value, now)).(rq := s.rq + {c.pull.value.id})
  }

  /** What every policy's get_next promises. */
  predicate GoodPick(s: State, next: Option<nat>) {
    if next.None? then s.rq == {} else next.value in s.rq
  }

  function Next(s: State, step: Step): Outcome {
    match step
    case Work(gap, act, choice) =>
      if s.pending then Ok(s) else
      var now := s.clock + 1 + gap;
      if IsSandboxPc(s.pc) then
        if s.cur.None? || s.cur.value !in s.sbs then Panic
        else SandboxStep(s, s.cur.value, act, now)
      else SchedulerStep(s, choice, now)
    case Alarm(gaps, choice) =>
      var t1 := s.clock + 1 + gaps.0;
      var t2 := t1 + 1 + gaps.1;
      var t3 := t2 + 1 + gaps.2;
      AlarmStep(s, choice, t1, t2, t3, t3 + 1 + gaps.3)
    case OtherCharge(tenant, id, amount) =>
      if id in s.sbs then Ok(s) else Ok(s.(bank := PostCharge(s.bank, tenant, id, amount)))
    case Replenish(tenant) => Ok(s.(bank := PostRefill(s.bank, tenant)))
  }

  predicate IsSandboxPc(pc: Pc) {
    pc.Start? || pc.ReturnBook? || pc.ReturnCharge? || pc.ReturnSet? || IsUserPc(pc) ||
    pc.SysBook? || pc.SysCharge? || pc.SysBody? || pc.FinishSet? || pc.FinishDelete? || pc.FinishBook? ||
    pc.FinishCharge? || pc.ExitSet? || pc.ExitBook? || pc.ErrorSet? || pc.ErrorDelete? || pc.ErrorBook? ||
    pc.ErrorCharge?
  }

  /** The points at which a sandbox is in RUNNING_USER and may be preempted. */
  predicate IsUserPc(pc: Pc) {
    pc.ReplayTest? || pc.ReplayClear? || pc.ReplayRaise? || pc.User? || pc.SysSet?
  }

  /** Set the state of the current sandbox and go on to `pc`. */
  function Becomes(s: State, c: nat, state: SandboxState, pc: Pc): Outcome
    requires c in s.sbs
  {
    Ok(Put(s, c, s.sbs[c].(state := state)).(pc := pc))
  }

  function Books(s: State, c: nat, last: SandboxState, next: SandboxState, pc: Pc, now: nat): Outcome
    requires c in s.sbs
  {
    if !CanBook(s.sbs[c], now) then Panic
    else Ok(Put(s, c, Booked(s.sbs[c], last, next, now)).(pc := pc, clock := now))
  }

  function Charges(s: State, c: nat, pc: Pc): Outcome
    requires c in s.sbs
  {
    Ok(ChargeFor(s, c, s.sbs[c]).(pc := pc))
  }

  function Deletes(s: State, c: nat, pc: Pc): Outcome {
    if c in s.rq then Ok(s.(rq := s.rq - {c}, pc := pc)) else Panic
  }

  function SandboxStep(s: State, c: nat, act: Act, now: nat): Outcome
    requires c in s.sbs
  {
    var state := s.sbs[c].state;
    match s.pc
    case Start => if state == RunningSys then Ok(s.(pc := ReturnBook)) else Panic
    case ReturnBook => if state == RunningSys then Books(s, c, RunningSys, RunningUser, ReturnCharge, now) else Panic
    case ReturnCharge => Charges(s, c, ReturnSet)
    case ReturnSet => Becomes(s, c, RunningUser, ReplayTest)
    case ReplayTest => Ok(s.(pc := if s.deferred > 0 then ReplayClear else User))
    case ReplayClear => Ok(s.(deferred := 0, pc := ReplayRaise))
    case ReplayRaise => Ok(s.(pending := true, pc := User))
    case User => Ok(if act.Enter? then s.(pc := SysSet(act.k)) else s)
    case SysSet(k) => if state == RunningUser then Becomes(s, c, RunningSys, SysBook(k)) else Panic
    case SysBook(k) => Books(s, c, RunningUser, RunningSys, SysCharge(k), now)
    case SysCharge(k) => Charges(s, c, if k.Plain? then SysBody else if k.Finish? then FinishSet else ErrorSet)
    case SysBody => Ok(s.(pc := ReturnBook))
    case FinishSet => if state == RunningSys then Becomes(s, c, Returned, FinishDelete) else Panic
    case FinishDelete => Deletes(s, c, FinishBook)
    case FinishBook => Books(s, c, RunningSys, Returned, FinishCharge, now)
    case FinishCharge => Charges(s, c, ExitSet)
    case ExitSet => if state == Returned then Becomes(s, c, Complete, ExitBook) else Panic
    case ExitBook => Books(s, c, Returned, Complete, CoopUnset(c), now)
    case ErrorSet => if state == RunningSys then Becomes(s, c, Error, ErrorDelete) else Panic
    case ErrorDelete => Deletes(s, c, ErrorBook)
    case ErrorBook => Books(s, c, RunningSys, Error, ErrorCharge, now)
    case ErrorCharge => Charges(s, c, CoopUnset(c))
    case _ => Panic
  }

  function SchedulerStep(s: State, choice: Choice, now: nat): Outcome
    requires now > s.clock
  {
    match s.pc
    case IdleCheck => if s.cur.Some? || s.deferred != 0 then Panic else Ok(s.(pc := Pick(None)))
    case IdleFree => Ok(s.(pc := IdleCheck))
    case CoopUnset(e) => if s.cur.None? then Panic else Ok(s.(cur := None, pc := CoopClear(e)))
    case CoopClear(e) => Ok(s.(deferred := 0, pc := CoopCheck(e)))
    case CoopCheck(e) => if s.cur.Some? || s.deferred != 0 then Panic else Ok(s.(pc := Pick(Some(e))))
    case Pick(who) => PickStep(s, who, choice, now)
    case SwitchSet(who, n) => SwitchSetStep(s, who, n)
    case SwitchSys(who, n) =>
      if n !in s.sbs then Panic else Becomes(s, n, RunningSys, SwitchBook(who, n))
    case SwitchBook(who, n) =>
      if n !in s.sbs then Panic else Books(s, n, Runnable, RunningSys, SwitchContext(who, n), now)
    case SwitchContext(who, n) => SwitchContextStep(s, who, n)
    case AwaitUsr1(n) =>
      if s.cur != Some(n) || n !in s.sbs || s.sbs[n].state != Preempted || s.sbs[n].variant != Slow then Panic
      else SwitchTo(s, n, now)
    case SwitchBase(e) =>
      if s.base != Fast || e !in s.sbs || s.sbs[e].variant != Running then Panic
      else Ok(Put(s, e, s.sbs[e].(variant := Fast)).(base := Running, pc := IdleFree))
    case _ => Panic
  }

  /** A decision of the idle loop or the cooperative scheduler. Getting the exiting sandbox itself back
      needs a sleep and a wakeup, which no run has. */
  function PickStep(s: State, who: Option<nat>, choice: Choice, now: nat): Outcome
    requires now > s.clock
  {
    var s1 := Pulled(s, choice, now);
    if !GoodPick(s1, choice.next) then Ok(s) else
    var s2 := s1.(owed := false, clock := now);
    if choice.next.None? then Ok(s2.(pc := if who.None? then IdleFree else SwitchBase(who.value)))
    else if choice.next == who then Panic
    else Ok(s2.(pc := SwitchSet(who, choice.next.value)))
  }

  /** scheduler_cooperative_switch_to, up to the context switch. */
  function SwitchSetStep(s: State, who: Option<nat>, n: nat): Outcome {
    if s.cur.Some? || n !in s.sbs then Panic else
    match s.sbs[n].state
    case Runnable => if s.sbs[n].variant != Fast then Panic else Ok(s.(cur := Some(n), pc := SwitchSys(who, n)))
    case Preempted => if s.sbs[n].variant != Slow then Panic else Ok(s.(cur := Some(n), pc := SwitchContext(who, n)))
    case _ => Panic
  }

  function ContextOf(s: State, who: Option<nat>): Variant {
    if who.None? then s.base else if who.value in s.sbs then s.sbs[who.value].variant else Unused
  }

  function SetContext(s: State, who: Option<nat>, v: Variant): State {
    if who.None? then s.(base := v)
    else if who.value in s.sbs then Put(s, who.value, s.sbs[who.value].(variant := v)) else s
  }

  /** arch_context_switch: a Slow target is restored by a SIGUSR1 that is raised right away. */
  function SwitchContextStep(s: State, who: Option<nat>, n: nat): Outcome {
    if who == Some(n) || ContextOf(s, who) != Running || n !in s.sbs then Panic else
    var s1 := SetContext(s, who, Fast);
    match s.sbs[n].variant
    case Fast => Ok(SetContext(s1, Some(n), Running).(pc := s.sbs[n].resume))
    case Slow => Ok(s1.(pc := AwaitUsr1(n)))
    case _ => Panic
  }

  /** scheduler_preemptive_switch_to, with the replay at the end of sandbox_set_as_running_user. Inside
      the handler signals are masked, so a replayed SIGALRM stays pending until the handler returns. */
  function SwitchTo(s: State, n: nat, now: nat): Outcome
    requires n in s.sbs
  {
    var x := s.sbs[n];
    if !CanBook(x, now) then Panic else
    match x.variant
    case Fast =>
      if x.state != Runnable then Panic else
      Ok(Put(s, n, Booked(x, Runnable, RunningSys, now).(variant := Running, state := RunningSys))
         .(cur := Some(n), pc := x.resume, clock := now))
    case Slow =>
      if x.state != Preempted then Panic else
      Ok(Put(s, n, Booked(x, Preempted, RunningUser, now).(variant := Running, state := RunningUser))
         .(cur := Some(n), pc := x.resume, clock := now,
           deferred := 0, pending := s.pending || s.deferred > 0))
    case _ => Panic
  }

  /** The SIGALRM case of the handler, atomic because signals are masked while it runs. */
  function AlarmStep(s: State, choice: Choice, t1: nat, t2: nat, t3: nat, t4: nat): Outcome
    requires s.clock < t1 < t2 < t3 < t4
  {
    if s.cur.None? then Ok(s.(pending := false))
    else if s.cur.value !in s.sbs then Panic
    else if s.sbs[s.cur.value].state != RunningUser then
      Ok(s.(deferred := s.deferred + 1, owed := true, pending := false))
    else PreemptiveSched(s, s.cur.value, choice, t1, t2, t3, t4)
  }

  function InterruptedAt(s: State, c: nat, now: nat): State
    requires c in s.sbs && CanBook(s.sbs[c], now)
  {
    var x := Booked(s.sbs[c], RunningUser, Interrupted, now).(state := Interrupted);
    ChargeFor(Put(s, c, x), c, x).(clock := now, pending := false)
  }

  function PreemptiveSched(s: State, c: nat, choice: Choice, t1: nat, t2: nat, t3: nat, t4: nat): Outcome
    requires c in s.sbs && s.clock < t1 < t2 < t3 < t4
  {
    if !CanBook(s.sbs[c], t1) then Panic else
    var s1 := Pulled(InterruptedAt(s, c, t1), choice, t2).(clock := t2);
    if !GoodPick(s1, choice.next) then Ok(s)
    else if c !in s1.sbs then Panic
    else Dispatch(s1, c, choice.next, t3, t4)
  }

  /** The interrupted sandbox goes on, or is preempted in favour of `next`. */
  function Dispatch(s: State, c: nat, next: Option<nat>, t3: nat, t4: nat): Outcome
    requires c in s.sbs
  {
    if next.None? || next.value !in s.sbs || !CanBook(s.sbs[c], t3) then Panic
    else if next.value == c then
      Ok(Put(s, c, s.sbs[c].(state := RunningUser, account := BookReturn(s.sbs[c].account, RunningUser, t3)))
         .(clock := t3, owed := false))
    else if s.sbs[c].variant != Running then Panic
    else SwitchTo(PreemptedAt(s, c, t3), next.value, t4)
  }

  function PreemptedAt(s: State, c: nat, now: nat): State
    requires c in s.sbs && CanBook(s.sbs[c], now)
  {
    Put(s, c, Booked(s.sbs[c], Interrupted, Preempted, now).(state := Preempted, variant := Slow, resume := s.pc))
      .(clock := now, owed := false)
  }

  function Run(s: State, steps: seq<Step>): Outcome {
    if steps == [] then Ok(s) else
    var r := Run(s, steps[..|steps| - 1]);
    if r.Panic? then Panic else Next(r.s, steps[|steps| - 1])
  }

  // ---------- The invariant ----------

  /** The state of the current sandbox at each point of its own code. */
  function StateAt(pc: Pc): SandboxState {
    if IsUserPc(pc) then RunningUser
    else if pc.FinishDelete? || pc.FinishBook? || pc.FinishCharge? || pc.ExitSet? then Returned
    else if pc.ExitBook? then Complete
    else if pc.ErrorDelete? || pc.ErrorBook? || pc.ErrorCharge? then Error
    else RunningSys
  }

  /** After its runqueue delete a sandbox is no longer scheduled. */
  predicate Departed(pc: Pc) {
    pc.FinishBook? || pc.FinishCharge? || pc.ExitSet? || pc.ExitBook? || pc.ErrorBook? || pc.ErrorCharge?
  }

  /** A sandbox waiting its turn: fresh and Fast, or preempted in user state and Slow. */
  ghost predicate Waiting(x: Sandbox) {
    (x.state == Runnable && x.variant == Fast && x.resume == Start) ||
    (x.state == Preempted && x.variant == Slow && IsUserPc(x.resume))
  }

  /** The context being left is the running one; a sandbox being left is off the runqueue. */
  ghost predicate Leaving(s: State, who: Option<nat>) {
    if who.None? then s.base == Running
    else s.base == Fast && who.value in s.sbs && s.sbs[who.value].variant == Running && who.value !in s.rq
  }

  ghost predicate CurrentIs(s: State, n: nat, state: SandboxState, v: Variant) {
    s.cur == Some(n) && n in s.sbs && n in s.rq && s.sbs[n].state == state && s.sbs[n].variant == v
  }

  ghost predicate Control(s: State) {
    match s.pc
    case IdleCheck => s.cur == None && s.deferred == 0 && s.base == Running
    case IdleFree => s.cur == None && s.deferred == 0 && s.base == Running
    case CoopUnset(e) => s.cur == Some(e) && Leaving(s, Some(e)) && s.sbs[e].state != RunningUser
    case CoopClear(e) => s.cur == None && Leaving(s, Some(e))
    case CoopCheck(e) => s.cur == None && s.deferred == 0 && Leaving(s, Some(e))
    case Pick(who) => s.cur == None && s.deferred == 0 && Leaving(s, who)
    case SwitchSet(who, n) => s.cur == None && s.deferred == 0 && Leaving(s, who) && n in s.rq && who != Some(n)
    case SwitchSys(who, n) =>
      Leaving(s, who) && who != Some(n) && CurrentIs(s, n, Runnable, Fast) && s.sbs[n].resume == Start
    case SwitchBook(who, n) =>
      Leaving(s, who) && who != Some(n) && CurrentIs(s, n, RunningSys, Fast) && s.sbs[n].resume == Start
    case SwitchContext(who, n) =>
      Leaving(s, who) && who != Some(n) &&
      ((CurrentIs(s, n, RunningSys, Fast) && s.sbs[n].resume == Start) ||
       (CurrentIs(s, n, Preempted, Slow) && IsUserPc(s.sbs[n].resume)))
    case AwaitUsr1(n) => s.base == Fast && CurrentIs(s, n, Preempted, Slow) && IsUserPc(s.sbs[n].resume)
    case SwitchBase(e) => s.cur == None && s.deferred == 0 && Leaving(s, Some(e))
    case _ => SandboxControl(s)
  }

  /** Control inside sandbox code. */
  ghost predicate SandboxControl(s: State) {
    s.base == Fast && s.cur.Some? && s.cur.value in s.sbs &&
    s.sbs[s.cur.value].state == StateAt(s.pc) && s.sbs[s.cur.value].variant == Running &&
    (s.cur.value in s.rq <==> !Departed(s.pc)) &&
    (s.pc.ReplayRaise? || s.pc.User? || s.pc.SysSet? ==> s.deferred == 0)
  }

  ghost predicate Queue(s: State) {
    forall id :: id in s.rq ==> id in s.sbs && (s.cur == Some(id) || Waiting(s.sbs[id]))
  }

  ghost predicate Alarms(s: State) {
    (s.pending ==> IsUserPc(s.pc)) &&
    (s.owed ==> s.deferred > 0 || s.pending || s.pc.ReplayRaise? || s.pc.CoopCheck? ||
                (s.pc.Pick? && s.pc.who.Some?))
  }

  /** Booked and not yet charged: the current sandbox stands right before its charge. */
  predicate IsChargePc(pc: Pc) {
    pc.ReturnCharge? || pc.SysCharge? || pc.FinishCharge? || pc.ErrorCharge?
  }

  function Uncharged(s: State, id: nat): nat
    requires id in s.sbs
  {
    if s.cur == Some(id) && s.sbs[id].tenant in s.bank.max && IsChargePc(s.pc)
    then s.sbs[id].account.lastDuration else 0
  }

  ghost predicate AccountOk(s: State, id: nat)
    requires id in s.sbs
  {
    var x := s.sbs[id];
    TimeConserved(x.account) && x.account.lastChange <= s.clock &&
    ChargedTo(s.bank.ledger, x.tenant, id) + Uncharged(s, id) == if x.tenant in s.bank.max then Executed(x.account) else 0
  }

  ghost predicate Accounts(s: State) {
    BankOk(s.bank) && forall id :: id in s.sbs ==> AccountOk(s, id)
  }

  ghost predicate Inv(s: State) {
    Control(s) && Queue(s) && Alarms(s) && Accounts(s)
  }

  ghost predicate Good(o: Outcome) {
    o.Ok? && Inv(o.s)
  }

  lemma InitInv(s: State)
    requires Init(s)
    ensures Inv(s)
  {
  }

  // ---------- Steps of sandbox code ----------

  /** A step that moves only the control: no account and no charge changes. */
  lemma AccountsFrame(s: State, s': State)
    requires Accounts(s) && s'.bank == s.bank && s'.clock >= s.clock && s'.sbs.Keys == s.sbs.Keys
    requires forall id :: id in s.sbs ==>
      s'.sbs[id].account == s.sbs[id].account && s'.sbs[id].tenant == s.sbs[id].tenant &&
      Uncharged(s', id) == Uncharged(s, id)
    ensures Accounts(s')
  {
    forall id | id in s'.sbs ensures AccountOk(s', id) {
      assert AccountOk(s, id);
    }
  }

  /** The sandboxes stay as they are, and nothing is between a booking and its charge. */
  lemma AccountsQuiet(s: State, s': State)
    requires Accounts(s) && s'.bank == s.bank && s'.clock == s.clock && s'.sbs == s.sbs
    requires !IsChargePc(s.pc) && !IsChargePc(s'.pc)
    ensures Accounts(s')
  {
    forall id | id in s'.sbs ensures AccountOk(s', id) {
      assert AccountOk(s, id);
    }
  }

  /** One sandbox changes, but not its account or tenant. */
  lemma AccountsPut(s: State, s': State, c: nat)
    requires Accounts(s) && s'.bank == s.bank && s'.clock == s.clock && c in s.sbs && c in s'.sbs
    requires s'.sbs == s.sbs[c := s'.sbs[c]]
    requires s'.sbs[c].account == s.sbs[c].account && s'.sbs[c].tenant == s.sbs[c].tenant
    requires !IsChargePc(s.pc) && !IsChargePc(s'.pc)
    ensures Accounts(s')
  {
    forall id | id in s'.sbs ensures AccountOk(s', id) {
      assert AccountOk(s, id);
    }
  }

  lemma QueueFrame(s: State, s': State)
    requires Queue(s) && s'.rq <= s.rq && s'.cur == s.cur && s'.sbs.Keys == s.sbs.Keys
    requires forall id :: id in s.sbs && s.cur != Some(id) ==> s'.sbs[id] == s.sbs[id]
    ensures Queue(s')
  {
  }

  lemma SandboxControlIsControl(s: State)
    requires IsSandboxPc(s.pc)
    ensures Control(s) <==> SandboxControl(s)
  {
  }

  /** Reassemble the invariant after a step of sandbox code by sandbox `c`. */
  lemma Reassemble(s: State, s': State)
    requires Inv(s) && IsSandboxPc(s.pc) && IsSandboxPc(s'.pc)
    requires SandboxControl(s') && Alarms(s') && Accounts(s')
    requires s'.rq <= s.rq && s'.cur == s.cur && s'.sbs.Keys == s.sbs.Keys
    requires forall id :: id in s.sbs && s.cur != Some(id) ==> s'.sbs[id] == s.sbs[id]
    ensures Good(Ok(s'))
  {
    hide Accounts, Alarms, SandboxControl, Queue;
    SandboxControlIsControl(s');
    QueueFrame(s, s');
  }

  lemma MoveKeepsInv(s: State, s': State)
    requires Inv(s) && IsSandboxPc(s.pc) && IsSandboxPc(s'.pc) && !s.pending
    requires s' == s.(pc := s'.pc, deferred := s'.deferred, pending := s'.pending)
    requires StateAt(s'.pc) == StateAt(s.pc) && Departed(s'.pc) == Departed(s.pc)
    requires !IsChargePc(s.pc) && !IsChargePc(s'.pc)
    requires s'.pc.ReplayRaise? || s'.pc.User? || s'.pc.SysSet? ==> s'.deferred == 0
    requires Alarms(s')
    ensures Good(Ok(s'))
  {
    hide Accounts, Alarms, Queue, StateAt, Departed;
    SandboxControlIsControl(s);
    AccountsFrame(s, s');
    Reassemble(s, s');
  }

  lemma BecomesKeepsInv(s: State, c: nat, state: SandboxState, pc: Pc)
    requires Inv(s) && IsSandboxPc(s.pc) && s.cur == Some(c) && IsSandboxPc(pc) && !s.pending
    requires state == StateAt(pc) && Departed(pc) == Departed(s.pc)
    requires !IsChargePc(s.pc) && !IsChargePc(pc)
    requires !pc.ReplayRaise? && !pc.User? && !pc.SysSet? && !s.pc.ReplayRaise?
    ensures c in s.sbs && Good(Becomes(s, c, state, pc))
  {
    hide Accounts, Queue, StateAt, Departed, Control;
    SandboxControlIsControl(s);
    var s' := Becomes(s, c, state, pc).s;
    AccountsPut(s, s', c);
    Reassemble(s, s');
  }

  lemma DeletesKeepsInv(s: State, c: nat, pc: Pc)
    requires Inv(s) && s.cur == Some(c) && !s.pending
    requires (s.pc.FinishDelete? && pc.FinishBook?) || (s.pc.ErrorDelete? && pc.ErrorBook?)
    ensures Good(Deletes(s, c, pc))
  {
    hide Accounts, Queue, Control;
    SandboxControlIsControl(s);
    var s' := Deletes(s, c, pc).s;
    AccountsQuiet(s, s');
    Reassemble(s, s');
  }

  /** Booking the state `last` that just ended. What it adds to the executed time is exactly what is
      then waiting to be charged. */
  lemma BookKeepsAccounts(s: State, s': State, c: nat, last: SandboxState, next: SandboxState, now: nat)
    requires Accounts(s) && c in s.sbs && s.cur == Some(c) && !IsChargePc(s.pc)
    requires CanBook(s.sbs[c], now) && now > s.clock && s'.clock == now && s'.bank == s.bank
    requires s'.sbs.Keys == s.sbs.Keys && s'.sbs[c].tenant == s.sbs[c].tenant
    requires s'.sbs[c].account == Book(s.sbs[c].account, last, next, now)
    requires forall id :: id in s.sbs && id != c ==> s'.sbs[id] == s.sbs[id]
    requires if last == RunningUser || last == RunningSys then s'.cur == s.cur && IsChargePc(s'.pc)
             else !IsChargePc(s'.pc)
    ensures Accounts(s')
  {
    assert AccountOk(s, c);
    BookConserves(s.sbs[c].account, last, next, now);
    BookExecuted(s.sbs[c].account, last, next, now);
    hide Book;
    forall id | id in s'.sbs ensures AccountOk(s', id) {
      assert AccountOk(s, id);
    }
  }

  lemma CanBookCurrent(s: State, c: nat, now: nat)
    requires Accounts(s) && c in s.sbs && now > s.clock
    ensures CanBook(s.sbs[c], now)
  {
    assert AccountOk(s, c);
  }

  lemma BooksKeepsInv(s: State, c: nat, last: SandboxState, next: SandboxState, pc: Pc, now: nat)
    requires Inv(s) && IsSandboxPc(s.pc) && s.cur == Some(c) && now > s.clock && !s.pending
    requires IsSandboxPc(pc) && IsChargePc(pc) && !IsChargePc(s.pc) && !IsUserPc(s.pc)
    requires StateAt(pc) == StateAt(s.pc) && Departed(pc) == Departed(s.pc)
    requires last == RunningUser || last == RunningSys
    ensures c in s.sbs && Good(Books(s, c, last, next, pc, now))
  {
    hide Accounts, Queue, StateAt, Departed, Book;
    SandboxControlIsControl(s);
    CanBookCurrent(s, c, now);
    var s' := Books(s, c, last, next, pc, now).s;
    BookKeepsAccounts(s, s', c, last, next, now);
    Reassemble(s, s');
  }

  lemma ExitBookKeepsInv(s: State, c: nat, now: nat)
    requires Inv(s) && s.pc.ExitBook? && s.cur == Some(c) && now > s.clock && !s.pending
    ensures c in s.sbs && Good(Books(s, c, Returned, Complete, CoopUnset(c), now))
  {
    hide Accounts, Queue, Book;
    CanBookCurrent(s, c, now);
    var s' := Books(s, c, Returned, Complete, CoopUnset(c), now).s;
    BookKeepsAccounts(s, s', c, Returned, Complete, now);
    QueueFrame(s, s');
  }

  lemma ChargesKeepsAccounts(s: State, c: nat, pc: Pc)
    requires Accounts(s) && s.cur == Some(c) && c in s.sbs && IsChargePc(s.pc) && !IsChargePc(pc)
    ensures Accounts(Charges(s, c, pc).s)
  {
    hide PostCharge;
    var s' := Charges(s, c, pc).s;
    PostChargeOk(s.bank, s.sbs[c].tenant, c, s.sbs[c].account.lastDuration);
    forall id | id in s'.sbs ensures AccountOk(s', id) {
      assert AccountOk(s, id);
    }
  }

  lemma ChargesKeepsInv(s: State, c: nat, pc: Pc)
    requires Inv(s) && s.cur == Some(c) && !s.pending && IsSandboxPc(s.pc) && IsSandboxPc(pc)
    requires IsChargePc(s.pc) && !IsChargePc(pc) && !IsUserPc(pc)
    requires StateAt(pc) == StateAt(s.pc) && Departed(pc) == Departed(s.pc)
    ensures c in s.sbs && Good(Charges(s, c, pc))
  {
    hide Accounts, Queue, PostCharge, StateAt, Departed;
    SandboxControlIsControl(s);
    ChargesKeepsAccounts(s, c, pc);
    Reassemble(s, Charges(s, c, pc).s);
  }

  lemma ErrorChargeKeepsInv(s: State, c: nat)
    requires Inv(s) && s.cur == Some(c) && !s.pending && s.pc.ErrorCharge?
    ensures c in s.sbs && Good(Charges(s, c, CoopUnset(c)))
  {
    hide Accounts, Queue, PostCharge;
    SandboxControlIsControl(s);
    ChargesKeepsAccounts(s, c, CoopUnset(c));
    QueueFrame(s, Charges(s, c, CoopUnset(c)).s);
  }

  lemma MoveStepKeepsInv(s: State, c: nat, act: Act, now: nat)
    requires Inv(s) && s.cur == Some(c) && !s.pending
    requires s.pc.Start? || s.pc.ReplayTest? || s.pc.ReplayClear? || s.pc.ReplayRaise? || s.pc.User? || s.pc.SysBody?
    ensures c in s.sbs && Good(SandboxStep(s, c, act, now))
  {
    hide Accounts, Queue, Control;
    SandboxControlIsControl(s);
    MoveKeepsInv(s, SandboxStep(s, c, act, now).s);
  }

  lemma ReturnStepKeepsInv(s: State, c: nat, act: Act, now: nat)
    requires Inv(s) && s.cur == Some(c) && !s.pending && now > s.clock
    requires s.pc.ReturnBook? || s.pc.ReturnCharge? || s.pc.ReturnSet?
    ensures c in s.sbs && Good(SandboxStep(s, c, act, now))
  {
    hide Accounts, Queue, Good, Control, Alarms;
    SandboxControlIsControl(s);
    if s.pc.ReturnBook? {
      BooksKeepsInv(s, c, RunningSys, RunningUser, ReturnCharge, now);
    } else if s.pc.ReturnCharge? {
      ChargesKeepsInv(s, c, ReturnSet);
    } else {
      BecomesKeepsInv(s, c, RunningUser, ReplayTest);
    }
  }

  lemma SysStepKeepsInv(s: State, c: nat, act: Act, now: nat)
    requires Inv(s) && s.cur == Some(c) && !s.pending && now > s.clock
    requires s.pc.SysSet? || s.pc.SysBook? || s.pc.SysCharge?
    ensures c in s.sbs && Good(SandboxStep(s, c, act, now))
  {
    hide Accounts, Queue, Good, Control, Alarms;
    SandboxControlIsControl(s);
    var k := s.pc.k;
    if s.pc.SysSet? {
      BecomesKeepsInv(s, c, RunningSys, SysBook(k));
    } else if s.pc.SysBook? {
      BooksKeepsInv(s, c, RunningUser, RunningSys, SysCharge(k), now);
    } else {
      ChargesKeepsInv(s, c, if k.Plain? then SysBody else if k.Finish? then FinishSet else ErrorSet);
    }
  }

  lemma FinishStepKeepsInv(s: State, c: nat, act: Act, now: nat)
    requires Inv(s) && s.cur == Some(c) && !s.pending && now > s.clock
    requires s.pc.FinishSet? || s.pc.FinishDelete? || s.pc.FinishBook? || s.pc.FinishCharge?
    ensures c in s.sbs && Good(SandboxStep(s, c, act, now))
  {
    hide Accounts, Queue, Good, Control, Alarms;
    SandboxControlIsControl(s);
    if s.pc.FinishSet? {
      BecomesKeepsInv(s, c, Returned, FinishDelete);
    } else if s.pc.FinishDelete? {
      DeletesKeepsInv(s, c, FinishBook);
    } else if s.pc.FinishBook? {
      BooksKeepsInv(s, c, RunningSys, Returned, FinishCharge, now);
    } else {
      ChargesKeepsInv(s, c, ExitSet);
    }
  }

  lemma ExitStepKeepsInv(s: State, c: nat, act: Act, now: nat)
    requires Inv(s) && s.cur == Some(c) && !s.pending && now > s.clock && (s.pc.ExitSet? || s.pc.ExitBook?)
    ensures c in s.sbs && Good(SandboxStep(s, c, act, now))
  {
    hide Accounts, Queue, Good, Control, Alarms;
    SandboxControlIsControl(s);
    if s.pc.ExitSet? {
      BecomesKeepsInv(s, c, Complete, ExitBook);
    } else {
      ExitBookKeepsInv(s, c, now);
    }
  }

  lemma ErrorStepKeepsInv(s: State, c: nat, act: Act, now: nat)
    requires Inv(s) && s.cur == Some(c) && !s.pending && now > s.clock
    requires s.pc.ErrorSet? || s.pc.ErrorDelete? || s.pc.ErrorBook? || s.pc.ErrorCharge?
    ensures c in s.sbs && Good(SandboxStep(s, c, act, now))
  {
    hide Accounts, Queue, Good, Control, Alarms;
    SandboxControlIsControl(s);
    if s.pc.ErrorSet? {
      BecomesKeepsInv(s, c, Error, ErrorDelete);
    } else if s.pc.ErrorDelete? {
      DeletesKeepsInv(s, c, ErrorBook);
    } else if s.pc.ErrorBook? {
      BooksKeepsInv(s, c, RunningSys, Error, ErrorCharge, now);
    } else {
      ErrorChargeKeepsInv(s, c);
    }
  }

  lemma SandboxStepKeepsInv(s: State, act: Act, now: nat)
    requires Inv(s) && IsSandboxPc(s.pc) && !s.pending && now > s.clock
    ensures s.cur.Some? && s.cur.value in s.sbs && Good(SandboxStep(s, s.cur.value, act, now))
  {
    SandboxControlIsControl(s);
    var c := s.cur.value;
    hide Inv, Control, Good, SandboxStep;
    if s.pc.ReturnBook? || s.pc.ReturnCharge? || s.pc.ReturnSet? {
      ReturnStepKeepsInv(s, c, act, now);
    } else if s.pc.SysSet? || s.pc.SysBook? || s.pc.SysCharge? {
      SysStepKeepsInv(s, c, act, now);
    } else if s.pc.ErrorSet? || s.pc.ErrorDelete? || s.pc.ErrorBook? || s.pc.ErrorCharge? {
      ErrorStepKeepsInv(s, c, act, now);
    } else if s.pc.Start? || s.pc.SysBody? || IsUserPc(s.pc) {
      MoveStepKeepsInv(s, c, act, now);
    } else if s.pc.ExitSet? || s.pc.ExitBook? {
      ExitStepKeepsInv(s, c, act, now);
    } else {
      FinishStepKeepsInv(s, c, act, now);
    }
  }

  // ---------- Steps of the scheduler ----------

  /** Sandboxes other than the new and the old current one keep their place in the queue. */
  lemma QueueSwitch(s: State, s': State)
    requires Queue(s) && s'.rq == s.rq && s'.sbs.Keys == s.sbs.Keys
    requires forall id :: id in s.rq && s'.cur != Some(id) ==> s.cur != Some(id) && s'.sbs[id] == s.sbs[id]
    ensures Queue(s')
  {
  }

  lemma FreshAccount(a: Arrival, now: nat)
    requires a.allocatedAt < a.initializedAt < now
    ensures var x := Fresh(a, now);
            TimeConserved(x.account) && x.account.lastChange == now && Executed(x.account) == 0 && Waiting(x) && x.tenant == a.tenant
  {
    var start := Opened(a.allocatedAt);
    OpenedConserves(a.allocatedAt);
    BookConserves(start, Allocated, Initialized, a.initializedAt);
    BookExecuted(start, Allocated, Initialized, a.initializedAt);
    var booked := Book(start, Allocated, Initialized, a.initializedAt);
    BookConserves(booked, Initialized, Runnable, now);
    BookExecuted(booked, Initialized, Runnable, now);
  }

  /** A pull adds at most one waiting sandbox and disturbs nothing else. */
  ghost predicate Extends(s: State, s1: State) {
    s.rq <= s1.rq && s1 == s.(sbs := s1.sbs, rq := s1.rq) &&
    (forall id :: id in s.sbs ==> id in s1.sbs && s1.sbs[id] == s.sbs[id] && (id in s1.rq ==> id in s.rq))
  }

  lemma PullKeeps(s: State, c: Choice, now: nat)
    requires Accounts(s) && Queue(s) && now > s.clock && (s.cur.Some? ==> s.cur.value in s.sbs)
    ensures Extends(s, Pulled(s, c, now))
    ensures Queue(Pulled(s, c, now)) && Accounts(Pulled(s, c, now).(clock := now))
  {
    var s1 := Pulled(s, c, now);
    if s1 == s {
      AccountsFrame(s, s1.(clock := now));
    } else {
      AdoptKeeps(s, c.pull.value, now);
    }
  }

  lemma AdoptKeeps(s: State, a: Arrival, now: nat)
    requires Accounts(s) && Queue(s) && now > s.clock && (s.cur.Some? ==> s.cur.value in s.sbs) && Pullable(s, a)
    ensures var s1 := Put(s, a.id, Fresh(a, now)).(rq := s.rq + {a.id});
            Extends(s, s1) && Queue(s1) && Accounts(s1.(clock := now))
  {
    hide Fresh, Accounts, Waiting;
    FreshAccount(a, now);
    AdoptKeepsAccounts(s, a, now);
  }

  lemma AdoptKeepsAccounts(s: State, a: Arrival, now: nat)
    requires Accounts(s) && now > s.clock && (s.cur.Some? ==> s.cur.value in s.sbs) && Pullable(s, a)
    ensures Accounts(Put(s, a.id, Fresh(a, now)).(rq := s.rq + {a.id}, clock := now))
  {
    hide Fresh;
    var s2 := Put(s, a.id, Fresh(a, now)).(rq := s.rq + {a.id}, clock := now);
    FreshAccount(a, now);
    ChargedToNobody(s.bank.ledger, a.tenant, a.id);
    forall id | id in s2.sbs ensures AccountOk(s2, id) {
      assert id in s.sbs ==> AccountOk(s, id);
    }
  }

  lemma PickKeepsInv(s: State, choice: Choice, now: nat)
    requires Inv(s) && s.pc.Pick? && now > s.clock && !s.pending
    ensures Good(PickStep(s, s.pc.who, choice, now))
  {
    PullKeeps(s, choice, now);
    hide Accounts, Pulled, Queue;
    var s1 := Pulled(s, choice, now);
    if GoodPick(s1, choice.next) { PickFromKeepsInv(s, s1, s.pc.who, choice, now); }
  }

  lemma PickFromKeepsInv(s: State, s1: State, who: Option<nat>, choice: Choice, now: nat)
    requires now > s.clock && s1 == Pulled(s, choice, now) && Extends(s, s1) && GoodPick(s1, choice.next)
    requires Control(s) && s.pc == Pick(who) && !s.pending && Accounts(s1.(clock := now)) && Queue(s1)
    ensures Good(PickStep(s, who, choice, now))
  {
    hide Accounts, Pulled, Queue;
    assert Leaving(s1, who);
    var s' := PickStep(s, who, choice, now).s;
    AccountsFrame(s1.(clock := now), s');
    QueueFrame(s1, s');
  }

  lemma CoopStepKeepsInv(s: State, choice: Choice, now: nat)
    requires Inv(s) && !s.pending && now > s.clock
    requires s.pc.IdleCheck? || s.pc.IdleFree? || s.pc.CoopUnset? || s.pc.CoopClear? || s.pc.CoopCheck?
    ensures Good(SchedulerStep(s, choice, now))
  {
    hide Accounts, Queue;
    var s' := SchedulerStep(s, choice, now).s;
    AccountsFrame(s, s');
    QueueSwitch(s, s');
  }

  lemma QueuedIsKnown(s: State, n: nat)
    requires Queue(s) && n in s.rq
    ensures n in s.sbs && (s.cur == Some(n) || Waiting(s.sbs[n]))
  {
  }

  lemma SwitchSetKeepsInv(s: State)
    requires Inv(s) && s.pc.SwitchSet? && !s.pending
    ensures Good(SwitchSetStep(s, s.pc.who, s.pc.n))
  {
    hide Accounts, Queue, SandboxControl;
    QueuedIsKnown(s, s.pc.n);
    var s' := SwitchSetStep(s, s.pc.who, s.pc.n).s;
    AccountsQuiet(s, s');
    QueueSwitch(s, s');
  }

  lemma SwitchSysKeepsInv(s: State)
    requires Inv(s) && s.pc.SwitchSys? && !s.pending
    ensures s.pc.n in s.sbs && Good(Becomes(s, s.pc.n, RunningSys, SwitchBook(s.pc.who, s.pc.n)))
  {
    hide Accounts, Queue;
    var s' := Becomes(s, s.pc.n, RunningSys, SwitchBook(s.pc.who, s.pc.n)).s;
    AccountsPut(s, s', s.pc.n);
    QueueSwitch(s, s');
  }

  lemma SwitchBookKeepsInv(s: State, now: nat)
    requires Inv(s) && s.pc.SwitchBook? && !s.pending && now > s.clock
    ensures s.pc.n in s.sbs && Good(Books(s, s.pc.n, Runnable, RunningSys, SwitchContext(s.pc.who, s.pc.n), now))
  {
    hide Accounts, Queue, Book;
    CanBookCurrent(s, s.pc.n, now);
    var s' := Books(s, s.pc.n, Runnable, RunningSys, SwitchContext(s.pc.who, s.pc.n), now).s;
    BookKeepsAccounts(s, s', s.pc.n, Runnable, RunningSys, now);
    QueueSwitch(s, s');
  }

  lemma SwitchContextKeepsInv(s: State)
    requires Inv(s) && s.pc.SwitchContext? && !s.pending
    ensures Good(SwitchContextStep(s, s.pc.who, s.pc.n))
  {
    hide Accounts, Queue, Good;
    if s.sbs[s.pc.n].variant == Fast {
      FastSwitchKeepsInv(s, s.pc.who, s.pc.n);
    } else {
      SlowSwitchKeepsInv(s, s.pc.who, s.pc.n);
    }
  }

  /** Saving a running context as Fast. */
  lemma LeaveContext(s: State, who: Option<nat>, n: nat)
    requires Accounts(s) && Queue(s) && Leaving(s, who) && who != Some(n) && n in s.sbs
    ensures var s1 := SetContext(s, who, Fast);
            s1.base == Fast && s1 == s.(base := s1.base, sbs := s1.sbs) && n in s1.sbs && s1.sbs[n] == s.sbs[n] &&
            Accounts(s1) && Queue(s1)
  {
    hide Accounts, Queue;
    var s1 := SetContext(s, who, Fast);
    AccountsFrame(s, s1);
    QueueSwitch(s, s1);
  }

  lemma FastSwitchKeepsInv(s: State, who: Option<nat>, n: nat)
    requires Inv(s) && s.pc == SwitchContext(who, n) && !s.pending && n in s.sbs && s.sbs[n].variant == Fast
    ensures Good(Ok(SetContext(SetContext(s, who, Fast), Some(n), Running).(pc := s.sbs[n].resume)))
  {
    hide Accounts, Queue;
    LeaveContext(s, who, n);
    EnterContext(SetContext(s, who, Fast), n);
  }

  lemma EnterContext(s1: State, n: nat)
    requires Accounts(s1) && Queue(s1) && s1.base == Fast && CurrentIs(s1, n, RunningSys, Fast)
    requires s1.sbs[n].resume == Start && !s1.pending && !IsChargePc(s1.pc) && (s1.owed ==> s1.deferred > 0)
    ensures Good(Ok(SetContext(s1, Some(n), Running).(pc := Start)))
  {
    hide Accounts, Queue, Control;
    var s' := SetContext(s1, Some(n), Running).(pc := Start);
    SandboxControlIsControl(s');
    AccountsFrame(s1, s');
    QueueSwitch(s1, s');
  }

  lemma SlowSwitchKeepsInv(s: State, who: Option<nat>, n: nat)
    requires Inv(s) && s.pc == SwitchContext(who, n) && !s.pending && n in s.sbs && s.sbs[n].variant == Slow
    ensures Good(Ok(SetContext(s, who, Fast).(pc := AwaitUsr1(n))))
  {
    hide Accounts, Queue, SetContext, SandboxControl, Waiting;
    LeaveContext(s, who, n);
    var s1 := SetContext(s, who, Fast);
    AccountsQuiet(s1, s1.(pc := AwaitUsr1(n)));
    QueueSwitch(s1, s1.(pc := AwaitUsr1(n)));
  }

  lemma SwitchBaseKeepsInv(s: State, choice: Choice, now: nat)
    requires Inv(s) && s.pc.SwitchBase? && !s.pending && now > s.clock
    ensures Good(SchedulerStep(s, choice, now))
  {
    hide Accounts, Queue;
    var s' := SchedulerStep(s, choice, now).s;
    AccountsFrame(s, s');
    QueueSwitch(s, s');
  }

  /** Entering a waiting sandbox from a signal handler. */
  lemma SwitchToKeepsInv(s: State, n: nat, now: nat)
    requires Accounts(s) && Queue(s.(cur := Some(n))) && n in s.rq && n in s.sbs && Waiting(s.sbs[n])
    requires now > s.clock && s.base == Fast && !s.pending && !IsChargePc(s.pc) && s.cur.Some?
    requires s.owed ==> s.deferred > 0
    ensures Good(SwitchTo(s, n, now))
  {
    hide Accounts, Queue, Book, Control, SandboxControl;
    CanBookCurrent(s, n, now);
    var s' := SwitchTo(s, n, now).s;
    AccountsFrame(s, s.(cur := Some(n)));
    BookKeepsAccounts(s.(cur := Some(n)), s', n, s.sbs[n].state,
                      if s.sbs[n].state == Runnable then RunningSys else RunningUser, now);
    QueueSwitch(s.(cur := Some(n)), s');
    SwitchToControl(s, n, now);
    SandboxControlIsControl(s');
  }

  lemma SwitchToControl(s: State, n: nat, now: nat)
    requires n in s.rq && n in s.sbs && Waiting(s.sbs[n]) && CanBook(s.sbs[n], now) && s.base == Fast
    ensures SwitchTo(s, n, now).Ok? && IsSandboxPc(SwitchTo(s, n, now).s.pc) && SandboxControl(SwitchTo(s, n, now).s)
  {
    hide Book;
  }

  lemma AwaitUsr1KeepsInv(s: State, choice: Choice, now: nat)
    requires Inv(s) && s.pc.AwaitUsr1? && !s.pending && now > s.clock
    ensures Good(SchedulerStep(s, choice, now))
  {
    hide Accounts, Queue, Good, SwitchTo;
    SwitchToKeepsInv(s, s.pc.n, now);
  }

  lemma SchedulerStepKeepsInv(s: State, choice: Choice, now: nat)
    requires Inv(s) && !IsSandboxPc(s.pc) && !s.pending && now > s.clock
    ensures Good(SchedulerStep(s, choice, now))
  {
    hide Inv, Control, Good, PickStep, SwitchSetStep, SwitchContextStep, Books, Becomes, SwitchTo;
    if s.pc.Pick? { PickKeepsInv(s, choice, now); }
    else if s.pc.SwitchSet? { SwitchSetKeepsInv(s); }
    else if s.pc.SwitchSys? { SwitchSysKeepsInv(s); }
    else if s.pc.SwitchBook? { SwitchBookKeepsInv(s, now); }
    else if s.pc.SwitchContext? { SwitchContextKeepsInv(s); }
    else if s.pc.AwaitUsr1? { AwaitUsr1KeepsInv(s, choice, now); }
    else if s.pc.SwitchBase? { SwitchBaseKeepsInv(s, choice, now); }
    else { CoopStepKeepsInv(s, choice, now); }
  }

  // ---------- The alarm ----------

  lemma DeferKeepsInv(s: State)
    requires Inv(s) && s.cur.Some? && s.cur.value in s.sbs && s.sbs[s.cur.value].state != RunningUser
    ensures Good(Ok(s.(deferred := s.deferred + 1, owed := true, pending := false)))
  {
    hide Accounts, Queue;
    var s' := s.(deferred := s.deferred + 1, owed := true, pending := false);
    AccountsFrame(s, s');
    QueueSwitch(s, s');
  }

  lemma IgnoreKeepsInv(s: State)
    requires Inv(s) && s.cur.None?
    ensures Good(Ok(s.(pending := false)))
  {
    hide Accounts, Queue;
    AccountsFrame(s, s.(pending := false));
    QueueSwitch(s, s.(pending := false));
  }

  /** Where an alarm finds a sandbox in user state. */
  lemma PreemptableIsUserPc(s: State)
    requires Control(s) && s.cur.Some? && s.cur.value in s.sbs && s.sbs[s.cur.value].state == RunningUser
    ensures IsUserPc(s.pc) && SandboxControl(s)
  {
  }

  lemma InterruptKeeps(s: State, c: nat, now: nat)
    requires Accounts(s) && Queue(s) && s.cur == Some(c) && c in s.sbs && now > s.clock && !IsChargePc(s.pc)
    ensures CanBook(s.sbs[c], now)
    ensures Accounts(InterruptedAt(s, c, now)) && Queue(InterruptedAt(s, c, now))
  {
    CanBookCurrent(s, c, now);
    var x := Booked(s.sbs[c], RunningUser, Interrupted, now).(state := Interrupted);
    var mid := Put(s, c, x).(clock := now, pc := ReturnCharge);
    BookKeepsAccounts(s, mid, c, RunningUser, Interrupted, now);
    hide Book, Queue;
    ChargesKeepsAccounts(mid, c, s.pc);
    AccountsFrame(Charges(mid, c, s.pc).s, InterruptedAt(s, c, now));
    QueueFrame(s, InterruptedAt(s, c, now));
  }

  lemma PreemptKeeps(s: State, c: nat, n: nat, now: nat)
    requires Accounts(s) && Queue(s) && s.cur == Some(c) && c in s.sbs && now > s.clock && IsUserPc(s.pc)
    requires CanBook(s.sbs[c], now) && n in s.rq && n != c
    ensures Accounts(PreemptedAt(s, c, now)) && Queue(PreemptedAt(s, c, now).(cur := Some(n)))
  {
    BookKeepsAccounts(s, PreemptedAt(s, c, now), c, Interrupted, Preempted, now);
    hide Book, Accounts;
  }

  lemma ResumeKeepsAccounts(s: State, c: nat, now: nat)
    requires Accounts(s) && c in s.sbs && now > s.clock && CanBook(s.sbs[c], now)
    ensures Accounts(Put(s, c, s.sbs[c].(state := RunningUser, account := BookReturn(s.sbs[c].account, RunningUser, now)))
                     .(clock := now, owed := false))
  {
    var s' := Put(s, c, s.sbs[c].(state := RunningUser, account := BookReturn(s.sbs[c].account, RunningUser, now)))
              .(clock := now, owed := false);
    assert AccountOk(s, c);
    BookReturnConserves(s.sbs[c].account, RunningUser, now);
    forall id | id in s'.sbs ensures AccountOk(s', id) {
      assert AccountOk(s, id);
    }
  }

  /** The interrupted state: the handler has booked and charged, and looks for what to run next. */
  ghost predicate Interrupting(s: State, c: nat) {
    Accounts(s) && Queue(s) && s.cur == Some(c) && c in s.sbs && c in s.rq && IsUserPc(s.pc) &&
    s.base == Fast && s.sbs[c].variant == Running && !s.pending &&
    (s.pc.ReplayRaise? || s.pc.User? || s.pc.SysSet? ==> s.deferred == 0)
  }

  lemma DispatchKeepsInv(s: State, c: nat, next: Option<nat>, t3: nat, t4: nat)
    requires Interrupting(s, c) && GoodPick(s, next) && s.clock < t3 < t4
    ensures Good(Dispatch(s, c, next, t3, t4))
  {
    hide Accounts, Queue, Book, BookReturn, Control, SwitchTo, Waiting;
    CanBookCurrent(s, c, t3);
    var n := next.value;
    QueuedIsKnown(s, n);
    if n == c {
      ResumeKeepsAccounts(s, c, t3);
      var s' := Dispatch(s, c, next, t3, t4).s;
      QueueFrame(s, s');
      SandboxControlIsControl(s');
    } else {
      PreemptKeeps(s, c, n, t3);
      SwitchToKeepsInv(PreemptedAt(s, c, t3), n, t4);
    }
  }

  lemma PreemptiveSchedKeepsInv(s: State, c: nat, choice: Choice, t1: nat, t2: nat, t3: nat, t4: nat)
    requires Inv(s) && SandboxControl(s) && s.cur == Some(c) && IsUserPc(s.pc) && c in s.sbs
    requires s.clock < t1 < t2 < t3 < t4
    ensures Good(PreemptiveSched(s, c, choice, t1, t2, t3, t4))
  {
    InterruptKeeps(s, c, t1);
    var s0 := InterruptedAt(s, c, t1);
    assert Interrupting(s0, c) by { hide Accounts, Queue, Book; }
    hide Accounts, Queue, Pulled, InterruptedAt, Dispatch;
    PullKeeps(s0, choice, t2);
    var s1 := Pulled(s0, choice, t2).(clock := t2);
    QueueFrame(Pulled(s0, choice, t2), s1);
    if GoodPick(s1, choice.next) { DispatchKeepsInv(s1, c, choice.next, t3, t4); }
  }

  lemma AlarmKeepsInv(s: State, choice: Choice, t1: nat, t2: nat, t3: nat, t4: nat)
    requires Inv(s) && s.clock < t1 < t2 < t3 < t4
    ensures Good(AlarmStep(s, choice, t1, t2, t3, t4))
  {
    CurrentIsKnown(s);
    hide PreemptiveSched, Good, Accounts, Queue;
    if s.cur.None? {
      IgnoreKeepsInv(s);
    } else if s.sbs[s.cur.value].state != RunningUser {
      DeferKeepsInv(s);
    } else {
      PreemptableIsUserPc(s);
      PreemptiveSchedKeepsInv(s, s.cur.value, choice, t1, t2, t3, t4);
    }
  }

  lemma CurrentIsKnown(s: State)
    requires Control(s)
    ensures s.cur.Some? ==> s.cur.value in s.sbs
  {
  }

  // ---------- Every run ----------

  lemma BankKeepsAccounts(s: State, bank: Bank)
    requires Accounts(s) && BankOk(bank) && bank.max == s.bank.max
    requires forall id :: id in s.sbs ==> ChargedTo(bank.ledger, s.sbs[id].tenant, id) == ChargedTo(s.bank.ledger, s.sbs[id].tenant, id)
    ensures Accounts(s.(bank := bank))
  {
    var s' := s.(bank := bank);
    forall id | id in s'.sbs ensures AccountOk(s', id) {
      assert AccountOk(s, id);
    }
  }

  lemma BankStepKeepsInv(s: State, bank: Bank)
    requires Inv(s) && BankOk(bank) && bank.max == s.bank.max
    requires forall id :: id in s.sbs ==> ChargedTo(bank.ledger, s.sbs[id].tenant, id) == ChargedTo(s.bank.ledger, s.sbs[id].tenant, id)
    ensures Inv(s.(bank := bank))
  {
    hide Accounts, Queue, BankOk, ChargedTo;
    BankKeepsAccounts(s, bank);
    QueueFrame(s, s.(bank := bank));
  }

  lemma OtherChargeKeepsInv(s: State, tenant: nat, id: nat, amount: nat)
    requires Inv(s)
    ensures Good(Next(s, OtherCharge(tenant, id, amount)))
  {
    PostChargeOk(s.bank, tenant, id, amount);
    hide PostCharge, Control, Queue, Alarms;
    if id !in s.sbs { BankStepKeepsInv(s, PostCharge(s.bank, tenant, id, amount)); }
  }

  lemma ReplenishKeepsInv(s: State, tenant: nat)
    requires Inv(s)
    ensures Good(Next(s, Replenish(tenant)))
  {
    PostRefillOk(s.bank, tenant);
    hide PostRefill, Control, Queue, Alarms;
    BankStepKeepsInv(s, PostRefill(s.bank, tenant));
  }

  lemma WorkKeepsInv(s: State, gap: nat, act: Act, choice: Choice)
    requires Inv(s)
    ensures Good(Next(s, Work(gap, act, choice)))
  {
    hide Inv, SandboxStep, SchedulerStep, IsSandboxPc;
    if s.pending { return; }
    var now := s.clock + 1 + gap;
    if IsSandboxPc(s.pc) {
      SandboxStepKeepsInv(s, act, now);
    } else {
      SchedulerStepKeepsInv(s, choice, now);
    }
  }

  lemma AlarmAtKeepsInv(s: State, gaps: (nat, nat, nat, nat), choice: Choice)
    requires Inv(s)
    ensures Good(Next(s, Alarm(gaps, choice)))
  {
    hide Inv, Good, AlarmStep;
    var t1 := s.clock + 1 + gaps.0;
    var t2 := t1 + 1 + gaps.1;
    var t3 := t2 + 1 + gaps.2;
    AlarmKeepsInv(s, choice, t1, t2, t3, t3 + 1 + gaps.3);
  }

  lemma NextKeepsInv(s: State, step: Step)
    requires Inv(s)
    ensures Good(Next(s, step))
  {
    hide Inv, Good, Next;
    match step
    case Work(gap, act, choice) => WorkKeepsInv(s, gap, act, choice);
    case Alarm(gaps, choice) => AlarmAtKeepsInv(s, gaps, choice);
    case OtherCharge(tenant, id, amount) => OtherChargeKeepsInv(s, tenant, id, amount);
    case Replenish(tenant) => ReplenishKeepsInv(s, tenant);
  }

  /** No run panics, and every state it passes through satisfies the invariant. */
  lemma {:induction false} EveryRunKeepsInv(s: State, steps: seq<Step>)
    requires Init(s)
    ensures Good(Run(s, steps))
  {
    if steps == [] {
      InitInv(s);
    } else {
      hide Inv, Next;
      EveryRunKeepsInv(s, steps[..|steps| - 1]);
      NextKeepsInv(Run(s, steps[..|steps| - 1]).s, steps[|steps| - 1]);
    }
  }

  // ---------- What every run guarantees ----------

  /** No illegal-transition panic and no assertion of the switch code is reached. */
  lemma NoPanic(s: State, steps: seq<Step>)
    requires Init(s)
    ensures Run(s, steps).Ok?
  {
    EveryRunKeepsInv(s, steps);
  }

  /** The thread executes on the base context. */
  predicate OnBase(pc: Pc) {
    pc.IdleCheck? || pc.IdleFree? ||
    ((pc.Pick? || pc.SwitchSet? || pc.SwitchSys? || pc.SwitchBook? || pc.SwitchContext?) && pc.who.None?)
  }

  /** Between setting the current sandbox and entering its context, including the wait for SIGUSR1. */
  predicate InSwitch(pc: Pc) {
    pc.SwitchSys? || pc.SwitchBook? || pc.SwitchContext? || pc.AwaitUsr1?
  }

  /** Context variants and sandbox states agree with who is executing. */
  lemma ContextsAreConsistent(s: State, steps: seq<Step>)
    requires Init(s)
    ensures Run(s, steps).Ok?
    ensures var r := Run(s, steps).s;
      (r.base == Running <==> OnBase(r.pc)) && r.base != Slow &&
      (r.cur.Some? && !InSwitch(r.pc) ==>
        r.cur.value in r.sbs && r.sbs[r.cur.value].variant == Running) &&
      (forall id :: id in r.rq && r.cur != Some(id) ==>
        id in r.sbs &&
        ((r.sbs[id].state == Runnable && r.sbs[id].variant == Fast) ||
         (r.sbs[id].state == Preempted && r.sbs[id].variant == Slow)))
  {
    EveryRunKeepsInv(s, steps);
    var r := Run(s, steps).s;
    hide Accounts, Run;
    BaseFollowsControl(r);
  }

  lemma BaseFollowsControl(r: State)
    requires Control(r)
    ensures (r.base == Running <==> OnBase(r.pc)) && (r.base == Running || r.base == Fast)
    ensures r.cur.Some? && !InSwitch(r.pc) ==> r.cur.value in r.sbs && r.sbs[r.cur.value].variant == Running
  {
  }

  /** No deferred alarm is left over at the asserts of the idle loop and the cooperative scheduler. */
  lemma DeferredClearedAtScheduler(s: State, steps: seq<Step>)
    requires Init(s)
    ensures Run(s, steps).Ok?
    ensures var r := Run(s, steps).s;
            r.pc.IdleCheck? || r.pc.CoopCheck? || r.pc.Pick? ==> r.deferred == 0 && r.cur == None
  {
    EveryRunKeepsInv(s, steps);
  }

  /** User code past the replay point is what runs next. */
  ghost predicate UserCodeRuns(r: State) {
    (r.pc.User? || r.pc.SysSet?) && !r.pending
  }

  /** User code past the replay point runs only when no deferred alarm is still owed a decision. */
  lemma UserCodeOwesNothing(s: State, steps: seq<Step>)
    requires Init(s)
    ensures Run(s, steps).Ok?
    ensures var r := Run(s, steps).s;
            UserCodeRuns(r) ==> !r.owed && r.deferred == 0
  {
    EveryRunKeepsInv(s, steps);
  }

  /** An alarm finds a current sandbox that cannot be preempted. */
  ghost predicate Defers(r: State, step: Step) {
    step.Alarm? && r.cur.Some? && r.cur.value in r.sbs && r.sbs[r.cur.value].state != RunningUser
  }

  /** The idle loop or the cooperative scheduler picks, or an alarm runs the preemptive scheduler. */
  ghost predicate Decides(r: State, step: Step) {
    (step.Work? && r.pc.Pick?) ||
    (step.Alarm? && r.cur.Some? && r.cur.value in r.sbs && r.sbs[r.cur.value].state == RunningUser)
  }

  /** An alarm that is not acted upon at once is owed a decision, and only a decision settles it. */
  lemma OnlyADecisionSettles(r: State, step: Step)
    requires Inv(r) && Next(r, step).Ok?
    ensures Defers(r, step) ==> Next(r, step).s.owed
    ensures r.owed && !Next(r, step).s.owed ==> Decides(r, step)
  {
    CurrentIsKnown(r);
    hide Inv, Control, Pulled, PreemptiveSched, PostCharge, PostRefill, Book;
  }

  ghost predicate DecidesAt(s: State, steps: seq<Step>, k: nat) {
    k < |steps| && Run(s, steps[..k]).Ok? && Decides(Run(s, steps[..k]).s, steps[k])
  }

  /** If step `i` of a run defers an alarm and user code runs after the first `j` steps, then a step in between
      was a scheduling decision. */
  lemma DeferredAlarmIsDecided(s: State, steps: seq<Step>, i: nat, j: nat)
    requires Init(s) && i < j <= |steps|
    ensures Run(s, steps[..i]).Ok? && Run(s, steps[..j]).Ok?
    ensures Defers(Run(s, steps[..i]).s, steps[i]) && UserCodeRuns(Run(s, steps[..j]).s) ==>
      exists k: nat :: i < k < j && DecidesAt(s, steps, k)
  {
    hide Inv, Next, Run, Defers, DecidesAt;
    OwedFollows(s, steps, i);
    UserCodeOwesNothing(s, steps[..j]);
    SettlingStep(s, steps, i + 1, j);
  }

  /** How `owed` changes at step `k` of a run. */
  lemma OwedFollows(s: State, steps: seq<Step>, k: nat)
    requires Init(s) && k < |steps|
    ensures Run(s, steps[..k]).Ok? && Run(s, steps[..k + 1]).Ok?
    ensures Defers(Run(s, steps[..k]).s, steps[k]) ==> Run(s, steps[..k + 1]).s.owed
    ensures Run(s, steps[..k]).s.owed && !Run(s, steps[..k + 1]).s.owed ==> Decides(Run(s, steps[..k]).s, steps[k])
  {
    hide Inv, Next, Defers, Decides;
    EveryRunKeepsInv(s, steps[..k]);
    EveryRunKeepsInv(s, steps[..k + 1]);
    assert steps[..k + 1][..k] == steps[..k];
    OnlyADecisionSettles(Run(s, steps[..k]).s, steps[k]);
  }

  lemma {:induction false} SettlingStep(s: State, steps: seq<Step>, a: nat, b: nat)
    requires Init(s) && a <= b <= |steps|
    ensures Run(s, steps[..a]).Ok? && Run(s, steps[..b]).Ok?
    ensures Run(s, steps[..a]).s.owed && !Run(s, steps[..b]).s.owed ==>
      exists k: nat :: a <= k < b && DecidesAt(s, steps, k)
    decreases b
  {
    hide Run, Defers, Decides;
    NoPanic(s, steps[..a]);
    NoPanic(s, steps[..b]);
    if a < b {
      OwedFollows(s, steps, b - 1);
      SettlingStep(s, steps, a, b - 1);
      assert Run(s, steps[..b - 1]).s.owed && !Run(s, steps[..b]).s.owed ==> DecidesAt(s, steps, b - 1);
    }
  }

  /** Along every run the time of each sandbox is exactly divided among its states. */
  lemma TimeIsConserved(s: State, steps: seq<Step>, id: nat)
    requires Init(s) && Run(s, steps).Ok? && id in Run(s, steps).s.sbs
    ensures var a := Run(s, steps).s.sbs[id].account;
            |a.spent| == STATE_COUNT && Total(a.spent) == a.lastChange - a.allocation
  {
    EveryRunKeepsInv(s, steps);
    assert AccountOk(Run(s, steps).s, id);
  }

  /** At every point other than between a booking and its charge, a paid tenant has been charged for a
      sandbox exactly the cycles it executed; a free tenant is never charged. */
  lemma BudgetIsExact(s: State, steps: seq<Step>, id: nat)
    requires Init(s) && Run(s, steps).Ok? && id in Run(s, steps).s.sbs && !IsChargePc(Run(s, steps).s.pc)
    ensures var r := Run(s, steps).s;
            |r.sbs[id].account.spent| == STATE_COUNT &&
            ChargedTo(r.bank.ledger, r.sbs[id].tenant, id) == if r.sbs[id].tenant in r.bank.max then Executed(r.sbs[id].account) else 0
  {
    EveryRunKeepsInv(s, steps);
    assert AccountOk(Run(s, steps).s, id);
  }

  /** The remaining budget is the maximum less what was charged since the last replenishment. */
  lemma BudgetIsMaxMinusCharges(s: State, steps: seq<Step>, tenant: nat)
    requires Init(s) && Run(s, steps).Ok? && tenant in Run(s, steps).s.bank.max
    ensures var b := Run(s, steps).s.bank;
            tenant in b.remaining && b.remaining[tenant] == b.max[tenant] - SinceRefill(b.ledger, tenant)
  {
    EveryRunKeepsInv(s, steps);
  }
}
