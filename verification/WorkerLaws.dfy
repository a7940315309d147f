/** What the worker's steps achieve: how long a sandbox was in each state, which transitions it took, and where
    system calls, the end of a program, a trap, a decision and an alarm lead. */
module WorkerLaws {
  import opened Options
  import opened Accounting
  import opened Worker

  // ---------- The stays of a sandbox ----------

  /** Between a change of state and its booking, or the other way round. */
  predicate InTransition(pc: Pc) {
    pc.SwitchBook? || pc.ReturnCharge? || pc.ReturnSet? || pc.SysBook? || pc.FinishDelete? || pc.FinishBook? ||
    pc.ExitBook? || pc.ErrorDelete? || pc.ErrorBook?
  }

  /** The state that the last booking entered: the sandbox's own, unless it is the current one and in transition. */
  function Entered(s: State, id: nat): SandboxState
    requires id in s.sbs
  {
    if s.cur != Some(id) || !InTransition(s.pc) then s.sbs[id].state
    else if s.pc.SwitchBook? then Runnable
    else if s.pc.ReturnCharge? || s.pc.ReturnSet? || s.pc.SysBook? then RunningUser
    else if s.pc.ExitBook? then Returned
    else RunningSys
  }

  ghost predicate EntryOk(s: State, id: nat)
    requires id in s.sbs
  {
    s.sbs[id].account.entered == Entered(s, id) && StaysExact(s.sbs[id].account)
  }

  ghost predicate Entries(s: State) {
    forall id :: id in s.sbs ==> EntryOk(s, id)
  }

  /** No sandbox other than `c` is current, before or after. */
  ghost predicate Only(s: State, s': State, c: nat) {
    (s.cur == None || s.cur == Some(c)) && (s'.cur == None || s'.cur == Some(c)) &&
    c in s'.sbs && s'.sbs == s.sbs[c := s'.sbs[c]]
  }

  lemma EntriesOne(s: State, s': State, c: nat)
    requires Entries(s) && Only(s, s', c) && EntryOk(s', c)
    ensures Entries(s')
  {
    hide StaysExact;
    forall id | id in s'.sbs ensures EntryOk(s', id) {
      if id != c { assert EntryOk(s, id); }
    }
  }

  /** A step that changes neither an account nor what a sandbox has entered. */
  lemma EntriesQuiet(s: State, s': State)
    requires Entries(s) && s'.sbs.Keys == s.sbs.Keys
    requires forall id :: id in s.sbs ==>
      s'.sbs[id].account == s.sbs[id].account && Entered(s', id) == Entered(s, id)
    ensures Entries(s')
  {
    hide StaysExact, Entered;
    forall id | id in s'.sbs ensures EntryOk(s', id) { assert EntryOk(s, id); }
  }

  /** A booking of the state entered last. */
  lemma BookEntry(s: State, s': State, c: nat, next: SandboxState, now: nat)
    requires Entries(s) && c in s.sbs && Only(s, s', c) && now > s.sbs[c].account.lastChange
    requires |s.sbs[c].account.spent| == STATE_COUNT && Edge(Entered(s, c), next) && Entered(s', c) == next
    requires s'.sbs[c].account == Book(s.sbs[c].account, Entered(s, c), next, now)
    ensures Entries(s')
  {
    hide StaysExact, Entered, Edge;
    assert EntryOk(s, c);
    BookStays(s.sbs[c].account, next, now);
    EntriesOne(s, s', c);
  }

  lemma SandboxEntries(s: State, c: nat, act: Act, now: nat)
    requires Inv(s) && Entries(s) && IsSandboxPc(s.pc) && s.cur == Some(c) && c in s.sbs && now > s.clock
    requires SandboxStep(s, c, act, now).Ok?
    ensures Entries(SandboxStep(s, c, act, now).s)
  {
    hide Accounts, Queue, Alarms, Control, SandboxControl, Entries, SandboxStep;
    SandboxControlIsControl(s);
    CanBookCurrent(s, c, now);
    if s.pc.ReturnBook? || s.pc.SysBook? || s.pc.FinishBook? || s.pc.ExitBook? || s.pc.ErrorBook? {
      BookingEntries(s, c, act, now);
    } else {
      QuietSandboxStep(s, c, act, now);
    }
  }

  lemma BookingEntries(s: State, c: nat, act: Act, now: nat)
    requires SandboxControl(s) && Entries(s) && s.cur == Some(c) && c in s.sbs && CanBook(s.sbs[c], now)
    requires s.pc.ReturnBook? || s.pc.SysBook? || s.pc.FinishBook? || s.pc.ExitBook? || s.pc.ErrorBook?
    requires SandboxStep(s, c, act, now).Ok?
    ensures Entries(SandboxStep(s, c, act, now).s)
  {
    hide StaysExact, Book, Entries;
    var s' := SandboxStep(s, c, act, now).s;
    var next := if s.pc.ReturnBook? then RunningUser else if s.pc.SysBook? then RunningSys
                else if s.pc.FinishBook? then Returned else if s.pc.ExitBook? then Complete else Error;
    assert s'.sbs[c].account == Book(s.sbs[c].account, Entered(s, c), next, now);
    BookEntry(s, s', c, next, now);
  }

  /** The state of the current sandbox changes, shortly before or after its booking. */
  ghost predicate ChangesState(pc: Pc) {
    pc.ReturnSet? || pc.SysSet? || pc.FinishSet? || pc.ExitSet? || pc.ErrorSet?
  }

  lemma QuietSandboxStep(s: State, c: nat, act: Act, now: nat)
    requires SandboxControl(s) && Entries(s) && IsSandboxPc(s.pc) && s.cur == Some(c) && c in s.sbs
    requires !s.pc.ReturnBook? && !s.pc.SysBook? && !s.pc.FinishBook? && !s.pc.ExitBook? && !s.pc.ErrorBook?
    requires SandboxStep(s, c, act, now).Ok?
    ensures Entries(SandboxStep(s, c, act, now).s)
  {
    hide StaysExact, PostCharge, Entered, SandboxStep, SandboxControl;
    var s' := SandboxStep(s, c, act, now).s;
    if ChangesState(s.pc) {
      SetStepEnters(s, c, act, now);
      assert EntryOk(s, c);
      EntriesOne(s, s', c);
    } else {
      MoveStepEnters(s, c, act, now);
      assert EntryOk(s, c);
      EntriesOne(s, s', c);
    }
  }

  lemma SetStepEnters(s: State, c: nat, act: Act, now: nat)
    requires SandboxControl(s) && s.cur == Some(c) && c in s.sbs && ChangesState(s.pc) && SandboxStep(s, c, act, now).Ok?
    ensures var s' := SandboxStep(s, c, act, now).s;
            Only(s, s', c) && s'.sbs[c].account == s.sbs[c].account && Entered(s', c) == Entered(s, c)
  {
  }

  lemma MoveStepEnters(s: State, c: nat, act: Act, now: nat)
    requires SandboxControl(s) && IsSandboxPc(s.pc) && s.cur == Some(c) && c in s.sbs && !ChangesState(s.pc)
    requires !s.pc.ReturnBook? && !s.pc.SysBook? && !s.pc.FinishBook? && !s.pc.ExitBook? && !s.pc.ErrorBook?
    requires SandboxStep(s, c, act, now).Ok?
    ensures var s' := SandboxStep(s, c, act, now).s;
            Only(s, s', c) && s'.sbs[c].account == s.sbs[c].account && Entered(s', c) == Entered(s, c)
  {
    hide PostCharge;
    var s' := SandboxStep(s, c, act, now).s;
    assert s'.sbs == s.sbs && s'.cur == s.cur;
  }

  lemma FreshStays(a: Arrival, now: nat)
    requires a.allocatedAt < a.initializedAt < now
    ensures Fresh(a, now).account.entered == Runnable == Fresh(a, now).state && StaysExact(Fresh(a, now).account)
  {
    OpenedStays(a.allocatedAt);
    BookStays(Opened(a.allocatedAt), Initialized, a.initializedAt);
    BookStays(Book(Opened(a.allocatedAt), Allocated, Initialized, a.initializedAt), Runnable, now);
    hide StaysExact;
  }

  lemma PullEntries(s: State, choice: Choice, now: nat)
    requires Entries(s) && now > s.clock && (s.cur.Some? ==> s.cur.value in s.sbs)
    ensures Entries(Pulled(s, choice, now))
  {
    hide Fresh, StaysExact;
    var s' := Pulled(s, choice, now);
    if s' != s {
      var a := choice.pull.value;
      FreshStays(a, now);
      forall id | id in s'.sbs ensures EntryOk(s', id) {
        if id != a.id { assert EntryOk(s, id); }
      }
    }
  }

  lemma SchedulerEntries(s: State, choice: Choice, now: nat)
    requires Inv(s) && Entries(s) && !IsSandboxPc(s.pc) && now > s.clock
    requires SchedulerStep(s, choice, now).Ok?
    ensures Entries(SchedulerStep(s, choice, now).s)
  {
    hide Accounts, Queue, Alarms, StaysExact, Book, Pulled, SandboxControl, SwitchTo;
    var s' := SchedulerStep(s, choice, now).s;
    if s.pc.Pick? {
      PullEntries(s, choice, now);
      PickEntries(s, choice, now);
    } else if s.pc.SwitchBook? {
      CanBookCurrent(s, s.pc.n, now);
      BookEntry(s, s', s.pc.n, RunningSys, now);
    } else if s.pc.AwaitUsr1? {
      SwitchToEntries(s, s.pc.n, now);
    } else if s.pc.SwitchSys? {
      assert EntryOk(s, s.pc.n);
      EntriesOne(s, s', s.pc.n);
    } else {
      QuietSchedulerStep(s, choice, now);
    }
  }

  lemma PickEntries(s: State, choice: Choice, now: nat)
    requires Entries(s) && s.pc.Pick? && s.cur == None && now > s.clock && Entries(Pulled(s, choice, now))
    requires PickStep(s, s.pc.who, choice, now).Ok?
    ensures Entries(PickStep(s, s.pc.who, choice, now).s)
  {
    hide Pulled, StaysExact, GoodPick;
    PullKeepsCurrent(s, choice, now);
    var s1, s' := Pulled(s, choice, now), PickStep(s, s.pc.who, choice, now).s;
    if s' != s { EntriesQuiet(s1, s'); }
  }

  lemma PullKeepsCurrent(s: State, choice: Choice, now: nat)
    requires now > s.clock
    ensures Pulled(s, choice, now).cur == s.cur && Pulled(s, choice, now).pc == s.pc
  {
  }

  lemma QuietSchedulerStep(s: State, choice: Choice, now: nat)
    requires Control(s) && Entries(s) && !IsSandboxPc(s.pc) && now > s.clock
    requires !s.pc.Pick? && !s.pc.SwitchBook? && !s.pc.AwaitUsr1? && !s.pc.SwitchSys?
    requires SchedulerStep(s, choice, now).Ok?
    ensures Entries(SchedulerStep(s, choice, now).s)
  {
    hide StaysExact, SandboxControl, Entered, SwitchContextStep, SchedulerStep;
    if s.pc.SwitchContext? {
      ContextStep(s, choice, now);
      SwitchContextEntries(s, s.pc.who, s.pc.n);
    } else {
      MoveSchedulerStep(s, choice, now);
      var s' := SchedulerStep(s, choice, now).s;
      SettledPc(s);
      SettledPc(s');
      EntriesQuiet(s, s');
    }
  }

  lemma ContextStep(s: State, choice: Choice, now: nat)
    requires s.pc.SwitchContext? && now > s.clock
    ensures SchedulerStep(s, choice, now) == SwitchContextStep(s, s.pc.who, s.pc.n)
  {
    hide SwitchContextStep;
  }

  lemma MoveSchedulerStep(s: State, choice: Choice, now: nat)
    requires now > s.clock && SchedulerStep(s, choice, now).Ok?
    requires s.pc.IdleCheck? || s.pc.IdleFree? || s.pc.CoopUnset? || s.pc.CoopClear? || s.pc.CoopCheck? ||
             s.pc.SwitchSet? || s.pc.SwitchBase?
    ensures var s' := SchedulerStep(s, choice, now).s;
            s'.sbs.Keys == s.sbs.Keys && !InTransition(s.pc) && !InTransition(s'.pc) &&
            forall id :: id in s.sbs ==> s'.sbs[id].account == s.sbs[id].account && s'.sbs[id].state == s.sbs[id].state
  {
  }

  lemma SwitchContextEntries(s: State, who: Option<nat>, n: nat)
    requires Control(s) && Entries(s) && s.pc == SwitchContext(who, n) && SwitchContextStep(s, who, n).Ok?
    ensures Entries(SwitchContextStep(s, who, n).s)
  {
    hide StaysExact, SandboxControl, Entered, SetContext;
    var s1 := SetContext(s, who, Fast);
    ContextKeepsEntries(s, who, Fast);
    ContextKeepsEntries(s1, Some(n), Running);
    SettledPc(s);
    SettledPc(s1);
    SettledPc(SetContext(s1, Some(n), Running));
    var s' := SwitchContextStep(s, who, n).s;
    SettledPc(s');
    EntriesQuiet(if s.sbs[n].variant == Fast then SetContext(s1, Some(n), Running) else s1, s');
  }

  lemma ContextKeepsEntries(s: State, who: Option<nat>, v: Variant)
    requires Entries(s)
    ensures var s1 := SetContext(s, who, v);
            Entries(s1) && s1.cur == s.cur && s1.pc == s.pc && s1.sbs.Keys == s.sbs.Keys &&
            forall id :: id in s.sbs ==> s1.sbs[id].state == s.sbs[id].state && s1.sbs[id].account == s.sbs[id].account
  {
    hide StaysExact, Entered;
    var s1 := SetContext(s, who, v);
    SameEntered(s, s1);
    EntriesQuiet(s, s1);
  }

  lemma SameEntered(s: State, s': State)
    requires s'.cur == s.cur && s'.pc == s.pc && s'.sbs.Keys == s.sbs.Keys
    requires forall id :: id in s.sbs ==> s'.sbs[id].state == s.sbs[id].state
    ensures forall id :: id in s.sbs ==> Entered(s', id) == Entered(s, id)
  {
  }

  lemma SettledPc(s: State)
    ensures !InTransition(s.pc) ==> forall id :: id in s.sbs ==> Entered(s, id) == s.sbs[id].state
  {
  }

  /** Entering a waiting sandbox from the handler, where the current one, if there is one, has settled. */
  lemma SwitchToEntries(s: State, n: nat, now: nat)
    requires Entries(s) && n in s.sbs && SwitchTo(s, n, now).Ok? && (IsUserPc(s.pc) || s.pc.AwaitUsr1?)
    requires s.sbs[n].resume == Start || IsUserPc(s.sbs[n].resume)
    ensures Entries(SwitchTo(s, n, now).s)
  {
    hide StaysExact, Book, Entered;
    SettledPc(s);
    var s' := SwitchTo(s, n, now).s;
    SettledPc(s');
    assert EntryOk(s, n);
    var next := if s.sbs[n].variant == Fast then RunningSys else RunningUser;
    BookStays(s.sbs[n].account, next, now);
    BookEnters(s.sbs[n].account, s.sbs[n].state, next, now);
    SettledEntries(s, s', n);
  }

  lemma SettledEntries(s: State, s': State, n: nat)
    requires Entries(s) && !InTransition(s.pc) && !InTransition(s'.pc) && n in s'.sbs && s'.sbs == s.sbs[n := s'.sbs[n]]
    requires s'.sbs[n].account.entered == s'.sbs[n].state && StaysExact(s'.sbs[n].account)
    ensures Entries(s')
  {
    hide StaysExact;
    forall id | id in s'.sbs ensures EntryOk(s', id) {
      if id != n { assert EntryOk(s, id); }
    }
  }

  lemma BookEnters(a: Account, last: SandboxState, next: SandboxState, now: nat)
    requires |a.spent| == STATE_COUNT && now > a.lastChange
    ensures Book(a, last, next, now).entered == next
  {
  }

  // ---------- The alarm ----------

  lemma InterruptEntries(s: State, c: nat, now: nat)
    requires Entries(s) && s.cur == Some(c) && c in s.sbs && CanBook(s.sbs[c], now) && IsUserPc(s.pc)
    requires s.sbs[c].state == RunningUser
    ensures Entries(InterruptedAt(s, c, now)) && InterruptedAt(s, c, now).sbs[c].state == Interrupted
  {
    hide StaysExact, Book, Entered, PostCharge;
    SettledPc(s);
    var s' := InterruptedAt(s, c, now);
    SettledPc(s');
    BookEntry(s, s', c, Interrupted, now);
  }

  lemma DispatchEntries(s: State, c: nat, next: Option<nat>, t3: nat, t4: nat)
    requires Interrupting(s, c) && Entries(s) && GoodPick(s, next) && s.clock < t3 < t4 && s.sbs[c].state == Interrupted
    requires Dispatch(s, c, next, t3, t4).Ok?
    ensures Entries(Dispatch(s, c, next, t3, t4).s)
  {
    hide StaysExact, Book, BookReturn, Entered, Accounts, Queue, SwitchTo, Waiting;
    var n := next.value;
    SettledPc(s);
    CanBookCurrent(s, c, t3);
    assert EntryOk(s, c);
    if n == c {
      var s' := Dispatch(s, c, next, t3, t4).s;
      SettledPc(s');
      BookReturnStays(s.sbs[c].account, RunningUser, t3);
      ReturnEnters(s.sbs[c].account, RunningUser, t3);
      EntriesOne(s, s', c);
    } else {
      var s1 := PreemptedAt(s, c, t3);
      SettledPc(s1);
      BookEntry(s, s1, c, Preempted, t3);
      QueuedIsKnown(s, n);
      WaitingResumes(s.sbs[n]);
      SwitchToEntries(s1, n, t4);
    }
  }

  lemma WaitingResumes(x: Sandbox)
    requires Waiting(x)
    ensures x.resume == Start || IsUserPc(x.resume)
  {
  }

  lemma ReturnEnters(a: Account, next: SandboxState, now: nat)
    requires |a.spent| == STATE_COUNT && now >= a.lastChange
    ensures BookReturn(a, next, now).entered == next
  {
  }

  lemma PreemptiveEntries(s: State, c: nat, choice: Choice, t1: nat, t2: nat, t3: nat, t4: nat)
    requires Inv(s) && Entries(s) && s.cur == Some(c) && c in s.sbs && s.sbs[c].state == RunningUser
    requires IsUserPc(s.pc) && SandboxControl(s) && s.clock < t1 < t2 < t3 < t4
    requires PreemptiveSched(s, c, choice, t1, t2, t3, t4).Ok?
    ensures Entries(PreemptiveSched(s, c, choice, t1, t2, t3, t4).s)
  {
    hide StaysExact, Book, Entered, Accounts, Queue, Dispatch, Pulled, InterruptedAt, Control;
    CanBookCurrent(s, c, t1);
    InterruptEntries(s, c, t1);
    var s0 := InterruptedAt(s, c, t1);
    InterruptIsInterrupting(s, c, t1);
    PullEntries(s0, choice, t2);
    PullKeepsInterrupting(s0, c, choice, t2);
    var s1 := Pulled(s0, choice, t2).(clock := t2);
    ClockKeepsEntries(Pulled(s0, choice, t2), t2);
    if GoodPick(s1, choice.next) { DispatchEntries(s1, c, choice.next, t3, t4); }
  }

  lemma InterruptIsInterrupting(s: State, c: nat, t1: nat)
    requires Inv(s) && SandboxControl(s) && s.cur == Some(c) && IsUserPc(s.pc) && c in s.sbs && s.clock < t1
    ensures CanBook(s.sbs[c], t1) && Interrupting(InterruptedAt(s, c, t1), c) && InterruptedAt(s, c, t1).clock == t1
  {
    hide Accounts, Queue, Book, PostCharge, Control;
    InterruptKeeps(s, c, t1);
  }

  lemma PullKeepsInterrupting(s: State, c: nat, choice: Choice, now: nat)
    requires Interrupting(s, c) && now > s.clock
    ensures Interrupting(Pulled(s, choice, now).(clock := now), c)
    ensures Pulled(s, choice, now).sbs[c].state == s.sbs[c].state
  {
    hide Accounts, Queue, Pulled;
    PullKeeps(s, choice, now);
    QueueFrame(Pulled(s, choice, now), Pulled(s, choice, now).(clock := now));
  }

  lemma ClockKeepsEntries(s: State, now: nat)
    requires Entries(s)
    ensures Entries(s.(clock := now))
  {
    hide StaysExact, Entered;
    SameEntered(s, s.(clock := now));
    EntriesQuiet(s, s.(clock := now));
  }

  // ---------- Every run ----------

  lemma WorkEntries(s: State, gap: nat, act: Act, choice: Choice)
    requires Inv(s) && Entries(s) && Next(s, Work(gap, act, choice)).Ok?
    ensures Entries(Next(s, Work(gap, act, choice)).s)
  {
    hide Inv, Entries, SandboxStep, SchedulerStep, IsSandboxPc;
    if !s.pending {
      if IsSandboxPc(s.pc) { SandboxEntries(s, s.cur.value, act, s.clock + 1 + gap); }
      else { SchedulerEntries(s, choice, s.clock + 1 + gap); }
    }
  }

  lemma AlarmAtEntries(s: State, gaps: (nat, nat, nat, nat), choice: Choice)
    requires Inv(s) && Entries(s) && Next(s, Alarm(gaps, choice)).Ok?
    ensures Entries(Next(s, Alarm(gaps, choice)).s)
  {
    hide Inv, Entries, AlarmStep;
    var t1 := s.clock + 1 + gaps.0;
    var t2 := t1 + 1 + gaps.1;
    var t3 := t2 + 1 + gaps.2;
    AlarmEntries(s, choice, t1, t2, t3, t3 + 1 + gaps.3);
  }

  lemma BankEntries(s: State, step: Step)
    requires Entries(s) && (step.OtherCharge? || step.Replenish?)
    ensures Next(s, step).Ok? && Entries(Next(s, step).s)
  {
    hide Entries, PostCharge, PostRefill;
    if step.OtherCharge? { OnlyBankChanges(s, PostCharge(s.bank, step.tenant, step.id, step.amount)); }
    else { OnlyBankChanges(s, PostRefill(s.bank, step.tenant)); }
  }

  lemma NextKeepsEntries(s: State, step: Step)
    requires Inv(s) && Entries(s)
    ensures Next(s, step).Ok? && Entries(Next(s, step).s)
  {
    hide Inv, Entries, Next;
    NextKeepsInv(s, step);
    match step
    case Work(gap, act, choice) => WorkEntries(s, gap, act, choice);
    case Alarm(gaps, choice) => AlarmAtEntries(s, gaps, choice);
    case OtherCharge(_, _, _) => BankEntries(s, step);
    case Replenish(_) => BankEntries(s, step);
  }

  lemma AlarmEntries(s: State, choice: Choice, t1: nat, t2: nat, t3: nat, t4: nat)
    requires Inv(s) && Entries(s) && s.clock < t1 < t2 < t3 < t4 && AlarmStep(s, choice, t1, t2, t3, t4).Ok?
    ensures Entries(AlarmStep(s, choice, t1, t2, t3, t4).s)
  {
    hide StaysExact, Entered, Accounts, Queue, PreemptiveSched;
    if s.cur.Some? && s.sbs[s.cur.value].state == RunningUser {
      PreemptableIsUserPc(s);
      SandboxControlIsControl(s);
      PreemptiveEntries(s, s.cur.value, choice, t1, t2, t3, t4);
    } else {
      var s' := AlarmStep(s, choice, t1, t2, t3, t4).s;
      SameEntered(s, s');
      EntriesQuiet(s, s');
    }
  }

  lemma OnlyBankChanges(s: State, bank: Bank)
    requires Entries(s)
    ensures Entries(s.(bank := bank))
  {
    hide StaysExact, Entered;
    SameEntered(s, s.(bank := bank));
    EntriesQuiet(s, s.(bank := bank));
  }

  lemma {:induction false} EveryRunKeepsEntries(s: State, steps: seq<Step>)
    requires Init(s)
    ensures Run(s, steps).Ok? && Entries(Run(s, steps).s)
  {
    hide Inv, Entries, Next;
    if steps == [] {
      NoEntries(s);
    } else {
      EveryRunKeepsEntries(s, steps[..|steps| - 1]);
      EveryRunKeepsInv(s, steps[..|steps| - 1]);
      NextKeepsEntries(Run(s, steps[..|steps| - 1]).s, steps[|steps| - 1]);
    }
  }

  lemma NoEntries(s: State)
    requires Init(s)
    ensures Entries(s)
  {
  }

  /** Along every run and for every sandbox: its stays follow one another without a gap from its allocation to its
      last change, along legal transitions only; each state's duration is exactly the time of the stays in it; and
      whenever the sandbox is not in transition, its state is the one that the last change entered. */
  lemma StateTimesAreExact(s: State, steps: seq<Step>, id: nat)
    requires Init(s)
    ensures Run(s, steps).Ok?
    ensures var r := Run(s, steps).s;
            id in r.sbs ==>
              var x := r.sbs[id];
              |x.account.spent| == STATE_COUNT &&
              (forall st :: x.account.spent[Index(st)] == TimeIn(x.account.past, st)) &&
              Gapless(x.account.past, x.account.allocation, x.account.lastChange) &&
              LegalPath(x.account.past, x.account.entered) &&
              (r.cur != Some(id) || !InTransition(r.pc) ==> x.state == x.account.entered)
  {
    EveryRunKeepsEntries(s, steps);
    var r := Run(s, steps).s;
    hide Run, Gapless, LegalPath, TimeIn;
    if id in r.sbs { assert EntryOk(r, id); }
  }

  // ---------- Where sandbox code leads ----------

  /** `n` steps of the worker with no alarm in between. */
  function Works(s: State, n: nat, act: Act, choice: Choice): Outcome {
    if n == 0 then Ok(s) else
    var r := Works(s, n - 1, act, choice);
    if r.Panic? then Panic else Next(r.s, Work(0, act, choice))
  }

  ghost predicate Stands(s: State, c: nat, pc: Pc) {
    Inv(s) && !s.pending && s.cur == Some(c) && s.pc == pc && s.deferred == 0
  }

  /** The next point of sandbox code, when no alarm is deferred. */
  function After(pc: Pc, k: Entrance): Pc {
    match pc
    case User => SysSet(k)
    case SysSet(j) => SysBook(j)
    case SysBook(j) => SysCharge(j)
    case SysCharge(j) => if j.Plain? then SysBody else if j.Finish? then FinishSet else ErrorSet
    case SysBody => ReturnBook
    case ReturnBook => ReturnCharge
    case ReturnCharge => ReturnSet
    case ReturnSet => ReplayTest
    case ReplayTest => User
    case FinishSet => FinishDelete
    case FinishDelete => FinishBook
    case FinishBook => FinishCharge
    case FinishCharge => ExitSet
    case ExitSet => ExitBook
    case ErrorSet => ErrorDelete
    case ErrorDelete => ErrorBook
    case ErrorBook => ErrorCharge
    case _ => pc
  }

  lemma CallPoints(k: Entrance)
    ensures After(User, k) == SysSet(k) && After(SysSet(k), k) == SysBook(k) && After(SysBook(k), k) == SysCharge(k)
    ensures After(SysCharge(k), k) == if k.Plain? then SysBody else if k.Finish? then FinishSet else ErrorSet
    ensures IsSandboxPc(User) && IsSandboxPc(SysSet(k)) && IsSandboxPc(SysBook(k)) && IsSandboxPc(SysCharge(k))
  {
  }

  lemma ReturnPoints(k: Entrance)
    ensures After(SysBody, k) == ReturnBook && After(ReturnBook, k) == ReturnCharge && After(ReturnCharge, k) == ReturnSet
    ensures After(ReturnSet, k) == ReplayTest && After(ReplayTest, k) == User
    ensures IsSandboxPc(SysBody) && IsSandboxPc(ReturnBook) && IsSandboxPc(ReturnCharge) && IsSandboxPc(ReturnSet)
    ensures IsSandboxPc(ReplayTest)
  {
  }

  lemma FinishPoints(k: Entrance)
    ensures After(FinishSet, k) == FinishDelete && After(FinishDelete, k) == FinishBook && After(FinishBook, k) == FinishCharge
    ensures After(FinishCharge, k) == ExitSet && After(ExitSet, k) == ExitBook
  {
  }

  lemma ErrorPoints(k: Entrance)
    ensures After(ErrorSet, k) == ErrorDelete && After(ErrorDelete, k) == ErrorBook && After(ErrorBook, k) == ErrorCharge
  {
  }

  lemma EndsAreSandboxCode()
    ensures IsSandboxPc(FinishSet) && IsSandboxPc(FinishDelete) && IsSandboxPc(FinishBook) && IsSandboxPc(FinishCharge)
    ensures IsSandboxPc(ExitSet) && IsSandboxPc(ErrorSet) && IsSandboxPc(ErrorDelete) && IsSandboxPc(ErrorBook)
  {
  }

  lemma Hop(s0: State, n: nat, c: nat, pc: Pc, k: Entrance, choice: Choice)
    requires Works(s0, n, Enter(k), choice).Ok? && Stands(Works(s0, n, Enter(k), choice).s, c, pc)
    requires IsSandboxPc(pc) && After(pc, k) != pc
    ensures Works(s0, n + 1, Enter(k), choice).Ok?
    ensures Stands(Works(s0, n + 1, Enter(k), choice).s, c, After(pc, k))
  {
    hide Inv, SandboxStep, After, IsSandboxPc;
    var s := Works(s0, n, Enter(k), choice).s;
    NextKeepsInv(s, Work(0, Enter(k), choice));
    CurrentInSandboxCode(s, c);
    StepLeads(s, c, k, s.clock + 1);
  }

  /** Through the entry into the runtime: four steps. */
  lemma EnterRuntime(s: State, c: nat, k: Entrance, choice: Choice)
    requires Stands(s, c, User)
    ensures Works(s, 4, Enter(k), choice).Ok?
    ensures Stands(Works(s, 4, Enter(k), choice).s, c, if k.Plain? then SysBody else if k.Finish? then FinishSet else ErrorSet)
  {
    hide Stands, After, IsSandboxPc, Next;
    CallPoints(k);
    assert Works(s, 0, Enter(k), choice) == Ok(s);
    hide Works;
    Hop(s, 0, c, User, k, choice);
    Hop(s, 1, c, SysSet(k), k, choice);
    Hop(s, 2, c, SysBook(k), k, choice);
    Hop(s, 3, c, SysCharge(k), k, choice);
  }

  lemma CurrentInSandboxCode(s: State, c: nat)
    requires Inv(s) && IsSandboxPc(s.pc) && s.cur == Some(c)
    ensures c in s.sbs && s.sbs[c].state == StateAt(s.pc) && s.sbs[c].variant == Running && (c in s.rq <==> !Departed(s.pc))
  {
    hide Accounts, Queue, Alarms, Control;
    SandboxControlIsControl(s);
  }

  lemma StepLeads(s: State, c: nat, k: Entrance, now: nat)
    requires s.cur == Some(c) && c in s.sbs && !s.pending && s.deferred == 0 && After(s.pc, k) != s.pc
    requires SandboxStep(s, c, Enter(k), now).Ok?
    ensures var s' := SandboxStep(s, c, Enter(k), now).s;
            s'.pc == After(s.pc, k) && s'.cur == Some(c) && !s'.pending && s'.deferred == 0
  {
    hide SandboxStep;
    if s.pc.User? || s.pc.SysSet? || s.pc.SysBook? || s.pc.SysCharge? || s.pc.SysBody? {
      CallStepLeads(s, c, k, now);
    } else if s.pc.ReturnBook? || s.pc.ReturnCharge? || s.pc.ReturnSet? || s.pc.ReplayTest? {
      ReturnStepLeads(s, c, k, now);
    } else {
      EndStepLeads(s, c, k, now);
    }
  }

  lemma CallStepLeads(s: State, c: nat, k: Entrance, now: nat)
    requires s.cur == Some(c) && c in s.sbs && !s.pending && s.deferred == 0 && SandboxStep(s, c, Enter(k), now).Ok?
    requires s.pc.User? || s.pc.SysSet? || s.pc.SysBook? || s.pc.SysCharge? || s.pc.SysBody?
    ensures var s' := SandboxStep(s, c, Enter(k), now).s;
            s'.pc == After(s.pc, k) && s'.cur == Some(c) && !s'.pending && s'.deferred == 0
  {
    hide Book, PostCharge;
  }

  lemma ReturnStepLeads(s: State, c: nat, k: Entrance, now: nat)
    requires s.cur == Some(c) && c in s.sbs && !s.pending && s.deferred == 0 && SandboxStep(s, c, Enter(k), now).Ok?
    requires s.pc.ReturnBook? || s.pc.ReturnCharge? || s.pc.ReturnSet? || s.pc.ReplayTest?
    ensures var s' := SandboxStep(s, c, Enter(k), now).s;
            s'.pc == After(s.pc, k) && s'.cur == Some(c) && !s'.pending && s'.deferred == 0
  {
    hide Book, PostCharge;
  }

  lemma EndStepLeads(s: State, c: nat, k: Entrance, now: nat)
    requires s.cur == Some(c) && c in s.sbs && !s.pending && s.deferred == 0 && SandboxStep(s, c, Enter(k), now).Ok?
    requires s.pc.FinishSet? || s.pc.FinishDelete? || s.pc.FinishBook? || s.pc.FinishCharge? || s.pc.ExitSet? ||
             s.pc.ErrorSet? || s.pc.ErrorDelete? || s.pc.ErrorBook?
    ensures var s' := SandboxStep(s, c, Enter(k), now).s;
            s'.pc == After(s.pc, k) && s'.cur == Some(c) && !s'.pending && s'.deferred == 0
  {
    hide Book, PostCharge;
  }

  /** A system call returns: nine steps later the sandbox is back in user code, in user state and on the runqueue. */
  lemma SystemCallReturns(s: State, c: nat, choice: Choice)
    requires Stands(s, c, User)
    ensures var r := Works(s, 9, Enter(Plain), choice);
            r.Ok? && Stands(r.s, c, User) && c in r.s.sbs && r.s.sbs[c].state == RunningUser && c in r.s.rq
  {
    hide Inv, Works, After, IsSandboxPc;
    EnterRuntime(s, c, Plain, choice);
    CallPoints(Plain);
    ReturnPoints(Plain);
    Hop(s, 4, c, SysBody, Plain, choice);
    Hop(s, 5, c, ReturnBook, Plain, choice);
    Hop(s, 6, c, ReturnCharge, Plain, choice);
    Hop(s, 7, c, ReturnSet, Plain, choice);
    Hop(s, 8, c, ReplayTest, Plain, choice);
    CurrentInSandboxCode(Works(s, 9, Enter(Plain), choice).s, c);
  }

  /** A program that ends is complete ten steps later, off the runqueue and in the cooperative scheduler. */
  lemma ProgramCompletes(s: State, c: nat, choice: Choice)
    requires Stands(s, c, User)
    ensures var r := Works(s, 10, Enter(Finish), choice);
            r.Ok? && r.s.pc == CoopUnset(c) && c in r.s.sbs && r.s.sbs[c].state == Complete && c !in r.s.rq
  {
    hide Inv, Works, After, IsSandboxPc, Stands;
    EnterRuntime(s, c, Finish, choice);
    EndsAreSandboxCode();
    FinishPoints(Finish);
    Hop(s, 4, c, FinishSet, Finish, choice);
    Hop(s, 5, c, FinishDelete, Finish, choice);
    Hop(s, 6, c, FinishBook, Finish, choice);
    Hop(s, 7, c, FinishCharge, Finish, choice);
    Hop(s, 8, c, ExitSet, Finish, choice);
    Leaves(s, 9, c, Finish, choice);
  }

  /** A trap ends in error eight steps later, off the runqueue and in the cooperative scheduler. */
  lemma TrapEndsInError(s: State, c: nat, choice: Choice)
    requires Stands(s, c, User)
    ensures var r := Works(s, 8, Enter(Trap), choice);
            r.Ok? && r.s.pc == CoopUnset(c) && c in r.s.sbs && r.s.sbs[c].state == Error && c !in r.s.rq
  {
    hide Inv, Works, After, IsSandboxPc, Stands;
    EnterRuntime(s, c, Trap, choice);
    EndsAreSandboxCode();
    ErrorPoints(Trap);
    Hop(s, 4, c, ErrorSet, Trap, choice);
    Hop(s, 5, c, ErrorDelete, Trap, choice);
    Hop(s, 6, c, ErrorBook, Trap, choice);
    Leaves(s, 7, c, Trap, choice);
  }

  lemma Leaves(s0: State, n: nat, c: nat, k: Entrance, choice: Choice)
    requires Works(s0, n, Enter(k), choice).Ok?
    requires Stands(Works(s0, n, Enter(k), choice).s, c, if k.Finish? then ExitBook else ErrorCharge) && !k.Plain?
    ensures var r := Works(s0, n + 1, Enter(k), choice);
            r.Ok? && r.s.pc == CoopUnset(c) && c in r.s.sbs && c !in r.s.rq &&
            r.s.sbs[c].state == if k.Finish? then Complete else Error
  {
    hide Inv, Next;
    var s := Works(s0, n, Enter(k), choice).s;
    CurrentInSandboxCode(s, c);
    NextKeepsInv(s, Work(0, Enter(k), choice));
    LastHop(s, c, k, choice);
  }

  lemma LastHop(s: State, c: nat, k: Entrance, choice: Choice)
    requires (s.pc.ExitBook? || s.pc.ErrorCharge?) && s.cur == Some(c) && c in s.sbs && !s.pending
    requires Next(s, Work(0, Enter(k), choice)).Ok?
    ensures var s' := Next(s, Work(0, Enter(k), choice)).s;
            s'.pc == CoopUnset(c) && c in s'.sbs && s'.sbs[c].state == s.sbs[c].state && s'.rq == s.rq
  {
    hide Book, PostCharge;
  }

  // ---------- Where decisions lead ----------

  /** An exiting sandbox reaches its decision with no current sandbox and no deferred alarm. */
  lemma ExitDecides(s: State, e: nat, act: Act, choice: Choice)
    requires Inv(s) && !s.pending && s.pc == CoopUnset(e)
    ensures var r := Works(s, 3, act, choice); r.Ok? && r.s.pc == Pick(Some(e)) && r.s.cur == None && r.s.deferred == 0
  {
    hide Inv, Next, Works;
    var s1 := Next(s, Work(0, act, choice));
    NextKeepsInv(s, Work(0, act, choice));
    SchedulerHop(s, act, choice);
    NextKeepsInv(s1.s, Work(0, act, choice));
    SchedulerHop(s1.s, act, choice);
    var s2 := Next(s1.s, Work(0, act, choice));
    NextKeepsInv(s2.s, Work(0, act, choice));
    SchedulerHop(s2.s, act, choice);
    OneMore(s, 0, act, choice);
    OneMore(s, 1, act, choice);
    OneMore(s, 2, act, choice);
  }

  lemma OneMore(s: State, n: nat, act: Act, choice: Choice)
    ensures Works(s, 0, act, choice) == Ok(s)
    ensures Works(s, n, act, choice).Ok? ==>
      Works(s, n + 1, act, choice) == Next(Works(s, n, act, choice).s, Work(0, act, choice))
  {
    hide Next;
  }

  lemma SchedulerHop(s: State, act: Act, choice: Choice)
    requires !s.pending && (s.pc.CoopUnset? || s.pc.CoopClear? || s.pc.CoopCheck? || s.pc.IdleCheck? || s.pc.IdleFree?)
    requires Next(s, Work(0, act, choice)).Ok?
    ensures var s' := Next(s, Work(0, act, choice)).s;
            !s'.pending &&
            (s.pc.CoopUnset? ==> s'.pc == CoopClear(s.pc.e) && s'.cur == None) &&
            (s.pc.CoopClear? ==> s'.pc == CoopCheck(s.pc.e) && s'.cur == s.cur && s'.deferred == 0) &&
            (s.pc.CoopCheck? ==> s'.pc == Pick(Some(s.pc.e)) && s'.cur == s.cur && s'.deferred == s.deferred) &&
            (s.pc.IdleCheck? ==> s'.pc == Pick(None)) && (s.pc.IdleFree? ==> s'.pc == IdleCheck)
  {
    hide PickStep, SwitchTo;
  }

  /** Sandbox `n` runs, on its own context. */
  ghost predicate Runs(s: State, n: nat, state: SandboxState) {
    s.cur == Some(n) && n in s.sbs && s.sbs[n].state == state && s.sbs[n].variant == Running && s.base == Fast
  }

  /** A decision of the idle loop or the cooperative scheduler for sandbox `n` is carried out: a fresh one starts in
      system state five steps later, a preempted one goes on where it was four steps later. */
  lemma DecisionIsCarriedOut(s: State, n: nat, act: Act, choice: Choice)
    requires Inv(s) && !s.pending && s.pc.Pick? && choice.next == Some(n)
    requires GoodPick(Pulled(s, choice, s.clock + 1), choice.next)
    ensures n in Pulled(s, choice, s.clock + 1).sbs
    ensures Pulled(s, choice, s.clock + 1).sbs[n].state == Runnable ==>
      var r := Works(s, 5, act, choice); r.Ok? && Runs(r.s, n, RunningSys) && r.s.pc == Start
    ensures Pulled(s, choice, s.clock + 1).sbs[n].state != Runnable ==>
      var r := Works(s, 4, act, choice); r.Ok? && Runs(r.s, n, RunningUser) && r.s.pc == Pulled(s, choice, s.clock + 1).sbs[n].resume
  {
    hide Inv, Next, Pulled, GoodPick, Runs, Works;
    var w := Work(0, act, choice);
    NextKeepsInv(s, w);
    var s1 := Next(s, w).s;
    PickHop(s, n, act, choice);
    OneMore(s, 0, act, choice);
    NextKeepsInv(s1, w);
    var s2 := Next(s1, w).s;
    SwitchSetHop(s1, n, act, choice);
    OneMore(s, 1, act, choice);
    NextKeepsInv(s2, w);
    var s3 := Next(s2, w).s;
    SwitchHop(s2, n, act, choice);
    OneMore(s, 2, act, choice);
    NextKeepsInv(s3, w);
    var s4 := Next(s3, w).s;
    SwitchHop(s3, n, act, choice);
    OneMore(s, 3, act, choice);
    if s1.sbs[n].state == Runnable {
      NextKeepsInv(s4, w);
      SwitchHop(s4, n, act, choice);
      OneMore(s, 4, act, choice);
    }
  }

  lemma PickHop(s: State, n: nat, act: Act, choice: Choice)
    requires Inv(s) && !s.pending && s.pc.Pick? && choice.next == Some(n) && Next(s, Work(0, act, choice)).Ok?
    requires GoodPick(Pulled(s, choice, s.clock + 1), choice.next)
    ensures var s1, s' := Pulled(s, choice, s.clock + 1), Next(s, Work(0, act, choice)).s;
            s'.rq == s1.rq && n in s1.sbs && s'.pc == SwitchSet(s.pc.who, n) && !s'.pending && n in s'.sbs && s'.sbs[n] == s1.sbs[n] &&
            (s1.sbs[n].state == Runnable || s1.sbs[n].state == Preempted)
  {
    hide Accounts, Pulled, Alarms, SandboxControl;
    PullKeeps1(s, choice, s.clock + 1);
    PulledKeepsPc(s, choice, s.clock + 1);
    QueuedIsKnown(Pulled(s, choice, s.clock + 1), n);
  }

  lemma PullKeeps1(s: State, choice: Choice, now: nat)
    requires Inv(s) && now > s.clock
    ensures Queue(Pulled(s, choice, now)) && Pulled(s, choice, now).pending == s.pending
  {
    hide Accounts, Queue, Alarms, Pulled;
    CurrentIsKnown(s);
    PullKeeps(s, choice, now);
  }

  lemma SwitchSetHop(s: State, n: nat, act: Act, choice: Choice)
    requires !s.pending && s.pc.SwitchSet? && s.pc.n == n && n in s.sbs && Next(s, Work(0, act, choice)).Ok?
    ensures var s' := Next(s, Work(0, act, choice)).s;
            !s'.pending && n in s'.sbs && s'.sbs[n] == s.sbs[n] && s'.pc ==
              if s.sbs[n].state == Runnable then SwitchSys(s.pc.who, n) else SwitchContext(s.pc.who, n)
  {
    hide Pulled, SwitchTo;
  }

  lemma SwitchHop(s: State, n: nat, act: Act, choice: Choice)
    requires Inv(s) && !s.pending && n in s.sbs && Next(s, Work(0, act, choice)).Ok?
    requires (s.pc.SwitchSys? || s.pc.SwitchBook? || s.pc.SwitchContext?) ==> s.pc.n == n
    requires s.pc.AwaitUsr1? ==> s.pc.n == n
    ensures var s' := Next(s, Work(0, act, choice)).s;
            (s.pc.SwitchSys? ==> s'.pc == SwitchBook(s.pc.who, n) && n in s'.sbs && !s'.pending && s'.sbs[n].state == RunningSys) &&
            (s.pc.SwitchBook? ==> s'.pc == SwitchContext(s.pc.who, n) && n in s'.sbs && !s'.pending &&
                                  s'.sbs[n].state == s.sbs[n].state) &&
            (s.pc.SwitchContext? && s.sbs[n].state == RunningSys ==> s'.pc == Start && Runs(s', n, RunningSys)) &&
            (s.pc.SwitchContext? && s.sbs[n].state != RunningSys ==>
               s'.pc == AwaitUsr1(n) && n in s'.sbs && !s'.pending && s'.sbs[n].resume == s.sbs[n].resume) &&
            (s.pc.AwaitUsr1? ==> s'.pc == s.sbs[n].resume && Runs(s', n, RunningUser))
  {
    hide Accounts, Queue, Alarms, Book, Pulled, SandboxControl;
  }

  /** A decision that finds nothing leads back to the base context: at once from the idle loop, and in two steps from an
      exiting sandbox, whose context is saved. */
  lemma NothingLeadsToBase(s: State, act: Act, choice: Choice)
    requires Inv(s) && !s.pending && s.pc.Pick? && choice.next == None
    requires GoodPick(Pulled(s, choice, s.clock + 1), None)
    ensures s.pc.who == None ==>
      var r := Works(s, 1, act, choice); r.Ok? && r.s.pc == IdleFree && r.s.cur == None && r.s.base == Running
    ensures s.pc.who.Some? ==>
      var r := Works(s, 2, act, choice);
      r.Ok? && r.s.pc == IdleFree && r.s.cur == None && r.s.base == Running &&
      s.pc.who.value in r.s.sbs && r.s.sbs[s.pc.who.value].variant == Fast
  {
    hide Inv, Next, Pulled, GoodPick, Works;
    var w := Work(0, act, choice);
    NextKeepsInv(s, w);
    OneMore(s, 0, act, choice);
    NothingHop(s, act, choice);
    var s1 := Next(s, w).s;
    if s.pc.who.Some? {
      NextKeepsInv(s1, w);
      OneMore(s, 1, act, choice);
      BaseHop(s1, act, choice);
      IdleOnBase(Next(s1, w).s);
    } else {
      IdleOnBase(s1);
    }
  }

  lemma NothingHop(s: State, act: Act, choice: Choice)
    requires !s.pending && s.pc.Pick? && choice.next == None && Next(s, Work(0, act, choice)).Ok?
    requires GoodPick(Pulled(s, choice, s.clock + 1), None)
    ensures var s' := Next(s, Work(0, act, choice)).s;
            !s'.pending && s'.pc == if s.pc.who.None? then IdleFree else SwitchBase(s.pc.who.value)
  {
    hide Pulled, GoodPick;
    PulledKeepsPending(s, choice, s.clock + 1);
  }

  lemma PulledKeepsPending(s: State, choice: Choice, now: nat)
    requires now > s.clock
    ensures Pulled(s, choice, now).pending == s.pending
  {
    hide Fresh;
  }

  lemma BaseHop(s: State, act: Act, choice: Choice)
    requires !s.pending && s.pc.SwitchBase? && Next(s, Work(0, act, choice)).Ok?
    ensures var s' := Next(s, Work(0, act, choice)).s;
            s'.pc == IdleFree && s.pc.e in s'.sbs && s'.sbs[s.pc.e].variant == Fast
  {
    hide Pulled, SwitchTo;
  }

  lemma IdleOnBase(s: State)
    ensures Inv(s) && s.pc.IdleFree? ==> s.cur == None && s.base == Running
  {
    hide Accounts, Queue, Alarms, SandboxControl;
  }

  /** A sandbox that can be pulled is: it joins the runqueue, runnable and with its own tenant; the others stay. */
  lemma PullAdopts(s: State, choice: Choice, now: nat)
    requires now > s.clock && choice.pull.Some? && Pullable(s, choice.pull.value)
    ensures var a := choice.pull.value; var s' := Pulled(s, choice, now);
            s'.rq == s.rq + {a.id} && s'.sbs.Keys == s.sbs.Keys + {a.id} &&
            s'.sbs[a.id].state == Runnable && s'.sbs[a.id].tenant == a.tenant &&
            s'.sbs[a.id].account.allocation == a.allocatedAt && s'.sbs[a.id].account.lastChange == now &&
            forall id :: id in s.sbs ==> s'.sbs[id] == s.sbs[id]
  {
    assert choice.pull.value.id !in s.sbs;
  }

  /** An alarm on user code carries its decision out at once: the chosen sandbox runs; if it is another one, the
      interrupted sandbox is preempted and will go on where it was. */
  lemma AlarmIsCarriedOut(s: State, c: nat, n: nat, choice: Choice, t1: nat, t2: nat, t3: nat, t4: nat)
    requires Inv(s) && s.cur == Some(c) && c in s.sbs && s.sbs[c].state == RunningUser && choice.next == Some(n)
    requires s.clock < t1 < t2 < t3 < t4 && CanBook(s.sbs[c], t1)
    requires GoodPick(Pulled(InterruptedAt(s, c, t1), choice, t2), choice.next)
    ensures var r := AlarmStep(s, choice, t1, t2, t3, t4);
            r.Ok? && r.s.cur == Some(n) && n in r.s.sbs && r.s.sbs[n].variant == Running && !r.s.owed &&
            r.s.rq == Pulled(InterruptedAt(s, c, t1), choice, t2).rq &&
            (r.s.sbs[n].state == RunningUser || r.s.sbs[n].state == RunningSys) &&
            (n == c ==> r.s.pc == s.pc && r.s.sbs[c].state == RunningUser) &&
            (n != c ==> c in r.s.sbs && r.s.sbs[c].state == Preempted && r.s.sbs[c].variant == Slow &&
                        r.s.sbs[c].resume == s.pc)
  {
    hide Accounts, Queue, Alarms, Book, BookReturn, Pulled, PostCharge, Control, InterruptedAt;
    AlarmKeepsInv(s, choice, t1, t2, t3, t4);
    PreemptableIsUserPc(s);
    SandboxControlIsControl(s);
    InterruptIsInterrupting(s, c, t1);
    InterruptKeepsPc(s, c, t1);
    var s0 := InterruptedAt(s, c, t1);
    PullKeepsInterrupting(s0, c, choice, t2);
    PulledKeepsPc(s0, choice, t2);
  }

  lemma InterruptKeepsPc(s: State, c: nat, now: nat)
    requires c in s.sbs && CanBook(s.sbs[c], now)
    ensures var s0 := InterruptedAt(s, c, now);
            s0.pc == s.pc && s0.cur == s.cur && c in s0.sbs && s0.sbs[c].variant == s.sbs[c].variant
  {
    hide Book, PostCharge;
  }

  lemma PulledKeepsPc(s: State, choice: Choice, now: nat)
    requires now > s.clock
    ensures Pulled(s, choice, now).pc == s.pc && Pulled(s, choice, now).cur == s.cur
  {
    hide Fresh;
  }

  /** Charges and replenishments by others reach the budget of their own tenant and no other. */
  lemma BudgetSteps(s: State, tenant: nat, id: nat, amount: nat)
    requires BankOk(s.bank)
    ensures id !in s.sbs ==>
      var b := Next(s, OtherCharge(tenant, id, amount)).s.bank;
      b.remaining.Keys == s.bank.remaining.Keys &&
      forall t :: t in s.bank.max ==> b.remaining[t] == s.bank.remaining[t] - if t == tenant then amount else 0
    ensures var b := Next(s, Replenish(tenant)).s.bank;
      b.remaining.Keys == s.bank.remaining.Keys &&
      forall t :: t in s.bank.max ==> b.remaining[t] == if t == tenant then s.bank.max[t] else s.bank.remaining[t]
  {
    hide PostCharge, PostRefill;
    PostChargeOk(s.bank, tenant, id, amount);
    PostRefillOk(s.bank, tenant);
  }
}
