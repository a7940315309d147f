/** Sandbox states, the time bookkeeping every sandbox_set_as_* transition does, and the charges that
    sandbox_process_scheduler_updates makes against a paid tenant's budget. */
module Accounting {

  datatype SandboxState =
    | Uninitialized | Allocated | Initialized | Runnable | Preempted | RunningSys | RunningUser
    | Interrupted | Asleep | Returned | Complete | Error

  const STATE_COUNT: nat := 12

  function Index(s: SandboxState): (i: nat)
    ensures i < STATE_COUNT
  {
    match s
    case Uninitialized => 0 case Allocated => 1 case Initialized => 2 case Runnable => 3
    case Preempted => 4 case RunningSys => 5 case RunningUser => 6 case Interrupted => 7
    case Asleep => 8 case Returned => 9 case Complete => 10 case Error => 11
  }

  lemma IndexTellsStatesApart(s: SandboxState, t: SandboxState)
    ensures Index(s) == Index(t) ==> s == t
  {
  }

  /** A stay in a state, between two bookings. */
  datatype Stay = Stay(state: SandboxState, since: nat, until: nat)

  /** `spent` is duration_of_state; timestamps are cycle counts. `entered` and `past` are bookkeeping: the state that
      the last transition entered, and the stays before it. */
  datatype Account = Account(allocation: nat, lastChange: nat, lastDuration: nat, spent: seq<nat>,
                             entered: SandboxState, past: seq<Stay>)

  function Total(s: seq<nat>): nat {
    if s == [] then 0 else Total(s[..|s| - 1]) + s[|s| - 1]
  }

  lemma {:induction false} TotalUpdate(s: seq<nat>, i: nat, d: nat)
    requires i < |s|
    ensures Total(s[i := s[i] + d]) == Total(s) + d
  {
    var n := |s| - 1;
    if i == n {
      assert s[i := s[i] + d][..n] == s[..n];
    } else {
      TotalUpdate(s[..n], i, d);
      assert s[i := s[i] + d][..n] == s[..n][i := s[i] + d];
    }
  }

  lemma {:induction false} TotalZero(n: nat)
    ensures Total(seq(n, _ => 0)) == 0
  {
    if n > 0 {
      TotalZero(n - 1);
      assert seq(n, _ => 0)[..n - 1] == seq(n - 1, _ => 0);
    }
  }

  ghost predicate WellKept(a: Account) {
    |a.spent| == STATE_COUNT && a.allocation <= a.lastChange
  }

  /** The time of a sandbox since its allocation is exactly distributed over its states. */
  ghost predicate TimeConserved(a: Account) {
    WellKept(a) && Total(a.spent) == a.lastChange - a.allocation
  }

  /** What sandbox_set_as_allocated leaves behind at cycle `now`. */
  function Opened(now: nat): Account {
    Account(now, now, 0, seq(STATE_COUNT, _ => 0), Allocated, [])
  }

  /** The bookkeeping block of a transition from `last` to `next`; the code asserts now > last_state_change. */
  function Book(a: Account, last: SandboxState, next: SandboxState, now: nat): (r: Account)
    requires |a.spent| == STATE_COUNT && now > a.lastChange
    ensures |r.spent| == STATE_COUNT
  {
    var d := now - a.lastChange;
    Account(a.allocation, now, d, a.spent[Index(last) := a.spent[Index(last)] + d],
            next, a.past + [Stay(a.entered, a.lastChange, now)])
  }

  /** sandbox_interrupt_return leaves last_state_duration alone. */
  function BookReturn(a: Account, next: SandboxState, now: nat): (r: Account)
    requires |a.spent| == STATE_COUNT && now >= a.lastChange
    ensures |r.spent| == STATE_COUNT
  {
    var i := Index(Interrupted);
    a.(lastChange := now, spent := a.spent[i := a.spent[i] + (now - a.lastChange)],
       entered := next, past := a.past + [Stay(a.entered, a.lastChange, now)])
  }

  lemma OpenedConserves(now: nat)
    ensures TimeConserved(Opened(now))
  {
    TotalZero(STATE_COUNT);
  }

  lemma BookConserves(a: Account, last: SandboxState, next: SandboxState, now: nat)
    requires TimeConserved(a) && now > a.lastChange
    ensures TimeConserved(Book(a, last, next, now))
  {
    TotalUpdate(a.spent, Index(last), now - a.lastChange);
  }

  lemma BookReturnConserves(a: Account, next: SandboxState, now: nat)
    requires TimeConserved(a) && now >= a.lastChange
    ensures TimeConserved(BookReturn(a, next, now))
  {
    TotalUpdate(a.spent, Index(Interrupted), now - a.lastChange);
  }

  /** The cycles a sandbox has executed, in user and in system state. */
  function Executed(a: Account): nat
    requires |a.spent| == STATE_COUNT
  {
    a.spent[Index(RunningUser)] + a.spent[Index(RunningSys)]
  }

  lemma BookExecuted(a: Account, last: SandboxState, next: SandboxState, now: nat)
    requires |a.spent| == STATE_COUNT && now > a.lastChange
    ensures var b := Book(a, last, next, now);
            Executed(b) == Executed(a) + if last == RunningUser || last == RunningSys then b.lastDuration else 0
  {
    assert forall s: SandboxState, t: SandboxState :: Index(s) == Index(t) ==> s == t;
  }

  // ---------- Time in each state ----------

  /** The time spent in state `st` by stays `past`. */
  function TimeIn(past: seq<Stay>, st: SandboxState): int {
    if past == [] then 0 else
    var last := past[|past| - 1];
    TimeIn(past[..|past| - 1], st) + if last.state == st then last.until - last.since else 0
  }

  /** The transitions that the sandbox_set_as_* functions and the interrupt return allow. */
  predicate Edge(a: SandboxState, b: SandboxState) {
    match a
    case Allocated => b == Initialized
    case Initialized => b == Runnable
    case Runnable => b == RunningSys
    case RunningSys => b == RunningUser || b == Returned || b == Error
    case RunningUser => b == RunningSys || b == Interrupted
    case Interrupted => b == RunningUser || b == Preempted
    case Preempted => b == RunningUser
    case Returned => b == Complete
    case _ => false
  }

  /** Where the stay after the first `n` begins. */
  function EndOf(past: seq<Stay>, allocation: nat, n: nat): nat
    requires n <= |past|
  {
    if n == 0 then allocation else past[n - 1].until
  }

  /** The stays follow one another without a gap, from the allocation on, up to the last change. */
  ghost predicate Gapless(past: seq<Stay>, allocation: nat, lastChange: nat) {
    lastChange == EndOf(past, allocation, |past|) &&
    forall i :: 0 <= i < |past| ==> EndOf(past, allocation, i) == past[i].since <= past[i].until
  }

  /** They lead along legal transitions to the state entered last. */
  ghost predicate LegalPath(past: seq<Stay>, entered: SandboxState) {
    (if past == [] then entered == Allocated else past[0].state == Allocated && Edge(past[|past| - 1].state, entered)) &&
    forall i :: 0 < i < |past| ==> Edge(past[i - 1].state, past[i].state)
  }

  /** Each state's duration is the time of the stays in it. */
  ghost predicate StaysExact(a: Account) {
    |a.spent| == STATE_COUNT && (forall st :: a.spent[Index(st)] == TimeIn(a.past, st)) &&
    Gapless(a.past, a.allocation, a.lastChange) && LegalPath(a.past, a.entered)
  }

  lemma OpenedStays(now: nat)
    ensures StaysExact(Opened(now))
  {
  }

  /** Booking the state that was entered last keeps the stays exact. */
  lemma BookStays(a: Account, next: SandboxState, now: nat)
    requires StaysExact(a) && now > a.lastChange && Edge(a.entered, next)
    ensures StaysExact(Book(a, a.entered, next, now))
  {
    NextStay(a, Book(a, a.entered, next, now), next, now);
  }

  lemma BookReturnStays(a: Account, next: SandboxState, now: nat)
    requires StaysExact(a) && now >= a.lastChange && a.entered == Interrupted && Edge(Interrupted, next)
    ensures StaysExact(BookReturn(a, next, now))
  {
    NextStay(a, BookReturn(a, next, now), next, now);
  }

  lemma NextStay(a: Account, b: Account, next: SandboxState, now: nat)
    requires StaysExact(a) && now >= a.lastChange && Edge(a.entered, next) && b.allocation == a.allocation
    requires b.past == a.past + [Stay(a.entered, a.lastChange, now)] && b.entered == next && b.lastChange == now
    requires b.spent == a.spent[Index(a.entered) := a.spent[Index(a.entered)] + (now - a.lastChange)]
    ensures StaysExact(b)
  {
    hide Gapless, LegalPath, Edge;
    assert b.past[..|b.past| - 1] == a.past;
    forall st ensures b.spent[Index(st)] == TimeIn(b.past, st) {
      assert a.spent[Index(st)] == TimeIn(a.past, st);
      IndexTellsStatesApart(st, a.entered);
    }
    NextChain(a.past, a.allocation, a.lastChange, a.entered, next, now);
  }

  lemma NextChain(past: seq<Stay>, allocation: nat, lastChange: nat, entered: SandboxState, next: SandboxState, now: nat)
    requires Gapless(past, allocation, lastChange) && LegalPath(past, entered) && now >= lastChange && Edge(entered, next)
    ensures Gapless(past + [Stay(entered, lastChange, now)], allocation, now)
    ensures LegalPath(past + [Stay(entered, lastChange, now)], next)
  {
    hide Edge;
    var longer := past + [Stay(entered, lastChange, now)];
    assert forall i :: 0 <= i < |past| ==> longer[i] == past[i];
    assert longer[|past|] == Stay(entered, lastChange, now);
    forall i | 0 <= i < |longer| ensures EndOf(longer, allocation, i) == longer[i].since <= longer[i].until {
      assert EndOf(longer, allocation, i) == EndOf(past, allocation, i);
    }
  }

  // ---------- Budgets ----------

  /** Every charge and replenishment that ever reached a tenant's budget, in order. */
  datatype Entry = Charge(tenant: nat, id: nat, amount: nat) | Refill(tenant: nat)

  /** What tenant `tenant` has been charged for sandbox `id`. */
  function ChargedTo(ledger: seq<Entry>, tenant: nat, id: nat): nat {
    if ledger == [] then 0 else
    var e := ledger[|ledger| - 1];
    ChargedTo(ledger[..|ledger| - 1], tenant, id) + if e.Charge? && e.id == id && e.tenant == tenant then e.amount else 0
  }

  function SinceRefill(ledger: seq<Entry>, tenant: nat): nat {
    if ledger == [] then 0 else
    var e, before := ledger[|ledger| - 1], ledger[..|ledger| - 1];
    if e.tenant != tenant then SinceRefill(before, tenant)
    else if e.Refill? then 0 else SinceRefill(before, tenant) + e.amount
  }

  lemma {:induction false} ChargedToNobody(ledger: seq<Entry>, tenant: nat, id: nat)
    requires forall e :: e in ledger && e.Charge? ==> e.id != id
    ensures ChargedTo(ledger, tenant, id) == 0
  {
    if ledger != [] { ChargedToNobody(ledger[..|ledger| - 1], tenant, id); }
  }

  datatype Bank = Bank(max: map<nat, nat>, remaining: map<nat, int>, ledger: seq<Entry>)

  /** Paid tenants are exactly those with a budget. */
  ghost predicate BankOk(b: Bank) {
    b.remaining.Keys == b.max.Keys &&
    forall t :: t in b.max ==> b.remaining[t] == b.max[t] - SinceRefill(b.ledger, t)
  }

  function PostCharge(b: Bank, tenant: nat, id: nat, amount: nat): (r: Bank)
    ensures r.max == b.max
  {
    if tenant !in b.max || tenant !in b.remaining then b
    else b.(remaining := b.remaining[tenant := b.remaining[tenant] - amount],
            ledger := b.ledger + [Charge(tenant, id, amount)])
  }

  function PostRefill(b: Bank, tenant: nat): (r: Bank)
    ensures r.max == b.max
  {
    if tenant !in b.max || tenant !in b.remaining then b
    else b.(remaining := b.remaining[tenant := b.max[tenant]], ledger := b.ledger + [Refill(tenant)])
  }

  /** A charge lowers the budget of its own tenant, if that one is paid, and no other. */
  lemma PostChargeOk(b: Bank, tenant: nat, id: nat, amount: nat)
    requires BankOk(b)
    ensures var r := PostCharge(b, tenant, id, amount);
            BankOk(r) && r.remaining.Keys == b.remaining.Keys &&
            (forall t :: t in b.max ==> r.remaining[t] == b.remaining[t] - if t == tenant then amount else 0) &&
            forall t: nat, j: nat :: ChargedTo(r.ledger, t, j) ==
              ChargedTo(b.ledger, t, j) + if t == tenant && j == id && tenant in b.max then amount else 0
  {
    var r := PostCharge(b, tenant, id, amount);
    if tenant in b.max { assert r.ledger[..|r.ledger| - 1] == b.ledger; }
  }

  /** A replenishment restores the maximum of its own tenant and touches no other. */
  lemma PostRefillOk(b: Bank, tenant: nat)
    requires BankOk(b)
    ensures var r := PostRefill(b, tenant);
            BankOk(r) && r.remaining.Keys == b.remaining.Keys &&
            (forall t :: t in b.max ==> r.remaining[t] == if t == tenant then b.max[t] else b.remaining[t]) &&
            forall t: nat, j: nat :: ChargedTo(r.ledger, t, j) == ChargedTo(b.ledger, t, j)
  {
    var r := PostRefill(b, tenant);
    if tenant in b.max { assert r.ledger[..|r.ledger| - 1] == b.ledger; }
  }
}
