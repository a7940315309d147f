/** The work-stealing deque of runtime/include/deque.h under sequential consistency.

    One owner pushes and pops at `bottom`; any number of thieves steal at `top`. Every shared read,
    write and compare-and-swap is one atomic step, so a run is any interleaving of them. */
module Deque {

  const DEQUE_MAX_SZ: nat := 0x80_0000

  /** A stored item. `serial` is bookkeeping: the item is the `serial`-th one ever pushed. No step
      branches on it; it tells equal items apart in the statements below. */
  datatype Cell = Cell(item: int, serial: nat)

  datatype OwnerPc =
    | OwnerIdle
    | PushReadTop(item: int, ct: int)
    | PushReadBottom(item: int, ct: int, cb: int)
    | PushWrote(item: int, cb: int)
    | PopReadBottom(cb: int)
    | PopLowered(cb: int)
    | PopReadTop(cb: int, ct: int)
    | PopReadItem(cb: int, ct: int, w: Cell)
    | PopRaced(cb: int, ct: int)

  datatype ThiefPc =
    | ThiefIdle
    | StealReadTop(ct: int)
    | StealReadBottom(ct: int)
    | StealReadItem(ct: int, w: Cell)

  /** Where the item with a given serial is: still in slot `slot`, or handed out as the `at`-th return. */
  datatype Fate = InSlot(slot: int) | Returned(at: nat)

  datatype Return = Return(cell: Cell, stolen: bool)

  datatype State = State(
    wrk: seq<Cell>, top: int, bottom: int, size: nat,
    owner: OwnerPc, thieves: seq<ThiefPc>,
    assertFailed: bool,
    pushed: seq<int>, fate: seq<Fate>, returned: seq<Return>)

  datatype Step = BeginPush(item: int) | BeginPop | Owner | Thief(t: nat)

  ghost predicate Init(s: State) {
    |s.wrk| == DEQUE_MAX_SZ && s.top == 0 && s.bottom == 0 && s.size <= DEQUE_MAX_SZ &&
    s.owner == OwnerIdle && (forall t :: 0 <= t < |s.thieves| ==> s.thieves[t] == ThiefIdle) &&
    !s.assertFailed && s.pushed == [] && s.fate == [] && s.returned == []
  }

  /** Hand cell `w` out: it becomes the next return. */
  function Take(s: State, w: Cell, stolen: bool): State {
    s.(returned := s.returned + [Return(w, stolen)],
       fate := if w.serial < |s.fate| then s.fate[w.serial := Returned(|s.returned|)] else s.fate)
  }

  /** A step that is not enabled leaves the state unchanged. Storing past the end of `wrk` is not
      enabled: the array is never wrapped, so the owner stops there. */
  function Next(s: State, step: Step): State {
    match step
    case BeginPush(item) => if s.owner == OwnerIdle then s.(owner := PushReadTop(item, s.top)) else s
    case BeginPop => if s.owner == OwnerIdle then s.(owner := PopReadBottom(s.bottom - 1)) else s
    case Owner => OwnerStep(s)
    case Thief(t) => if t < |s.thieves| then ThiefStep(s, t) else s
  }

  function OwnerStep(s: State): State {
    match s.owner
    case OwnerIdle => s
    case PushReadTop(item, ct) =>
      if s.size - 1 < s.bottom - ct then s.(owner := OwnerIdle)
      else s.(owner := PushReadBottom(item, ct, s.bottom))
    case PushReadBottom(item, ct, cb) =>
      if 0 <= cb < |s.wrk| then s.(wrk := s.wrk[cb := Cell(item, |s.pushed|)], owner := PushWrote(item, cb))
      else s
    case PushWrote(item, cb) =>
      if s.bottom != cb then s.(assertFailed := true, owner := OwnerIdle)
      else s.(bottom := cb + 1, owner := OwnerIdle, pushed := s.pushed + [item], fate := s.fate + [InSlot(cb)])
    case PopReadBottom(cb) =>
      if s.bottom != cb + 1 then s.(assertFailed := true, owner := OwnerIdle)
      else s.(bottom := cb, owner := PopLowered(cb))
    case PopLowered(cb) => s.(owner := PopReadTop(cb, s.top))
    case PopReadTop(cb, ct) =>
      if cb - ct < 0 then
        if s.bottom != cb then s.(assertFailed := true, owner := OwnerIdle)
        else s.(bottom := ct, owner := OwnerIdle)
      else if !(0 <= cb < |s.wrk|) then s.(assertFailed := true)
      else if cb - ct > 0 then Take(s, s.wrk[cb], false).(owner := OwnerIdle)
      else s.(owner := PopReadItem(cb, ct, s.wrk[cb]))
    case PopReadItem(cb, ct, w) =>
      if s.top == ct then Take(s, w, false).(top := ct + 1, owner := PopRaced(cb, ct))
      else s.(owner := PopRaced(cb, ct))
    case PopRaced(cb, ct) =>
      if s.bottom != cb then s.(assertFailed := true, owner := OwnerIdle)
      else s.(bottom := ct + 1, owner := OwnerIdle)
  }

  function ThiefStep(s: State, t: nat): State
    requires t < |s.thieves|
  {
    match s.thieves[t]
    case ThiefIdle => Goes(s, t, StealReadTop(s.top))
    case StealReadTop(ct) => Goes(s, t, if ct >= s.bottom then ThiefIdle else StealReadBottom(ct))
    case StealReadBottom(ct) =>
      if 0 <= ct < |s.wrk| then Goes(s, t, StealReadItem(ct, s.wrk[ct])) else s.(assertFailed := true)
    case StealReadItem(ct, w) =>
      if s.top == ct then Goes(Take(s, w, true).(top := ct + 1), t, ThiefIdle) else Goes(s, t, ThiefIdle)
  }

  function Goes(s: State, t: nat, pc: ThiefPc): State
    requires t < |s.thieves|
  {
    s.(thieves := s.thieves[t := pc])
  }

  function Run(s: State, steps: seq<Step>): State {
    if steps == [] then s else Next(Run(s, steps[..|steps| - 1]), steps[|steps| - 1])
  }

  // ---------- The invariant ----------

  /** One past the last slot whose item has not been handed out. */
  function HeldEnd(s: State): int {
    match s.owner
    case PopLowered(cb) => cb + 1
    case PopReadTop(cb, ct) => cb + 1
    case PopReadItem(cb, ct, w) => cb + 1
    case PopRaced(cb, ct) => ct + 1
    case _ => s.bottom
  }

  /** One past the last slot a thief may still win: once the owner has seen that two or more items
      remain, the last one is its own. */
  function StealEnd(s: State): int {
    if s.owner.PopReadTop? && s.owner.ct < s.owner.cb then s.owner.cb else HeldEnd(s)
  }

  ghost predicate OwnerOk(s: State) {
    match s.owner
    case OwnerIdle => true
    case PushReadTop(item, ct) => true
    case PushReadBottom(item, ct, cb) => cb == s.bottom
    case PushWrote(item, cb) =>
      cb == s.bottom && 0 <= cb < |s.wrk| && s.wrk[cb] == Cell(item, |s.pushed|)
    case PopReadBottom(cb) => s.bottom == cb + 1
    case PopLowered(cb) => s.bottom == cb
    case PopReadTop(cb, ct) => s.bottom == cb && 0 <= ct <= s.top && ct <= cb + 1
    case PopReadItem(cb, ct, w) =>
      s.bottom == cb && ct == cb && 0 <= cb < |s.wrk| && ct <= s.top && (s.top == ct ==> w == s.wrk[cb])
    case PopRaced(cb, ct) => s.bottom == cb && ct == cb && s.top == ct + 1
  }

  ghost predicate Shape(s: State) {
    |s.wrk| == DEQUE_MAX_SZ && |s.fate| == |s.pushed| && !s.assertFailed &&
    0 <= s.top <= StealEnd(s) && HeldEnd(s) <= |s.wrk| && OwnerOk(s)
  }

  ghost predicate SlotsOk(s: State)
    requires Shape(s)
  {
    (forall i :: s.top <= i < HeldEnd(s) ==>
      s.wrk[i].serial < |s.pushed| && s.fate[s.wrk[i].serial] == InSlot(i) &&
      s.wrk[i].item == s.pushed[s.wrk[i].serial]) &&
    (forall i, j :: s.top <= i < j < HeldEnd(s) ==> s.wrk[i].serial < s.wrk[j].serial)
  }

  ghost predicate FatesOk(s: State)
    requires Shape(s)
  {
    forall n :: 0 <= n < |s.fate| ==>
      match s.fate[n]
      case InSlot(i) => s.top <= i < HeldEnd(s) && s.wrk[i].serial == n
      case Returned(a) => a < |s.returned| && s.returned[a].cell.serial == n
  }

  ghost predicate ReturnsOk(s: State)
    requires |s.fate| == |s.pushed|
  {
    (forall a :: 0 <= a < |s.returned| ==>
      var c := s.returned[a].cell;
      c.serial < |s.pushed| && s.fate[c.serial] == Returned(a) && c.item == s.pushed[c.serial]) &&
    (forall a, b :: 0 <= a < b < |s.returned| && s.returned[a].stolen && s.returned[b].stolen ==>
      s.returned[a].cell.serial < s.returned[b].cell.serial)
  }

  ghost predicate StolenBeforeHeld(s: State)
    requires Shape(s)
  {
    forall a, i :: 0 <= a < |s.returned| && s.returned[a].stolen && s.top <= i < HeldEnd(s) ==>
      s.returned[a].cell.serial < s.wrk[i].serial
  }

  ghost predicate ThiefOk(s: State, pc: ThiefPc)
    requires Shape(s)
  {
    match pc
    case ThiefIdle => true
    case StealReadTop(ct) => 0 <= ct <= s.top
    case StealReadBottom(ct) => 0 <= ct <= s.top && ct < |s.wrk| && (ct == s.top ==> ct < StealEnd(s))
    case StealReadItem(ct, w) =>
      0 <= ct <= s.top && (ct == s.top ==> ct < StealEnd(s) && w == s.wrk[ct])
  }

  ghost predicate ThievesOk(s: State)
    requires Shape(s)
  {
    forall t :: 0 <= t < |s.thieves| ==> ThiefOk(s, s.thieves[t])
  }

  ghost predicate Inv(s: State) {
    Shape(s) && SlotsOk(s) && FatesOk(s) && ReturnsOk(s) && StolenBeforeHeld(s) && ThievesOk(s)
  }

  lemma InitInv(s: State)
    requires Init(s)
    ensures Inv(s)
  {
  }

  /** Handing out the item in the first or last held slot keeps the bookkeeping straight. */
  lemma TakeKeepsReturns(s: State, i: int, stolen: bool)
    requires Inv(s) && s.top <= i < HeldEnd(s) && (stolen ==> i == s.top)
    ensures ReturnsOk(Take(s, s.wrk[i], stolen))
  {
  }

  /** A step that moves no item: only the owner's place and `bottom` change. */
  lemma QuietStepKeepsInv(s: State, s': State)
    requires Inv(s) && Shape(s')
    requires s' == s.(owner := s'.owner, bottom := s'.bottom)
    requires HeldEnd(s') == HeldEnd(s) && (StealEnd(s') >= StealEnd(s) || s.top < StealEnd(s'))
    ensures Inv(s')
  {
  }

  lemma PushWriteKeepsInv(s: State)
    requires Inv(s) && s.owner.PushReadBottom?
    ensures Inv(OwnerStep(s))
  {
    var s' := OwnerStep(s);
    assert Shape(s') && HeldEnd(s') == HeldEnd(s) == StealEnd(s') == StealEnd(s);
    assert forall i :: s.top <= i < HeldEnd(s) ==> s'.wrk[i] == s.wrk[i];
    assert SlotsOk(s') by { hide FatesOk, ReturnsOk, StolenBeforeHeld, ThievesOk; }
    assert FatesOk(s') by { hide SlotsOk, ReturnsOk, StolenBeforeHeld, ThievesOk; }
    assert StolenBeforeHeld(s') by { hide SlotsOk, FatesOk, ThievesOk; }
    assert ThievesOk(s') by { hide SlotsOk, FatesOk, ReturnsOk, StolenBeforeHeld; }
  }

  lemma PushCommitKeepsInv(s: State)
    requires Inv(s) && s.owner.PushWrote?
    ensures Inv(OwnerStep(s))
  {
    var s' := OwnerStep(s);
    assert Shape(s') && HeldEnd(s') == HeldEnd(s) + 1 == StealEnd(s') == StealEnd(s) + 1;
    assert SlotsOk(s') by { hide FatesOk, ReturnsOk, StolenBeforeHeld, ThievesOk; }
    assert FatesOk(s') by { hide SlotsOk, ReturnsOk, StolenBeforeHeld, ThievesOk; }
    assert ReturnsOk(s') by { hide SlotsOk, FatesOk, StolenBeforeHeld, ThievesOk; }
    assert StolenBeforeHeld(s') by { hide SlotsOk, FatesOk, ThievesOk; }
    assert ThievesOk(s') by { hide SlotsOk, FatesOk, ReturnsOk, StolenBeforeHeld; }
  }

  /** The owner takes the last held slot, unopposed. */
  lemma PopTakeKeepsInv(s: State)
    requires Inv(s) && s.owner.PopReadTop? && s.owner.ct < s.owner.cb
    ensures Inv(OwnerStep(s))
  {
    TakeKeepsReturns(s, s.owner.cb, false);
    var s' := OwnerStep(s);
    assert Shape(s') && HeldEnd(s') == StealEnd(s') == StealEnd(s);
    assert ThievesOk(s') by { hide SlotsOk, FatesOk, ReturnsOk, StolenBeforeHeld; }
    hide SlotsOk, FatesOk, ReturnsOk, StolenBeforeHeld, ThievesOk;
    TakeKeepsSlots(s, s', s.owner.cb, false);
    TakeKeepsFates(s, s', s.owner.cb, false);
    TakeKeepsStolenBeforeHeld(s, s', s.owner.cb, false);
  }

  /** The owner wins the race for the only held slot. */
  lemma PopWinKeepsInv(s: State)
    requires Inv(s) && s.owner.PopReadItem? && s.top == s.owner.ct
    ensures Inv(OwnerStep(s))
  {
    TakeKeepsReturns(s, s.owner.cb, false);
  }

  lemma OwnerKeepsInv(s: State)
    requires Inv(s)
    ensures Inv(OwnerStep(s))
  {
    if s.owner.PushReadBottom? {
      PushWriteKeepsInv(s);
    } else if s.owner.PushWrote? {
      PushCommitKeepsInv(s);
    } else if s.owner.PopReadTop? && s.owner.ct < s.owner.cb {
      PopTakeKeepsInv(s);
    } else if s.owner.PopReadItem? && s.top == s.owner.ct {
      PopWinKeepsInv(s);
    } else {
      hide SlotsOk, FatesOk, ReturnsOk, StolenBeforeHeld;
      QuietStepKeepsInv(s, OwnerStep(s));
    }
  }

  lemma StealKeepsInv(s: State, t: nat, w: Cell)
    requires Inv(s) && t < |s.thieves| && s.thieves[t] == StealReadItem(s.top, w)
    ensures Inv(ThiefStep(s, t))
  {
    var s' := ThiefStep(s, t);
    assert s.top < StealEnd(s) && w == s.wrk[s.top] by {
      hide SlotsOk, FatesOk, ReturnsOk, StolenBeforeHeld;
      assert ThiefOk(s, s.thieves[t]);
    }
    assert Shape(s') && HeldEnd(s') == HeldEnd(s) && StealEnd(s') == StealEnd(s) by {
      hide SlotsOk, FatesOk, ReturnsOk, StolenBeforeHeld, ThievesOk;
    }
    TakeKeepsReturns(s, s.top, true);
    hide SlotsOk, FatesOk, ReturnsOk, StolenBeforeHeld, ThievesOk;
    TakeKeepsSlots(s, s', s.top, true);
    TakeKeepsFates(s, s', s.top, true);
    TakeKeepsStolenBeforeHeld(s, s', s.top, true);
    StealKeepsThieves(s, s', t);
  }

  lemma StealKeepsThieves(s: State, s': State, t: nat)
    requires Shape(s) && ThievesOk(s) && Shape(s') && StealEnd(s') == StealEnd(s)
    requires t < |s.thieves| && s'.thieves == s.thieves[t := ThiefIdle]
    requires s'.top == s.top + 1 && s'.wrk == s.wrk
    ensures ThievesOk(s')
  {
    forall u | 0 <= u < |s'.thieves| ensures ThiefOk(s', s'.thieves[u]) {
      assert u != t ==> ThiefOk(s, s.thieves[u]);
    }
  }

  /** Taking the first held slot by a steal, or the last one by a pop. */
  ghost predicate Takes(s: State, s': State, i: int, stolen: bool) {
    Shape(s) && Shape(s') && s.top <= i < HeldEnd(s) && s'.wrk == s.wrk &&
    s'.pushed == s.pushed && s'.fate == Take(s, s.wrk[i], stolen).fate &&
    s'.returned == s.returned + [Return(s.wrk[i], stolen)] &&
    if stolen then i == s.top && s'.top == s.top + 1 && HeldEnd(s') == HeldEnd(s)
    else i == HeldEnd(s) - 1 && s'.top == s.top && HeldEnd(s') == HeldEnd(s) - 1
  }

  lemma TakeKeepsSlots(s: State, s': State, i: int, stolen: bool)
    requires Takes(s, s', i, stolen) && SlotsOk(s)
    ensures SlotsOk(s')
  {
    assert forall j :: s'.top <= j < HeldEnd(s') ==> s.wrk[j].serial != s.wrk[i].serial;
  }

  lemma TakeKeepsFates(s: State, s': State, i: int, stolen: bool)
    requires Takes(s, s', i, stolen) && SlotsOk(s) && FatesOk(s)
    ensures FatesOk(s')
  {
    assert s'.returned[|s.returned|].cell == s.wrk[i];
    assert s.wrk[i].serial < |s.pushed|;
  }

  lemma TakeKeepsStolenBeforeHeld(s: State, s': State, i: int, stolen: bool)
    requires Takes(s, s', i, stolen) && SlotsOk(s) && StolenBeforeHeld(s)
    ensures StolenBeforeHeld(s')
  {
  }

  lemma ThiefMoveKeepsInv(s: State, t: nat, pc: ThiefPc)
    requires Inv(s) && t < |s.thieves| && ThiefOk(s, pc)
    ensures Inv(Goes(s, t, pc))
  {
    var s' := Goes(s, t, pc);
    assert Shape(s') && HeldEnd(s') == HeldEnd(s) && StealEnd(s') == StealEnd(s);
    assert SlotsOk(s') by { hide FatesOk, ReturnsOk, StolenBeforeHeld, ThievesOk; }
    assert FatesOk(s') by { hide SlotsOk, ReturnsOk, StolenBeforeHeld, ThievesOk; }
    assert ReturnsOk(s') by { hide SlotsOk, FatesOk, StolenBeforeHeld, ThievesOk; }
    assert StolenBeforeHeld(s') by { hide SlotsOk, FatesOk, ThievesOk; }
    assert ThievesOk(s') by { hide SlotsOk, FatesOk, ReturnsOk, StolenBeforeHeld; }
  }

  lemma ThiefKeepsInv(s: State, t: nat)
    requires Inv(s) && t < |s.thieves|
    ensures Inv(ThiefStep(s, t))
  {
    var pc := s.thieves[t];
    if pc.StealReadItem? && pc.ct == s.top {
      StealKeepsInv(s, t, pc.w);
    } else {
      hide SlotsOk, FatesOk, ReturnsOk, StolenBeforeHeld;
      assert ThiefOk(s, pc);
      ThiefMoveKeepsInv(s, t, ThiefStep(s, t).thieves[t]);
    }
  }

  lemma NextKeepsInv(s: State, step: Step)
    requires Inv(s)
    ensures Inv(Next(s, step))
  {
    hide SlotsOk, FatesOk, ReturnsOk, StolenBeforeHeld, ThievesOk;
    match step
    case BeginPush(_) => QuietStepKeepsInv(s, Next(s, step));
    case BeginPop => QuietStepKeepsInv(s, Next(s, step));
    case Owner => OwnerKeepsInv(s);
    case Thief(t) => if t < |s.thieves| { ThiefKeepsInv(s, t); }
  }

  lemma {:induction false} EveryRunKeepsInv(s: State, steps: seq<Step>)
    requires Init(s)
    ensures Inv(Run(s, steps))
  {
    if steps == [] {
      InitInv(s);
    } else {
      hide Inv;
      EveryRunKeepsInv(s, steps[..|steps| - 1]);
      NextKeepsInv(Run(s, steps[..|steps| - 1]), steps[|steps| - 1]);
    }
  }

  // ---------- What every run guarantees ----------

  /** No compare-and-swap that the code asserts on can fail, and every slot read or written through
      the indices is inside the array. */
  lemma NoAssertFails(s: State, steps: seq<Step>)
    requires Init(s)
    ensures !Run(s, steps).assertFailed
  {
    EveryRunKeepsInv(s, steps);
  }

  /** Each return is of a pushed item, and no item is returned twice, by pop or by steal. */
  lemma ReturnedAtMostOnce(s: State, steps: seq<Step>)
    requires Init(s)
    ensures var r := Run(s, steps);
      (forall a :: 0 <= a < |r.returned| ==>
        r.returned[a].cell.serial < |r.pushed| &&
        r.returned[a].cell.item == r.pushed[r.returned[a].cell.serial]) &&
      (forall a, b :: 0 <= a < b < |r.returned| ==>
        r.returned[a].cell.serial != r.returned[b].cell.serial)
  {
    EveryRunKeepsInv(s, steps);
  }

  /** Stolen items come out in the order in which they were pushed. */
  lemma StolenInPushOrder(s: State, steps: seq<Step>)
    requires Init(s)
    ensures var r := Run(s, steps);
      forall a, b :: 0 <= a < b < |r.returned| && r.returned[a].stolen && r.returned[b].stolen ==>
        r.returned[a].cell.serial < r.returned[b].cell.serial
  {
    EveryRunKeepsInv(s, steps);
  }

  ghost predicate WasReturned(r: State, n: nat) {
    exists a :: 0 <= a < |r.returned| && r.returned[a].cell.serial == n
  }

  ghost predicate InDeque(r: State, n: nat) {
    exists i :: 0 <= r.top <= i < r.bottom <= |r.wrk| && r.wrk[i].serial == n
  }

  /** Whenever the owner is between operations, the slots `top` to `bottom` hold exactly the pushed
      items that were not returned, each once and in push order. */
  lemma RestIsInTheDeque(s: State, steps: seq<Step>)
    requires Init(s) && Run(s, steps).owner == OwnerIdle
    ensures var r := Run(s, steps);
      0 <= r.top <= r.bottom <= |r.wrk| &&
      (forall n: nat :: n < |r.pushed| ==> (InDeque(r, n) <==> !WasReturned(r, n))) &&
      (forall i :: r.top <= i < r.bottom ==>
        r.wrk[i].serial < |r.pushed| && r.wrk[i].item == r.pushed[r.wrk[i].serial]) &&
      (forall i, j :: r.top <= i < j < r.bottom ==> r.wrk[i].serial < r.wrk[j].serial)
  {
    EveryRunKeepsInv(s, steps);
    var r := Run(s, steps);
    forall n: nat | n < |r.pushed| ensures InDeque(r, n) <==> !WasReturned(r, n) {
      match r.fate[n]
      case InSlot(i) => assert r.wrk[i].serial == n;
      case Returned(a) => assert r.returned[a].cell.serial == n;
    }
  }

  /** A pop that answers "empty" is right: at its last step every pushed item has been returned. */
  lemma EmptyPopIsTruthful(s: State, steps: seq<Step>)
    requires Init(s)
    requires var r := Run(s, steps);
             (r.owner.PopReadTop? && r.owner.cb < r.owner.ct) ||
             (r.owner.PopReadItem? && r.top != r.owner.ct)
    ensures var r := Run(s, steps); forall n: nat :: n < |r.pushed| ==> WasReturned(r, n)
  {
    EveryRunKeepsInv(s, steps);
    var r := Run(s, steps);
    forall n: nat | n < |r.pushed| ensures WasReturned(r, n) {
      assert r.fate[n].Returned?;
      assert r.returned[r.fate[n].at].cell.serial == n;
    }
  }
}
