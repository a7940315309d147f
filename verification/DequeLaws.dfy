/** What the answers of the deque's operations mean: when a push is refused, when a steal finds nothing or loses, and
    what an undisturbed push, pop or steal does. */
module DequeLaws {
  import opened Deque

  ghost predicate AllReturned(r: State) {
    forall n: nat :: n < |r.pushed| ==> WasReturned(r, n)
  }

  /** No held slot means that every pushed item has been returned. */
  lemma NothingHeldIsAllReturned(r: State)
    requires Inv(r) && r.top >= HeldEnd(r)
    ensures AllReturned(r)
  {
    forall n: nat | n < |r.pushed| ensures WasReturned(r, n) {
      assert r.fate[n].Returned?;
      assert r.returned[r.fate[n].at].cell.serial == n;
    }
  }

  // ---------- Steals ----------

  /** A thief that has read `top` answers "empty" if and only if that was not below `bottom`; and then, unless the owner
      is in the middle of a pop, every pushed item has been returned. */
  lemma EmptyStealIsTruthful(s: State, steps: seq<Step>, t: nat)
    requires Init(s)
    ensures var r := Run(s, steps);
            t < |r.thieves| && r.thieves[t].StealReadTop? ==>
              var r' := Next(r, Thief(t));
              (r'.thieves[t] == ThiefIdle <==> r.thieves[t].ct >= r.bottom) && r'.returned == r.returned &&
              (r'.thieves[t] == ThiefIdle && HeldEnd(r) == r.bottom ==> AllReturned(r))
  {
    EveryRunKeepsInv(s, steps);
    var r := Run(s, steps);
    hide Run;
    if t < |r.thieves| && r.thieves[t].StealReadTop? && r.thieves[t].ct >= r.bottom && HeldEnd(r) == r.bottom {
      assert ThiefOk(r, r.thieves[t]);
      NothingHeldIsAllReturned(r);
    }
  }

  /** A thief about to swap takes the oldest held item if `top` is still what it read, and otherwise nothing. */
  lemma StealTakesTheOldest(s: State, steps: seq<Step>, t: nat)
    requires Init(s)
    ensures var r := Run(s, steps);
            t < |r.thieves| && r.thieves[t].StealReadItem? ==>
              var r' := Next(r, Thief(t));
              r'.thieves[t] == ThiefIdle &&
              if r.top == r.thieves[t].ct
              then 0 <= r.top < |r.wrk| && r'.returned == r.returned + [Return(r.wrk[r.top], true)] && r'.top == r.top + 1
              else r'.returned == r.returned && r'.top == r.top
  {
    EveryRunKeepsInv(s, steps);
    var r := Run(s, steps);
    hide Run;
    if t < |r.thieves| && r.thieves[t].StealReadItem? { assert ThiefOk(r, r.thieves[t]); }
  }

  /** Where a thief in the middle of a steal read `top`: at its step `j`, from which on it has been stealing. */
  ghost predicate ReadTopAt(s: State, steps: seq<Step>, t: nat, j: nat, ct: int) {
    j < |steps| && steps[j] == Thief(t) && Run(s, steps[..j]).top == ct
  }

  function TopRead(pc: ThiefPc): int
    requires !pc.ThiefIdle?
  {
    pc.ct
  }

  lemma {:induction false} StealBegan(s: State, steps: seq<Step>, t: nat) returns (j: nat)
    requires Init(s) && t < |Run(s, steps).thieves| && !Run(s, steps).thieves[t].ThiefIdle?
    ensures ReadTopAt(s, steps, t, j, TopRead(Run(s, steps).thieves[t]))
  {
    hide Next;
    assert steps != [];
    var n := |steps| - 1;
    var r := Run(s, steps[..n]);
    KeepsThieves(r, steps[n]);
    if r.thieves[t].ThiefIdle? {
      j := n;
      BeginsAtTop(r, steps[n], t);
    } else {
      j := StealBegan(s, steps[..n], t);
      assert steps[..n][..j] == steps[..j];
      KeepsTopRead(r, steps[n], t);
    }
  }

  lemma KeepsThieves(r: State, step: Step)
    ensures |Next(r, step).thieves| == |r.thieves|
  {
  }

  lemma BeginsAtTop(r: State, step: Step, t: nat)
    requires t < |r.thieves| == |Next(r, step).thieves| && r.thieves[t].ThiefIdle? && !Next(r, step).thieves[t].ThiefIdle?
    ensures step == Thief(t) && TopRead(Next(r, step).thieves[t]) == r.top
  {
  }

  lemma KeepsTopRead(r: State, step: Step, t: nat)
    requires t < |r.thieves| == |Next(r, step).thieves| && !r.thieves[t].ThiefIdle? && !Next(r, step).thieves[t].ThiefIdle?
    ensures TopRead(Next(r, step).thieves[t]) == TopRead(r.thieves[t])
  {
  }

  /** `top` only grows, and each time it does an item is handed out. */
  lemma TopMoveIsATake(r: State, step: Step)
    requires Inv(r)
    ensures var r' := Next(r, step);
            r'.top >= r.top && |r'.returned| >= |r.returned| && (r'.top > r.top ==> |r'.returned| > |r.returned|)
  {
  }

  lemma {:induction false} TakesBetween(s: State, steps: seq<Step>, i: nat)
    requires Init(s) && i <= |steps|
    ensures var a, b := Run(s, steps[..i]), Run(s, steps);
            b.top >= a.top && |b.returned| >= |a.returned| && (b.top > a.top ==> |b.returned| > |a.returned|)
    decreases |steps|
  {
    hide Next, Inv;
    if i == |steps| {
      assert steps[..i] == steps;
    } else {
      var n := |steps| - 1;
      TakesBetween(s, steps[..n], i);
      assert steps[..n][..i] == steps[..i];
      EveryRunKeepsInv(s, steps[..n]);
      TopMoveIsATake(Run(s, steps[..n]), steps[n]);
    }
  }

  /** A steal that loses its swap lost to another take: since it read `top`, at its step `j`, an item was handed out. */
  lemma LostStealIsTruthful(s: State, steps: seq<Step>, t: nat) returns (j: nat)
    requires Init(s) && t < |Run(s, steps).thieves| && Run(s, steps).thieves[t].StealReadItem?
    ensures ReadTopAt(s, steps, t, j, Run(s, steps).thieves[t].ct)
    ensures Next(Run(s, steps), Thief(t)).returned == Run(s, steps).returned ==>
      |Run(s, steps).returned| > |Run(s, steps[..j]).returned|
  {
    hide Run, Next;
    j := StealBegan(s, steps, t);
    TakesBetween(s, steps, j);
    StealTakesTheOldest(s, steps, t);
    if Run(s, steps).top == Run(s, steps).thieves[t].ct {
      assert |Next(Run(s, steps), Thief(t)).returned| == |Run(s, steps).returned| + 1;
    }
  }

  // ---------- Undisturbed operations ----------

  function Twice(s: State, step: Step): State {
    Next(Next(s, step), step)
  }

  /** An undisturbed steal of thief `t`: from an empty deque it answers so after two steps; otherwise it takes the
      oldest held item in four. */
  lemma SoloSteal(s: State, steps: seq<Step>, t: nat)
    requires Init(s)
    ensures var r := Run(s, steps);
            t < |r.thieves| && r.thieves[t] == ThiefIdle && r.owner == OwnerIdle ==>
              var two := Twice(r, Thief(t)); var four := Twice(two, Thief(t));
              (r.top >= r.bottom ==> two == r && AllReturned(r)) &&
              (r.top < r.bottom ==>
                 0 <= r.top < |r.wrk| && four.returned == r.returned + [Return(r.wrk[r.top], true)] &&
                 four.top == r.top + 1 && four.bottom == r.bottom && four.thieves == r.thieves && four.wrk == r.wrk)
  {
    EveryRunKeepsInv(s, steps);
    var r := Run(s, steps);
    hide Run;
    if t < |r.thieves| && r.thieves[t] == ThiefIdle && r.owner == OwnerIdle {
      if r.top >= r.bottom {
        NothingHeldIsAllReturned(r);
        assert r.thieves[t := StealReadTop(r.top)][t := ThiefIdle] == r.thieves;
      } else {
        var two := Twice(r, Thief(t));
        assert two == r.(thieves := r.thieves[t := StealReadBottom(r.top)]);
        assert r.thieves[t := ThiefIdle] == r.thieves;
      }
    }
  }

  /** A push is refused if and only if the deque held `size` items or more when it read `top`; the owner alone moves
      `bottom`, so undisturbed the test is on the items held. */
  lemma PushIsRefusedIff(s: State, steps: seq<Step>)
    requires Init(s)
    ensures var r := Run(s, steps);
            r.owner.PushReadTop? ==>
              (Next(r, Owner).owner == OwnerIdle <==> r.bottom - r.owner.ct >= r.size) &&
              Next(r, Owner).pushed == r.pushed && r.owner.ct <= r.top
  {
    hide Inv, Next;
    PushReadsTop(s, steps);
    PushTest(Run(s, steps));
  }

  lemma PushTest(r: State)
    ensures r.owner.PushReadTop? ==>
      (Next(r, Owner).owner == OwnerIdle <==> r.bottom - r.owner.ct >= r.size) && Next(r, Owner).pushed == r.pushed
  {
  }

  /** What a push has read as `top` was `top` once. */
  lemma {:induction false} PushReadsTop(s: State, steps: seq<Step>)
    requires Init(s)
    ensures Run(s, steps).owner.PushReadTop? ==> Run(s, steps).owner.ct <= Run(s, steps).top
  {
    if steps != [] {
      hide Next, Inv;
      var n := |steps| - 1;
      PushReadsTop(s, steps[..n]);
      EveryRunKeepsInv(s, steps[..n]);
      TopMoveIsATake(Run(s, steps[..n]), steps[n]);
      PushBegins(Run(s, steps[..n]), steps[n]);
    }
  }

  lemma PushBegins(r: State, step: Step)
    ensures Next(r, step).owner.PushReadTop? ==>
      (r.owner.PushReadTop? && Next(r, step).owner == r.owner) || Next(r, step).owner.ct == r.top
  {
  }

  /** An undisturbed push of `x`: refused if and only if `size` items are held, and then nothing changes; otherwise `x` is
      the newest item held, as long as the array has a slot left. */
  lemma SoloPush(s: State, steps: seq<Step>, x: int)
    requires Init(s)
    ensures var r := Run(s, steps);
            r.owner == OwnerIdle ==>
              var begun := Next(r, BeginPush(x)); var tested := Next(begun, Owner); var done := Twice(tested, Owner);
              (r.bottom - r.top >= r.size ==> tested == r) &&
              (r.bottom - r.top < r.size && r.bottom < |r.wrk| ==>
                 done.owner == OwnerIdle && done.pushed == r.pushed + [x] && done.returned == r.returned &&
                 done.top == r.top && done.bottom == r.bottom + 1 &&
                 done.wrk == r.wrk[r.bottom := Cell(x, |r.pushed|)])
  {
    EveryRunKeepsInv(s, steps);
    var r := Run(s, steps);
    hide Run;
    if r.owner == OwnerIdle && r.bottom - r.top < r.size && r.bottom < |r.wrk| {
      var tested := Next(Next(r, BeginPush(x)), Owner);
      assert tested == r.(owner := PushReadBottom(x, r.top, r.bottom));
      assert Next(tested, Owner) == r.(wrk := r.wrk[r.bottom := Cell(x, |r.pushed|)], owner := PushWrote(x, r.bottom));
    }
  }

  function SoloPopped(r: State): State {
    Next(Twice(Twice(Next(r, BeginPop), Owner), Owner), Owner)
  }

  lemma PopReads(r: State)
    requires r.owner == OwnerIdle
    ensures Twice(Next(r, BeginPop), Owner) == r.(bottom := r.bottom - 1, owner := PopReadTop(r.bottom - 1, r.top))
  {
  }

  lemma IdleOwnerStays(r: State)
    requires r.owner == OwnerIdle
    ensures Next(r, Owner) == r
  {
  }

  lemma PopOfNone(r: State)
    requires r.owner == OwnerIdle && r.top >= r.bottom
    ensures SoloPopped(r) == r.(bottom := r.top)
  {
    PopReads(r);
    var done := r.(bottom := r.top, owner := OwnerIdle);
    assert Next(Twice(Next(r, BeginPop), Owner), Owner) == done;
    hide Next;
    IdleOwnerStays(done);
  }

  lemma PopOfMany(r: State)
    requires r.owner == OwnerIdle && 0 <= r.top < r.bottom - 1 < |r.wrk|
    ensures SoloPopped(r) == Take(r, r.wrk[r.bottom - 1], false).(bottom := r.bottom - 1)
  {
    PopReads(r);
    var done := Take(r, r.wrk[r.bottom - 1], false).(bottom := r.bottom - 1);
    assert Next(Twice(Next(r, BeginPop), Owner), Owner) == done;
    hide Next, Take;
    IdleOwnerStays(done);
  }

  lemma PopOfOne(r: State)
    requires r.owner == OwnerIdle && 0 <= r.top == r.bottom - 1 < |r.wrk|
    ensures SoloPopped(r) == Take(r, r.wrk[r.bottom - 1], false).(top := r.top + 1, bottom := r.top + 1)
  {
    hide Take;
    PopReads(r);
    var cb, w := r.bottom - 1, r.wrk[r.bottom - 1];
    var read := Next(Twice(Next(r, BeginPop), Owner), Owner);
    assert read == r.(bottom := cb, owner := PopReadItem(cb, cb, w));
    LastSwap(r, read, cb, w);
  }

  lemma LastSwap(r: State, read: State, cb: int, w: Cell)
    requires r.top == cb && read == r.(bottom := cb, owner := PopReadItem(cb, cb, w)) && r.owner == OwnerIdle
    ensures Next(Next(read, Owner), Owner) == Take(r, w, false).(top := cb + 1, bottom := cb + 1)
  {
    assert Next(read, Owner) == Take(read, w, false).(top := cb + 1, owner := PopRaced(cb, cb));
  }

  /** An undisturbed pop: of an empty deque it hands out nothing; otherwise it takes the newest item held. */
  lemma SoloPop(s: State, steps: seq<Step>)
    requires Init(s)
    ensures var r := Run(s, steps);
            r.owner == OwnerIdle ==>
              var done := SoloPopped(r);
              done.owner == OwnerIdle && done.wrk == r.wrk && done.pushed == r.pushed &&
              (r.top >= r.bottom ==> done.returned == r.returned && done.top == done.bottom && AllReturned(r)) &&
              (r.top < r.bottom ==>
                 0 < r.bottom <= |r.wrk| && done.returned == r.returned + [Return(r.wrk[r.bottom - 1], false)] &&
                 done.bottom - done.top == r.bottom - r.top - 1)
  {
    EveryRunKeepsInv(s, steps);
    var r := Run(s, steps);
    hide Run, SoloPopped;
    if r.owner == OwnerIdle {
      if r.top >= r.bottom {
        NothingHeldIsAllReturned(r);
        PopOfNone(r);
      } else if r.top < r.bottom - 1 {
        PopOfMany(r);
      } else {
        PopOfOne(r);
      }
    }
  }
}
