/** The exact condition for admissions control to be exact in every run: the routes' relative deadlines are long
    enough for the capacity. A route that is too short for it has a run that admits up to just below 2^64 less its
    largest estimate, wraps the check with that estimate, and underflows when work is given back. */
module AdmissionsExact {
  import opened Admissions

  /** Scaling multiplies an execution time by 64 * 15625 on 64 bits, so it keeps 58 bits of it. */
  const UNITS: nat := TWO64 / 64
  const INVERSE: nat := 76480200929599801

  /** The execution time that scales to 64 * k. */
  function ExecutionFor(k: nat): nat {
    k * INVERSE % UNITS
  }

  lemma ScaledExecution(k: nat)
    requires k < UNITS
    ensures ExecutionFor(k) < TWO64 && ExecutionFor(k) * GRANULARITY % TWO64 == 64 * k
  {
    var w := k * INVERSE / UNITS;
    assert ExecutionFor(k) == k * INVERSE - UNITS * w;
    assert INVERSE * 15625 == 1 + UNITS * 4146;
    assert ExecutionFor(k) * GRANULARITY == 64 * k + TWO64 * (4146 * k - 15625 * w);
    Remainder(ExecutionFor(k) * GRANULARITY, 64 * k, 4146 * k - 15625 * w);
  }

  lemma Remainder(x: int, r: int, q: int)
    requires x == r + TWO64 * q && 0 <= r < TWO64
    ensures x % TWO64 == r
  {
  }

  lemma QuotientIs(x: nat, d: nat, q: nat, r: nat)
    requires d > 0 && x == q * d + r && r < d
    ensures x / d == q
  {
    var p := x / d;
    assert x == p * d + x % d;
    if p < q { MulMonotone(d, p + 1, q); } else if q < p { MulMonotone(d, q + 1, p); }
  }

  // ---------- Admitting a given total ----------

  /** The listener waits, and the first live sandbox, if there is one, still has work to give back. */
  ghost predicate Ready(s: State, r: nat, d: nat, capacity: nat) {
    s.fault == Fine && s.listener == Waiting && s.capacity == capacity < TWO64 && r in s.routes &&
    s.routes[r].deadline == d && 0 < d < TWO64 && (s.live == [] ==> s.admitted == 0) &&
    (s.live != [] ==> s.live[0].estimate > 0 && !s.live[0].checked)
  }

  function AdmitSteps(r: nat, k: nat): seq<Step> {
    [Reestimate(r, ExecutionFor(k)), Load(r), Decide, Queued]
  }

  lemma RunFour(s: State, a: Step, b: Step, c: Step, d: Step)
    ensures Run(s, [a, b, c, d]) == Next(Next(Next(Next(s, a), b), c), d)
  {
    hide Next;
    var steps := [a, b, c, d];
    RunPrefix(s, steps, 0);
    RunPrefix(s, steps, 1);
    RunPrefix(s, steps, 2);
    RunPrefix(s, steps, 3);
    assert steps[..0] == [] && steps[..4] == steps;
  }

  lemma {:induction false} RunAppend(s: State, a: seq<Step>, b: seq<Step>)
    ensures Run(s, a + b) == Run(Run(s, a), b)
    decreases |b|
  {
    if b == [] {
      assert a + b == a;
    } else {
      var n := |b| - 1;
      RunAppend(s, a, b[..n]);
      assert (a + b)[..|a + b| - 1] == a + b[..n];
    }
  }

  lemma Reestimated(s: State, r: nat, d: nat, capacity: nat, k: nat)
    requires Ready(s, r, d, capacity) && k < UNITS && 64 * k / d > 0
    ensures Next(s, Reestimate(r, ExecutionFor(k))) == s.(routes := s.routes[r := Route(d, 64 * k / d)])
  {
    ScaledExecution(k);
  }

  lemma AdmitOne(s: State, r: nat, d: nat, capacity: nat, k: nat)
    requires Ready(s, r, d, capacity) && k < UNITS && 64 * k / d > 0 && s.admitted + 64 * k / d < capacity
    ensures var s' := Run(s, AdmitSteps(r, k));
            Ready(s', r, d, capacity) && s'.admitted == s.admitted + 64 * k / d
  {
    hide CalculateEstimate, AdmitSteps, Run;
    var e := 64 * k / d;
    var s1 := s.(routes := s.routes[r := Route(d, e)]);
    AdmitRun(s, r, d, capacity, k);
    SmallIsUnchanged(s.admitted + e);
    var s2 := Next(s1, Load(r));
    assert s2 == s1.(listener := Loaded(e, s.admitted));
    assert Next(s2, Decide) == s1.(listener := Counted(e), admitted := s.admitted + e);
  }

  lemma AdmitRun(s: State, r: nat, d: nat, capacity: nat, k: nat)
    requires Ready(s, r, d, capacity) && k < UNITS && 64 * k / d > 0
    ensures Run(s, AdmitSteps(r, k)) ==
            Next(Next(Next(s.(routes := s.routes[r := Route(d, 64 * k / d)]), Load(r)), Decide), Queued)
  {
    hide Next, Run;
    var steps := AdmitSteps(r, k);
    RunFour(s, steps[0], steps[1], steps[2], steps[3]);
    Reestimated(s, r, d, capacity, k);
  }

  lemma {:induction false} AdmitMany(s: State, r: nat, d: nat, capacity: nat, k: nat, n: nat) returns (steps: seq<Step>)
    requires Ready(s, r, d, capacity) && k < UNITS && (n > 0 ==> 64 * k / d > 0) && s.admitted + n * (64 * k / d) < capacity
    ensures var s' := Run(s, steps);
            Ready(s', r, d, capacity) && s'.admitted == s.admitted + n * (64 * k / d)
    decreases n
  {
    hide Next, AdmitSteps;
    if n == 0 {
      steps := [];
    } else {
      var e := 64 * k / d;
      assert n * e == (n - 1) * e + e;
      var before := AdmitMany(s, r, d, capacity, k, n - 1);
      AdmitOne(Run(s, before), r, d, capacity, k);
      steps := before + AdmitSteps(r, k);
      RunAppend(s, before, AdmitSteps(r, k));
    }
  }

  // ---------- Which totals estimates add up to ----------

  /** The counter value from which the largest estimate of deadline `d` wraps the check to zero. */
  function WrapTotal(d: nat): nat
    requires d > 0
  {
    TWO64 - (TWO64 - 64) / d
  }

  /** `n` times the estimate of `k` units and `m` times that of `j` units make `total`. */
  ghost predicate AddsUpTo(total: nat, d: nat, k: nat, n: nat, j: nat, m: nat)
    requires d > 0
  {
    k < UNITS && j < UNITS && (n > 0 ==> 64 * k / d > 0) && (m > 0 ==> 64 * j / d > 0) &&
    n * (64 * k / d) + m * (64 * j / d) == total
  }

  lemma LongDeadlineAddsUp(total: nat, d: nat) returns (k: nat)
    requires 64 <= d <= TWO64 - 64
    ensures AddsUpTo(total, d, k, total, 0, 0)
  {
    k := (d + 63) / 64;
    QuotientIs(64 * k, d, 1, 64 * k - d);
  }

  /** For a deadline that divides 64 the estimates are the multiples of 64 / d, and so is the total. */
  lemma DividingDeadlineAddsUp(d: nat) returns (n: nat)
    requires 0 < d < 64 && 64 % d == 0
    ensures AddsUpTo(WrapTotal(d), d, 1, n, 0, 0)
  {
    DivisorsOf64(d);
    n := WrapTotal(d) / (64 / d);
  }

  lemma DivisorsOf64(d: nat)
    requires 0 < d < 64 && 64 % d == 0
    ensures d == 1 || d == 2 || d == 4 || d == 8 || d == 16 || d == 32
  {
  }

  /** For any other short deadline some estimate leaves remainder 1 by the smallest one. */
  lemma OtherDeadlineAddsUp(total: nat, d: nat) returns (n: nat, j: nat, m: nat)
    requires 0 < d < 64 && 64 % d != 0 && total >= 64 * 64
    ensures AddsUpTo(total, d, 1, n, j, m)
  {
    var a, c := 64 / d, 64 % d;
    j := (d + c - 1) / c;
    CeilingAtMost(d, c);
    OneMore(d, a, c, j);
    m := total % a;
    SmallFactors(d, a, j, m);
    assert total / a >= 64 by { QuotientAtLeast(total, a); }
    n := total / a - m * j;
    Recombine(total, a, m, j, n);
  }

  lemma QuotientAtLeast(total: nat, a: nat)
    requires total >= 64 * 64 && 0 < a <= 64
    ensures total / a >= 64
  {
    if total / a < 64 { MulMonotone(a, total / a, 63); }
  }

  lemma CeilingAtMost(d: nat, c: nat)
    requires 0 < c && 0 < d
    ensures 0 < (d + c - 1) / c <= d && d <= c * ((d + c - 1) / c) < d + c
  {
    var j := (d + c - 1) / c;
    assert d + c - 1 == c * j + (d + c - 1) % c;
    if j > d { MulMonotone(c, d + 1, j); MulMonotone(d, 1, c); }
  }

  lemma OneMore(d: nat, a: nat, c: nat, j: nat)
    requires 0 < d < 64 && a == 64 / d && c == 64 % d && d <= c * j < d + c
    ensures 64 * j / d == a * j + 1
  {
    assert 64 == a * d + c;
    assert 64 * j == (a * j) * d + c * j;
    assert (a * j + 1) * d == (a * j) * d + d;
    QuotientIs(64 * j, d, a * j + 1, c * j - d);
  }

  lemma SmallFactors(d: nat, a: nat, j: nat, m: nat)
    requires 0 < d < 64 && a == 64 / d && 0 < j <= d && m < a
    ensures m * j <= 64
  {
    MulMonotone(j, m, a);
    MulMonotone(a, j, d);
    assert 64 == a * d + 64 % d;
  }

  lemma Recombine(total: nat, a: nat, m: nat, j: nat, n: nat)
    requires a > 0 && m == total % a && n == total / a - m * j
    ensures n * a + m * (a * j + 1) == total
  {
    assert total == total / a * a + m;
    assert n * a == total / a * a - m * j * a;
    assert m * (a * j + 1) == m * j * a + m;
  }

  lemma WrapTotalAddsUp(d: nat) returns (k: nat, n: nat, j: nat, m: nat)
    requires 0 < d <= TWO64 - 64
    ensures AddsUpTo(WrapTotal(d), d, k, n, j, m)
  {
    hide AddsUpTo;
    j, m := 0, 0;
    if d >= 64 {
      n := WrapTotal(d);
      k := LongDeadlineAddsUp(WrapTotal(d), d);
    } else if 64 % d == 0 {
      k := 1;
      n := DividingDeadlineAddsUp(d);
    } else {
      k := 1;
      assert d >= 2 && WrapTotal(d) >= 64 * 64 by { QuotientHalves(TWO64 - 64, d); }
      n, j, m := OtherDeadlineAddsUp(WrapTotal(d), d);
    }
  }

  // ---------- The exact condition ----------

  /** A route that does not fit has a run that underflows. */
  lemma UnfitRouteUnderflows(s: State, r: nat) returns (steps: seq<Step>)
    requires Init(s) && r in s.routes && !RouteFits(s.routes[r].deadline, s.capacity)
    ensures Run(s, steps).fault == Underflow
  {
    hide Run, Next, AdmitSteps, WrapTotal, RouteFits;
    assert RouteStarts(s.routes[r]);
    var d, capacity := s.routes[r].deadline, s.capacity;
    UnfitIsShort(d, capacity);
    var reach := ReachWrapTotal(s, r, d, capacity);
    steps := reach + (AdmitSteps(r, UNITS - 1) + [Test(0)]);
    RunAppend(s, reach, AdmitSteps(r, UNITS - 1) + [Test(0)]);
    RunAppend(Run(s, reach), AdmitSteps(r, UNITS - 1), [Test(0)]);
    RunOne(Run(Run(s, reach), AdmitSteps(r, UNITS - 1)), Test(0));
    WrapAndUnderflow(Run(s, reach), r, d, capacity);
  }

  lemma ReachWrapTotal(s: State, r: nat, d: nat, capacity: nat) returns (steps: seq<Step>)
    requires Ready(s, r, d, capacity) && s.admitted == 0 && d <= TWO64 - 64 && WrapTotal(d) < capacity
    ensures Ready(Run(s, steps), r, d, capacity) && Run(s, steps).admitted == WrapTotal(d)
  {
    hide Run, Ready, WrapTotal;
    assert 0 < d by { ReadyDeadline(s, r, d, capacity); }
    var k, n, j, m := WrapTotalAddsUp(d);
    var a, b := n * (64 * k / d), m * (64 * j / d);
    var first := AdmitMany(s, r, d, capacity, k, n);
    var second := AdmitMany(Run(s, first), r, d, capacity, j, m);
    RunAppend(s, first, second);
    steps := first + second;
  }

  lemma ReadyDeadline(s: State, r: nat, d: nat, capacity: nat)
    requires Ready(s, r, d, capacity)
    ensures 0 < d
  {
  }

  lemma UnfitIsShort(d: nat, capacity: nat)
    requires 0 < d < TWO64 && capacity < TWO64 && !RouteFits(d, capacity)
    ensures d <= TWO64 - 64 && WrapTotal(d) < capacity
  {
  }

  lemma RunOne(s: State, step: Step)
    ensures Run(s, [step]) == Next(s, step)
  {
    assert [step][..0] == [];
  }

  /** With the counter at the wrap total, the largest estimate is accepted and the counter falls to zero. */
  lemma WrapAndUnderflow(s: State, r: nat, d: nat, capacity: nat)
    requires Ready(s, r, d, capacity) && d <= TWO64 - 64 && s.admitted == WrapTotal(d) < capacity
    ensures Next(Run(s, AdmitSteps(r, UNITS - 1)), Test(0)).fault == Underflow
  {
    hide CalculateEstimate, AdmitSteps, Run;
    var e := (TWO64 - 64) / d;
    QuotientMonotone(d, TWO64 - 64, d);
    assert d / d == 1;
    AdmitRun(s, r, d, capacity, UNITS - 1);
    var s1 := s.(routes := s.routes[r := Route(d, e)]);
    var s2 := Next(s1, Load(r));
    assert s2 == s1.(listener := Loaded(e, s.admitted));
    assert (s.admitted + e) % TWO64 == 0;
    assert Next(s2, Decide) == s1.(listener := Counted(e), admitted := 0);
  }

  /** Admissions control is exact in every run, and its underflow panic unreachable, if and only if every route's
      relative deadline is long enough for the capacity. */
  lemma ExactInEveryRunIff(s: State)
    requires Init(s)
    ensures (forall steps :: Exact(Run(s, steps))) <==> AllRoutesFit(s)
    ensures (forall steps :: Run(s, steps).fault != Underflow) <==> AllRoutesFit(s)
    ensures (forall steps :: NeverOverfills(s, steps)) <==> AllRoutesFit(s)
  {
    hide Run, Init, RouteFits;
    if AllRoutesFit(s) {
      forall steps ensures Exact(Run(s, steps)) && NeverOverfills(s, steps) {
        AdmittedIsExactAndBounded(s, steps);
        FittingRoutesNeverOverfill(s, steps);
      }
    } else {
      var r :| r in s.routes && !RouteFits(s.routes[r].deadline, s.capacity);
      var steps := UnfitRouteUnderflows(s, r);
      assert !Exact(Run(s, steps));
      if NeverOverfills(s, steps) { EveryRunKeepsInv(s, steps); }
    }
  }

  /** In particular, for capacities up to 2^63: unless the capacity is at most 64, exactly when no relative deadline
      is a single cycle. */
  lemma UsualCapacityIff(s: State)
    requires Init(s) && s.capacity <= TWO64 / 2
    ensures (forall steps :: Exact(Run(s, steps))) <==>
            s.capacity <= 64 || forall r :: r in s.routes ==> s.routes[r].deadline >= 2
  {
    ExactInEveryRunIff(s);
    forall r | r in s.routes
      ensures RouteFits(s.routes[r].deadline, s.capacity) <==> s.routes[r].deadline >= 2 || s.capacity <= 64
    {
      assert RouteStarts(s.routes[r]);
      UsualRoutesFitIff(s.routes[r].deadline, s.capacity);
    }
  }
}
