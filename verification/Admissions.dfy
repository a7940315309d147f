/** Admissions control: one listener that loads, checks and adds while workers give work back. The
    shared counter and the check use 64-bit arithmetic, which is modelled with its wrap-around. */
module Admissions {

  const TWO64: nat := 0x1_0000_0000_0000_0000
  const GRANULARITY: nat := 1_000_000

  // ---------- One decision ----------

  /** The check of admissions_control_decide, as computed on 64 bits. */
  predicate Accepts(total: nat, estimate: nat, capacity: nat) {
    (total + estimate) % TWO64 < capacity
  }

  /** The decision agrees with exact arithmetic for every admitted total below capacity if and only if
      the estimate leaves room for the capacity in 64 bits. */
  lemma DecisionIsExactIff(estimate: nat, capacity: nat)
    requires 0 < capacity < TWO64 && estimate < TWO64
    ensures (forall total: nat :: total < capacity ==>
              (Accepts(total, estimate, capacity) <==> total + estimate < capacity))
       <==> estimate + capacity <= TWO64
  {
    if estimate + capacity > TWO64 {
      var total := TWO64 - estimate;
      assert total < capacity && (total + estimate) % TWO64 == 0 && Accepts(total, estimate, capacity);
    } else {
      forall total: nat | total < capacity
        ensures Accepts(total, estimate, capacity) <==> total + estimate < capacity
      {
        assert (total + estimate) % TWO64 == total + estimate;
      }
    }
  }

  /** admissions_control_calculate_estimate; Panics stands for its panic on a zero estimate. */
  datatype Estimate = Panics | Is(value: nat)

  function CalculateEstimate(execution: nat, deadline: nat): Estimate
    requires execution < TWO64 && 0 < deadline < TWO64
  {
    var e := (execution * GRANULARITY) % TWO64 / deadline;
    if e == 0 then Panics else Is(e)
  }

  /** An estimate that is not zero and fits beside the capacity in 64 bits. */
  predicate Fits(estimate: nat, capacity: nat) {
    0 < estimate && estimate + capacity <= TWO64
  }

  /** The relative deadline is long enough for any estimate computed with it to fit. Scaled execution times are
      multiples of 64. */
  predicate RouteFits(deadline: nat, capacity: nat) {
    0 < deadline < TWO64 && (TWO64 - 64) / deadline + capacity <= TWO64
  }

  lemma ScaledIsAtMost(execution: nat)
    ensures (execution * GRANULARITY) % TWO64 <= TWO64 - 64
  {
    var q, y := (execution * GRANULARITY) / TWO64, (execution * GRANULARITY) % TWO64;
    assert y == 64 * (execution * 15625 - q * (TWO64 / 64));
    assert y % 64 == 0;
  }

  lemma ComputedEstimatesFit(execution: nat, deadline: nat, capacity: nat)
    requires execution < TWO64 && RouteFits(deadline, capacity)
    ensures CalculateEstimate(execution, deadline).Is? ==> Fits(CalculateEstimate(execution, deadline).value, capacity)
  {
    ScaledIsAtMost(execution);
    QuotientMonotone((execution * GRANULARITY) % TWO64, TWO64 - 64, deadline);
  }

  /** For capacities up to 2^63 these are the deadlines of two cycles or more, and with a capacity of at most 64
      all of them. */
  lemma UsualRoutesFitIff(deadline: nat, capacity: nat)
    requires 0 < deadline < TWO64 && capacity <= TWO64 / 2
    ensures RouteFits(deadline, capacity) <==> deadline >= 2 || capacity <= 64
  {
    if deadline >= 2 { QuotientHalves(TWO64 - 64, deadline); }
  }

  lemma QuotientMonotone(x: nat, y: nat, d: nat)
    requires x <= y && d > 0
    ensures x / d <= y / d
  {
    var q, r := x / d, y / d;
    assert x == q * d + x % d && y == r * d + y % d;
    if r < q { MulMonotone(d, r + 1, q); }
  }

  lemma QuotientHalves(x: nat, d: nat)
    requires d >= 2
    ensures x / d <= x / 2
  {
    var q := x / d;
    assert q * 2 <= q * d <= x by {
      assert x == q * d + x % d;
      MulMonotone(q, 2, d);
    }
  }

  lemma MulMonotone(q: nat, a: nat, b: nat)
    requires a <= b
    ensures q * a <= q * b
  {
    assert q * b == q * a + q * (b - a);
  }

  // ---------- The protocol ----------

  datatype Listener = Waiting | Loaded(estimate: nat, total: nat) | Counted(estimate: nat)

  /** An unfinished sandbox with the estimate stored in it. `checked`: its worker has passed the
      underflow test and has not subtracted yet. */
  datatype Ticket = Ticket(estimate: nat, checked: bool)

  /** `leaked` is what the failed allocation and failed enqueue paths added and never give back. */
  datatype State = State(capacity: nat, admitted: nat, listener: Listener, live: seq<Ticket>, leaked: nat,
                         routes: map<nat, Route>, fault: Fault)

  /** A route's relative deadline and its current estimate. */
  datatype Route = Route(deadline: nat, estimate: nat)

  /** The panics of a zero estimate and of a subtraction below zero. */
  datatype Fault = Fine | ZeroEstimate | Underflow

  datatype Step =
    | Load(route: nat) | Decide | Queued | NotQueued
    | Test(i: nat) | Subtract(i: nat)
    | Reestimate(route: nat, execution: nat)

  /** Nothing happens after a panic, and a step that is not enabled leaves the state unchanged. */
  function Next(s: State, step: Step): State {
    if s.fault != Fine then s else
    match step
    case Load(route) =>
      if s.listener.Waiting? && route in s.routes then s.(listener := Loaded(s.routes[route].estimate, s.admitted)) else s
    case Decide =>
      if !s.listener.Loaded? then s
      else if !Accepts(s.listener.total, s.listener.estimate, s.capacity) then s.(listener := Waiting)
      else s.(admitted := (s.admitted + s.listener.estimate) % TWO64, listener := Counted(s.listener.estimate))
    case Queued =>
      if s.listener.Counted?
      then s.(live := s.live + [Ticket(s.listener.estimate, false)], listener := Waiting) else s
    case NotQueued =>
      if s.listener.Counted? then s.(leaked := s.leaked + s.listener.estimate, listener := Waiting) else s
    case Test(i) =>
      if i >= |s.live| || s.live[i].checked then s
      else if s.live[i].estimate > s.admitted then s.(fault := Underflow)
      else s.(live := s.live[i := s.live[i].(checked := true)])
    case Subtract(i) =>
      if i >= |s.live| || !s.live[i].checked then s
      else s.(admitted := (s.admitted - s.live[i].estimate) % TWO64, live := s.live[..i] + s.live[i + 1..])
    case Reestimate(route, execution) =>
      if route !in s.routes || s.routes[route].deadline == 0 || s.routes[route].deadline >= TWO64 || execution >= TWO64
      then s else
      match CalculateEstimate(execution, s.routes[route].deadline)
      case Panics => s.(fault := ZeroEstimate)
      case Is(e) => s.(routes := s.routes[route := s.routes[route].(estimate := e)])
  }

  /** A route whose estimate was computed from some execution time. */
  ghost predicate RouteStarts(r: Route) {
    0 < r.deadline < TWO64 && exists e: nat :: e < TWO64 && CalculateEstimate(e, r.deadline) == Is(r.estimate)
  }

  ghost predicate Init(s: State) {
    0 < s.capacity < TWO64 && s.admitted == 0 && s.listener == Waiting && s.live == [] && s.leaked == 0 &&
    s.fault == Fine && forall r :: r in s.routes ==> RouteStarts(s.routes[r])
  }

  function Run(s: State, steps: seq<Step>): State {
    if steps == [] then s else Next(Run(s, steps[..|steps| - 1]), steps[|steps| - 1])
  }

  function Sum(live: seq<Ticket>): nat {
    if live == [] then 0 else Sum(live[..|live| - 1]) + live[|live| - 1].estimate
  }

  lemma {:induction false} SumRemove(live: seq<Ticket>, i: nat)
    requires i < |live|
    ensures Sum(live) == Sum(live[..i] + live[i + 1..]) + live[i].estimate
  {
    var n := |live| - 1;
    if i == n {
      assert live[..i] + live[i + 1..] == live[..n];
    } else {
      SumRemove(live[..n], i);
      var r := live[..i] + live[i + 1..];
      assert r[..|r| - 1] == live[..n][..i] + live[..n][i + 1..];
    }
  }

  lemma {:induction false} SumMark(live: seq<Ticket>, i: nat)
    requires i < |live|
    ensures Sum(live[i := live[i].(checked := true)]) == Sum(live)
  {
    var n := |live| - 1;
    if i == n {
      assert live[i := live[i].(checked := true)][..n] == live[..n];
    } else {
      SumMark(live[..n], i);
      assert live[i := live[i].(checked := true)][..n] == live[..n][i := live[i].(checked := true)];
    }
  }

  function InFlight(l: Listener): nat {
    if l.Counted? then l.estimate else 0
  }

  /** The counter is below capacity and is exactly the work admitted and not given back; nothing underflowed. */
  ghost predicate Exact(s: State) {
    s.admitted < s.capacity && s.fault != Underflow && s.admitted == Sum(s.live) + s.leaked + InFlight(s.listener)
  }

  /** What the listener loaded is no less than the counter: workers only subtract. */
  ghost predicate Inv(s: State) {
    0 < s.capacity < TWO64 && Exact(s) && (s.listener.Loaded? ==> s.admitted <= s.listener.total < s.capacity)
  }

  /** A decision that accepts although counter and estimate together reach the capacity. */
  ghost predicate Overfills(s: State, step: Step) {
    step.Decide? && s.fault == Fine && s.listener.Loaded? &&
    Accepts(s.listener.total, s.listener.estimate, s.capacity) && s.admitted + s.listener.estimate >= s.capacity
  }

  lemma SmallIsUnchanged(x: nat)
    requires x < TWO64
    ensures x % TWO64 == x
  {
  }

  lemma SubtractKeepsInv(s: State, i: nat)
    requires Inv(s) && i < |s.live|
    ensures Inv(Next(s, Subtract(i)))
  {
    hide Sum, CalculateEstimate;
    SumRemove(s.live, i);
    if s.live[i].estimate <= s.admitted { SmallIsUnchanged(s.admitted - s.live[i].estimate); }
  }

  lemma NextKeepsInv(s: State, step: Step)
    requires Inv(s) && !Overfills(s, step)
    ensures Inv(Next(s, step))
  {
    hide CalculateEstimate;
    if step.Decide? && s.listener.Loaded? {
      if s.admitted + s.listener.estimate < s.capacity { SmallIsUnchanged(s.admitted + s.listener.estimate); }
    } else if step.Subtract? {
      if step.i < |s.live| { SubtractKeepsInv(s, step.i); }
    } else if step.Test? && step.i < |s.live| {
      SumMark(s.live, step.i);
      SumRemove(s.live, step.i);
    }
  }

  ghost predicate NeverOverfills(s: State, steps: seq<Step>) {
    forall i :: 0 <= i < |steps| ==> !Overfills(Run(s, steps[..i]), steps[i])
  }

  lemma {:induction false} EveryRunKeepsInv(s: State, steps: seq<Step>)
    requires Init(s) && NeverOverfills(s, steps)
    ensures Inv(Run(s, steps))
  {
    hide Inv, Next, Overfills;
    if steps == [] {
      InitInv(s);
    } else {
      var n := |steps| - 1;
      PrefixNeverOverfills(s, steps, n);
      EveryRunKeepsInv(s, steps[..n]);
      NextKeepsInv(Run(s, steps[..n]), steps[n]);
    }
  }

  lemma InitInv(s: State)
    requires Init(s)
    ensures Inv(s)
  {
  }

  lemma PrefixNeverOverfills(s: State, steps: seq<Step>, k: nat)
    requires NeverOverfills(s, steps) && k <= |steps|
    ensures NeverOverfills(s, steps[..k])
  {
    hide Run, Overfills;
    forall i | 0 <= i < k ensures !Overfills(Run(s, steps[..k][..i]), steps[..k][i]) {
      assert steps[..k][..i] == steps[..i];
    }
  }

  /** Whatever the interleaving and however the route estimates change: all along a run the admitted total stays
      below capacity, is exactly the work admitted and not given back, and does not underflow, if and only if no
      decision of the run overfills. */
  lemma ExactAllAlongIff(s: State, steps: seq<Step>)
    requires Init(s)
    ensures (forall i :: 0 <= i <= |steps| ==> Exact(Run(s, steps[..i]))) <==> NeverOverfills(s, steps)
  {
    hide Exact, Overfills, Run, Next;
    if NeverOverfills(s, steps) {
      forall i | 0 <= i <= |steps| ensures Exact(Run(s, steps[..i])) {
        PrefixNeverOverfills(s, steps, i);
        EveryRunKeepsInv(s, steps[..i]);
      }
    } else {
      var i :| 0 <= i < |steps| && Overfills(Run(s, steps[..i]), steps[i]);
      RunPrefix(s, steps, i);
      OverfillIsNotExact(Run(s, steps[..i]), steps[i]);
    }
  }

  lemma OverfillIsNotExact(s: State, step: Step)
    requires Overfills(s, step)
    ensures Exact(s) ==> !Exact(Next(s, step))
  {
  }

  // ---------- Which routes cannot overfill ----------

  ghost predicate AllRoutesFit(s: State) {
    forall r :: r in s.routes ==> RouteFits(s.routes[r].deadline, s.capacity)
  }

  ghost predicate EstimatesFit(s: State) {
    AllRoutesFit(s) && (forall r :: r in s.routes ==> Fits(s.routes[r].estimate, s.capacity)) &&
    (s.listener.Loaded? ==> Fits(s.listener.estimate, s.capacity))
  }

  lemma InitialEstimatesFit(s: State)
    requires Init(s) && AllRoutesFit(s)
    ensures EstimatesFit(s)
  {
    forall r | r in s.routes ensures Fits(s.routes[r].estimate, s.capacity) {
      assert RouteStarts(s.routes[r]);
      var e: nat :| e < TWO64 && CalculateEstimate(e, s.routes[r].deadline) == Is(s.routes[r].estimate);
      ComputedEstimatesFit(e, s.routes[r].deadline, s.capacity);
    }
  }

  lemma NextKeepsEstimates(s: State, step: Step)
    requires EstimatesFit(s)
    ensures EstimatesFit(Next(s, step))
  {
    hide CalculateEstimate, RouteFits;
    if step.Reestimate? && step.route in s.routes && step.execution < TWO64 && 0 < s.routes[step.route].deadline < TWO64 {
      ComputedEstimatesFit(step.execution, s.routes[step.route].deadline, s.capacity);
    }
  }

  lemma FittingEstimateDoesNotOverfill(s: State, step: Step)
    requires Inv(s) && EstimatesFit(s)
    ensures !Overfills(s, step)
  {
    if step.Decide? && s.listener.Loaded? { SmallIsUnchanged(s.listener.total + s.listener.estimate); }
  }

  lemma {:induction false} FittingRoutesNeverOverfill(s: State, steps: seq<Step>)
    requires Init(s) && AllRoutesFit(s)
    ensures NeverOverfills(s, steps) && EstimatesFit(Run(s, steps))
  {
    if steps == [] {
      InitialEstimatesFit(s);
    } else {
      hide Next, EstimatesFit, Overfills, Inv;
      var n := |steps| - 1;
      FittingRoutesNeverOverfill(s, steps[..n]);
      EveryRunKeepsInv(s, steps[..n]);
      FittingEstimateDoesNotOverfill(Run(s, steps[..n]), steps[n]);
      NextKeepsEstimates(Run(s, steps[..n]), steps[n]);
      ExtendNeverOverfills(s, steps);
    }
  }

  lemma ExtendNeverOverfills(s: State, steps: seq<Step>)
    requires steps != [] && NeverOverfills(s, steps[..|steps| - 1])
    requires !Overfills(Run(s, steps[..|steps| - 1]), steps[|steps| - 1])
    ensures NeverOverfills(s, steps)
  {
    hide Run, Overfills;
    var n := |steps| - 1;
    forall i | 0 <= i < |steps| ensures !Overfills(Run(s, steps[..i]), steps[i]) {
      if i < n { assert steps[..n][..i] == steps[..i] && steps[..n][i] == steps[i]; }
    }
  }

  /** With relative deadlines long enough for the capacity no run overfills. */
  lemma AdmittedIsExactAndBounded(s: State, steps: seq<Step>)
    requires Init(s) && AllRoutesFit(s)
    ensures Exact(Run(s, steps))
  {
    FittingRoutesNeverOverfill(s, steps);
    EveryRunKeepsInv(s, steps);
  }

  /** One route with a relative deadline of one cycle. */
  const ShortRoute: State := State(2_000_000, 0, Waiting, [], 0, map[0 := Route(1, 1_000_000)], Fine)
  const WrappingRun: seq<Step> :=
    [Load(0), Decide, Queued, Reestimate(0, TWO64 - 1), Load(0), Decide, Queued, Test(0)]

  /** What happens then: an execution time near 2^64 wraps the check, the counter drops to zero with a sandbox still
      live, and giving back its work underflows. */
  lemma ShortDeadlineUnderflows()
    ensures Init(ShortRoute) && !AllRoutesFit(ShortRoute) && Run(ShortRoute, WrappingRun).fault == Underflow
  {
    hide Next, CalculateEstimate;
    var s, steps := ShortRoute, WrappingRun;
    ShortRouteStarts();
    RunPrefix(s, steps, 0);
    RunPrefix(s, steps, 1);
    RunPrefix(s, steps, 2);
    RunPrefix(s, steps, 3);
    RunPrefix(s, steps, 4);
    RunPrefix(s, steps, 5);
    RunPrefix(s, steps, 6);
    RunPrefix(s, steps, 7);
    assert steps[..8] == steps && steps[..0] == [];
    FirstAdmission();
    SecondAdmissionWraps();
  }

  lemma ShortRouteStarts()
    ensures Init(ShortRoute) && !AllRoutesFit(ShortRoute)
  {
    assert CalculateEstimate(1, 1) == Is(1_000_000);
    assert RouteStarts(Route(1, 1_000_000));
    assert !RouteFits(ShortRoute.routes[0].deadline, ShortRoute.capacity);
  }

  lemma FirstAdmission()
    ensures Next(Next(Next(Next(ShortRoute, Load(0)), Decide), Queued), Reestimate(0, TWO64 - 1)) ==
            ShortRoute.(admitted := 1_000_000, live := [Ticket(1_000_000, false)],
                        routes := map[0 := Route(1, TWO64 - 1_000_000)])
  {
    assert CalculateEstimate(TWO64 - 1, 1) == Is(TWO64 - 1_000_000);
    hide CalculateEstimate;
    var s := Next(Next(Next(ShortRoute, Load(0)), Decide), Queued);
    assert s == ShortRoute.(admitted := 1_000_000, live := [Ticket(1_000_000, false)]);
  }

  lemma SecondAdmissionWraps()
    ensures var s := ShortRoute.(admitted := 1_000_000, live := [Ticket(1_000_000, false)],
                                 routes := map[0 := Route(1, TWO64 - 1_000_000)]);
            Next(Next(Next(Next(s, Load(0)), Decide), Queued), Test(0)).fault == Underflow
  {
  }

  lemma RunPrefix(s: State, steps: seq<Step>, i: nat)
    requires i < |steps|
    ensures Run(s, steps[..i + 1]) == Next(Run(s, steps[..i]), steps[i])
  {
    assert steps[..i + 1][..i] == steps[..i];
  }

  /** The check-then-add is not atomic, yet it never admits past capacity: at the add, the total the
      check was made against is no less than the counter. */
  lemma AddNeverOverfills(s: State, steps: seq<Step>)
    requires Init(s) && AllRoutesFit(s) && Run(s, steps).listener.Loaded? && Next(Run(s, steps), Decide).listener.Counted?
    ensures var r := Run(s, steps);
            Next(r, Decide).admitted == r.admitted + r.listener.estimate <= r.listener.total + r.listener.estimate < r.capacity
  {
    FittingRoutesNeverOverfill(s, steps);
    EveryRunKeepsInv(s, steps);
    var r := Run(s, steps);
    DecisionIsExactIff(r.listener.estimate, r.capacity);
    assert Accepts(r.listener.total, r.listener.estimate, r.capacity) ==>
           r.listener.total + r.listener.estimate < r.capacity;
  }
}
