/** What each step of admissions control achieves: what a decision was made on, when it accepts, what work counts as
    leaked, and that all other work is given back. */
module AdmissionsLaws {
  import opened Admissions

  // ---------- Leaks ----------

  /** The estimate that a step leaks: that of a counted request which is not queued. */
  function Leak(r: State, step: Step): nat {
    if step.NotQueued? && r.fault == Fine && r.listener.Counted? then r.listener.estimate else 0
  }

  function Leaks(s: State, steps: seq<Step>): nat {
    if steps == [] then 0 else
    var n := |steps| - 1;
    Leaks(s, steps[..n]) + Leak(Run(s, steps[..n]), steps[n])
  }

  lemma StepLeaks(r: State, step: Step)
    ensures Next(r, step).leaked == r.leaked + Leak(r, step)
  {
    hide CalculateEstimate;
  }

  /** Over every run, what has leaked is exactly the sum of the estimates of the requests that were counted and not
      queued. */
  lemma {:induction false} LeakedIsNotQueued(s: State, steps: seq<Step>)
    requires Init(s)
    ensures Run(s, steps).leaked == Leaks(s, steps)
  {
    hide Next, Leak;
    if steps != [] {
      LeakedIsNotQueued(s, steps[..|steps| - 1]);
      StepLeaks(Run(s, steps[..|steps| - 1]), steps[|steps| - 1]);
    }
  }

  /** When every counted request was queued and every queued one has given its work back, nothing is admitted. */
  lemma AllWorkIsGivenBack(s: State, steps: seq<Step>)
    requires Init(s) && AllRoutesFit(s)
    ensures var r := Run(s, steps);
            Leaks(s, steps) == 0 && r.live == [] && !r.listener.Counted? ==> r.admitted == 0
  {
    AdmittedIsExactAndBounded(s, steps);
    LeakedIsNotQueued(s, steps);
    hide Run, Leaks;
  }

  // ---------- Workers ----------

  /** A worker that has passed its test gives back exactly the stored estimate and is done. */
  lemma SubtractGivesBack(r: State, i: nat)
    requires Inv(r) && r.fault == Fine && i < |r.live| && r.live[i].checked
    ensures var r' := Next(r, Subtract(i));
            r'.admitted == r.admitted - r.live[i].estimate && r'.live == r.live[..i] + r.live[i + 1..] &&
            r'.leaked == r.leaked && r'.listener == r.listener && r'.routes == r.routes && r'.fault == Fine
  {
    hide Sum, CalculateEstimate;
    SumRemove(r.live, i);
    SmallIsUnchanged(r.admitted - r.live[i].estimate);
  }

  /** Its test always passes, and changes nothing else. */
  lemma TestPasses(r: State, i: nat)
    requires Inv(r) && r.fault == Fine && i < |r.live| && !r.live[i].checked
    ensures Next(r, Test(i)) == r.(live := r.live[i := Ticket(r.live[i].estimate, true)])
  {
    hide Sum, CalculateEstimate;
    SumRemove(r.live, i);
  }

  // ---------- The listener ----------

  /** Where the listener stands on a decision: the estimate of the route and the counter, both as they were at its own
      step `j`. */
  ghost predicate ReadAt(s: State, steps: seq<Step>, j: nat, l: Listener) {
    j < |steps| && steps[j].Load? && l.Loaded? &&
    var at := Run(s, steps[..j]);
    steps[j].route in at.routes && l == Loaded(at.routes[steps[j].route].estimate, at.admitted)
  }

  lemma {:induction false} LoadedWasRead(s: State, steps: seq<Step>) returns (j: nat)
    requires Init(s) && Run(s, steps).listener.Loaded?
    ensures ReadAt(s, steps, j, Run(s, steps).listener)
  {
    hide Next;
    assert steps != [];
    var n := |steps| - 1;
    var r := Run(s, steps[..n]);
    LoadsOnce(r, steps[n]);
    if r.listener.Loaded? {
      j := LoadedWasRead(s, steps[..n]);
      assert steps[..n][..j] == steps[..j];
    } else {
      j := n;
    }
  }

  lemma LoadsOnce(r: State, step: Step)
    requires Next(r, step).listener.Loaded?
    ensures r.listener.Loaded? ==> Next(r, step).listener == r.listener
    ensures !r.listener.Loaded? ==>
      step.Load? && step.route in r.routes && Next(r, step).listener == Loaded(r.routes[step.route].estimate, r.admitted)
  {
    hide CalculateEstimate, Accepts;
  }

  /** A decision accepts if and only if the estimate, added to the counter it loaded, stays below capacity; then the
      estimate is counted, and otherwise nothing changes. */
  lemma DecisionIsExact(r: State)
    requires Inv(r) && r.fault == Fine && r.listener.Loaded? && Fits(r.listener.estimate, r.capacity)
    ensures var r', e := Next(r, Decide), r.listener.estimate;
            if r.listener.total + e < r.capacity
            then r' == r.(admitted := r.admitted + e, listener := Counted(e))
            else r' == r.(listener := Waiting)
  {
    SmallIsUnchanged(r.listener.total + r.listener.estimate);
    if r.listener.total + r.listener.estimate < r.capacity { SmallIsUnchanged(r.admitted + r.listener.estimate); }
  }

  /** An undisturbed request of a route: it is admitted, and then live with the estimate of its route, if and only if
      that estimate fits on top of the counter. */
  lemma SoloRequest(r: State, route: nat)
    requires Inv(r) && r.fault == Fine && r.listener == Waiting && route in r.routes
    requires Fits(r.routes[route].estimate, r.capacity)
    ensures var e := r.routes[route].estimate; var decided := Next(Next(r, Load(route)), Decide);
            if r.admitted + e < r.capacity
            then decided.listener == Counted(e) && decided.admitted == r.admitted + e && decided.live == r.live &&
                 Next(decided, Queued) == r.(admitted := r.admitted + e, live := r.live + [Ticket(e, false)]) &&
                 Next(decided, NotQueued) == r.(admitted := r.admitted + e, leaked := r.leaked + e)
            else decided == r
  {
    hide CalculateEstimate, Sum;
    var loaded := Next(r, Load(route));
    assert loaded == r.(listener := Loaded(r.routes[route].estimate, r.admitted));
    DecisionIsExact(loaded);
  }

  /** A re-estimate stores what the computation gives for the route's own deadline, and panics where it does. */
  lemma ReestimateIsExact(r: State, route: nat, execution: nat)
    requires r.fault == Fine && route in r.routes && 0 < r.routes[route].deadline < TWO64 && execution < TWO64
    ensures var d, r' := r.routes[route].deadline, Next(r, Reestimate(route, execution));
            if execution * GRANULARITY % TWO64 < d then r' == r.(fault := ZeroEstimate)
            else r' == r.(routes := r.routes[route := Route(d, execution * GRANULARITY % TWO64 / d)])
  {
    var d := r.routes[route].deadline;
    assert execution * GRANULARITY % TWO64 < d <==> execution * GRANULARITY % TWO64 / d == 0;
  }
}
