/** The per-route admissions data of runtime/src/admissions_info.c: the estimate stored for a route is
    always the one for its percentile of the last durations. */
module AdmissionsInfos {
  import opened PerfWindows
  import opened Admissions

  class AdmissionsInfo {
    const window: PerfWindow
    const percentile: nat
    const controlIndex: nat
    const deadline: nat
    var estimate: nat

    /** Once a duration has been added, the estimate follows from the percentile's order statistic. */
    ghost predicate Valid()
      reads this, window, window.byDuration, window.byTermination
    {
      window.Valid() && 50 <= percentile <= 99 && controlIndex == CAPACITY * percentile / 100 && 0 < deadline < TWO64 &&
      0 < estimate < TWO64 && (window.added != [] ==> Follows(estimate, controlIndex, window.added, deadline))
    }

    /** The fields that admissions_info_initialize sets once its tests have passed. */
    constructor (percentile: nat, expected: nat, deadline: nat)
      requires 0 < deadline < TWO64 && 0 < expected < TWO64
      requires 50 <= percentile <= 99 && CalculateEstimate(expected, deadline).Is?
      ensures Valid() && this.percentile == percentile && this.deadline == deadline && window.added == []
      ensures Is(estimate) == CalculateEstimate(expected, deadline)
      ensures fresh(window) && fresh(window.byDuration) && fresh(window.byTermination)
    {
      window := new PerfWindow();
      this.percentile, this.deadline := percentile, deadline;
      controlIndex := CAPACITY * percentile / 100;
      estimate := CalculateEstimate(expected, deadline).value;
      new;
      EstimateIsBounded(expected, deadline);
    }

    /** admissions_info_update. `panics`: the new estimate would be zero. */
    method Update(duration: nat) returns (panics: bool)
      requires Valid() && 0 < duration < TWO64 && forall x :: x in window.added ==> x < TWO64
      modifies this, window, window.byDuration, window.byTermination
      ensures window.added == old(window.added) + [duration] && window.Valid()
      ensures panics <==> forall e :: !Follows(e, controlIndex, window.added, deadline)
      ensures !panics ==> Valid()
    {
      window.Add(duration);
      var execution, idx := window.GetPercentile(percentile, controlIndex);
      PercentileIsBounded(window.added, execution, idx);
      var e := CalculateEstimate(execution, deadline);
      OnlyThisEstimate(window.added, idx, execution, deadline);
      panics := e.Panics?;
      if !panics {
        estimate := e.value;
        EstimateIsBounded(execution, deadline);
        assert Follows(estimate, controlIndex, window.added, deadline);
      }
    }
  }

  /** How admissions_info_initialize ends: with one of its two panics or with a route's data. */
  datatype Initialized = ZeroFirstEstimate | InvalidPercentile | Ready(info: AdmissionsInfo)

  method Initialize(percentile: nat, expected: nat, deadline: nat) returns (r: Initialized)
    requires 0 < deadline < TWO64 && 0 < expected < TWO64
    ensures r.ZeroFirstEstimate? <==> expected * GRANULARITY % TWO64 < deadline
    ensures r.InvalidPercentile? <==> !r.ZeroFirstEstimate? && (percentile < 50 || percentile > 99)
    ensures r.Ready? ==>
      fresh(r.info) && r.info.Valid() && r.info.window.added == [] && r.info.percentile == percentile &&
      r.info.controlIndex < CAPACITY && r.info.deadline == deadline &&
      Is(r.info.estimate) == CalculateEstimate(expected, deadline)
  {
    ZeroEstimateIff(expected, deadline);
    if CalculateEstimate(expected, deadline).Panics? { return ZeroFirstEstimate; }
    if percentile < 50 || percentile > 99 { return InvalidPercentile; }
    var info := new AdmissionsInfo(percentile, expected, deadline);
    r := Ready(info);
  }

  lemma ZeroEstimateIff(execution: nat, deadline: nat)
    requires execution < TWO64 && 0 < deadline < TWO64
    ensures CalculateEstimate(execution, deadline).Panics? <==> execution * GRANULARITY % TWO64 < deadline
  {
  }

  /** `estimate` is the one for the duration of rank `idx` among the last durations. */
  ghost predicate Follows(estimate: nat, idx: nat, added: seq<nat>, deadline: nat) {
    added != [] && 0 < deadline < TWO64 &&
    exists r: nat :: r < TWO64 && IsOrderStatistic(r, idx, Ring(added)) && CalculateEstimate(r, deadline) == Is(estimate)
  }

  lemma OnlyThisEstimate(added: seq<nat>, idx: nat, r: nat, deadline: nat)
    requires added != [] && r < TWO64 && 0 < deadline < TWO64 && IsOrderStatistic(r, idx, Ring(added))
    ensures forall e :: Follows(e, idx, added, deadline) <==> CalculateEstimate(r, deadline) == Is(e)
  {
    hide CalculateEstimate;
    forall e: nat | Follows(e, idx, added, deadline) ensures CalculateEstimate(r, deadline) == Is(e) {
      var q: nat :| q < TWO64 && IsOrderStatistic(q, idx, Ring(added)) && CalculateEstimate(q, deadline) == Is(e);
      OrderStatisticIsUnique(q, r, idx, Ring(added));
    }
  }

  lemma EstimateIsBounded(execution: nat, deadline: nat)
    requires execution < TWO64 && 0 < deadline < TWO64 && CalculateEstimate(execution, deadline).Is?
    ensures 0 < CalculateEstimate(execution, deadline).value < TWO64
  {
    QuotientBounded((execution * GRANULARITY) % TWO64, deadline);
  }

  lemma QuotientBounded(x: nat, d: nat)
    requires d > 0
    ensures x / d <= x
  {
    if d > 1 { QuotientHalves(x, d); }
  }

  lemma {:induction false} RingHoldsAdded(h: seq<nat>)
    requires h != []
    ensures forall x :: x in Ring(h) ==> x in h
  {
    if |h| > 1 {
      RingHoldsAdded(h[..|h| - 1]);
      forall x | x in Ring(h) ensures x in h {
        assert x in Ring(h[..|h| - 1]) || x == h[|h| - 1];
      }
    }
  }

  lemma PercentileIsBounded(h: seq<nat>, r: nat, idx: nat)
    requires h != [] && (forall x :: x in h ==> x < TWO64) && IsOrderStatistic(r, idx, Ring(h))
    ensures r < TWO64
  {
    RingHoldsAdded(h);
  }
}
