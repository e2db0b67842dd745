/** The service's running performance statistics: a request counter and the
    running mean of processing times. */
module Stats {

  /** Sum of a sequence of processing times. */
  function Sum(ts: seq<real>): real {
    if ts == [] then 0.0 else Sum(ts[..|ts| - 1]) + ts[|ts| - 1]
  }

  /** Arithmetic mean, 0 for no times (the initial average). */
  function Mean(ts: seq<real>): real {
    if ts == [] then 0.0 else Sum(ts) / |ts| as real
  }

  /** One application of the update formula, with `n` the post-increment count,
      turns the mean of the earlier times into the mean of all of them. */
  lemma RunningMeanStep(ts: seq<real>, t: real)
    ensures var n := |ts| + 1;
      (Mean(ts) * (n - 1) as real + t) / n as real == Mean(ts + [t])
  {
    var n := |ts| + 1;
    assert (ts + [t])[..|ts|] == ts;
    assert Sum(ts + [t]) == Sum(ts) + t;
    if ts != [] {
      assert Mean(ts) * (n - 1) as real == Sum(ts);
    }
  }

  /** What the update formula computes when folded over a sequence of times,
      starting from count 0 and average 0. */
  function RunningAverage(ts: seq<real>): real {
    if ts == [] then 0.0
    else
      var n := |ts|;
      (RunningAverage(ts[..n - 1]) * (n - 1) as real + ts[n - 1]) / n as real
  }

  /** After recording t1..tn one after the other the average is their mean. */
  lemma {:induction false} RunningAverageIsMean(ts: seq<real>)
    ensures RunningAverage(ts) == Mean(ts)
  {
    if ts != [] {
      var init, last := ts[..|ts| - 1], ts[|ts| - 1];
      RunningAverageIsMean(init);
      RunningMeanStep(init, last);
      assert init + [last] == ts;
    }
  }

  /** The global `performance_stats` record. */
  class PerformanceStats {
    var totalRequests: nat
    var averageProcessingTime: real
    const modelAccuracy: real
    var cacheHits: nat

    /** The processing times folded into the average so far. */
    ghost var times: seq<real>

    /** Between requests: one time per counted request, the average their mean. */
    ghost predicate Valid()
      reads this
    {
      totalRequests == |times| && averageProcessingTime == Mean(times)
    }

    /** A request has been counted and its time is not yet folded in. */
    ghost predicate AwaitingUpdate()
      reads this
    {
      totalRequests == |times| + 1 && averageProcessingTime == Mean(times)
    }

    constructor ()
      ensures Valid() && times == []
      ensures totalRequests == 0 && averageProcessingTime == 0.0
      ensures modelAccuracy == 0.89 && cacheHits == 0
    {
      totalRequests := 0;
      averageProcessingTime := 0.0;
      modelAccuracy := 0.89;
      cacheHits := 0;
      times := [];
    }

    /** The increment at the start of a detection request. */
    method CountRequest()
      requires Valid()
      modifies this
      ensures AwaitingUpdate() && times == old(times)
      ensures totalRequests == old(totalRequests) + 1
      ensures averageProcessingTime == old(averageProcessingTime) && cacheHits == old(cacheHits)
    {
      totalRequests := totalRequests + 1;
    }

    /** `update_performance_stats`: folds a processing time into the average,
        using the already incremented count. */
    method UpdatePerformanceStats(processingTime: real)
      requires AwaitingUpdate()
      modifies this
      ensures Valid() && times == old(times) + [processingTime]
      ensures totalRequests == old(totalRequests) && cacheHits == old(cacheHits)
      ensures averageProcessingTime ==
        (old(averageProcessingTime) * (totalRequests - 1) as real + processingTime) / totalRequests as real
    {
      var total := totalRequests;
      var currentAvg := averageProcessingTime;
      averageProcessingTime := (currentAvg * (total - 1) as real + processingTime) / total as real;
      RunningMeanStep(times, processingTime);
      times := times + [processingTime];
    }

    /** One sequential request: count it, then fold in its time. */
    method Record(processingTime: real)
      requires Valid()
      modifies this
      ensures Valid() && times == old(times) + [processingTime]
      ensures totalRequests == old(totalRequests) + 1 && cacheHits == old(cacheHits)
      ensures averageProcessingTime == Mean(old(times) + [processingTime])
    {
      CountRequest();
      UpdatePerformanceStats(processingTime);
    }
  }

  /** Two sequential requests leave the mean of their two times. */
  method TwoRequests(t1: real, t2: real) returns (count: nat, average: real)
    ensures count == 2 && average == (t1 + t2) / 2.0
  {
    var stats := new PerformanceStats();
    stats.Record(t1);
    stats.Record(t2);
    assert stats.times == [t1, t2];
    assert [t1, t2][..1] == [t1];
    count, average := stats.totalRequests, stats.averageProcessingTime;
  }
}
