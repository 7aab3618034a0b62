/**
 * The usage learner: running statistics over the queries, sessions, hours
 * of use and models seen so far, and the suggestions derived from them.
 * The wall clock (the current hour and the monotonic instant) is passed in
 * by the caller.
 */
module UsageLearner {
  import opened Common

  const U32Max: nat := 0xFFFF_FFFF
  const U64Max: nat := 0xFFFF_FFFF_FFFF_FFFF

  /** `saturating_add(1)` on an unsigned counter whose largest value is `cap`. */
  function SatInc(x: nat, cap: nat): (r: nat)
    requires x <= cap
    ensures r <= cap
    ensures x < cap ==> r == x + 1
    ensures x == cap ==> r == cap
  {
    if x < cap then x + 1 else cap
  }

  // ---------------------------------------------------------------------
  // Means and sums
  // ---------------------------------------------------------------------

  function Sum(s: seq<nat>): nat
  {
    if |s| == 0 then 0 else Sum(s[..|s| - 1]) + s[|s| - 1]
  }

  /** Arithmetic mean; 0 for no samples (the `Default` of the running average). */
  function Mean(s: seq<nat>): real
  {
    if |s| == 0 then 0.0 else Sum(s) as real / |s| as real
  }

  lemma SumAppend(s: seq<nat>, x: nat)
    ensures Sum(s + [x]) == Sum(s) + x
  {
    assert (s + [x])[..|s|] == s;
  }

  /**
   * The update of `record_query`, avg + (len − avg) / n with n the new
   * count; over the reals this is the source's (avg·(n−1) + len) / n.
   */
  function RunningAverage(avg: real, previous: nat, len: nat): real
  {
    avg + (len as real - avg) / (previous + 1) as real
  }

  /** The update is the source's weighted formula. */
  lemma RunningAverageFormula(avg: real, previous: nat, len: nat)
    ensures RunningAverage(avg, previous, len) == (avg * previous as real + len as real) / (previous + 1) as real
  {
    var n := (previous + 1) as real;
    assert avg == avg * n / n;
    assert avg * n == avg * previous as real + avg;
  }

  /** The incremental update keeps the average equal to the mean of all lengths. */
  lemma RunningMean(s: seq<nat>, x: nat)
    ensures Mean(s + [x]) == RunningAverage(Mean(s), |s|, x)
  {
    SumAppend(s, x);
    if |s| > 0 {
      assert Mean(s) * |s| as real == Sum(s) as real;
    }
  }

  /** The sum of the values of a map, taking its keys in any order. */
  ghost function SumValues(m: map<string, nat>): nat
    decreases |m.Keys|
  {
    if m == map[] then 0
    else
      var k :| k in m;
      assert |(m - {k}).Keys| < |m.Keys| by { assert (m - {k}).Keys == m.Keys - {k}; }
      m[k] + SumValues(m - {k})
  }

  /** The sum does not depend on which key is taken first. */
  lemma {:induction false} SumValuesRemove(m: map<string, nat>, k: string)
    requires k in m
    ensures SumValues(m) == m[k] + SumValues(m - {k})
    decreases |m.Keys|
  {
    var j :| j in m && SumValues(m) == m[j] + SumValues(m - {j});
    if j != k {
      assert (m - {j}).Keys == m.Keys - {j};
      assert (m - {k}).Keys == m.Keys - {k};
      SumValuesRemove(m - {j}, k);
      SumValuesRemove(m - {k}, j);
      assert m - {j} - {k} == m - {k} - {j};
    }
  }

  /** The count for `k`, 0 when absent (`entry(..).or_insert(0)`). */
  function Get(m: map<string, nat>, k: string): nat
  {
    if k in m then m[k] else 0
  }

  /** Bumping one key by one raises the sum of the counts by one. */
  lemma SumValuesIncrement(m: map<string, nat>, k: string)
    ensures SumValues(m[k := Get(m, k) + 1]) == SumValues(m) + 1
  {
    var m' := m[k := Get(m, k) + 1];
    SumValuesRemove(m', k);
    if k in m {
      SumValuesRemove(m, k);
      assert m' - {k} == m - {k};
    } else {
      assert m' - {k} == m;
    }
  }

  // ---------------------------------------------------------------------
  // Maxima
  // ---------------------------------------------------------------------

  /** `k` carries a count no other key exceeds. */
  predicate IsTopKey(m: map<string, nat>, k: string)
  {
    k in m && forall j :: j in m ==> m[j] <= m[k]
  }

  lemma {:induction false} TopKeyExists(m: map<string, nat>)
    requires m != map[]
    ensures exists k :: IsTopKey(m, k)
    decreases |m.Keys|
  {
    var k :| k in m;
    var rest := m - {k};
    assert forall i :: i in m ==> i == k || i in rest;
    if rest == map[] {
      assert IsTopKey(m, k);
    } else {
      assert rest.Keys == m.Keys - {k};
      TopKeyExists(rest);
      var j :| IsTopKey(rest, j);
      if rest[j] <= m[k] {
        assert IsTopKey(m, k);
      } else {
        assert IsTopKey(m, j);
      }
    }
  }

  /** A map with two distinct keys still has a key once one is removed. */
  lemma TwoKeysLeaveOne(m: map<string, nat>, k: string)
    requires k in m && |m.Keys| >= 2
    ensures m - {k} != map[]
  {
    assert (m - {k}).Keys == m.Keys - {k};
    assert |m.Keys - {k}| == |m.Keys| - 1;
  }

  /**
   * `max_by_key` over the hours: the LAST index whose count is maximal.
   */
  function LastArgMax(s: seq<nat>): (i: nat)
    requires |s| > 0
    ensures i < |s|
    ensures forall j :: 0 <= j < |s| ==> s[j] <= s[i]
    ensures forall j :: i < j < |s| ==> s[j] < s[i]
  {
    if |s| == 1 then 0
    else
      var k := LastArgMax(s[..|s| - 1]);
      if s[|s| - 1] >= s[k] then |s| - 1 else k
  }

  /** With all counts equal, in particular all zero, the peak hour is 23. */
  lemma FlatCountsPeakAtLastHour(s: seq<nat>, c: nat)
    requires |s| == 24 && forall j :: 0 <= j < 24 ==> s[j] == c
    ensures LastArgMax(s) == 23
  {
  }

  // ---------------------------------------------------------------------
  // Derived figures
  // ---------------------------------------------------------------------

  /** `get_optimal_context_window`: buckets of the average query length. */
  function ContextWindowFor(avg: real): (w: nat)
    ensures w == 16 <==> avg < 50.0
    ensures w == 28 <==> 50.0 <= avg < 150.0
    ensures w == 44 <==> 150.0 <= avg < 300.0
    ensures w == 64 <==> 300.0 <= avg
  {
    if avg < 50.0 then 16 else if avg < 150.0 then 28 else if avg < 300.0 then 44 else 64
  }

  lemma ContextWindowMonotone(a: real, b: real)
    requires a <= b
    ensures ContextWindowFor(a) <= ContextWindowFor(b)
  {
  }

  function CountOf(s: seq<nat>, h: nat): (n: nat)
    ensures n <= |s|
    ensures n == 0 <==> h !in s
  {
    if |s| == 0 then 0 else CountOf(s[..|s| - 1], h) + (if s[|s| - 1] == h then 1 else 0)
  }

  /** `is_peak_hours`: the current hour's share of recorded session starts exceeds 15%. */
  predicate IsPeakHour(peakHours: seq<nat>, hour: nat)
  {
    CountOf(peakHours, hour) as real / Max(|peakHours|, 1) as real > 0.15
  }

  /** No session recorded at this hour means it is never a peak hour. */
  lemma UnseenHourIsNoPeak(peakHours: seq<nat>, hour: nat)
    requires hour !in peakHours
    ensures !IsPeakHour(peakHours, hour)
  {
  }

  datatype LearningStats = LearningStats(
    totalQueries: nat,
    avgQueryLength: real,
    totalSessions: nat,
    peakHour: nat,
    topCategory: string)

  /**
   * What `record_model_usage` leaves behind: the preferred model has a
   * maximal count and the fallback, present iff two models were seen, has a
   * maximal count among the others (the first two entries of a stable sort
   * by descending count, whatever the map's iteration order).
   */
  predicate PreferencesAgree(counts: map<string, nat>, preferred: Option<string>, fallback: Option<string>)
  {
    && (preferred.None? <==> counts == map[])
    && (preferred.Some? ==> IsTopKey(counts, preferred.value))
    && (fallback.Some? <==> preferred.Some? && |counts.Keys| >= 2)
    && (fallback.Some? && preferred.Some? ==> IsTopKey(counts - {preferred.value}, fallback.value))
  }

  /** At most 200 recorded session hours, each an hour of the day. */
  predicate PeakHoursFit(hours: seq<nat>)
  {
    |hours| <= 200 && forall i :: 0 <= i < |hours| ==> hours[i] < 24
  }

  /** Every hourly bucket fits a u32. */
  predicate BucketsFit(buckets: seq<nat>)
  {
    forall i :: 0 <= i < |buckets| ==> buckets[i] <= U32Max
  }

  /** Every usage count fits a u64. */
  predicate UsageFits(counts: map<string, nat>)
  {
    forall k :: k in counts ==> counts[k] <= U64Max
  }

  /** The average as `record_query` maintains it, one length at a time. */
  function RunningMeanOf(s: seq<nat>): real {
    if |s| == 0 then 0.0 else RunningAverage(RunningMeanOf(s[..|s| - 1]), |s| - 1, s[|s| - 1])
  }

  /** One more length moves the kept average by the formula of `record_query`. */
  lemma RunningMeanStep(s: seq<nat>, x: nat)
    ensures RunningMeanOf(s + [x]) == RunningAverage(RunningMeanOf(s), |s|, x)
  {
    assert (s + [x])[..|s|] == s;
  }

  /** Averaging one length at a time gives the mean of all of them. */
  lemma {:induction false} RunningMeanIsMean(s: seq<nat>)
    ensures RunningMeanOf(s) == Mean(s)
  {
    if |s| > 0 {
      var n := |s| - 1;
      RunningMeanIsMean(s[..n]);
      RunningMean(s[..n], s[n]);
      assert s[..n] + [s[n]] == s;
    }
  }

  /** The query statistics agree with the recorded lengths and categories. */
  ghost predicate QueryStats(lengths: seq<nat>, total: nat, avg: real, dist: map<string, nat>) {
    |lengths| == total && avg == RunningMeanOf(lengths) && SumValues(dist) == total
  }

  /** `record_query`'s update keeps the statistics in agreement. */
  lemma QueryStatsStep(lengths: seq<nat>, total: nat, avg: real, dist: map<string, nat>, len: nat, category: string)
    requires QueryStats(lengths, total, avg, dist)
    ensures QueryStats(lengths + [len], total + 1, RunningAverage(avg, total, len), dist[category := Get(dist, category) + 1])
  {
    RunningMeanStep(lengths, len);
    SumValuesIncrement(dist, category);
  }

  class Learner {
    var totalSessions: nat
    var peakHours: seq<nat>
    var totalQueries: nat
    var avgQueryLength: real
    var categoryDistribution: map<string, nat>
    var hourlyCounts: array<nat>
    var lastReset: nat
    var modelUsageCounts: map<string, nat>
    var preferredModel: Option<string>
    var fallbackModel: Option<string>
    /** The byte length of every recorded query, oldest first. */
    ghost var queryLengths: seq<nat>

    ghost predicate Valid()
      reads this, hourlyCounts
    {
      && QueryStats(queryLengths, totalQueries, avgQueryLength, categoryDistribution)
      && PeakHoursFit(peakHours)
      && hourlyCounts.Length == 24
      && BucketsFit(hourlyCounts[..])
      && UsageFits(modelUsageCounts)
      && PreferencesAgree(modelUsageCounts, preferredModel, fallbackModel)
    }

    /** The kept average is the mean byte length of every recorded query. */
    lemma AverageIsMean()
      requires Valid()
      ensures avgQueryLength == Mean(queryLengths)
    {
      RunningMeanIsMean(queryLengths);
    }

    /** `UsageLearner::new`, with `now` the instant of the first reset. */
    constructor(now: nat)
      ensures Valid() && fresh(hourlyCounts)
      ensures totalSessions == 0 && peakHours == [] && totalQueries == 0 && avgQueryLength == 0.0
      ensures categoryDistribution == map[] && modelUsageCounts == map[]
      ensures preferredModel == None && fallbackModel == None
      ensures hourlyCounts[..] == seq(24, _ => 0) && lastReset == now
    {
      totalSessions := 0;
      peakHours := [];
      totalQueries := 0;
      avgQueryLength := 0.0;
      categoryDistribution := map[];
      hourlyCounts := new nat[24](_ => 0);
      lastReset := now;
      modelUsageCounts := map[];
      preferredModel := None;
      fallbackModel := None;
      queryLengths := [];
    }

    /**
     * `record_query`: one more query of `|query|` bytes in `category`;
     * the average stays the mean of all recorded lengths.
     */
    method RecordQuery(query: string, category: string)
      requires Valid()
      modifies this
      ensures Valid()
      ensures totalQueries == old(totalQueries) + 1
      ensures queryLengths == old(queryLengths) + [|query|]
      ensures categoryDistribution == old(categoryDistribution)[category := Get(old(categoryDistribution), category) + 1]
      ensures totalSessions == old(totalSessions) && peakHours == old(peakHours)
      ensures hourlyCounts == old(hourlyCounts) && lastReset == old(lastReset)
      ensures modelUsageCounts == old(modelUsageCounts)
      ensures preferredModel == old(preferredModel) && fallbackModel == old(fallbackModel)
    {
      var avg := RunningAverage(avgQueryLength, totalQueries, |query|);
      var counted := categoryDistribution[category := Get(categoryDistribution, category) + 1];
      QueryStatsStep(queryLengths, totalQueries, avgQueryLength, categoryDistribution, |query|, category);
      totalQueries, avgQueryLength, categoryDistribution, queryLengths :=
        totalQueries + 1, avg, counted, queryLengths + [|query|];
    }

    /**
     * `record_session_start` at local hour `hour`: the session count rises
     * by one and, past 200 recorded hours, the oldest 100 are dropped.
     */
    method RecordSessionStart(hour: nat)
      requires Valid() && hour < 24
      modifies this
      ensures Valid()
      ensures totalSessions == old(totalSessions) + 1
      ensures var pushed := old(peakHours) + [hour];
        peakHours == if |pushed| > 200 then pushed[100..] else pushed
      ensures totalQueries == old(totalQueries) && avgQueryLength == old(avgQueryLength)
      ensures categoryDistribution == old(categoryDistribution) && queryLengths == old(queryLengths)
      ensures hourlyCounts == old(hourlyCounts) && lastReset == old(lastReset)
      ensures modelUsageCounts == old(modelUsageCounts)
      ensures preferredModel == old(preferredModel) && fallbackModel == old(fallbackModel)
    {
      totalSessions := totalSessions + 1;
      peakHours := peakHours + [hour];
      if |peakHours| > 200 {
        peakHours := peakHours[100..];
      }
    }

    /**
     * `record_time_usage` at local hour `hour` and instant `now`: more than
     * a day after the last reset the buckets restart from zero; then the
     * hour's bucket is bumped, saturating at the u32 maximum.
     */
    method RecordTimeUsage(hour: nat, now: nat)
      requires Valid() && hour < 24
      modifies this, hourlyCounts
      ensures Valid()
      ensures Elapsed(now, old(lastReset)) > 86400 ==>
        lastReset == now && fresh(hourlyCounts) && hourlyCounts[..] == seq(24, _ => 0)[hour := 1]
      ensures Elapsed(now, old(lastReset)) <= 86400 ==>
        lastReset == old(lastReset) && hourlyCounts == old(hourlyCounts)
        && hourlyCounts[..] == old(hourlyCounts[..])[hour := SatInc(old(hourlyCounts[hour]), U32Max)]
      ensures totalSessions == old(totalSessions) && peakHours == old(peakHours)
      ensures totalQueries == old(totalQueries) && avgQueryLength == old(avgQueryLength)
      ensures categoryDistribution == old(categoryDistribution) && queryLengths == old(queryLengths)
      ensures modelUsageCounts == old(modelUsageCounts)
      ensures preferredModel == old(preferredModel) && fallbackModel == old(fallbackModel)
    {
      if Elapsed(now, lastReset) > 86400 {
        hourlyCounts := new nat[24](_ => 0);
        lastReset := now;
      }
      hourlyCounts[hour] := SatInc(hourlyCounts[hour], U32Max);
    }

    /**
     * `record_model_usage`: bump the model's count (saturating), then
     * re-derive the preferred and fallback models from the counts.
     */
    method RecordModelUsage(modelName: string)
      requires Valid()
      modifies this
      ensures Valid()
      ensures modelUsageCounts == old(modelUsageCounts)[modelName := SatInc(Get(old(modelUsageCounts), modelName), U64Max)]
      ensures preferredModel.Some?
      ensures totalSessions == old(totalSessions) && peakHours == old(peakHours)
      ensures totalQueries == old(totalQueries) && avgQueryLength == old(avgQueryLength)
      ensures categoryDistribution == old(categoryDistribution) && queryLengths == old(queryLengths)
      ensures hourlyCounts == old(hourlyCounts) && lastReset == old(lastReset)
    {
      modelUsageCounts := modelUsageCounts[modelName := SatInc(Get(modelUsageCounts, modelName), U64Max)];
      TopKeyExists(modelUsageCounts);
      var top :| IsTopKey(modelUsageCounts, top);
      preferredModel := Some(top);
      if |modelUsageCounts.Keys| >= 2 {
        TwoKeysLeaveOne(modelUsageCounts, top);
        TopKeyExists(modelUsageCounts - {top});
        var next :| IsTopKey(modelUsageCounts - {top}, next);
        fallbackModel := Some(next);
      } else {
        fallbackModel := None;
      }
    }

    /** `get_optimal_context_window`. */
    function OptimalContextWindow(): (w: nat)
      reads this
      ensures w == ContextWindowFor(avgQueryLength)
    {
      ContextWindowFor(avgQueryLength)
    }

    /**
     * `get_model_recommendation`: the preferred model, with a maximal
     * usage count, and the fallback, with a maximal count among the rest.
     */
    function ModelRecommendation(): (r: (Option<string>, Option<string>))
      requires Valid()
      reads this, hourlyCounts
      ensures r.0.None? <==> modelUsageCounts == map[]
      ensures r.0.Some? ==> IsTopKey(modelUsageCounts, r.0.value)
      ensures r.1.Some? <==> |modelUsageCounts.Keys| >= 2
      ensures r.1.Some? ==> r.0.Some? && IsTopKey(modelUsageCounts - {r.0.value}, r.1.value)
    {
      (preferredModel, fallbackModel)
    }

    /**
     * `get_learning_stats`: the peak hour is the last hour with a maximal
     * bucket; the top category is some category with a maximal count, or
     * "unknown" when none was recorded.
     */
    method LearningStatsNow() returns (stats: LearningStats)
      requires Valid()
      ensures stats.totalQueries == totalQueries && stats.avgQueryLength == avgQueryLength
      ensures stats.totalSessions == totalSessions
      ensures stats.peakHour == LastArgMax(hourlyCounts[..]) && stats.peakHour < 24
      ensures categoryDistribution == map[] ==> stats.topCategory == "unknown"
      ensures categoryDistribution != map[] ==> IsTopKey(categoryDistribution, stats.topCategory)
    {
      var peak := LastArgMax(hourlyCounts[..]);
      var top := "unknown";
      if categoryDistribution != map[] {
        TopKeyExists(categoryDistribution);
        top :| IsTopKey(categoryDistribution, top);
      }
      stats := LearningStats(totalQueries, avgQueryLength, totalSessions, peak, top);
    }

    /**
     * `suggest_optimizations` at local hour `hour`. The lightweight-model
     * advice depends on which top category the map yields; it is certain
     * when "simple" is the only maximal category.
     */
    method SuggestOptimizations(hour: nat) returns (r: seq<string>)
      requires Valid()
      ensures "increase_context_window" in r <==> avgQueryLength > 200.0
      ensures "prefer_lightweight_model" in r ==> totalQueries > 100 && IsTopKey(categoryDistribution, "simple")
      ensures totalQueries > 100 && IsTopKey(categoryDistribution, "simple")
              && (forall k :: IsTopKey(categoryDistribution, k) ==> k == "simple")
              ==> "prefer_lightweight_model" in r
      ensures "defer_background_jobs" in r <==> IsPeakHour(peakHours, hour)
      ensures forall i :: 0 <= i < |r| ==>
        r[i] in ["increase_context_window", "prefer_lightweight_model", "defer_background_jobs"]
    {
      var stats := LearningStatsNow();
      r := [];
      if stats.avgQueryLength > 200.0 {
        r := r + ["increase_context_window"];
      }
      if stats.totalQueries > 100 && stats.topCategory == "simple" {
        r := r + ["prefer_lightweight_model"];
      }
      if IsPeakHour(peakHours, hour) {
        r := r + ["defer_background_jobs"];
      }
    }
  }
}
