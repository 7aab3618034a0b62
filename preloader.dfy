/**
 * The predictive preloader: it scores each query's complexity, keeps a
 * bounded queue of recent samples, and warms the model when recent queries
 * look demanding and the machine has room, with at most one warm-up in
 * flight. The spawned warm-up job is modelled as two steps the environment
 * drives: the load, and the wake-up after the cooldown.
 */
module Preloader {
  import opened Common
  import opened Models
  import Hardware
  import Inference
  import Errors

  const CodeIndicators: seq<string> := ["```", "function", "class", "def ", "import ", "const ", "let ", "error", "stack"]
  const ReasoningIndicators: seq<string> :=
    ["analy", "compare", "tradeoff", "reason", "optimiz", "performance", "architecture"]

  /** `x.clamp(0.0, 1.0)` of a ratio of counts. */
  function Saturate(x: real): (r: real)
    ensures 0.0 <= r <= 1.0
    ensures 0.0 <= x <= 1.0 ==> r == x
  {
    ClampR(x, 0.0, 1.0)
  }

  /**
   * `estimate_complexity`: 35% for length (saturating at 48 words), 40% for
   * code indicators (at 5), 25% for reasoning indicators (at 4).
   */
  function EstimateComplexity(query: string): (c: real)
    ensures 0.0 <= c <= 1.0
    ensures var lower := Lower(query);
      !ContainsAny(lower, CodeIndicators) && !ContainsAny(lower, ReasoningIndicators) ==> c <= 0.35
    ensures |SplitWs(query)| == 0 ==> c <= 0.65
  {
    var lengthScore := Saturate(|SplitWs(query)| as real / 48.0);
    var lower := Lower(query);
    var codeScore := Saturate(CountContained(lower, CodeIndicators) as real / 5.0);
    var reasoningScore := Saturate(CountContained(lower, ReasoningIndicators) as real / 4.0);
    ClampR(lengthScore * 0.35 + codeScore * 0.4 + reasoningScore * 0.25, 0.0, 1.0)
  }

  datatype QueryContext = QueryContext(observedAt: nat, complexity: real)

  /** The queue after a push: at most the newest 128 samples. */
  function Bounded(q: seq<QueryContext>): (r: seq<QueryContext>)
    ensures |r| <= 128
    ensures |q| <= 128 ==> r == q
    ensures |q| > 128 ==> |r| == 128
    ensures r == q[|q| - |r|..]
  {
    if |q| > 128 then q[|q| - 128..] else q
  }

  /** How many of the newest samples precede (from the back) the first one older than 300 s. */
  function FreshCount(q: seq<QueryContext>, now: nat): (n: nat)
    ensures n <= |q|
    ensures forall i :: |q| - n <= i < |q| ==> Elapsed(now, q[i].observedAt) <= 300
    ensures n < |q| ==> Elapsed(now, q[|q| - n - 1].observedAt) > 300
  {
    if |q| == 0 then 0
    else if Elapsed(now, q[|q| - 1].observedAt) > 300 then 0
    else FreshCount(q[..|q| - 1], now) + 1
  }

  function ComplexitySum(q: seq<QueryContext>): real
  {
    if |q| == 0 then 0.0 else ComplexitySum(q[..|q| - 1]) + q[|q| - 1].complexity
  }

  predicate UnitComplexities(q: seq<QueryContext>)
  {
    forall i :: 0 <= i < |q| ==> 0.0 <= q[i].complexity <= 1.0
  }

  lemma {:induction false} ComplexitySumBounds(q: seq<QueryContext>)
    requires UnitComplexities(q)
    ensures 0.0 <= ComplexitySum(q) <= |q| as real
    decreases |q|
  {
    if |q| > 0 {
      ComplexitySumBounds(q[..|q| - 1]);
    }
  }

  /** `recent_complexity`: the mean over the newest window samples, 0 if none. */
  function RecentAverage(q: seq<QueryContext>, now: nat): real
  {
    var n := FreshCount(q, now);
    if n == 0 then 0.0 else ComplexitySum(q[|q| - n..]) / n as real
  }

  /** Samples scored in [0, 1] average to a value in [0, 1]. */
  lemma RecentAverageBounds(q: seq<QueryContext>, now: nat)
    requires UnitComplexities(q)
    ensures 0.0 <= RecentAverage(q, now) <= 1.0
  {
    var n := FreshCount(q, now);
    if n > 0 {
      var window := q[|q| - n..];
      assert UnitComplexities(window) by {
        forall i | 0 <= i < |window| ensures 0.0 <= window[i].complexity <= 1.0 {
          assert window[i] == q[|q| - n + i];
        }
      }
      ComplexitySumBounds(window);
      DivBounds(ComplexitySum(window), n as real, 0.0, 1.0);
    }
  }

  /** No demanding query in the window: plain text never reaches the 0.62 trigger. */
  lemma PlainTextStaysBelowTrigger(query: string)
    requires !ContainsAny(Lower(query), CodeIndicators) && !ContainsAny(Lower(query), ReasoningIndicators)
    ensures EstimateComplexity(query) < 0.62
  {
  }

  /** The queue after a background trim: leading samples older than 1200 s removed. */
  function DropStale(q: seq<QueryContext>, now: nat): (r: seq<QueryContext>)
    ensures |r| <= |q| && r == q[|q| - |r|..]
    ensures |r| > 0 ==> Elapsed(now, r[0].observedAt) <= 1200
    decreases |q|
  {
    if |q| == 0 then q
    else if Elapsed(now, q[0].observedAt) > 1200 then DropStale(q[1..], now)
    else q
  }

  /** Everything the trim removes is older than 1200 s; what stays starts fresh. */
  lemma {:induction false} DropStaleRemovesOnlyStale(q: seq<QueryContext>, now: nat)
    ensures var r := DropStale(q, now);
      forall i :: 0 <= i < |q| - |r| ==> Elapsed(now, q[i].observedAt) > 1200
    decreases |q|
  {
    if |q| > 0 && Elapsed(now, q[0].observedAt) > 1200 {
      DropStaleRemovesOnlyStale(q[1..], now);
      var r := DropStale(q, now);
      forall i | 0 <= i < |q| - |r| ensures Elapsed(now, q[i].observedAt) > 1200 {
        if i > 0 {
          assert q[i] == q[1..][i - 1];
        }
      }
    }
  }

  /** Whether a background tick is paused: CPU above 85% or memory above 88%. */
  predicate TickPaused(stats: LiveSystemStats)
  {
    stats.cpuUsagePct > 85.0 || Hardware.MemoryFraction(stats) > 0.88
  }

  /** The warm-up in flight: its model and, once loaded, when the load finished. */
  datatype PreloadJob = PreloadJob(path: string, profile: SystemProfile, loadedAt: Option<nat>)

  class Preloader {
    var enabled: bool
    const hasEmbedding: bool
    var recentQueries: seq<QueryContext>
    var preloadScheduled: bool
    var job: Option<PreloadJob>
    const cooldownSecs: nat

    ghost predicate Valid()
      reads this
    {
      && |recentQueries| <= 128
      && UnitComplexities(recentQueries)
      && (preloadScheduled <==> job.Some?)
    }

    /** `PredictivePreloader::new`: enabled, empty queue, nothing scheduled, 30 s cooldown. */
    constructor(hasEmbedding: bool)
      ensures Valid()
      ensures enabled && this.hasEmbedding == hasEmbedding && recentQueries == []
      ensures !preloadScheduled && job == None && cooldownSecs == 30
    {
      enabled := true;
      this.hasEmbedding := hasEmbedding;
      recentQueries := [];
      preloadScheduled := false;
      job := None;
      cooldownSecs := 30;
    }

    method SetEnabled(on: bool)
      requires Valid()
      modifies this
      ensures Valid() && enabled == on
      ensures recentQueries == old(recentQueries) && preloadScheduled == old(preloadScheduled) && job == old(job)
    {
      enabled := on;
    }

    /**
     * `record_query` at instant `now`: when enabled, the scored sample is
     * appended and the oldest dropped past 128; when disabled, nothing.
     */
    method RecordQuery(query: string, now: nat)
      requires Valid()
      modifies this
      ensures Valid()
      ensures !old(enabled) ==> recentQueries == old(recentQueries)
      ensures old(enabled) ==>
        recentQueries == Bounded(old(recentQueries) + [QueryContext(now, EstimateComplexity(query))])
      ensures enabled == old(enabled) && preloadScheduled == old(preloadScheduled) && job == old(job)
    {
      if !enabled {
        return;
      }
      var sample := QueryContext(now, EstimateComplexity(query));
      var pushed := recentQueries + [sample];
      UnitComplexitiesPush(recentQueries, sample);
      var queue := pushed;
      while |queue| > 128
        invariant Min(|pushed|, 128) <= |queue| <= |pushed| && queue == pushed[|pushed| - |queue|..]
        invariant UnitComplexities(queue)
        invariant unchanged(this)
      {
        DropOldest(pushed, queue);
        queue := queue[1..];
      }
      assert queue == Bounded(pushed);
      recentQueries := queue;
    }

    /** `sample_count`. */
    function SampleCount(): (n: nat)
      reads this
      requires Valid()
      ensures n == |recentQueries| && n <= 128
    {
      |recentQueries|
    }

    /** `recent_complexity`: walks from the newest sample back to the first older than 300 s. */
    method RecentComplexity(now: nat) returns (avg: real)
      requires Valid()
      ensures avg == RecentAverage(recentQueries, now)
      ensures 0.0 <= avg <= 1.0
    {
      var q := recentQueries;
      var count := 0;
      var sum := 0.0;
      var i := |q|;
      while i > 0 && Elapsed(now, q[i - 1].observedAt) <= 300
        invariant 0 <= i <= |q|
        invariant count == |q| - i
        invariant sum == ComplexitySum(q[i..])
        invariant FreshCount(q, now) == count + FreshCount(q[..i], now)
      {
        WalkStep(q, i, now);
        count := count + 1;
        sum := sum + q[i - 1].complexity;
        i := i - 1;
      }
      WalkEnd(q, i, now);
      avg := if count == 0 then 0.0 else sum / count as real;
    }

    /**
     * `trigger_preload`: the swap on the scheduled flag lets at most one
     * warm-up start; a second trigger while one is in flight does nothing.
     */
    method TriggerPreload(path: string, profile: SystemProfile) returns (started: bool)
      requires Valid()
      modifies this
      ensures Valid()
      ensures started <==> !old(preloadScheduled)
      ensures started ==> job == Some(PreloadJob(path, profile, None)) && preloadScheduled
      ensures !started ==> job == old(job) && preloadScheduled == old(preloadScheduled)
      ensures enabled == old(enabled) && recentQueries == old(recentQueries)
    {
      var was := preloadScheduled;
      preloadScheduled := true;
      if was {
        return false;
      }
      job := Some(PreloadJob(path, profile, None));
      started := true;
    }

    /**
     * `maybe_preload` with the live statistics and the clock: warms
     * `modelPath` only when enabled and idle, the recent average is at least
     * 0.62 (0.75 without an embedding service), and the hardware would load
     * a 4096 MB model now or in the background.
     */
    method MaybePreload(modelPath: string, profile: SystemProfile, stats: LiveSystemStats, now: nat)
      returns (triggered: bool)
      requires Valid()
      modifies this
      ensures Valid()
      ensures var avg := RecentAverage(old(recentQueries), now);
        var decision := Hardware.ShouldLoadModel(stats, 4096);
        triggered <==> (old(enabled) && !old(preloadScheduled) && avg >= 0.62
                         && (hasEmbedding || avg >= 0.75)
                         && (decision == Hardware.LoadNow || decision == Hardware.BackgroundOnly))
      ensures triggered ==> job == Some(PreloadJob(modelPath, profile, None))
      ensures !triggered ==> job == old(job) && preloadScheduled == old(preloadScheduled)
      ensures enabled == old(enabled) && recentQueries == old(recentQueries)
    {
      if !enabled || preloadScheduled {
        return false;
      }
      var avg := RecentComplexity(now);
      if avg < 0.62 {
        return false;
      }
      var decision := Hardware.ShouldLoadModel(stats, 4096);
      if !hasEmbedding && avg < 0.75 {
        return false;
      }
      if decision == Hardware.LoadNow || decision == Hardware.BackgroundOnly {
        triggered := TriggerPreload(modelPath, profile);
      } else {
        triggered := false;
      }
    }

    /**
     * The warm-up job's load step at instant `now`, in the performance mode
     * the stored setting gives; a failed load is only logged.
     */
    method RunPreloadLoad(engine: Inference.Engine, setting: Option<string>, fileExists: bool,
                          trained: Errors.Result<nat>, now: nat)
      requires Valid() && job.Some? && job.value.loadedAt.None?
      modifies this, engine
      ensures Valid()
      ensures job == Some(old(job).value.(loadedAt := Some(now))) && preloadScheduled
      ensures fileExists && trained.Ok? ==>
        engine.loaded.Some? && engine.loaded.value.path == old(job).value.path
      ensures !(fileExists && trained.Ok?) ==> engine.loaded == old(engine.loaded)
      ensures enabled == old(enabled) && recentQueries == old(recentQueries)
    {
      var j := job.value;
      var mode := Hardware.PerformanceModeOf(setting);
      var _ := engine.LoadModel(j.path, j.profile, mode, fileExists, trained, now);
      job := Some(j.(loadedAt := Some(now)));
    }

    /** The job's wake-up: the flag clears only once the cooldown has passed since the load. */
    method WakeAfterCooldown(now: nat)
      requires Valid()
      modifies this
      ensures Valid()
      ensures var done := old(job).Some? && old(job).value.loadedAt.Some?
                          && Elapsed(now, old(job).value.loadedAt.value) >= cooldownSecs;
        && (done ==> !preloadScheduled && job == None)
        && (!done ==> preloadScheduled == old(preloadScheduled) && job == old(job))
      ensures enabled == old(enabled) && recentQueries == old(recentQueries)
    {
      if job.Some? && job.value.loadedAt.Some? && Elapsed(now, job.value.loadedAt.value) >= cooldownSecs {
        preloadScheduled := false;
        job := None;
      }
    }

    /**
     * One background predictor tick: paused under pressure; otherwise the
     * samples older than 1200 s are removed from the front.
     */
    method BackgroundTick(stats: LiveSystemStats, now: nat)
      requires Valid()
      modifies this
      ensures Valid()
      ensures !old(enabled) || TickPaused(stats) ==> recentQueries == old(recentQueries)
      ensures old(enabled) && !TickPaused(stats) ==> recentQueries == DropStale(old(recentQueries), now)
      ensures enabled == old(enabled) && preloadScheduled == old(preloadScheduled) && job == old(job)
    {
      if !enabled {
        return;
      }
      if TickPaused(stats) {
        return;
      }
      var queue := recentQueries;
      while |queue| > 0
        invariant UnitComplexities(queue)
        invariant |queue| <= |recentQueries|
        invariant DropStale(queue, now) == DropStale(recentQueries, now)
        invariant unchanged(this)
        decreases |queue|
      {
        if Elapsed(now, queue[0].observedAt) > 1200 {
          UnitComplexitiesTail(queue);
          queue := queue[1..];
        } else {
          assert DropStale(queue, now) == queue;
          break;
        }
      }
      recentQueries := queue;
    }
  }

  /** One step of the newest-first walk: the sample is fresh and joins count and sum. */
  lemma WalkStep(q: seq<QueryContext>, i: nat, now: nat)
    requires 0 < i <= |q| && Elapsed(now, q[i - 1].observedAt) <= 300
    ensures FreshCount(q[..i], now) == FreshCount(q[..i - 1], now) + 1
    ensures ComplexitySum(q[i - 1..]) == ComplexitySum(q[i..]) + q[i - 1].complexity
  {
    FreshCountStep(q, i, now);
    ComplexitySumPrepend(q, i - 1);
  }

  /** Where the walk stops, the samples it passed are exactly the fresh window. */
  lemma WalkEnd(q: seq<QueryContext>, i: nat, now: nat)
    requires UnitComplexities(q)
    requires i <= |q| && (i == 0 || Elapsed(now, q[i - 1].observedAt) > 300)
    ensures FreshCount(q[..i], now) == 0
    ensures FreshCount(q, now) == |q| - i ==>
      RecentAverage(q, now) == (if i == |q| then 0.0 else ComplexitySum(q[i..]) / (|q| - i) as real)
    ensures 0.0 <= RecentAverage(q, now) <= 1.0
  {
    FreshCountStops(q, i, now);
    RecentAverageBounds(q, now);
  }

  /** Popping the oldest sample keeps a suffix of the pushed queue with unit scores. */
  lemma DropOldest(pushed: seq<QueryContext>, queue: seq<QueryContext>)
    requires 0 < |queue| <= |pushed| && queue == pushed[|pushed| - |queue|..] && UnitComplexities(queue)
    ensures queue[1..] == pushed[|pushed| - |queue[1..]|..] && UnitComplexities(queue[1..])
  {
    UnitComplexitiesTail(queue);
  }

  lemma UnitComplexitiesPush(q: seq<QueryContext>, x: QueryContext)
    requires UnitComplexities(q) && 0.0 <= x.complexity <= 1.0
    ensures UnitComplexities(q + [x])
  {
    forall i | 0 <= i < |q + [x]| ensures 0.0 <= (q + [x])[i].complexity <= 1.0 {
      if i < |q| {
        assert (q + [x])[i] == q[i];
      }
    }
  }

  lemma UnitComplexitiesTail(q: seq<QueryContext>)
    requires UnitComplexities(q) && |q| > 0
    ensures UnitComplexities(q[1..])
  {
    forall i | 0 <= i < |q| - 1 ensures 0.0 <= q[1..][i].complexity <= 1.0 {
      assert q[1..][i] == q[i + 1];
    }
  }

  lemma FreshCountStep(q: seq<QueryContext>, i: nat, now: nat)
    requires 0 < i <= |q| && Elapsed(now, q[i - 1].observedAt) <= 300
    ensures FreshCount(q[..i], now) == FreshCount(q[..i - 1], now) + 1
  {
    assert q[..i][..i - 1] == q[..i - 1];
  }

  lemma FreshCountStops(q: seq<QueryContext>, i: nat, now: nat)
    requires i <= |q|
    requires i == 0 || Elapsed(now, q[i - 1].observedAt) > 300
    ensures FreshCount(q[..i], now) == 0
  {
  }

  lemma ComplexitySumPrepend(q: seq<QueryContext>, i: nat)
    requires i < |q|
    ensures ComplexitySum(q[i..]) == q[i].complexity + ComplexitySum(q[i + 1..])
    decreases |q| - i
  {
    if i + 1 < |q| {
      ComplexitySumPrepend(q[..|q| - 1], i);
      assert q[..|q| - 1][i..] == q[i..][..|q[i..]| - 1];
      assert q[..|q| - 1][i + 1..] == q[i + 1..][..|q[i + 1..]| - 1];
    } else {
      assert q[i + 1..] == [];
      assert q[i..][..0] == [];
    }
  }
}
