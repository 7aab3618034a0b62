/**
 * The runtime orchestrator: it composes the classifier, the usage learner,
 * the predictive preloader, the governor and the memory manager. It plans
 * each request (task type, QoS class, token hint, background deferral) and
 * computes the service budget from the device tier, the free memory and the
 * pressure.
 */
module Orchestrator {
  import opened Common
  import opened Models
  import opened Errors
  import Hardware
  import Governor
  import QueryClassifier
  import TaskRouter
  import UsageLearner
  import Preloader
  import MemoryManager

  datatype FeatureGate = FeatureGate(
    ragEnabled: bool,
    mcpEnabled: bool,
    spotifyEnabled: bool,
    backgroundTasksEnabled: bool,
    predictivePreloadEnabled: bool,
    adaptiveMemoryEnabled: bool)

  datatype ServiceBudget = ServiceBudget(
    interactiveMaxTokens: nat,
    backgroundMaxTokens: nat,
    retrievalCandidateLimit: nat,
    interactiveMaxConcurrency: nat,
    backgroundMaxConcurrency: nat)

  datatype OrchestratedRequest = OrchestratedRequest(
    taskType: string,
    qos: string,
    queryCategory: string,
    maxTokensHint: nat,
    contextWindowHint: nat,
    pressureLevel: string,
    deferBackground: bool)

  datatype RuntimeProfileSnapshot = RuntimeProfileSnapshot(
    detectedTier: string,
    activeTier: string,
    lowSafeStartup: bool,
    pressureLevel: string,
    featureGates: FeatureGate,
    serviceBudget: ServiceBudget,
    policy: RuntimePolicy)

  datatype ServiceHealthSnapshot = ServiceHealthSnapshot(
    queryClassifierReady: bool,
    usageLearnerReady: bool,
    adaptiveMemoryEnabled: bool,
    predictivePreloadEnabled: bool,
    recentQuerySamples: nat,
    memoryManager: MemoryManager.MemoryManagerStats)

  datatype OptimizationStatsSnapshot = OptimizationStatsSnapshot(
    learning: UsageLearner.LearningStats,
    memoryManager: MemoryManager.MemoryManagerStats,
    suggestedOptimizations: seq<string>,
    recommendedContextWindow: nat,
    preferredModel: Option<string>,
    fallbackModel: Option<string>,
    classificationDistribution: map<string, nat>)

  // ---------------------------------------------------------------------
  // Service budget
  // ---------------------------------------------------------------------

  /** Free memory in MB, saturating at 0. */
  function FreeRamMb(stats: LiveSystemStats): nat {
    SatSub(stats.memoryTotalMb, stats.memoryUsedMb)
  }

  /** 512 tokens plus 100 per whole GB of free memory. */
  function DynamicMaxTokens(stats: LiveSystemStats): (n: nat)
    ensures n >= 512
  {
    512 + (FreeRamMb(stats) / 1024) * 100
  }

  /** The tier's upper bound on interactive tokens. */
  function TierTokenCap(tier: Hardware.DeviceTier): (cap: nat)
    ensures cap >= 128
  {
    match tier
    case Potato => 128
    case Minimal => 256
    case Low => 512
    case Medium => 1024
    case High => 4096
    case Ultra => 16384
  }

  /** The unscaled budget of a tier, its interactive tokens capped by the dynamic figure. */
  function TierBudget(tier: Hardware.DeviceTier, dynamic: nat): (b: ServiceBudget)
    ensures b.interactiveMaxTokens == Min(dynamic, TierTokenCap(tier))
    ensures b.backgroundMaxTokens >= 64 && b.retrievalCandidateLimit >= 4
    ensures b.interactiveMaxConcurrency >= 1 && b.backgroundMaxConcurrency >= 1
  {
    var cap := Min(dynamic, TierTokenCap(tier));
    match tier
    case Potato => ServiceBudget(cap, 64, 4, 1, 1)
    case Minimal => ServiceBudget(cap, 128, 12, 1, 1)
    case Low => ServiceBudget(cap, 192, 24, 1, 1)
    case Medium => ServiceBudget(cap, 320, 48, 2, 1)
    case High => ServiceBudget(cap, 1024, 96, 3, 2)
    case Ultra => ServiceBudget(cap, 4096, 256, 5, 4)
  }

  /** A stronger tier (lower rank) never gets a smaller budget in any component. */
  lemma TierBudgetMonotone(a: Hardware.DeviceTier, b: Hardware.DeviceTier, dynamic: nat)
    requires Hardware.TierRank(a) <= Hardware.TierRank(b)
    ensures var ba, bb := TierBudget(a, dynamic), TierBudget(b, dynamic);
      && bb.interactiveMaxTokens <= ba.interactiveMaxTokens
      && bb.backgroundMaxTokens <= ba.backgroundMaxTokens
      && bb.retrievalCandidateLimit <= ba.retrievalCandidateLimit
      && bb.interactiveMaxConcurrency <= ba.interactiveMaxConcurrency
      && bb.backgroundMaxConcurrency <= ba.backgroundMaxConcurrency
  {
  }

  /** The budget factor of a pressure level: 1.0, 0.9, 0.7, 0.5. */
  function BudgetFactor(p: Pressure): (f: real)
    ensures 0.5 <= f <= 1.0
    ensures p == NormalPressure <==> f == 1.0
  {
    match p
    case CriticalPressure => 0.5
    case HighPressure => 0.7
    case WarmPressure => 0.9
    case NormalPressure => 1.0
  }

  /** `((x as f64) * f).round()`: never above `x` for a factor of at most 1. */
  function ScaledTokens(x: nat, f: real): (n: nat)
    requires 0.0 <= f <= 1.0
    ensures n <= x
    ensures f == 1.0 ==> n == x
  {
    var y := x as real * f;
    assert 0.0 <= y <= x as real by { MulAtMost(x as real, f); }
    Round(y)
  }

  lemma MulAtMost(x: real, f: real)
    requires x >= 0.0 && 0.0 <= f <= 1.0
    ensures 0.0 <= x * f <= x
  {
    assert x - x * f == x * (1.0 - f);
  }

  /** A larger factor never scales to fewer tokens. */
  lemma ScaledTokensMonotone(x: nat, f1: real, f2: real)
    requires 0.0 <= f1 <= f2 <= 1.0
    ensures ScaledTokens(x, f1) <= ScaledTokens(x, f2)
  {
    assert x as real * f2 - x as real * f1 == x as real * (f2 - f1);
    MulAtMost(x as real, f2 - f1);
    RoundMonotone(x as real * f1, x as real * f2);
  }

  /** The tier budget scaled by the pressure factor, capped by the policy, and floored. */
  function ScaleBudget(tb: ServiceBudget, p: Pressure, policy: RuntimePolicy): (b: ServiceBudget)
    ensures b.interactiveMaxTokens >= 96 && b.backgroundMaxTokens >= 64
    ensures b.interactiveMaxConcurrency >= 1 && b.backgroundMaxConcurrency >= 1
    ensures b.interactiveMaxTokens <= Max(tb.interactiveMaxTokens, 96)
    ensures b.backgroundMaxTokens <= Max(tb.backgroundMaxTokens, 64)
    ensures policy.interactiveMaxTokens >= 96 ==> b.interactiveMaxTokens <= policy.interactiveMaxTokens
    ensures policy.backgroundMaxTokens >= 64 ==> b.backgroundMaxTokens <= policy.backgroundMaxTokens
    ensures b.retrievalCandidateLimit <= policy.retrievalCandidateLimit
    ensures b.retrievalCandidateLimit <= tb.retrievalCandidateLimit
    ensures p == CriticalPressure ==> b.retrievalCandidateLimit <= 3
    ensures p != CriticalPressure ==> b.retrievalCandidateLimit == Min(tb.retrievalCandidateLimit, policy.retrievalCandidateLimit)
    ensures policy.interactiveMaxConcurrency >= 1 ==> b.interactiveMaxConcurrency <= policy.interactiveMaxConcurrency
    ensures tb.interactiveMaxConcurrency >= 1 ==> b.interactiveMaxConcurrency <= tb.interactiveMaxConcurrency
    ensures policy.backgroundMaxConcurrency >= 1 ==> b.backgroundMaxConcurrency <= policy.backgroundMaxConcurrency
    ensures tb.backgroundMaxConcurrency >= 1 ==> b.backgroundMaxConcurrency <= tb.backgroundMaxConcurrency
    ensures p == NormalPressure ==>
      b.interactiveMaxTokens == Max(Min(tb.interactiveMaxTokens, policy.interactiveMaxTokens), 96)
  {
    var f := BudgetFactor(p);
    var retrieval := if p == CriticalPressure then Min(tb.retrievalCandidateLimit, 3) else tb.retrievalCandidateLimit;
    ServiceBudget(
      Max(Min(ScaledTokens(tb.interactiveMaxTokens, f), policy.interactiveMaxTokens), 96),
      Max(Min(ScaledTokens(tb.backgroundMaxTokens, f), policy.backgroundMaxTokens), 64),
      Min(retrieval, policy.retrievalCandidateLimit),
      Max(Min(tb.interactiveMaxConcurrency, policy.interactiveMaxConcurrency), 1),
      Max(Min(tb.backgroundMaxConcurrency, policy.backgroundMaxConcurrency), 1))
  }

  /** More pressure never grants more tokens or more retrieval candidates. */
  lemma ScaleBudgetAntitone(tb: ServiceBudget, p1: Pressure, p2: Pressure, policy: RuntimePolicy)
    requires PressureRank(p1) <= PressureRank(p2)
    ensures var b1, b2 := ScaleBudget(tb, p1, policy), ScaleBudget(tb, p2, policy);
      && b2.interactiveMaxTokens <= b1.interactiveMaxTokens
      && b2.backgroundMaxTokens <= b1.backgroundMaxTokens
      && b2.retrievalCandidateLimit <= b1.retrievalCandidateLimit
      && b2.interactiveMaxConcurrency == b1.interactiveMaxConcurrency
      && b2.backgroundMaxConcurrency == b1.backgroundMaxConcurrency
  {
    var f1, f2 := BudgetFactor(p1), BudgetFactor(p2);
    assert f2 <= f1;
    ScaledTokensMonotone(tb.interactiveMaxTokens, f2, f1);
    ScaledTokensMonotone(tb.backgroundMaxTokens, f2, f1);
  }

  /** `compute_budget` for the active tier, from one live-statistics sample. */
  function ComputeBudget(policy: RuntimePolicy, stats: LiveSystemStats, tier: Hardware.DeviceTier): (b: ServiceBudget)
    ensures b.interactiveMaxTokens >= 96 && b.backgroundMaxTokens >= 64
    ensures b.interactiveMaxConcurrency >= 1 && b.backgroundMaxConcurrency >= 1
    ensures b.interactiveMaxTokens <= Max(TierTokenCap(tier), 96)
    ensures b.interactiveMaxTokens <= Max(DynamicMaxTokens(stats), 96)
    ensures policy.interactiveMaxTokens >= 96 ==> b.interactiveMaxTokens <= policy.interactiveMaxTokens
    ensures b.retrievalCandidateLimit <= policy.retrievalCandidateLimit
    ensures b.retrievalCandidateLimit <= TierBudget(tier, 0).retrievalCandidateLimit
    ensures Governor.ClassifyPressure(stats, policy) == CriticalPressure ==> b.retrievalCandidateLimit <= 3
  {
    ScaleBudget(TierBudget(tier, DynamicMaxTokens(stats)), Governor.ClassifyPressure(stats, policy), policy)
  }

  /** Of two samples with the same free memory, the one under more pressure gets no more tokens. */
  lemma ComputeBudgetAntitone(policy: RuntimePolicy, s1: LiveSystemStats, s2: LiveSystemStats,
                              tier: Hardware.DeviceTier)
    requires FreeRamMb(s1) == FreeRamMb(s2)
    requires PressureRank(Governor.ClassifyPressure(s1, policy)) <= PressureRank(Governor.ClassifyPressure(s2, policy))
    ensures ComputeBudget(policy, s2, tier).interactiveMaxTokens <= ComputeBudget(policy, s1, tier).interactiveMaxTokens
    ensures ComputeBudget(policy, s2, tier).backgroundMaxTokens <= ComputeBudget(policy, s1, tier).backgroundMaxTokens
    ensures ComputeBudget(policy, s2, tier).retrievalCandidateLimit <= ComputeBudget(policy, s1, tier).retrievalCandidateLimit
  {
    ScaleBudgetAntitone(TierBudget(tier, DynamicMaxTokens(s1)), Governor.ClassifyPressure(s1, policy),
                        Governor.ClassifyPressure(s2, policy), policy);
  }

  // ---------------------------------------------------------------------
  // Request planning
  // ---------------------------------------------------------------------

  /** `infer_task_type_from_category`. */
  function InferTaskTypeFromCategory(c: QueryClassifier.QueryCategory): (t: string)
    ensures t in TaskRouter.TaskTypes
    ensures t == "code" <==> c == QueryClassifier.Code
    ensures t == "chat" <==> c in {QueryClassifier.Creative, QueryClassifier.Simple, QueryClassifier.Medium}
  {
    match c
    case Code => "code"
    case Math | Analytical | Complex => "reasoning"
    case Creative => "chat"
    case Simple | Medium => "chat"
    case Summarization | Translation => "reasoning"
  }

  /** `infer_qos_from_category`. */
  function InferQosFromCategory(c: QueryClassifier.QueryCategory): (q: string)
    ensures q in TaskRouter.QosClasses
    ensures q == "fast" <==> c == QueryClassifier.Simple
    ensures q == "max_quality" <==>
      c in {QueryClassifier.Complex, QueryClassifier.Code, QueryClassifier.Math, QueryClassifier.Analytical}
  {
    match c
    case Simple => "fast"
    case Medium | Creative | Summarization | Translation => "balanced"
    case Complex | Code | Math | Analytical => "max_quality"
  }

  /**
   * `sanitize_task_type` and `sanitize_qos` are the task router's
   * normalisers; a value inferred from a category passes them unchanged.
   */
  lemma InferredPassesSanitizers(c: QueryClassifier.QueryCategory)
    ensures TaskRouter.NormalizeTaskType(InferTaskTypeFromCategory(c)) == InferTaskTypeFromCategory(c)
    ensures TaskRouter.NormalizeQos(InferQosFromCategory(c)) == InferQosFromCategory(c)
  {
    TaskRouter.ListedTaskTypeUnchanged(InferTaskTypeFromCategory(c));
    TaskRouter.ListedQosUnchanged(InferQosFromCategory(c));
  }

  /** The token-hint factor of a pressure level: 1.0, 0.85, 0.65, 0.45. */
  function HintFactor(p: Pressure): (f: real)
    ensures 0.45 <= f <= 1.0
    ensures p == NormalPressure <==> f == 1.0
  {
    match p
    case CriticalPressure => 0.45
    case HighPressure => 0.65
    case WarmPressure => 0.85
    case NormalPressure => 1.0
  }

  /**
   * The token hint of a plan: the category's hint capped by the budget,
   * scaled by pressure, then clamped into [96, budget].
   */
  function PlanMaxTokens(c: QueryClassifier.QueryCategory, budget: ServiceBudget, p: Pressure): (n: nat)
    requires budget.interactiveMaxTokens >= 96
    ensures 96 <= n <= budget.interactiveMaxTokens
    ensures n <= Max(QueryClassifier.MaxTokensHint(c), 96)
    ensures p == NormalPressure ==> n == Clamp(Min(QueryClassifier.MaxTokensHint(c), budget.interactiveMaxTokens), 96, budget.interactiveMaxTokens)
  {
    var capped := Min(QueryClassifier.MaxTokensHint(c), budget.interactiveMaxTokens);
    Clamp(ScaledTokens(capped, HintFactor(p)), 96, budget.interactiveMaxTokens)
  }

  /** More pressure never yields a larger hint. */
  lemma PlanMaxTokensAntitone(c: QueryClassifier.QueryCategory, budget: ServiceBudget, p1: Pressure, p2: Pressure)
    requires budget.interactiveMaxTokens >= 96
    requires PressureRank(p1) <= PressureRank(p2)
    ensures PlanMaxTokens(c, budget, p2) <= PlanMaxTokens(c, budget, p1)
  {
    var capped := Min(QueryClassifier.MaxTokensHint(c), budget.interactiveMaxTokens);
    ScaledTokensMonotone(capped, HintFactor(p2), HintFactor(p1));
  }

  /** Whether a plan defers background work. */
  predicate Defers(allowDefer: bool, policy: RuntimePolicy, p: Pressure) {
    allowDefer && policy.deferBackgroundUnderPressure && (p == HighPressure || p == CriticalPressure)
  }

  /**
   * `plan_request` after classification, as a function of its inputs: the
   * stored policy, the governor's statistics sample (for the pressure), the
   * hardware sample (for the budget), and the classifier's context hint.
   */
  function Plan(c: QueryClassifier.QueryCategory, explicitTask: Option<string>, explicitQos: Option<string>,
                allowDefer: bool, policy: RuntimePolicy, stats: LiveSystemStats, budgetStats: LiveSystemStats,
                tier: Hardware.DeviceTier, contextHint: nat): (r: OrchestratedRequest)
    ensures r.taskType in TaskRouter.TaskTypes && r.qos in TaskRouter.QosClasses
    ensures explicitTask.None? ==> r.taskType == InferTaskTypeFromCategory(c)
    ensures explicitTask.Some? ==> r.taskType == TaskRouter.NormalizeTaskType(explicitTask.value)
    ensures explicitQos.None? ==> r.qos == InferQosFromCategory(c)
    ensures explicitQos.Some? ==> r.qos == TaskRouter.NormalizeQos(explicitQos.value)
    ensures r.queryCategory == QueryClassifier.CategoryName(c)
    ensures 96 <= r.maxTokensHint <= ComputeBudget(policy, budgetStats, tier).interactiveMaxTokens
    ensures r.maxTokensHint <= Max(QueryClassifier.MaxTokensHint(c), 96)
    ensures r.contextWindowHint == contextHint
    ensures r.pressureLevel == PressureName(Governor.ClassifyPressure(stats, policy))
    ensures r.deferBackground <==>
      allowDefer && policy.deferBackgroundUnderPressure && (r.pressureLevel == "high" || r.pressureLevel == "critical")
    ensures !allowDefer ==> !r.deferBackground
  {
    var p := Governor.ClassifyPressure(stats, policy);
    var task := if explicitTask.Some? then TaskRouter.NormalizeTaskType(explicitTask.value) else InferTaskTypeFromCategory(c);
    var qos := if explicitQos.Some? then TaskRouter.NormalizeQos(explicitQos.value) else InferQosFromCategory(c);
    var budget := ComputeBudget(policy, budgetStats, tier);
    OrchestratedRequest(task, qos, QueryClassifier.CategoryName(c), PlanMaxTokens(c, budget, p), contextHint,
                        PressureName(p), Defers(allowDefer, policy, p))
  }

  /** `low_safe_startup`: the active tier is Low or Minimal. */
  predicate LowSafeStartup(tier: Hardware.DeviceTier) {
    tier == Hardware.Low || tier == Hardware.Minimal
  }

  class RuntimeOrchestrator {
    const governor: Governor.PolicyStore
    const classifier: QueryClassifier.Classifier
    const learner: UsageLearner.Learner
    const memory: MemoryManager.Manager
    const preloader: Preloader.Preloader
    const detectedTier: Hardware.DeviceTier
    const activeTier: Hardware.DeviceTier
    const featureGates: FeatureGate

    ghost predicate Valid()
      reads this, classifier, learner, learner.hourlyCounts, preloader
    {
      classifier.Valid() && learner.Valid() && preloader.Valid()
    }

    constructor(governor: Governor.PolicyStore, classifier: QueryClassifier.Classifier,
                learner: UsageLearner.Learner, memory: MemoryManager.Manager, preloader: Preloader.Preloader,
                detectedTier: Hardware.DeviceTier, activeTier: Hardware.DeviceTier, featureGates: FeatureGate)
      requires classifier.Valid() && learner.Valid() && preloader.Valid()
      ensures Valid()
      ensures this.governor == governor && this.classifier == classifier && this.learner == learner
      ensures this.memory == memory && this.preloader == preloader
      ensures this.detectedTier == detectedTier && this.activeTier == activeTier
      ensures this.featureGates == featureGates
    {
      this.governor := governor;
      this.classifier := classifier;
      this.learner := learner;
      this.memory := memory;
      this.preloader := preloader;
      this.detectedTier := detectedTier;
      this.activeTier := activeTier;
      this.featureGates := featureGates;
    }

    /** `start_background_loops`: the memory manager and preloader follow their feature gates. */
    method StartBackgroundLoops()
      requires Valid()
      modifies memory, preloader
      ensures Valid()
      ensures memory.enabled == featureGates.adaptiveMemoryEnabled
      ensures preloader.enabled == featureGates.predictivePreloadEnabled
      ensures preloader.recentQueries == old(preloader.recentQueries)
      ensures preloader.preloadScheduled == old(preloader.preloadScheduled) && preloader.job == old(preloader.job)
    {
      memory.SetEnabled(featureGates.adaptiveMemoryEnabled);
      preloader.SetEnabled(featureGates.predictivePreloadEnabled);
    }

    /**
     * The first half of `plan_request`: classifies the content at instant
     * `now` and records it with the learner (local hour `hour`).
     */
    method ObserveQuery(content: string, now: nat, hour: nat) returns (category: QueryClassifier.QueryCategory)
      requires Valid() && hour < 24
      modifies classifier, learner, learner.hourlyCounts
      ensures Valid()
      ensures QueryClassifier.ValidClassification(content, category)
      ensures classifier.history == QueryClassifier.Stored(old(classifier.history), QueryClassifier.ClassificationRecord(category, now))
      ensures learner.totalQueries == old(learner.totalQueries) + 1
      ensures learner.totalSessions == old(learner.totalSessions) + 1
    {
      category := classifier.Classify(content, now);
      var categoryName := QueryClassifier.CategoryName(category);
      learner.RecordQuery(content, categoryName);
      learner.RecordTimeUsage(hour, now);
      learner.RecordSessionStart(hour);
    }

    /** The preloader's part of `plan_request`: the query joins its recent samples when it is enabled. */
    method RecordWithPreloader(content: string, now: nat)
      requires Valid()
      modifies preloader
      ensures Valid()
      ensures old(preloader.enabled) ==>
        preloader.recentQueries ==
          Preloader.Bounded(old(preloader.recentQueries) + [Preloader.QueryContext(now, Preloader.EstimateComplexity(content))])
      ensures !old(preloader.enabled) ==> preloader.recentQueries == old(preloader.recentQueries)
    {
      preloader.RecordQuery(content, now);
    }

    /**
     * `plan_request` for `userId`: observes the query, records it with the
     * preloader, then plans it from
     * the stored policy, the governor's live sample `stats` (for the
     * pressure) and the hardware sample `budgetStats` (for the budget).
     */
    method PlanRequest(userId: string, content: string, explicitTask: Option<string>, explicitQos: Option<string>,
                       allowDefer: bool, stats: LiveSystemStats, budgetStats: LiveSystemStats, now: nat, hour: nat)
      returns (r: OrchestratedRequest)
      requires Valid() && hour < 24
      modifies classifier, learner, learner.hourlyCounts, preloader
      ensures Valid()
      ensures |classifier.history| > 0
      ensures var c := classifier.history[|classifier.history| - 1].category;
        && QueryClassifier.ValidClassification(content, c)
        && classifier.history == QueryClassifier.Stored(old(classifier.history), QueryClassifier.ClassificationRecord(c, now))
        && r == Plan(c, explicitTask, explicitQos, allowDefer, Governor.ResolvePolicy(governor.rows, Some(userId)),
                     stats, budgetStats, activeTier, QueryClassifier.ContextWindowHint(classifier.history, now))
      ensures old(preloader.enabled) ==>
        preloader.recentQueries ==
          Preloader.Bounded(old(preloader.recentQueries) + [Preloader.QueryContext(now, Preloader.EstimateComplexity(content))])
      ensures !old(preloader.enabled) ==> preloader.recentQueries == old(preloader.recentQueries)
    {
      var category := ObserveQuery(content, now, hour);
      assert classifier.history[|classifier.history| - 1].category == category;
      RecordWithPreloader(content, now);
      var policy := Governor.ResolvePolicy(governor.rows, Some(userId));
      var contextWindowHint := QueryClassifier.ContextWindowHint(classifier.history, now);
      r := Plan(category, explicitTask, explicitQos, allowDefer, policy, stats, budgetStats, activeTier,
                contextWindowHint);
    }

    /** `maybe_preload_model`: gated by the predictive-preload feature. */
    method MaybePreloadModel(modelPath: string, profile: SystemProfile, stats: LiveSystemStats, now: nat)
      returns (triggered: bool)
      requires Valid()
      modifies preloader
      ensures Valid()
      ensures triggered ==> featureGates.predictivePreloadEnabled
      ensures !featureGates.predictivePreloadEnabled ==>
        preloader.job == old(preloader.job) && preloader.preloadScheduled == old(preloader.preloadScheduled)
      ensures var avg := Preloader.RecentAverage(old(preloader.recentQueries), now);
        var decision := Hardware.ShouldLoadModel(stats, 4096);
        triggered <==> (featureGates.predictivePreloadEnabled && old(preloader.enabled)
                         && !old(preloader.preloadScheduled) && avg >= 0.62
                         && (preloader.hasEmbedding || avg >= 0.75)
                         && (decision == Hardware.LoadNow || decision == Hardware.BackgroundOnly))
      ensures preloader.recentQueries == old(preloader.recentQueries)
    {
      if !featureGates.predictivePreloadEnabled {
        return false;
      }
      triggered := preloader.MaybePreload(modelPath, profile, stats, now);
    }

    /** `record_model_usage`: delegated to the learner. */
    method RecordModelUsage(modelName: string)
      requires Valid()
      modifies learner
      ensures Valid()
      ensures learner.modelUsageCounts ==
        old(learner.modelUsageCounts)[modelName :=
          UsageLearner.SatInc(UsageLearner.Get(old(learner.modelUsageCounts), modelName), UsageLearner.U64Max)]
    {
      learner.RecordModelUsage(modelName);
    }

    /**
     * `get_runtime_profile`: the stored policy (`scopedFailure` and
     * `globalFailure` are the outcomes of `get_policy`'s two queries), the
     * budget from the hardware sample `budgetStats` and the pressure from
     * the governor's own later sample `pressureStats`.
     */
    method GetRuntimeProfile(user: Option<string>, scopedFailure: Option<AppError>, globalFailure: Option<AppError>,
                             budgetStats: LiveSystemStats, pressureStats: LiveSystemStats)
      returns (r: Result<RuntimeProfileSnapshot>)
      ensures var read := Governor.PolicyRead(governor.rows, user, scopedFailure, globalFailure);
        && (read.Err? ==> r == Err(read.error))
        && (r.Ok? <==> read.Ok?)
        && (r.Ok? ==> r.value.policy == read.value)
      ensures r.Ok? ==> var snap := r.value;
        && snap.policy == Governor.ResolvePolicy(governor.rows, user)
        && snap.serviceBudget == ComputeBudget(snap.policy, budgetStats, activeTier)
        && snap.pressureLevel == PressureName(Governor.ClassifyPressure(pressureStats, snap.policy))
        && (snap.lowSafeStartup <==> LowSafeStartup(activeTier))
        && snap.detectedTier == Hardware.TierName(detectedTier) && snap.activeTier == Hardware.TierName(activeTier)
        && snap.featureGates == featureGates
    {
      var read := governor.GetPolicy(user, scopedFailure, globalFailure);
      if read.Err? {
        return Err(read.error);
      }
      var policy := read.value;
      var budget := ComputeBudget(policy, budgetStats, activeTier);
      var pressure := Governor.ClassifyPressure(pressureStats, policy);
      r := Ok(RuntimeProfileSnapshot(Hardware.TierName(detectedTier), Hardware.TierName(activeTier),
                                     activeTier == Hardware.Low || activeTier == Hardware.Minimal,
                                     PressureName(pressure), featureGates, budget, policy));
    }

    /** `get_service_health`. */
    method GetServiceHealth() returns (h: ServiceHealthSnapshot)
      requires Valid()
      ensures h.queryClassifierReady && h.usageLearnerReady
      ensures h.adaptiveMemoryEnabled == memory.enabled && h.predictivePreloadEnabled == preloader.enabled
      ensures h.recentQuerySamples == |preloader.recentQueries| <= 128
      ensures h.memoryManager == memory.Stats()
    {
      var samples := preloader.SampleCount();
      h := ServiceHealthSnapshot(true, true, memory.enabled, preloader.enabled, samples, memory.Stats());
    }

    /** `get_optimization_stats` at instant `now` and local hour `hour`. */
    method GetOptimizationStats(now: nat, hour: nat) returns (s: OptimizationStatsSnapshot)
      requires Valid()
      ensures s.learning.totalQueries == learner.totalQueries
      ensures s.memoryManager == memory.Stats()
      ensures "defer_background_jobs" in s.suggestedOptimizations <==> UsageLearner.IsPeakHour(learner.peakHours, hour)
      ensures "increase_context_window" in s.suggestedOptimizations <==> learner.avgQueryLength > 200.0
      ensures s.recommendedContextWindow == UsageLearner.ContextWindowFor(learner.avgQueryLength)
      ensures s.preferredModel == learner.preferredModel && s.fallbackModel == learner.fallbackModel
      ensures QueryClassifier.IsDistribution(s.classificationDistribution,
                                             QueryClassifier.Active(classifier.history, now, 900))
    {
      var learning := learner.LearningStatsNow();
      var suggested := learner.SuggestOptimizations(hour);
      var window := learner.OptimalContextWindow();
      var dist := classifier.DistributionSnapshot(now);
      s := OptimizationStatsSnapshot(learning, memory.Stats(), suggested, window,
                                     learner.preferredModel, learner.fallbackModel, dist);
    }
  }
}
