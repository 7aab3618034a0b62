/**
 * The decisions `AppState::initialize` takes once at startup: the tier the
 * app starts in, the tier configuration it uses, which optional services
 * it creates and the feature gates it hands to the runtime orchestrator.
 */
module AppState {
  import opened Common
  import Hardware
  import Orchestrator
  import Background

  /**
   * The startup tier: every machine good enough for Low starts as Low;
   * Minimal and Potato machines start as Minimal.
   */
  function StartupTier(detected: Hardware.DeviceTier): (t: Hardware.DeviceTier)
    ensures t == Hardware.Low || t == Hardware.Minimal
    ensures t == Hardware.Minimal <==> Hardware.TierRank(detected) >= Hardware.TierRank(Hardware.Minimal)
    ensures Hardware.TierRank(t) <= Hardware.TierRank(Hardware.Minimal)
  {
    match detected
    case Ultra => Hardware.Low
    case High => Hardware.Low
    case Medium => Hardware.Low
    case Low => Hardware.Low
    case Minimal => Hardware.Minimal
    case Potato => Hardware.Minimal
  }

  /** The startup tier configuration, with background tasks switched off. */
  function StartupConfig(startup: Hardware.DeviceTier, modeSetting: Option<string>): (c: Hardware.TierConfig)
    ensures !c.backgroundTasksEnabled
    ensures c == Hardware.TierConfigFor(startup, Hardware.PerformanceModeOf(modeSetting)).(backgroundTasksEnabled := false)
  {
    Hardware.TierConfigFor(startup, Hardware.PerformanceModeOf(modeSetting)).(backgroundTasksEnabled := false)
  }

  /**
   * What initialisation created.  `embeddingCreated`/`rerankerCreated`
   * stand for the optional services; the engines behind them are not
   * part of this model, so whether their constructors succeed is an input.
   */
  datatype Startup = Startup(
    detectedTier: Hardware.DeviceTier,
    startupTier: Hardware.DeviceTier,
    config: Hardware.TierConfig,
    embeddingCreated: bool,
    rerankerCreated: bool,
    ragCreated: bool,
    modelManagerCreated: bool,
    backgroundEnabled: bool,
    gates: Orchestrator.FeatureGate)

  /**
   * `initialize`, reduced to its decisions.  `modeSetting` is the stored
   * performance mode; `embeddingOk`/`rerankerOk` say whether the service
   * constructors would succeed when asked.
   */
  function Initialize(detected: Hardware.DeviceTier, modeSetting: Option<string>,
                      embeddingOk: bool, rerankerOk: bool): (s: Startup)
    ensures s.startupTier == StartupTier(detected) && s.detectedTier == detected
    ensures s.embeddingCreated <==> s.config.embeddingModel.Some? && embeddingOk
    ensures s.rerankerCreated <==> s.config.rerankerModel.Some? && rerankerOk
    ensures s.ragCreated <==> s.embeddingCreated && s.rerankerCreated
    ensures s.modelManagerCreated <==> s.config.autoLoadModel && s.embeddingCreated && s.rerankerCreated
    ensures !s.backgroundEnabled && !s.gates.backgroundTasksEnabled
    ensures s.gates.ragEnabled == s.ragCreated
    ensures s.gates.predictivePreloadEnabled <==> s.startupTier != Hardware.Minimal
    ensures s.gates.mcpEnabled && s.gates.spotifyEnabled && s.gates.adaptiveMemoryEnabled
  {
    var startup := StartupTier(detected);
    var config := StartupConfig(startup, modeSetting);
    var embedding := config.embeddingModel.Some? && embeddingOk;
    var reranker := config.rerankerModel.Some? && rerankerOk;
    var rag := embedding && reranker;
    var gates := Orchestrator.FeatureGate(rag, true, true, config.backgroundTasksEnabled,
                                          startup != Hardware.Minimal, true);
    Startup(detected, startup, config, embedding, reranker, rag,
            config.autoLoadModel && embedding && reranker, config.backgroundTasksEnabled, gates)
  }

  /**
   * The model manager is never created: neither startup tier auto-loads a
   * model, whatever the performance mode.
   */
  lemma ModelManagerNeverCreated(detected: Hardware.DeviceTier, modeSetting: Option<string>,
                                 embeddingOk: bool, rerankerOk: bool)
    ensures !Initialize(detected, modeSetting, embeddingOk, rerankerOk).modelManagerCreated
  {
    Hardware.NoAutoLoadFromLow(StartupTier(detected), Hardware.PerformanceModeOf(modeSetting));
  }

  /** A Minimal or Potato machine starts without embeddings, reranking, RAG or preloading. */
  lemma SmallMachinesStartLean(detected: Hardware.DeviceTier, modeSetting: Option<string>,
                               embeddingOk: bool, rerankerOk: bool)
    requires Hardware.TierRank(detected) >= Hardware.TierRank(Hardware.Minimal)
    ensures var s := Initialize(detected, modeSetting, embeddingOk, rerankerOk);
      !s.embeddingCreated && !s.rerankerCreated && !s.ragCreated && !s.gates.predictivePreloadEnabled
  {
  }

  /**
   * A machine good enough for Low, outside multitasking mode, gets RAG
   * exactly when both optional services could be created.
   */
  lemma CapableMachinesGetRag(detected: Hardware.DeviceTier, modeSetting: Option<string>,
                              embeddingOk: bool, rerankerOk: bool)
    requires Hardware.TierRank(detected) <= Hardware.TierRank(Hardware.Low)
    requires Hardware.PerformanceModeOf(modeSetting) != Hardware.Multitasking
    ensures Initialize(detected, modeSetting, embeddingOk, rerankerOk).ragCreated <==> embeddingOk && rerankerOk
  {
  }

  /** In multitasking mode the startup tier drops to Minimal or Potato, so there is no RAG either. */
  lemma MultitaskingStartsWithoutRag(detected: Hardware.DeviceTier, modeSetting: Option<string>,
                                     embeddingOk: bool, rerankerOk: bool)
    requires Hardware.PerformanceModeOf(modeSetting) == Hardware.Multitasking
    ensures !Initialize(detected, modeSetting, embeddingOk, rerankerOk).ragCreated
  {
  }

  /** Because background tasks start disabled, only the MCP health check job runs after startup. */
  lemma OnlyHealthCheckRunsAtStartup(detected: Hardware.DeviceTier, modeSetting: Option<string>,
                                     embeddingOk: bool, rerankerOk: bool)
    ensures Background.StartedJobs(Initialize(detected, modeSetting, embeddingOk, rerankerOk).backgroundEnabled)
            == {"mcp_health"}
  {
  }
}
