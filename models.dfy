/**
 * The persisted and exchanged records of the runtime core: hardware
 * profile, model rows, chat messages, MCP rows, the runtime policy with its
 * patch, generation options, live system statistics and the routing
 * decision. Only the fields the modelled logic reads are kept. Floating
 * point fields are exact reals; SQLite integer flags (`is_downloaded` and
 * the like) stay integers compared with 1, as in the source.
 */
module Models {
  import opened Common

  datatype SystemProfile = SystemProfile(
    id: string,
    cpuThreads: int,
    totalRamMb: int,
    gpuVramMb: Option<int>,
    gpuBackend: Option<string>,
    supportsAvx2: int,
    supportsAvx512: int)

  datatype Model = Model(
    id: string,
    name: string,
    displayName: string,
    family: string,
    parameterCount: Option<string>,
    filePath: Option<string>,
    fileSizeMb: Option<int>,
    contextLength: int,
    minRamMb: int,
    recommendedRamMb: int,
    minVramMb: int,
    performanceTier: string,
    isDownloaded: int,
    isActive: int,
    isDefault: int,
    downloadUrl: Option<string>,
    avgTokensPerSec: Option<real>)

  predicate IsDefault(m: Model) { m.isDefault == 1 }
  predicate IsDownloaded(m: Model) { m.isDownloaded == 1 }

  datatype Message = Message(
    id: string,
    sessionId: string,
    role: string,
    content: string,
    tokenCount: Option<int>,
    position: int)

  datatype Mcp = Mcp(
    id: string,
    name: string,
    displayName: string,
    category: string,
    mcpType: string,
    command: Option<string>,
    isInstalled: int,
    isActive: int,
    isBuiltin: int)

  datatype SetupState = SetupState(
    status: string,
    currentStage: string,
    progressPct: real,
    selectedBundle: Option<string>,
    hardwareProfileId: Option<string>,
    lastError: Option<string>,
    metadata: string)

  datatype RuntimePolicy = RuntimePolicy(
    pressureCpuPct: real,
    pressureMemoryPct: real,
    interactiveMaxTokens: nat,
    backgroundMaxTokens: nat,
    interactiveMaxConcurrency: nat,
    backgroundMaxConcurrency: nat,
    retrievalCandidateLimit: nat,
    deferBackgroundUnderPressure: bool)

  /** `impl Default for RuntimePolicy`. */
  function DefaultPolicy(): RuntimePolicy
  {
    RuntimePolicy(82.0, 85.0, 640, 256, 1, 1, 36, true)
  }

  datatype RuntimePolicyPatch = RuntimePolicyPatch(
    pressureCpuPct: Option<real>,
    pressureMemoryPct: Option<real>,
    interactiveMaxTokens: Option<nat>,
    backgroundMaxTokens: Option<nat>,
    interactiveMaxConcurrency: Option<nat>,
    backgroundMaxConcurrency: Option<nat>,
    retrievalCandidateLimit: Option<nat>,
    deferBackgroundUnderPressure: Option<bool>)

  /** `#[derive(Default)]` on the patch: every field absent. */
  function DefaultPatch(): RuntimePolicyPatch
  {
    RuntimePolicyPatch(None, None, None, None, None, None, None, None)
  }

  datatype GenerationOptions = GenerationOptions(temperature: real, topP: real, maxTokens: nat)

  /** `impl Default for GenerationOptions`. */
  function DefaultGenerationOptions(): GenerationOptions
  {
    GenerationOptions(0.2, 0.95, 512)
  }

  datatype LiveSystemStats = LiveSystemStats(
    cpuUsagePct: real,
    memoryUsedMb: nat,
    memoryTotalMb: nat,
    processCount: nat,
    gpuName: Option<string>,
    gpuUsagePct: Option<real>)

  /** `#[derive(Default)]` on the statistics: all zero, no GPU. */
  function DefaultLiveStats(): LiveSystemStats
  {
    LiveSystemStats(0.0, 0, 0, 0, None, None)
  }

  datatype RoutingDecision = RoutingDecision(
    taskType: string,
    qos: string,
    selectedModelId: Option<string>,
    selectedModelName: Option<string>,
    maxTokens: nat,
    pressureLevel: string,
    reason: string,
    fallbackChain: seq<string>)

  datatype McpHealthStatus = McpHealthStatus(mcpId: string, healthStatus: string, lastError: Option<string>)

  /** Pressure levels produced by the governor, with their wire names. */
  datatype Pressure = NormalPressure | WarmPressure | HighPressure | CriticalPressure

  function PressureName(p: Pressure): (s: string)
    ensures p == NormalPressure <==> s == "normal"
    ensures p == WarmPressure <==> s == "warm"
    ensures p == HighPressure <==> s == "high"
    ensures p == CriticalPressure <==> s == "critical"
  {
    match p
    case NormalPressure => "normal"
    case WarmPressure => "warm"
    case HighPressure => "high"
    case CriticalPressure => "critical"
  }

  /** Severity rank used to state monotonicity in pressure. */
  function PressureRank(p: Pressure): nat {
    match p
    case NormalPressure => 0
    case WarmPressure => 1
    case HighPressure => 2
    case CriticalPressure => 3
  }

  /** Whether a stored message list is ordered by ascending position. */
  predicate AscendingPositions(ms: seq<Message>) {
    forall i, j :: 0 <= i < j < |ms| ==> ms[i].position < ms[j].position
  }
}
