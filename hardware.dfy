/**
 * Hardware decisions: the device tier of a hardware profile, whether a model
 * may be loaded under the current load, the per-tier service configuration
 * with its multitasking downgrade, GPU layer offload, and the five-second
 * cache in front of the system statistics poll.
 */
module Hardware {
  import opened Common
  import opened Models

  /** Device tiers, from the most capable down (the derived `Ord` order). */
  datatype DeviceTier = Ultra | High | Medium | Low | Minimal | Potato

  /** Position in declaration order: Ultra is 0, Potato is 5. */
  function TierRank(t: DeviceTier): (r: nat)
    ensures r <= 5
  {
    match t
    case Ultra => 0
    case High => 1
    case Medium => 2
    case Low => 3
    case Minimal => 4
    case Potato => 5
  }

  function TierName(t: DeviceTier): string {
    match t
    case Ultra => "ultra"
    case High => "high"
    case Medium => "medium"
    case Low => "low"
    case Minimal => "minimal"
    case Potato => "potato"
  }

  lemma TierRankInjective(a: DeviceTier, b: DeviceTier)
    ensures TierRank(a) == TierRank(b) <==> a == b
  {
  }

  lemma TierNameInjective(a: DeviceTier, b: DeviceTier)
    ensures TierName(a) == TierName(b) <==> a == b
  {
  }

  // ---------------------------------------------------------------------
  // SystemProfile::classify
  // ---------------------------------------------------------------------

  /**
   * The VRAM figure `classify` uses: the reported VRAM (0 when unknown),
   * replaced by half the system RAM on unified-memory backends ("metal", or
   * "cuda" reporting no VRAM).
   */
  function EffectiveVram(p: SystemProfile): (v: int)
    ensures var reported := if p.gpuVramMb.Some? then p.gpuVramMb.value else 0;
      (p.gpuBackend == Some("metal") || (p.gpuBackend == Some("cuda") && reported == 0)) ==>
        v == TruncDiv(p.totalRamMb, 2)
    ensures var reported := if p.gpuVramMb.Some? then p.gpuVramMb.value else 0;
      !(p.gpuBackend == Some("metal") || (p.gpuBackend == Some("cuda") && reported == 0)) ==>
        v == reported
  {
    var vram := if p.gpuVramMb.Some? then p.gpuVramMb.value else 0;
    if p.gpuBackend.Some? && (p.gpuBackend.value == "metal" || (p.gpuBackend.value == "cuda" && vram == 0))
    then TruncDiv(p.totalRamMb, 2)
    else vram
  }

  function AvxBonus(p: SystemProfile): real {
    if p.supportsAvx512 > 0 then 1.2 else if p.supportsAvx2 > 0 then 1.05 else 1.0
  }

  /** The weighted hardware score in [0, 100] on sane inputs. */
  function HardwareScore(p: SystemProfile): (total: real)
    ensures p.totalRamMb >= 0 && p.cpuThreads >= 0 && EffectiveVram(p) >= 0 ==> 0.0 <= total <= 100.0
  {
    var ramScore := MinR(p.totalRamMb as real / 64000.0, 1.0);
    var cpuScore := MinR(MinR(p.cpuThreads as real / 16.0, 1.0) * AvxBonus(p), 1.0);
    var gpuScore := MinR(EffectiveVram(p) as real / 16384.0, 1.0);
    (ramScore * 0.35 + cpuScore * 0.25 + gpuScore * 0.40) * 100.0
  }

  /** Whole GiB of RAM, truncating. */
  function AbsRamGb(p: SystemProfile): int { TruncDiv(p.totalRamMb, 1024) }

  predicate UltraGate(p: SystemProfile) {
    HardwareScore(p) >= 80.0 && AbsRamGb(p) >= 60 && EffectiveVram(p) >= 15000
  }
  predicate HighGate(p: SystemProfile) {
    HardwareScore(p) >= 55.0 && AbsRamGb(p) >= 30 && EffectiveVram(p) >= 7000
  }
  predicate MediumGate(p: SystemProfile) {
    HardwareScore(p) >= 30.0 && AbsRamGb(p) >= 14 && EffectiveVram(p) >= 3000
  }

  /** The RAM-only fallback below the three scored tiers. */
  function RamOnlyTier(ramGb: int): (t: DeviceTier)
    ensures t == Low <==> ramGb >= 7
    ensures t == Minimal <==> 3 <= ramGb < 7
    ensures t == Potato <==> ramGb < 3
  {
    if ramGb >= 7 then Low else if ramGb >= 3 then Minimal else Potato
  }

  /** `SystemProfile::classify`. */
  function Classify(p: SystemProfile): (t: DeviceTier)
    ensures t == Ultra <==> UltraGate(p)
    ensures t == High <==> !UltraGate(p) && HighGate(p)
    ensures t == Medium <==> !UltraGate(p) && !HighGate(p) && MediumGate(p)
    ensures !UltraGate(p) && !HighGate(p) && !MediumGate(p) ==> t == RamOnlyTier(AbsRamGb(p))
  {
    if UltraGate(p) then Ultra
    else if HighGate(p) then High
    else if MediumGate(p) then Medium
    else RamOnlyTier(AbsRamGb(p))
  }

  /** Below 14 GiB none of the scored tiers is reachable: RAM alone decides. */
  lemma SmallRamDecidesAlone(p: SystemProfile)
    requires AbsRamGb(p) < 14
    ensures Classify(p) == RamOnlyTier(AbsRamGb(p))
    ensures Classify(p) in {Low, Minimal, Potato}
  {
  }

  /** A 4096 MB machine without VRAM on the CPU backend is Minimal, not Potato. */
  lemma FourGigabyteCpuMachineIsMinimal(p: SystemProfile)
    requires p.totalRamMb == 4096 && p.gpuVramMb.None? && p.gpuBackend == Some("cpu")
    ensures AbsRamGb(p) == 4
    ensures Classify(p) == Minimal
  {
    SmallRamDecidesAlone(p);
  }

  /** A metal machine's VRAM is half its RAM whatever VRAM it reports. */
  lemma MetalUsesHalfRam(p: SystemProfile)
    requires p.gpuBackend == Some("metal")
    ensures EffectiveVram(p) == TruncDiv(p.totalRamMb, 2)
  {
  }

  // ---------------------------------------------------------------------
  // Load decisions
  // ---------------------------------------------------------------------

  datatype LoadDecision = LoadNow | BackgroundOnly | Defer | Skip

  /** Headroom kept free: a quarter of total memory, at least 2048 MB. */
  function Headroom(stats: LiveSystemStats): (h: real)
    ensures h >= 2048.0 && h >= stats.memoryTotalMb as real * 0.25
  {
    MaxR(stats.memoryTotalMb as real * 0.25, 2048.0)
  }

  /**
   * `can_load_model`: always true with an unknown total, otherwise the free
   * memory must exceed the requirement plus the headroom.
   */
  function CanLoadModel(stats: LiveSystemStats, requiredRamMb: int): (ok: bool)
    ensures stats.memoryTotalMb == 0 ==> ok
    ensures stats.memoryTotalMb > 0 ==>
      (ok <==> (stats.memoryTotalMb - stats.memoryUsedMb) as real > requiredRamMb as real + Headroom(stats))
  {
    if stats.memoryTotalMb == 0 then true
    else (stats.memoryTotalMb - stats.memoryUsedMb) as real > requiredRamMb as real + Headroom(stats)
  }

  /** Used memory as a fraction of the total; 0 when the total is unknown. */
  function MemoryFraction(stats: LiveSystemStats): (f: real)
    ensures stats.memoryTotalMb == 0 ==> f == 0.0
    ensures f >= 0.0
  {
    if stats.memoryTotalMb > 0 then stats.memoryUsedMb as real / stats.memoryTotalMb as real else 0.0
  }

  /** `should_load_model`: defer above 90%, background only above 70/75%, else by free memory. */
  function ShouldLoadModel(stats: LiveSystemStats, modelSizeMb: int): (d: LoadDecision)
    ensures d == Defer <==> stats.cpuUsagePct >= 90.0 || MemoryFraction(stats) >= 0.90
    ensures d == BackgroundOnly <==>
      !(stats.cpuUsagePct >= 90.0 || MemoryFraction(stats) >= 0.90)
      && (stats.cpuUsagePct >= 70.0 || MemoryFraction(stats) >= 0.75)
    ensures d == LoadNow <==>
      stats.cpuUsagePct < 70.0 && MemoryFraction(stats) < 0.75 && CanLoadModel(stats, modelSizeMb)
    ensures d == Skip <==>
      stats.cpuUsagePct < 70.0 && MemoryFraction(stats) < 0.75 && !CanLoadModel(stats, modelSizeMb)
  {
    var memoryPct := MemoryFraction(stats);
    if stats.cpuUsagePct >= 90.0 || memoryPct >= 0.90 then Defer
    else if stats.cpuUsagePct >= 70.0 || memoryPct >= 0.75 then BackgroundOnly
    else if CanLoadModel(stats, modelSizeMb) then LoadNow
    else Skip
  }

  /** From 75% memory the answer is BackgroundOnly until 90%. */
  lemma BackgroundOnlyFromSeventyFivePercent(stats: LiveSystemStats, size: int)
    requires stats.cpuUsagePct < 70.0
    requires 0.75 <= MemoryFraction(stats) < 0.90
    ensures ShouldLoadModel(stats, size) == BackgroundOnly
  {
  }

  /** An idle machine whose total memory is unknown always loads. */
  lemma UnknownTotalLoadsWhenIdle(stats: LiveSystemStats, size: int)
    requires stats.memoryTotalMb == 0 && stats.cpuUsagePct < 70.0
    ensures ShouldLoadModel(stats, size) == LoadNow
  {
  }

  /** Asking for more memory never turns a Skip into a LoadNow. */
  lemma LoadDecisionMonotoneInSize(stats: LiveSystemStats, s1: int, s2: int)
    requires s1 <= s2
    ensures ShouldLoadModel(stats, s2) == LoadNow ==> ShouldLoadModel(stats, s1) == LoadNow
  {
  }

  // ---------------------------------------------------------------------
  // Performance mode and tier configuration
  // ---------------------------------------------------------------------

  datatype PerformanceMode = Max | Balanced | Multitasking

  /**
   * `get_performance_mode`; `setting` is the stored `app_performance.mode`
   * value, None when the row is missing or the lookup failed.
   */
  function PerformanceModeOf(setting: Option<string>): (m: PerformanceMode)
    ensures m == Max <==> setting == Some("max")
    ensures m == Multitasking <==> setting == Some("multitasking")
    ensures m == Balanced <==> setting != Some("max") && setting != Some("multitasking")
  {
    match setting
    case Some(v) => if v == "max" then Max else if v == "multitasking" then Multitasking else Balanced
    case None => Balanced
  }

  datatype TierConfig = TierConfig(
    embeddingModel: Option<string>,
    rerankerModel: Option<string>,
    maxContext: nat,
    embedCacheCapacity: nat,
    sessionCacheCapacity: nat,
    settingsCacheCapacity: nat,
    backgroundTasksEnabled: bool,
    autoLoadModel: bool)

  /** The per-tier table of `get_tier_config`. */
  function BaseTierConfig(t: DeviceTier): (c: TierConfig)
    ensures c.embeddingModel.Some? <==> TierRank(t) <= TierRank(Low)
    ensures c.embeddingModel.Some? <==> c.rerankerModel.Some?
    ensures c.autoLoadModel <==> TierRank(t) <= TierRank(Medium)
    ensures c.backgroundTasksEnabled <==> TierRank(t) <= TierRank(Low)
  {
    match t
    case Ultra => TierConfig(Some("bge-small-en-v1.5"), Some("bge-reranker-base"), 16384, 100000, 8192, 1024, true, true)
    case High => TierConfig(Some("bge-small-en-v1.5"), Some("bge-reranker-base"), 8192, 50000, 4096, 512, true, true)
    case Medium => TierConfig(Some("bge-small-en-v1.5"), Some("bge-reranker-base"), 4096, 25000, 2048, 256, true, true)
    case Low => TierConfig(Some("bge-small-en-v1.5"), Some("bge-reranker-base"), 2048, 10000, 512, 128, true, false)
    case Minimal => TierConfig(None, None, 1024, 1000, 128, 32, false, false)
    case Potato => TierConfig(None, None, 512, 100, 32, 16, false, false)
  }

  /** The base context strictly shrinks from Ultra down to Potato. */
  lemma BaseMaxContextStrictlyDecreasing(a: DeviceTier, b: DeviceTier)
    requires TierRank(a) < TierRank(b)
    ensures BaseTierConfig(a).maxContext > BaseTierConfig(b).maxContext
  {
  }

  /** The multitasking downgrade: two steps down, never below Potato. */
  function MultitaskingTier(t: DeviceTier): (e: DeviceTier)
    ensures e in {Low, Minimal, Potato}
    ensures TierRank(e) >= TierRank(t)
  {
    match t
    case Ultra => Low
    case High => Low
    case Medium => Minimal
    case Low => Minimal
    case Minimal => Potato
    case Potato => Potato
  }

  function EffectiveTier(t: DeviceTier, mode: PerformanceMode): DeviceTier {
    if mode == Multitasking then MultitaskingTier(t) else t
  }

  /** The configuration `get_tier_config` returns, as a value. */
  function TierConfigFor(t: DeviceTier, mode: PerformanceMode): (c: TierConfig)
    ensures mode != Multitasking ==> c == BaseTierConfig(t)
    ensures mode == Multitasking ==>
      && c.maxContext <= 1024 && !c.autoLoadModel && !c.backgroundTasksEnabled
      && c.embeddingModel == BaseTierConfig(MultitaskingTier(t)).embeddingModel
      && c.embedCacheCapacity == BaseTierConfig(MultitaskingTier(t)).embedCacheCapacity / 10
      && c.sessionCacheCapacity == BaseTierConfig(MultitaskingTier(t)).sessionCacheCapacity / 4
  {
    var base := BaseTierConfig(EffectiveTier(t, mode));
    if mode == Multitasking then
      base.(autoLoadModel := false, backgroundTasksEnabled := false,
            maxContext := Min(base.maxContext, 1024),
            embedCacheCapacity := base.embedCacheCapacity / 10,
            sessionCacheCapacity := base.sessionCacheCapacity / 4)
    else base
  }

  /**
   * `get_tier_config`: picks the table row of the effective tier and, in
   * multitasking mode, overwrites the fields one at a time.
   */
  method GetTierConfig(t: DeviceTier, setting: Option<string>) returns (config: TierConfig)
    ensures config == TierConfigFor(t, PerformanceModeOf(setting))
    ensures PerformanceModeOf(setting) == Multitasking ==>
      !config.autoLoadModel && !config.backgroundTasksEnabled && config.maxContext <= 1024
  {
    var mode := PerformanceModeOf(setting);
    var effective := if mode == Multitasking then MultitaskingTier(t) else t;
    config := BaseTierConfig(effective);
    if mode == Multitasking {
      config := config.(autoLoadModel := false);
      config := config.(backgroundTasksEnabled := false);
      config := config.(maxContext := Min(config.maxContext, 1024));
      config := config.(embedCacheCapacity := config.embedCacheCapacity / 10);
      config := config.(sessionCacheCapacity := config.sessionCacheCapacity / 4);
    }
  }

  /** No tier at or below Low auto-loads a model, in any mode. */
  lemma NoAutoLoadFromLow(t: DeviceTier, mode: PerformanceMode)
    requires TierRank(t) >= TierRank(Low)
    ensures !TierConfigFor(t, mode).autoLoadModel
  {
  }

  // ---------------------------------------------------------------------
  // GPU layers
  // ---------------------------------------------------------------------

  const I32Max: int := 0x7fff_ffff

  /**
   * `suggest_n_gpu_layers`: 0 without VRAM, -1 (all layers) when the model
   * fits with 10% spare, otherwise how many 1/32 slices (at least 0.05 GB)
   * fit, saturated to the `i32` range by the float-to-int cast.
   */
  function SuggestNGpuLayers(p: SystemProfile, modelSizeGb: real): (layers: int)
    ensures var vramGb := (if p.gpuVramMb.Some? then p.gpuVramMb.value else 0) as real / 1024.0;
      && (vramGb <= 0.0 ==> layers == 0)
      && (layers == -1 <==> vramGb > 0.0 && vramGb > modelSizeGb * 1.1)
      && -1 <= layers <= I32Max
  {
    var vramGb := (if p.gpuVramMb.Some? then p.gpuVramMb.value else 0) as real / 1024.0;
    if vramGb <= 0.0 then 0
    else if vramGb > modelSizeGb * 1.1 then -1
    else
      var perLayer := MaxR(modelSizeGb / 32.0, 0.05);
      Min((vramGb / perLayer).Floor, I32Max)
  }

  // ---------------------------------------------------------------------
  // live_stats cache
  // ---------------------------------------------------------------------

  /** One raw system poll: CPU load, total and available memory in MB, process count. */
  datatype SystemSample = SystemSample(cpuUsagePct: real, totalMb: nat, availableMb: nat, processCount: nat)

  /** The statistics built from a poll; used memory saturates at zero. */
  function StatsOfSample(s: SystemSample): (stats: LiveSystemStats)
    ensures stats.memoryUsedMb <= stats.memoryTotalMb == s.totalMb
    ensures s.availableMb <= s.totalMb ==> stats.memoryUsedMb + s.availableMb == s.totalMb
    ensures stats.gpuName.None? && stats.gpuUsagePct.None?
  {
    LiveSystemStats(s.cpuUsagePct, SatSub(s.totalMb, s.availableMb), s.totalMb, s.processCount, None, None)
  }

  /**
   * Whether a poll at `now` may answer from the cache. The `u64`
   * subtraction `now - last` wraps when the clock went backwards, which
   * forces a fresh poll.
   */
  predicate CacheFresh(now: nat, lastCheck: nat) { now >= lastCheck && now - lastCheck < 5 }

  class HardwareMonitor {
    var lastStats: LiveSystemStats
    var lastCheck: nat

    /** Cached statistics never report more used than total memory. */
    predicate Valid()
      reads this
    {
      lastStats.memoryUsedMb <= lastStats.memoryTotalMb
    }

    constructor ()
      ensures Valid()
      ensures lastStats == DefaultLiveStats() && lastCheck == 0
    {
      lastStats := DefaultLiveStats();
      lastCheck := 0;
    }

    /**
     * `live_stats`: the cached snapshot within five seconds of the last
     * poll, otherwise the new `sample`, which then becomes the cache.
     */
    method LiveStats(now: nat, sample: SystemSample) returns (stats: LiveSystemStats)
      requires Valid()
      modifies this
      ensures Valid()
      ensures stats.memoryUsedMb <= stats.memoryTotalMb
      ensures CacheFresh(now, old(lastCheck)) ==>
        stats == old(lastStats) && lastStats == old(lastStats) && lastCheck == old(lastCheck)
      ensures !CacheFresh(now, old(lastCheck)) ==>
        stats == StatsOfSample(sample) && lastStats == stats && lastCheck == now
    {
      if now >= lastCheck && now - lastCheck < 5 {
        stats := lastStats;
        return;
      }
      stats := StatsOfSample(sample);
      lastStats := stats;
      lastCheck := now;
    }
  }
}
