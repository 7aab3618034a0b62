/**
 * The runtime governor: classifies system pressure from live statistics and
 * the runtime policy, scales the token budget of one generation, clamps
 * policy patches into their allowed ranges, and resolves the stored policy
 * (user row, then global row, then the compiled default).
 */
module Governor {
  import opened Common
  import opened Models
  import opened Errors

  // ---------------------------------------------------------------------
  // Pressure classification
  // ---------------------------------------------------------------------

  /** Memory in use as a percentage; 0 when the total is unknown (0). */
  function MemoryPct(stats: LiveSystemStats): (pct: real)
    ensures stats.memoryTotalMb == 0 ==> pct == 0.0
    ensures pct >= 0.0
    ensures stats.memoryUsedMb <= stats.memoryTotalMb ==> pct <= 100.0
  {
    if stats.memoryTotalMb == 0 then 0.0
    else (stats.memoryUsedMb as real / stats.memoryTotalMb as real) * 100.0
  }

  predicate CriticalLoad(cpu: real, mem: real) { cpu >= 95.0 || mem >= 93.0 }
  predicate PolicyLoad(cpu: real, mem: real, policy: RuntimePolicy) {
    cpu >= policy.pressureCpuPct || mem >= policy.pressureMemoryPct
  }
  predicate WarmLoad(cpu: real, mem: real) { cpu >= 70.0 || mem >= 75.0 }

  /**
   * `classify_pressure`: the first level, from critical down, whose
   * threshold the CPU or the memory percentage reaches.
   */
  function ClassifyPressure(stats: LiveSystemStats, policy: RuntimePolicy): (p: Pressure)
    ensures var cpu, mem := stats.cpuUsagePct, MemoryPct(stats);
      && (p == CriticalPressure <==> CriticalLoad(cpu, mem))
      && (p == HighPressure <==> !CriticalLoad(cpu, mem) && PolicyLoad(cpu, mem, policy))
      && (p == WarmPressure <==> !CriticalLoad(cpu, mem) && !PolicyLoad(cpu, mem, policy) && WarmLoad(cpu, mem))
      && (p == NormalPressure <==> !CriticalLoad(cpu, mem) && !PolicyLoad(cpu, mem, policy) && !WarmLoad(cpu, mem))
  {
    var mem := MemoryPct(stats);
    var cpu := stats.cpuUsagePct;
    if cpu >= 95.0 || mem >= 93.0 then CriticalPressure
    else if cpu >= policy.pressureCpuPct || mem >= policy.pressureMemoryPct then HighPressure
    else if cpu >= 70.0 || mem >= 75.0 then WarmPressure
    else NormalPressure
  }

  /** The fixed critical thresholds win over any policy. */
  lemma CriticalWhateverThePolicy(stats: LiveSystemStats, p1: RuntimePolicy, p2: RuntimePolicy)
    requires stats.cpuUsagePct >= 95.0 || MemoryPct(stats) >= 93.0
    ensures ClassifyPressure(stats, p1) == ClassifyPressure(stats, p2) == CriticalPressure
  {
  }

  /** With an unknown memory total only the CPU figure decides the level. */
  lemma ZeroTotalMemoryCpuDecides(s1: LiveSystemStats, s2: LiveSystemStats, policy: RuntimePolicy)
    requires s1.memoryTotalMb == 0 && s2.memoryTotalMb == 0
    requires s1.cpuUsagePct == s2.cpuUsagePct
    ensures ClassifyPressure(s1, policy) == ClassifyPressure(s2, policy)
  {
  }

  /** More CPU and memory load never lowers the pressure level. */
  lemma ClassifyMonotone(s1: LiveSystemStats, s2: LiveSystemStats, policy: RuntimePolicy)
    requires s1.cpuUsagePct <= s2.cpuUsagePct && MemoryPct(s1) <= MemoryPct(s2)
    ensures PressureRank(ClassifyPressure(s1, policy)) <= PressureRank(ClassifyPressure(s2, policy))
  {
  }

  /** The all-zero default statistics read as normal pressure. */
  lemma DefaultStatsAreNormal(policy: RuntimePolicy)
    requires policy.pressureCpuPct > 0.0 && policy.pressureMemoryPct > 0.0
    ensures ClassifyPressure(DefaultLiveStats(), policy) == NormalPressure
    ensures ClassifyPressure(DefaultLiveStats(), DefaultPolicy()) == NormalPressure
  {
  }

  // ---------------------------------------------------------------------
  // Generation tuning
  // ---------------------------------------------------------------------

  function QosFactor(qos: string): real {
    if qos == "fast" then 0.72 else if qos == "max_quality" then 1.20 else 1.0
  }

  /** `tune_generation`'s pressure factors (0.40 / 0.60 / 0.85 / 1.0). */
  function TunePressureFactor(p: Pressure): (f: real)
    ensures 0.0 < f <= 1.0
  {
    match p
    case CriticalPressure => 0.40
    case HighPressure => 0.60
    case WarmPressure => 0.85
    case NormalPressure => 1.0
  }

  function LaneCap(policy: RuntimePolicy, isBackground: bool): nat {
    if isBackground then policy.backgroundMaxTokens else policy.interactiveMaxTokens
  }

  /** The scaled budget before the floor of 96: round(lane * qos * pressure). */
  function TuneBudget(policy: RuntimePolicy, qos: string, pressure: Pressure, isBackground: bool): int {
    Round(LaneCap(policy, isBackground) as real * QosFactor(qos) * TunePressureFactor(pressure))
  }

  /**
   * `tune_generation`: caps `max_tokens` by the lane cap and by the scaled
   * budget (never below 96), sets temperature 0.1 for qos "fast" and keeps
   * `top_p`.
   */
  function TuneGeneration(base: GenerationOptions, policy: RuntimePolicy, qos: string,
                          pressure: Pressure, isBackground: bool): (r: GenerationOptions)
    ensures r.maxTokens <= base.maxTokens && r.maxTokens <= LaneCap(policy, isBackground)
    ensures r.maxTokens >= Min(Min(base.maxTokens, LaneCap(policy, isBackground)), 96)
    ensures r.maxTokens <= Max(TuneBudget(policy, qos, pressure, isBackground), 96)
    ensures r.topP == base.topP
    ensures qos == "fast" ==> r.temperature == 0.1
    ensures qos != "fast" ==> r.temperature == base.temperature
  {
    var lane := LaneCap(policy, isBackground);
    var budget := TuneBudget(policy, qos, pressure, isBackground);
    var cap := Max(budget, 96);
    var maxTokens := Min(Min(base.maxTokens, lane), cap);
    GenerationOptions(if qos == "fast" then 0.1 else base.temperature, base.topP, maxTokens)
  }

  /** The tuned budget never grows as pressure rises. */
  lemma TuneBudgetMonotone(policy: RuntimePolicy, qos: string, p1: Pressure, p2: Pressure, isBackground: bool)
    requires PressureRank(p1) <= PressureRank(p2)
    ensures TuneBudget(policy, qos, p2, isBackground) <= TuneBudget(policy, qos, p1, isBackground)
  {
    var lane := LaneCap(policy, isBackground) as real;
    var q := QosFactor(qos);
    MulNonneg(lane, q);
    TunePressureFactorAntitone(p1, p2);
    ScaledRoundMonotone(lane * q, TunePressureFactor(p2), TunePressureFactor(p1));
  }

  /** A higher pressure never has a larger tuning factor. */
  lemma TunePressureFactorAntitone(p1: Pressure, p2: Pressure)
    requires PressureRank(p1) <= PressureRank(p2)
    ensures TunePressureFactor(p2) <= TunePressureFactor(p1)
  {
  }

  /** Scaling a non-negative amount by a smaller factor never rounds higher. */
  lemma ScaledRoundMonotone(a: real, f2: real, f1: real)
    requires a >= 0.0 && f2 <= f1
    ensures Round(a * f2) <= Round(a * f1)
  {
    MulLeft(a, f2, f1);
    RoundMonotone(a * f2, a * f1);
  }

  /** Tuned `max_tokens` never grows as pressure rises. */
  lemma TuneMonotoneInPressure(base: GenerationOptions, policy: RuntimePolicy, qos: string,
                               p1: Pressure, p2: Pressure, isBackground: bool)
    requires PressureRank(p1) <= PressureRank(p2)
    ensures TuneGeneration(base, policy, qos, p2, isBackground).maxTokens
         <= TuneGeneration(base, policy, qos, p1, isBackground).maxTokens
  {
    TuneBudgetMonotone(policy, qos, p1, p2, isBackground);
  }

  /** Default policy, base 512, qos fast, critical: round(640*0.72*0.40) = 184. */
  lemma TuneFastCriticalExample()
    ensures TuneGeneration(DefaultGenerationOptions(), DefaultPolicy(), "fast", CriticalPressure, false).maxTokens == 184
  {
    assert 640.0 * 0.72 * 0.40 == 184.32;
    assert Round(184.32) == 184;
  }

  // ---------------------------------------------------------------------
  // Policy patches
  // ---------------------------------------------------------------------

  predicate CpuMemInRange(x: real) { 50.0 <= x <= 99.0 }

  /** Every field of `p` lies inside the range `apply_patch` clamps it to. */
  predicate WithinPatchRanges(p: RuntimePolicy) {
    && CpuMemInRange(p.pressureCpuPct) && CpuMemInRange(p.pressureMemoryPct)
    && 96 <= p.interactiveMaxTokens <= 4096
    && 64 <= p.backgroundMaxTokens <= 2048
    && 1 <= p.interactiveMaxConcurrency <= 4
    && 1 <= p.backgroundMaxConcurrency <= 4
    && 8 <= p.retrievalCandidateLimit <= 128
  }

  function PatchReal(cur: real, v: Option<real>): (r: real)
    ensures v.None? ==> r == cur
    ensures v.Some? ==> CpuMemInRange(r) && (CpuMemInRange(v.value) ==> r == v.value)
  {
    if v.Some? then ClampR(v.value, 50.0, 99.0) else cur
  }

  function PatchNat(cur: nat, v: Option<nat>, lo: nat, hi: nat): (r: nat)
    requires lo <= hi
    ensures v.None? ==> r == cur
    ensures v.Some? ==> lo <= r <= hi && (lo <= v.value <= hi ==> r == v.value)
  {
    if v.Some? then Clamp(v.value, lo, hi) else cur
  }

  /** The policy `apply_patch` leaves behind. */
  function Patched(p: RuntimePolicy, patch: RuntimePolicyPatch): RuntimePolicy {
    RuntimePolicy(
      PatchReal(p.pressureCpuPct, patch.pressureCpuPct),
      PatchReal(p.pressureMemoryPct, patch.pressureMemoryPct),
      PatchNat(p.interactiveMaxTokens, patch.interactiveMaxTokens, 96, 4096),
      PatchNat(p.backgroundMaxTokens, patch.backgroundMaxTokens, 64, 2048),
      PatchNat(p.interactiveMaxConcurrency, patch.interactiveMaxConcurrency, 1, 4),
      PatchNat(p.backgroundMaxConcurrency, patch.backgroundMaxConcurrency, 1, 4),
      PatchNat(p.retrievalCandidateLimit, patch.retrievalCandidateLimit, 8, 128),
      if patch.deferBackgroundUnderPressure.Some? then patch.deferBackgroundUnderPressure.value
      else p.deferBackgroundUnderPressure)
  }

  /**
   * `apply_patch`, field by field as the source updates the policy in place:
   * present fields are clamped into range, absent fields are kept.
   */
  method ApplyPatch(policy: RuntimePolicy, patch: RuntimePolicyPatch) returns (next: RuntimePolicy)
    ensures next == Patched(policy, patch)
    ensures patch.pressureCpuPct.Some? ==> CpuMemInRange(next.pressureCpuPct)
    ensures patch.pressureCpuPct.None? ==> next.pressureCpuPct == policy.pressureCpuPct
    ensures patch.interactiveMaxTokens.Some? ==> 96 <= next.interactiveMaxTokens <= 4096
    ensures patch.interactiveMaxTokens.None? ==> next.interactiveMaxTokens == policy.interactiveMaxTokens
  {
    next := policy;
    if patch.pressureCpuPct.Some? {
      next := next.(pressureCpuPct := ClampR(patch.pressureCpuPct.value, 50.0, 99.0));
    }
    assert next.pressureCpuPct == PatchReal(policy.pressureCpuPct, patch.pressureCpuPct);
    if patch.pressureMemoryPct.Some? {
      next := next.(pressureMemoryPct := ClampR(patch.pressureMemoryPct.value, 50.0, 99.0));
    }
    assert next.pressureMemoryPct == PatchReal(policy.pressureMemoryPct, patch.pressureMemoryPct);
    if patch.interactiveMaxTokens.Some? {
      next := next.(interactiveMaxTokens := Clamp(patch.interactiveMaxTokens.value, 96, 4096));
    }
    assert next.interactiveMaxTokens == PatchNat(policy.interactiveMaxTokens, patch.interactiveMaxTokens, 96, 4096);
    if patch.backgroundMaxTokens.Some? {
      next := next.(backgroundMaxTokens := Clamp(patch.backgroundMaxTokens.value, 64, 2048));
    }
    assert next.backgroundMaxTokens == PatchNat(policy.backgroundMaxTokens, patch.backgroundMaxTokens, 64, 2048);
    if patch.interactiveMaxConcurrency.Some? {
      next := next.(interactiveMaxConcurrency := Clamp(patch.interactiveMaxConcurrency.value, 1, 4));
    }
    assert next.interactiveMaxConcurrency == PatchNat(policy.interactiveMaxConcurrency, patch.interactiveMaxConcurrency, 1, 4);
    if patch.backgroundMaxConcurrency.Some? {
      next := next.(backgroundMaxConcurrency := Clamp(patch.backgroundMaxConcurrency.value, 1, 4));
    }
    assert next.backgroundMaxConcurrency == PatchNat(policy.backgroundMaxConcurrency, patch.backgroundMaxConcurrency, 1, 4);
    if patch.retrievalCandidateLimit.Some? {
      next := next.(retrievalCandidateLimit := Clamp(patch.retrievalCandidateLimit.value, 8, 128));
    }
    assert next.retrievalCandidateLimit == PatchNat(policy.retrievalCandidateLimit, patch.retrievalCandidateLimit, 8, 128);
    if patch.deferBackgroundUnderPressure.Some? {
      next := next.(deferBackgroundUnderPressure := patch.deferBackgroundUnderPressure.value);
    }
  }

  /** Applying the same patch twice is the same as applying it once. */
  lemma PatchIdempotent(p: RuntimePolicy, patch: RuntimePolicyPatch)
    ensures Patched(Patched(p, patch), patch) == Patched(p, patch)
  {
  }

  /** Patching an in-range policy keeps every field in range. */
  lemma PatchPreservesRanges(p: RuntimePolicy, patch: RuntimePolicyPatch)
    requires WithinPatchRanges(p)
    ensures WithinPatchRanges(Patched(p, patch))
  {
  }

  /** A patch whose every field is present sets every clamped field. */
  lemma FullPatchWithinRanges(p: RuntimePolicy, patch: RuntimePolicyPatch)
    requires patch.pressureCpuPct.Some? && patch.pressureMemoryPct.Some?
    requires patch.interactiveMaxTokens.Some? && patch.backgroundMaxTokens.Some?
    requires patch.interactiveMaxConcurrency.Some? && patch.backgroundMaxConcurrency.Some?
    requires patch.retrievalCandidateLimit.Some?
    ensures WithinPatchRanges(Patched(p, patch))
  {
  }

  /** The empty (default) patch changes nothing. */
  lemma DefaultPatchIsIdentity(p: RuntimePolicy)
    ensures Patched(p, DefaultPatch()) == p
  {
  }

  /** The patch that carries every field of `q`. */
  function PatchOf(q: RuntimePolicy): RuntimePolicyPatch {
    RuntimePolicyPatch(Some(q.pressureCpuPct), Some(q.pressureMemoryPct),
      Some(q.interactiveMaxTokens), Some(q.backgroundMaxTokens),
      Some(q.interactiveMaxConcurrency), Some(q.backgroundMaxConcurrency),
      Some(q.retrievalCandidateLimit), Some(q.deferBackgroundUnderPressure))
  }

  /**
   * The default policy already lies inside every clamp range, so patching
   * any policy with the default values yields exactly the default policy.
   */
  lemma DefaultPolicyPatchFixedPoint(p: RuntimePolicy)
    ensures WithinPatchRanges(DefaultPolicy())
    ensures Patched(p, PatchOf(DefaultPolicy())) == DefaultPolicy()
  {
  }

  // ---------------------------------------------------------------------
  // Policy storage: `runtime_policy_overrides` as a map keyed by user
  // (None is the global row whose `user_id` IS NULL).
  // ---------------------------------------------------------------------

  /** A stored `policy_json`: either a well-formed policy or text that fails to parse. */
  datatype StoredPolicy = PolicyJson(policy: RuntimePolicy) | Malformed(raw: string)

  /** `serde_json::from_str(..).ok().unwrap_or_default()`. */
  function Decode(s: StoredPolicy): RuntimePolicy {
    match s
    case PolicyJson(p) => p
    case Malformed(_) => DefaultPolicy()
  }

  /** The row `get_policy` reads: the user's row when present, else the global row. */
  function SelectedRow(rows: map<Option<string>, StoredPolicy>, user: Option<string>): (r: Option<StoredPolicy>)
    ensures user.Some? && user in rows ==> r == Some(rows[user])
    ensures (user.None? || user !in rows) && None in rows ==> r == Some(rows[None])
    ensures (user.None? || user !in rows) && None !in rows ==> r == None
  {
    if user.Some? && user in rows then Some(rows[user])
    else if None in rows then Some(rows[None])
    else None
  }

  function ResolvePolicy(rows: map<Option<string>, StoredPolicy>, user: Option<string>): RuntimePolicy {
    match SelectedRow(rows, user)
    case Some(s) => Decode(s)
    case None => DefaultPolicy()
  }

  /** A user row that does not parse yields the default, not the global row. */
  lemma MalformedUserRowYieldsDefault(rows: map<Option<string>, StoredPolicy>, uid: string)
    requires Some(uid) in rows && rows[Some(uid)].Malformed?
    ensures ResolvePolicy(rows, Some(uid)) == DefaultPolicy()
  {
  }

  /** A user without an own row sees exactly what a caller without user sees. */
  lemma UserWithoutRowSeesGlobal(rows: map<Option<string>, StoredPolicy>, uid: string)
    requires Some(uid) !in rows
    ensures ResolvePolicy(rows, Some(uid)) == ResolvePolicy(rows, None)
  {
  }

  /** `get_policy` reads the global row when there is no user, or the user has no row of its own. */
  predicate ReadsGlobalRow(rows: map<Option<string>, StoredPolicy>, user: Option<string>)
  {
    user.None? || user !in rows
  }

  /**
   * What `get_policy` answers when the user-row query fails with
   * `scopedFailure` and the global-row query with `globalFailure`: the
   * first failure of a query that runs, else the resolved policy.
   */
  function PolicyRead(rows: map<Option<string>, StoredPolicy>, user: Option<string>,
                      scopedFailure: Option<AppError>, globalFailure: Option<AppError>): (r: Result<RuntimePolicy>)
    ensures r.Ok? <==> (user.None? || scopedFailure.None?) && (!ReadsGlobalRow(rows, user) || globalFailure.None?)
    ensures r.Ok? ==> r.value == ResolvePolicy(rows, user)
    ensures user.Some? && scopedFailure.Some? ==> r == Err(scopedFailure.value)
    ensures r.Err? && !(user.Some? && scopedFailure.Some?) ==> ReadsGlobalRow(rows, user) && r == Err(globalFailure.value)
  {
    if user.Some? && scopedFailure.Some? then Err(scopedFailure.value)
    else if ReadsGlobalRow(rows, user) && globalFailure.Some? then Err(globalFailure.value)
    else Ok(ResolvePolicy(rows, user))
  }

  /** A user with an own row never depends on the global query. */
  lemma OwnRowIgnoresGlobalQuery(rows: map<Option<string>, StoredPolicy>, uid: string, g1: Option<AppError>, g2: Option<AppError>)
    requires Some(uid) in rows
    ensures PolicyRead(rows, Some(uid), None, g1) == PolicyRead(rows, Some(uid), None, g2) == Ok(ResolvePolicy(rows, Some(uid)))
  {
  }

  class PolicyStore {
    var rows: map<Option<string>, StoredPolicy>

    constructor ()
      ensures rows == map[]
    {
      rows := map[];
    }

    /**
     * `get_policy`: user row, then global row, then the default.
     * `scopedFailure` and `globalFailure` are the outcomes of the two
     * queries; each is returned when its query runs and fails.
     */
    method GetPolicy(user: Option<string>, scopedFailure: Option<AppError>, globalFailure: Option<AppError>)
      returns (r: Result<RuntimePolicy>)
      ensures r == PolicyRead(rows, user, scopedFailure, globalFailure)
      ensures r.Ok? && user.Some? && user in rows && rows[user].PolicyJson? ==> r.value == rows[user].policy
      ensures r.Ok? && ReadsGlobalRow(rows, user) && None in rows && rows[None].PolicyJson? ==> r.value == rows[None].policy
    {
      var raw: Option<StoredPolicy>;
      if user.Some? {
        if scopedFailure.Some? {
          return Err(scopedFailure.value);
        }
        var scoped := if user in rows then Some(rows[user]) else None;
        if scoped.Some? {
          raw := scoped;
        } else {
          if globalFailure.Some? {
            return Err(globalFailure.value);
          }
          raw := if None in rows then Some(rows[None]) else None;
        }
      } else {
        if globalFailure.Some? {
          return Err(globalFailure.value);
        }
        raw := if None in rows then Some(rows[None]) else None;
      }
      r := Ok(if raw.Some? then Decode(raw.value) else DefaultPolicy());
    }

    /**
     * `set_policy`: patches the resolved policy and writes it to the caller's
     * own row (updating it, or inserting it when no row was affected); no
     * other row changes. `updateFailure` and `insertFailure` are the
     * outcomes of the two writes. An update that matched no row stored
     * nothing, so a failed call leaves the rows as they were.
     */
    method SetPolicy(user: Option<string>, patch: RuntimePolicyPatch, scopedFailure: Option<AppError>,
                     globalFailure: Option<AppError>, updateFailure: Option<AppError>, insertFailure: Option<AppError>)
      returns (r: Result<RuntimePolicy>)
      modifies this
      ensures var read := PolicyRead(old(rows), user, scopedFailure, globalFailure);
        && (read.Err? ==> r == Err(read.error))
        && (read.Ok? && updateFailure.Some? ==> r == Err(updateFailure.value))
        && (read.Ok? && updateFailure.None? && user !in old(rows) && insertFailure.Some? ==> r == Err(insertFailure.value))
        && (r.Ok? <==> read.Ok? && updateFailure.None? && (user in old(rows) || insertFailure.None?))
        && (r.Ok? ==> r.value == Patched(read.value, patch))
      ensures r.Err? ==> rows == old(rows)
      ensures r.Ok? ==> rows == old(rows)[user := PolicyJson(r.value)] && ResolvePolicy(rows, user) == r.value
    {
      var current := GetPolicy(user, scopedFailure, globalFailure);
      if current.Err? {
        return Err(current.error);
      }
      var next := ApplyPatch(current.value, patch);
      if updateFailure.Some? {
        return Err(updateFailure.value);
      }
      var updated := user in rows;
      if updated {
        rows := rows[user := PolicyJson(next)];
      } else {
        if insertFailure.Some? {
          return Err(insertFailure.value);
        }
        rows := rows[user := PolicyJson(next)];
      }
      r := Ok(next);
    }
  }
}
