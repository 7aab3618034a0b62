/**
 * The runtime commands: the dashboard's time window and latency
 * percentiles, the first-run setup sequence with its starter bundle, the
 * idle-gated quality upgrade job, and the choice of the model a
 * microbenchmark runs on.
 */
module RuntimeCommands {
  import opened Common
  import opened Models
  import opened Errors
  import Governor
  import Setup
  import ModelCommands

  // ---------------------------------------------------------------------
  // get_performance_dashboard
  // ---------------------------------------------------------------------

  const MaxWindowHours := 24 * 30

  /** The reporting window: 24 hours unless given, clamped to [1, 720]. */
  function WindowHours(windowHours: Option<int>): (r: int)
    ensures 1 <= r <= MaxWindowHours
    ensures windowHours.None? ==> r == 24
    ensures windowHours.Some? && 1 <= windowHours.value <= MaxWindowHours ==> r == windowHours.value
    ensures windowHours.Some? && windowHours.value < 1 ==> r == 1
    ensures windowHours.Some? && windowHours.value > MaxWindowHours ==> r == MaxWindowHours
  {
    Clamp(if windowHours.Some? then windowHours.value else 24, 1, MaxWindowHours)
  }

  predicate SortedInts(s: seq<int>) { forall i, j :: 0 <= i < j < |s| ==> s[i] <= s[j] }

  function InsertInt(x: int, s: seq<int>): (r: seq<int>)
    ensures |r| == |s| + 1
  {
    if |s| == 0 || x <= s[0] then [x] + s else [s[0]] + InsertInt(x, s[1..])
  }

  lemma {:induction false} InsertIntFacts(x: int, s: seq<int>)
    requires SortedInts(s)
    ensures SortedInts(InsertInt(x, s))
    ensures multiset(InsertInt(x, s)) == multiset(s) + multiset{x}
    ensures forall y :: y in InsertInt(x, s) ==> y == x || y in s
  {
    assert s == [] || s == [s[0]] + s[1..];
    if |s| > 0 && x > s[0] {
      var rest := InsertInt(x, s[1..]);
      TailSorted(s);
      InsertIntFacts(x, s[1..]);
      assert InsertInt(x, s) == [s[0]] + rest;
      forall y | y in rest ensures s[0] <= y {
        if y != x {
          HeadIsLeast(s, y);
        }
      }
      ConsSorted(s[0], rest);
    } else {
      assert InsertInt(x, s) == [x] + s;
      forall y | y in s ensures x <= y {
        HeadIsLeast(s, y);
      }
      ConsSorted(x, s);
    }
  }

  lemma TailSorted(s: seq<int>)
    requires SortedInts(s) && |s| > 0
    ensures SortedInts(s[1..])
  {
    assert forall i :: 0 <= i < |s| - 1 ==> s[1..][i] == s[i + 1];
  }

  /** The head of a sorted sequence is its least element. */
  lemma HeadIsLeast(s: seq<int>, y: int)
    requires SortedInts(s) && y in s
    ensures s[0] <= y
  {
    var k :| 0 <= k < |s| && s[k] == y;
  }

  /** A value at most every element of a sorted sequence may lead it. */
  lemma ConsSorted(a: int, r: seq<int>)
    requires SortedInts(r) && forall y :: y in r ==> a <= y
    ensures SortedInts([a] + r)
  {
    var t := [a] + r;
    forall i, j | 0 <= i < j < |t| ensures t[i] <= t[j] {
      assert t[j] == r[j - 1];
      if i > 0 {
        assert t[i] == r[i - 1];
      } else {
        assert r[j - 1] in r;
      }
    }
  }

  /** `sort_unstable` of the latencies, on values. */
  function SortInts(s: seq<int>): (r: seq<int>)
    ensures |r| == |s|
  {
    if |s| == 0 then [] else InsertInt(s[0], SortInts(s[1..]))
  }

  lemma {:induction false} SortIntsFacts(s: seq<int>)
    ensures SortedInts(SortInts(s))
    ensures multiset(SortInts(s)) == multiset(s)
    ensures |SortInts(s)| == |s|
  {
    if |s| > 0 {
      SortIntsFacts(s[1..]);
      InsertIntFacts(s[0], SortInts(s[1..]));
      assert s == [s[0]] + s[1..];
    }
  }

  /** The index `floor(n * q)`, capped at the last position. */
  function PercentileIndex(n: nat, q: real): (i: nat)
    requires n > 0 && q >= 0.0
    ensures i < n
  {
    var f := (n as real * q).Floor;
    assert f >= 0 by { assert n as real * q >= 0.0; }
    Min(f, n - 1)
  }

  /** The median index is `n / 2`. */
  lemma MedianIndex(n: nat)
    requires n > 0
    ensures PercentileIndex(n, 0.50) == n / 2
  {
    var h := n / 2;
    assert n as real * 0.50 == h as real + (n % 2) as real * 0.50;
  }

  /** A higher quantile never picks an earlier index. */
  lemma PercentileIndexMonotone(n: nat, q1: real, q2: real)
    requires n > 0 && 0.0 <= q1 <= q2
    ensures PercentileIndex(n, q1) <= PercentileIndex(n, q2)
  {
    var x := n as real * q1;
    var y := n as real * q2;
    MulMonotone(n as real, q1, q2);
    assert x <= y;
    assert x.Floor as real <= x && y < y.Floor as real + 1.0;
    assert x.Floor <= y.Floor;
  }

  lemma MulMonotone(a: real, x: real, y: real)
    requires a >= 0.0 && x <= y
    ensures a * x <= a * y
  {
    assert a * y - a * x == a * (y - x);
  }

  /** p50 and p95 of the window's latencies: nearest-rank on the sorted list, none when empty. */
  function LatencyPercentiles(latencies: seq<int>): (r: (Option<int>, Option<int>))
    ensures r.0.None? <==> |latencies| == 0
    ensures r.1.None? <==> |latencies| == 0
    ensures |latencies| > 0 ==> (r.0.Some? && r.1.Some?
      && r.0.value in latencies && r.1.value in latencies
      && r.0.value <= r.1.value
      && r.0.value == SortInts(latencies)[|latencies| / 2]
      && r.1.value == SortInts(latencies)[PercentileIndex(|latencies|, 0.95)])
  {
    if |latencies| == 0 then (None, None)
    else
      var sorted := SortInts(latencies);
      SortIntsFacts(latencies);
      var n := |sorted|;
      var i50 := PercentileIndex(n, 0.50);
      var i95 := PercentileIndex(n, 0.95);
      MedianIndex(n);
      PercentileIndexMonotone(n, 0.50, 0.95);
      assert sorted[i50] in multiset(latencies) && sorted[i95] in multiset(latencies);
      (Some(sorted[i50]), Some(sorted[i95]))
  }

  // ---------------------------------------------------------------------
  // Starter bundle and quality upgrade
  // ---------------------------------------------------------------------

  const BundleRamMb := 12000
  const LargeStarter := "llama-3.2-1b-instruct-q4_k_m"
  const SmallStarter := "qwen2.5-0.5b-instruct-q4_k_m"
  const UpgradeTarget := "qwen2.5-1.5b-instruct-q4_k_m"
  const UpgradeAttempts := 24

  /** `choose_starter_bundle`: the 1B Llama from 12000 MB of RAM, else the 0.5B Qwen. */
  function ChooseStarterBundle(profile: SystemProfile): (name: string)
    ensures name == LargeStarter <==> profile.totalRamMb >= BundleRamMb
    ensures name == SmallStarter <==> profile.totalRamMb < BundleRamMb
  {
    if profile.totalRamMb >= BundleRamMb then LargeStarter else SmallStarter
  }

  /** `choose_quality_upgrade_target`: the 1.5B Qwen, only from 12000 MB of RAM. */
  function ChooseQualityUpgradeTarget(profile: SystemProfile): (name: Option<string>)
    ensures name.Some? <==> profile.totalRamMb >= BundleRamMb
    ensures name.Some? ==> name.value == UpgradeTarget
  {
    if profile.totalRamMb >= BundleRamMb then Some(UpgradeTarget) else None
  }

  /** Whenever there is an upgrade target, it is not the starter bundle. */
  lemma UpgradeTargetIsNotStarter(profile: SystemProfile)
    requires ChooseQualityUpgradeTarget(profile).Some?
    ensures ChooseQualityUpgradeTarget(profile).value != ChooseStarterBundle(profile)
  {
    assert UpgradeTarget[0] != LargeStarter[0];
  }

  /** `get_by_name` on the catalog. */
  function ByName(catalog: seq<Model>, name: string): (r: Option<Model>)
    ensures r.Some? ==> r.value in catalog && r.value.name == name
    ensures r.None? <==> forall i :: 0 <= i < |catalog| ==> catalog[i].name != name
  {
    var i := FirstWhere(catalog, (m: Model) => m.name == name);
    if i.Some? then Some(catalog[i.value]) else None
  }

  /**
   * The model `maybe_queue_quality_upgrade` queues a job for: the upgrade
   * target when the profile has one, the catalog holds it, it is not the
   * starter and it is not downloaded yet.
   */
  function UpgradeJobTarget(profile: SystemProfile, catalog: seq<Model>, starterModelId: string): (r: Option<Model>)
    ensures r.Some? <==> (ChooseQualityUpgradeTarget(profile).Some?
      && ByName(catalog, UpgradeTarget).Some?
      && ByName(catalog, UpgradeTarget).value.id != starterModelId
      && !IsDownloaded(ByName(catalog, UpgradeTarget).value))
    ensures r.Some? ==> r.value in catalog && r.value.name == UpgradeTarget
  {
    match ChooseQualityUpgradeTarget(profile)
    case None => None
    case Some(name) =>
      match ByName(catalog, name)
      case None => None
      case Some(target) =>
        if target.id == starterModelId then None
        else if target.isDownloaded == 1 then None
        else Some(target)
  }

  /** An upgrade starts only at normal or warm pressure. */
  predicate CanUpgrade(p: Pressure) { p == NormalPressure || p == WarmPressure }

  /** How the upgrade job ends. */
  datatype JobOutcome = Submitted(downloadStatus: string) | JobFailed(reason: string) | Deferred(deferCount: nat)

  /** The policy an attempt classifies with: the one read, or the default when reading it failed. */
  function AttemptPolicy(read: Result<RuntimePolicy>): (p: RuntimePolicy)
    ensures read.Err? ==> p == DefaultPolicy()
    ensures read.Ok? ==> p == read.value
  {
    if read.Ok? then read.value else DefaultPolicy()
  }

  /** Attempt `j` finds the system calm enough to upgrade. */
  predicate CalmAt(policyAt: nat -> Result<RuntimePolicy>, statsAt: nat -> LiveSystemStats, j: nat)
  {
    CanUpgrade(Governor.ClassifyPressure(statsAt(j), AttemptPolicy(policyAt(j))))
  }

  /** The attempt the job starts on: the first calm one among the first `n`. */
  function FirstCalm(policyAt: nat -> Result<RuntimePolicy>, statsAt: nat -> LiveSystemStats, n: nat): (k: nat)
    ensures k <= n
    ensures forall j :: 0 <= j < k ==> !CalmAt(policyAt, statsAt, j)
    ensures k < n ==> CalmAt(policyAt, statsAt, k)
  {
    if n == 0 then 0
    else
      var k := FirstCalm(policyAt, statsAt, n - 1);
      if k < n - 1 then k
      else if CalmAt(policyAt, statsAt, n - 1) then n - 1
      else n
  }

  /**
   * The spawned upgrade job: up to 24 attempts, each reading the policy
   * (`policyAt`, the default when that read fails) and classifying the
   * pressure of that moment (`statsAt`); the first calm attempt starts
   * the download and ends the job either way; 24 pressured attempts end
   * it deferred.
   */
  method RunUpgradeJob(tracker: ModelCommands.DownloadTracker, target: Model,
                       policyAt: nat -> Result<RuntimePolicy>, statsAt: nat -> LiveSystemStats,
                       modelsDir: string, fileExists: string -> bool, sizeOf: string -> nat,
                       rowWriteFailure: Option<AppError>)
    returns (outcome: JobOutcome, deferredCount: nat)
    requires tracker.Valid()
    modifies tracker
    ensures tracker.Valid()
    ensures deferredCount == FirstCalm(policyAt, statsAt, UpgradeAttempts)
    ensures outcome.Deferred? <==> deferredCount == UpgradeAttempts
    ensures outcome.Deferred? ==> outcome.deferCount == UpgradeAttempts && tracker.entries == old(tracker.entries)
    ensures outcome.Submitted? ==> target.id in tracker.entries
    ensures outcome.JobFailed? ==>
      || (target.downloadUrl.None? && tracker.entries == old(tracker.entries))
      || (rowWriteFailure.Some? && target.id in tracker.entries
          && tracker.entries[target.id] == ModelCommands.TrackerEntry(target.id, "queued"))
    ensures deferredCount < UpgradeAttempts ==>
      var o := ModelCommands.StartOutcome(old(tracker.entries), target, modelsDir, fileExists, sizeOf, rowWriteFailure);
      && tracker.entries == o.1
      && (o.0.Ok? ==> outcome == Submitted(o.0.value.status))
      && (o.0.Err? ==> outcome == JobFailed(Display(o.0.error)))
  {
    deferredCount := 0;
    var attempt := 0;
    while attempt < UpgradeAttempts
      invariant 0 <= attempt <= UpgradeAttempts && deferredCount == attempt
      invariant forall j :: 0 <= j < attempt ==> !CalmAt(policyAt, statsAt, j)
      invariant tracker.entries == old(tracker.entries)
    {
      var policy := AttemptPolicy(policyAt(attempt));
      var pressure := Governor.ClassifyPressure(statsAt(attempt), policy);
      if CanUpgrade(pressure) {
        assert CalmAt(policyAt, statsAt, attempt);
        FirstCalmIs(policyAt, statsAt, attempt, UpgradeAttempts);
        var handle := tracker.Start(target, modelsDir, fileExists, sizeOf, rowWriteFailure);
        if handle.Ok? {
          return Submitted(handle.value.status), deferredCount;
        }
        return JobFailed(Display(handle.error)), deferredCount;
      }
      deferredCount := deferredCount + 1;
      attempt := attempt + 1;
    }
    FirstCalmIs(policyAt, statsAt, UpgradeAttempts, UpgradeAttempts);
    outcome := Deferred(deferredCount);
  }

  /** The first calm attempt is the one `FirstCalm` reports. */
  lemma {:induction false} FirstCalmIs(policyAt: nat -> Result<RuntimePolicy>, statsAt: nat -> LiveSystemStats, k: nat, n: nat)
    requires k <= n
    requires forall j :: 0 <= j < k ==> !CalmAt(policyAt, statsAt, j)
    requires k < n ==> CalmAt(policyAt, statsAt, k)
    ensures FirstCalm(policyAt, statsAt, n) == k
  {
    if n > 0 {
      if k < n {
        if k < n - 1 { FirstCalmIs(policyAt, statsAt, k, n - 1); }
        else { FirstCalmIs(policyAt, statsAt, n - 1, n - 1); }
      } else {
        FirstCalmIs(policyAt, statsAt, n - 1, n - 1);
      }
    }
  }

  /** A job under critical pressure throughout never starts a download. */
  lemma AlwaysCriticalDefers(policyAt: nat -> Result<RuntimePolicy>, statsAt: nat -> LiveSystemStats)
    requires forall j :: 0 <= j < UpgradeAttempts ==>
      Governor.ClassifyPressure(statsAt(j), AttemptPolicy(policyAt(j))) == CriticalPressure
    ensures FirstCalm(policyAt, statsAt, UpgradeAttempts) == UpgradeAttempts
  {
    FirstCalmIs(policyAt, statsAt, UpgradeAttempts, UpgradeAttempts);
  }

  // ---------------------------------------------------------------------
  // run_model_microbenchmark: the model and file it runs on
  // ---------------------------------------------------------------------

  /**
   * The benchmarked model: the given id or name looked up like
   * `resolve_model`, or with none the installed default, else the first
   * installed model.
   */
  function BenchmarkModel(catalog: seq<Model>, installed: seq<Model>, modelId: Option<string>): (r: Result<Model>)
    ensures modelId.Some? ==> r == ModelCommands.ResolveModel(catalog, modelId.value)
    ensures modelId.None? && (exists i :: 0 <= i < |installed| && IsDefault(installed[i])) ==>
      r.Ok? && r.value in installed && IsDefault(r.value)
    ensures modelId.None? && (forall i :: 0 <= i < |installed| ==> !IsDefault(installed[i])) ==>
      r == (if |installed| > 0 then Ok(installed[0]) else Err(NotFound("model", "default")))
  {
    var selected :=
      if modelId.Some? then
        var byId := FirstWhere(catalog, (m: Model) => m.id == modelId.value);
        if byId.Some? then Some(catalog[byId.value]) else ByName(catalog, modelId.value)
      else
        var byDefault := FirstWhere(installed, (m: Model) => m.isDefault == 1);
        if byDefault.Some? then Some(installed[byDefault.value])
        else if |installed| > 0 then Some(installed[0])
        else None;
    if selected.Some? then Ok(selected.value)
    else Err(NotFound("model", if modelId.Some? then modelId.value else "default"))
  }

  /** The file the benchmark loads: the selected model's local path, or a validation error. */
  function BenchmarkPath(catalog: seq<Model>, installed: seq<Model>, modelId: Option<string>): (r: Result<string>)
    ensures BenchmarkModel(catalog, installed, modelId).Err? ==> r == Err(BenchmarkModel(catalog, installed, modelId).error)
    ensures BenchmarkModel(catalog, installed, modelId).Ok? ==>
      var m := BenchmarkModel(catalog, installed, modelId).value;
      r == (if m.filePath.Some? then Ok(m.filePath.value)
            else Err(Validation("model_id", "Model has no local file path")))
  {
    match BenchmarkModel(catalog, installed, modelId)
    case Err(e) => Err(e)
    case Ok(m) =>
      if m.filePath.None? then Err(Validation("model_id", "Model has no local file path"))
      else Ok(m.filePath.value)
  }

  // ---------------------------------------------------------------------
  // start_first_run_setup
  // ---------------------------------------------------------------------

  /**
   * `start_first_run_setup`: find the starter bundle, start or resume the
   * setup row, run the NLP setup on the starter (marking the row failed
   * when it fails), step through stages B and C, and mark it completed.
   */
  method StartFirstRunSetup(store: Setup.SetupStore, tracker: ModelCommands.DownloadTracker,
                            userId: Option<string>, profile: SystemProfile,
                            installed: seq<Model>, catalog: seq<Model>,
                            modelsDir: string, fileExists: string -> bool, sizeOf: string -> nat,
                            rowWriteFailure: Option<AppError>)
    returns (r: Result<SetupState>)
    requires tracker.Valid()
    modifies store, tracker
    ensures tracker.Valid()
    ensures ByName(catalog, ChooseStarterBundle(profile)).None? ==>
      r == Err(NotFound("model", ChooseStarterBundle(profile))) && store.rows == old(store.rows)
    ensures r.Ok? ==> (ByName(catalog, ChooseStarterBundle(profile)).Some?
      && userId in store.rows && store.rows[userId] == r.value
      && r.value.status == "completed" && r.value.progressPct == 100.0
      && r.value.selectedBundle == Some(ByName(catalog, ChooseStarterBundle(profile)).value.id)
      && r.value.hardwareProfileId == Some(profile.id))
    ensures r.Err? && ByName(catalog, ChooseStarterBundle(profile)).Some? ==>
      (userId in store.rows && store.rows[userId].status == "failed"
      && store.rows[userId].currentStage == "stage_b_starter_model_install"
      && store.rows[userId].lastError == Some(Display(r.error)))
  {
    var starterName := ChooseStarterBundle(profile);
    var found := ByName(catalog, starterName);
    if found.None? {
      return Err(NotFound("model", starterName));
    }
    var starter := found.value;
    var s0 := store.StartOrResume(userId, Some(starter.id), Some(profile.id));
    var s1 := store.UpdateStage(userId, "stage_a_preflight", 25.0);
    var setup := ModelCommands.RunNlpSetup(store, tracker, userId, Some(starter.id), None, Ok(installed), Ok(catalog),
                                           modelsDir, fileExists, sizeOf, rowWriteFailure);
    if setup.Err? {
      var _ := store.MarkFailed(userId, "stage_b_starter_model_install", Display(setup.error));
      return Err(setup.error);
    }
    var s2 := store.UpdateStage(userId, "stage_b_starter_model_install", 60.0);
    var s3 := store.UpdateStage(userId, "stage_c_runtime_profile", 85.0);
    var done := store.MarkCompleted(userId);
    r := Ok(done);
  }
}
