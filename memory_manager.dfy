/**
 * The adaptive memory manager: a watchdog that, under high memory or CPU
 * pressure, unloads the active model at most once per cooldown period.
 * Its "load under low pressure" branch never loads anything.
 */
module MemoryManager {
  import opened Common
  import opened Models
  import Hardware
  import Inference

  datatype MemoryAction = NoAction | Unloaded(path: string) | Loaded(path: string)

  datatype Thresholds = Thresholds(memoryHigh: real, memoryLow: real, cpuHigh: real, cpuLow: real, cooldownSecs: nat)

  /** `AdaptiveMemoryManager::new`: 85% / 65% memory, 85 / 50 CPU, 30 s cooldown. */
  function DefaultThresholds(): Thresholds
  {
    Thresholds(0.85, 0.65, 85.0, 50.0, 30)
  }

  /** `with_thresholds`: every threshold clamped into its range, a 90 s cooldown. */
  function ClampedThresholds(memoryHigh: real, memoryLow: real, cpuHigh: real, cpuLow: real): (t: Thresholds)
    ensures 0.50 <= t.memoryHigh <= 0.98 && 0.20 <= t.memoryLow <= 0.95
    ensures 40.0 <= t.cpuHigh <= 99.0 && 10.0 <= t.cpuLow <= 90.0
    ensures 0.50 <= memoryHigh <= 0.98 ==> t.memoryHigh == memoryHigh
    ensures 0.20 <= memoryLow <= 0.95 ==> t.memoryLow == memoryLow
    ensures 40.0 <= cpuHigh <= 99.0 ==> t.cpuHigh == cpuHigh
    ensures 10.0 <= cpuLow <= 90.0 ==> t.cpuLow == cpuLow
    ensures t.cooldownSecs == 90
  {
    Thresholds(ClampR(memoryHigh, 0.50, 0.98), ClampR(memoryLow, 0.20, 0.95),
               ClampR(cpuHigh, 40.0, 99.0), ClampR(cpuLow, 10.0, 90.0), 90)
  }

  predicate IsHighPressure(t: Thresholds, stats: LiveSystemStats)
  {
    Hardware.MemoryFraction(stats) >= t.memoryHigh || stats.cpuUsagePct >= t.cpuHigh
  }

  predicate IsLowPressure(t: Thresholds, stats: LiveSystemStats)
  {
    Hardware.MemoryFraction(stats) <= t.memoryLow && stats.cpuUsagePct <= t.cpuLow
  }

  /** With the default thresholds no reading is both high and low pressure. */
  lemma DefaultHighAndLowDisjoint(stats: LiveSystemStats)
    ensures !(IsHighPressure(DefaultThresholds(), stats) && IsLowPressure(DefaultThresholds(), stats))
  {
  }

  /** Whether the cooldown since the previous unload (if any) has run out at `now`. */
  predicate CooledDown(t: Thresholds, lastUnload: Option<nat>, now: nat)
  {
    lastUnload.None? || Elapsed(now, lastUnload.value) >= t.cooldownSecs
  }

  datatype ManagerState = ManagerState(lastUnload: Option<nat>, totalUnloads: nat)

  datatype StepResult = StepResult(state: ManagerState, action: MemoryAction)

  /**
   * One `check_and_manage` call, as a function of the configuration, the
   * state, the live statistics, the path of the model loaded in the engine
   * (if any) and the clock. Unloading cannot fail here: the engine's lock is
   * never poisoned in this model.
   */
  function Step(t: Thresholds, enabled: bool, st: ManagerState, stats: LiveSystemStats,
                active: Option<string>, now: nat): (r: StepResult)
    ensures r.action.Loaded? == false
    ensures r.action.Unloaded? <==>
      enabled && IsHighPressure(t, stats) && CooledDown(t, st.lastUnload, now) && active.Some?
    ensures r.action.Unloaded? ==>
      r.action.path == active.value && r.state == ManagerState(Some(now), st.totalUnloads + 1)
    ensures !r.action.Unloaded? ==> r.action == NoAction && r.state == st
  {
    if !enabled then StepResult(st, NoAction)
    else if IsHighPressure(t, stats) then
      if CooledDown(t, st.lastUnload, now) && active.Some? then
        StepResult(ManagerState(Some(now), st.totalUnloads + 1), Unloaded(active.value))
      else StepResult(st, NoAction)
    else StepResult(st, NoAction)
  }

  /** One watchdog tick's inputs. */
  datatype Tick = Tick(stats: LiveSystemStats, active: Option<string>, now: nat)

  predicate ClockMonotone(ticks: seq<Tick>)
  {
    forall i, j :: 0 <= i < j < |ticks| ==> ticks[i].now <= ticks[j].now
  }

  /** The actions of a run of ticks from a state (the engine's slot is given per tick). */
  function Run(t: Thresholds, enabled: bool, st: ManagerState, ticks: seq<Tick>): (actions: seq<MemoryAction>)
    ensures |actions| == |ticks|
    decreases |ticks|
  {
    if |ticks| == 0 then []
    else
      var r := Step(t, enabled, st, ticks[0].stats, ticks[0].active, ticks[0].now);
      [r.action] + Run(t, enabled, r.state, ticks[1..])
  }

  /**
   * In a run whose clock never goes back and that starts after any previous
   * unload, every unload comes a full cooldown after the previous one.
   */
  lemma {:induction false} UnloadsAfterCooldown(t: Thresholds, enabled: bool, st: ManagerState, ticks: seq<Tick>, j: nat)
    requires ClockMonotone(ticks)
    requires st.lastUnload.Some? ==> forall k :: 0 <= k < |ticks| ==> st.lastUnload.value <= ticks[k].now
    requires j < |ticks| && Run(t, enabled, st, ticks)[j].Unloaded?
    ensures st.lastUnload.Some? ==> ticks[j].now >= st.lastUnload.value + t.cooldownSecs
    decreases |ticks|
  {
    var r := Step(t, enabled, st, ticks[0].stats, ticks[0].active, ticks[0].now);
    if j > 0 {
      var rest := ticks[1..];
      assert Run(t, enabled, st, ticks)[j] == Run(t, enabled, r.state, rest)[j - 1];
      assert ClockMonotone(rest) by {
        forall a, b | 0 <= a < b < |rest| ensures rest[a].now <= rest[b].now {
          assert rest[a] == ticks[a + 1] && rest[b] == ticks[b + 1];
        }
      }
      assert r.state.lastUnload.Some? ==> forall k :: 0 <= k < |rest| ==> r.state.lastUnload.value <= rest[k].now by {
        if r.state.lastUnload.Some? {
          forall k | 0 <= k < |rest| ensures r.state.lastUnload.value <= rest[k].now {
            assert rest[k] == ticks[k + 1];
            if r.action.Unloaded? {
              assert ticks[0].now <= ticks[k + 1].now;
            }
          }
        }
      }
      UnloadsAfterCooldown(t, enabled, r.state, rest, j - 1);
      if r.action.Unloaded? {
        assert ticks[j].now >= ticks[0].now + t.cooldownSecs;
        assert st.lastUnload.Some? ==> st.lastUnload.value <= ticks[0].now;
      }
    }
  }

  /**
   * Any two unloads of a run with a monotone clock are at least one
   * cooldown apart, so an oscillating load unloads at most once per cooldown.
   */
  lemma {:induction false} UnloadsSpacedByCooldown(t: Thresholds, enabled: bool, st: ManagerState, ticks: seq<Tick>, i: nat, j: nat)
    requires ClockMonotone(ticks)
    requires st.lastUnload.Some? ==> forall k :: 0 <= k < |ticks| ==> st.lastUnload.value <= ticks[k].now
    requires i < j < |ticks|
    requires Run(t, enabled, st, ticks)[i].Unloaded? && Run(t, enabled, st, ticks)[j].Unloaded?
    ensures ticks[j].now >= ticks[i].now + t.cooldownSecs
    decreases |ticks|
  {
    var r := Step(t, enabled, st, ticks[0].stats, ticks[0].active, ticks[0].now);
    var rest := ticks[1..];
    assert Run(t, enabled, st, ticks)[j] == Run(t, enabled, r.state, rest)[j - 1];
    assert ClockMonotone(rest) by {
      forall a, b | 0 <= a < b < |rest| ensures rest[a].now <= rest[b].now {
        assert rest[a] == ticks[a + 1] && rest[b] == ticks[b + 1];
      }
    }
    assert r.state.lastUnload.Some? ==> forall k :: 0 <= k < |rest| ==> r.state.lastUnload.value <= rest[k].now by {
      if r.state.lastUnload.Some? {
        forall k | 0 <= k < |rest| ensures r.state.lastUnload.value <= rest[k].now {
          assert rest[k] == ticks[k + 1];
          if r.action.Unloaded? {
            assert ticks[0].now <= ticks[k + 1].now;
          }
        }
      }
    }
    if i == 0 {
      assert r.action.Unloaded?;
      UnloadsAfterCooldown(t, enabled, r.state, rest, j - 1);
    } else {
      assert Run(t, enabled, st, ticks)[i] == Run(t, enabled, r.state, rest)[i - 1];
      UnloadsSpacedByCooldown(t, enabled, r.state, rest, i - 1, j - 1);
      assert rest[i - 1] == ticks[i] && rest[j - 1] == ticks[j];
    }
  }

  /** A disabled manager never acts. */
  lemma {:induction false} DisabledRunDoesNothing(t: Thresholds, st: ManagerState, ticks: seq<Tick>)
    ensures forall k :: 0 <= k < |ticks| ==> Run(t, false, st, ticks)[k] == NoAction
    decreases |ticks|
  {
    if |ticks| > 0 {
      DisabledRunDoesNothing(t, st, ticks[1..]);
    }
  }

  datatype MemoryManagerStats = MemoryManagerStats(
    enabled: bool, totalUnloads: nat, totalLoads: nat,
    memoryThresholdHigh: real, memoryThresholdLow: real, cpuThresholdHigh: real, cpuThresholdLow: real)

  class Manager {
    var enabled: bool
    var thresholds: Thresholds
    var lastUnload: Option<nat>
    var totalUnloads: nat
    var totalLoads: nat

    /** `new`: enabled, default thresholds, no unload yet. */
    constructor()
      ensures enabled && thresholds == DefaultThresholds()
      ensures lastUnload == None && totalUnloads == 0 && totalLoads == 0
    {
      enabled := true;
      thresholds := DefaultThresholds();
      lastUnload := None;
      totalUnloads := 0;
      totalLoads := 0;
    }

    /** `with_thresholds`. */
    constructor WithThresholds(memoryHigh: real, memoryLow: real, cpuHigh: real, cpuLow: real)
      ensures enabled && thresholds == ClampedThresholds(memoryHigh, memoryLow, cpuHigh, cpuLow)
      ensures lastUnload == None && totalUnloads == 0 && totalLoads == 0
    {
      enabled := true;
      thresholds := ClampedThresholds(memoryHigh, memoryLow, cpuHigh, cpuLow);
      lastUnload := None;
      totalUnloads := 0;
      totalLoads := 0;
    }

    method SetEnabled(on: bool)
      modifies this
      ensures enabled == on
      ensures thresholds == old(thresholds) && lastUnload == old(lastUnload)
      ensures totalUnloads == old(totalUnloads) && totalLoads == old(totalLoads)
    {
      enabled := on;
    }

    /**
     * `check_and_manage` given this tick's statistics and clock: acts as
     * `Step` says, unloading the engine's model when it acts.
     */
    method CheckAndManage(stats: LiveSystemStats, engine: Inference.Engine, now: nat) returns (action: MemoryAction)
      modifies this, engine
      ensures var active := if old(engine.loaded).Some? then Some(old(engine.loaded).value.path) else None;
        var r := Step(old(thresholds), old(enabled), ManagerState(old(lastUnload), old(totalUnloads)), stats, active, now);
        && action == r.action
        && ManagerState(lastUnload, totalUnloads) == r.state
      ensures action.Unloaded? ==> engine.loaded == None
      ensures !action.Unloaded? ==> engine.loaded == old(engine.loaded)
      ensures engine.lastUsed == old(engine.lastUsed)
      ensures enabled == old(enabled) && thresholds == old(thresholds) && totalLoads == old(totalLoads)
    {
      if !enabled {
        return NoAction;
      }
      var pct := Hardware.MemoryFraction(stats);
      var cpu := stats.cpuUsagePct;
      var high := pct >= thresholds.memoryHigh || cpu >= thresholds.cpuHigh;
      var low := pct <= thresholds.memoryLow && cpu <= thresholds.cpuLow;
      if high {
        action := MaybeUnloadModel(engine, now);
        return;
      }
      if low {
        action := MaybeLoadModel(now);
        return;
      }
      action := NoAction;
    }

    /** `maybe_unload_model`: within the cooldown, or with nothing loaded, nothing happens. */
    method MaybeUnloadModel(engine: Inference.Engine, now: nat) returns (action: MemoryAction)
      modifies this, engine
      ensures var active := old(engine.loaded);
        && (action.Unloaded? <==> CooledDown(thresholds, old(lastUnload), now) && active.Some?)
        && (action.Unloaded? ==>
              action.path == active.value.path && lastUnload == Some(now)
              && totalUnloads == old(totalUnloads) + 1 && engine.loaded == None)
        && (!action.Unloaded? ==>
              action == NoAction && lastUnload == old(lastUnload)
              && totalUnloads == old(totalUnloads) && engine.loaded == old(engine.loaded))
      ensures engine.lastUsed == old(engine.lastUsed)
      ensures enabled == old(enabled) && thresholds == old(thresholds) && totalLoads == old(totalLoads)
    {
      if lastUnload.Some? && Elapsed(now, lastUnload.value) < thresholds.cooldownSecs {
        return NoAction;
      }
      var active := engine.ActiveModelInfo();
      if active.Some? {
        var unloaded := engine.UnloadModel();
        if unloaded.Ok? {
          lastUnload := Some(now);
          totalUnloads := totalUnloads + 1;
          return Unloaded(active.value.path);
        }
      }
      action := NoAction;
    }

    /**
     * `maybe_load_model`: loading is left to the model manager, so this
     * answers `None` whether or not the 30 s cooldown has passed.
     */
    method MaybeLoadModel(now: nat) returns (action: MemoryAction)
      ensures action == NoAction
    {
      if lastUnload.Some? && Elapsed(now, lastUnload.value) < 30 {
        return NoAction;
      }
      action := NoAction;
    }

    /** `get_stats`. */
    function Stats(): (s: MemoryManagerStats)
      reads this
      ensures s.enabled == enabled && s.totalUnloads == totalUnloads && s.totalLoads == totalLoads
      ensures s.memoryThresholdHigh == thresholds.memoryHigh && s.memoryThresholdLow == thresholds.memoryLow
      ensures s.cpuThresholdHigh == thresholds.cpuHigh && s.cpuThresholdLow == thresholds.cpuLow
    {
      MemoryManagerStats(enabled, totalUnloads, totalLoads, thresholds.memoryHigh, thresholds.memoryLow,
                         thresholds.cpuHigh, thresholds.cpuLow)
    }
  }
}
