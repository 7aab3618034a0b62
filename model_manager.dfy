/**
 * The model manager: which installed model it loads as the light LLM at
 * start, whether it warms the embedding and reranker services, and the
 * tier it is in as it upgrades to and downgrades from the balanced model.
 */
module ModelManager {
  import opened Common
  import opened Models
  import opened Errors
  import Hardware

  datatype ModelTier = Light | Balanced | High

  /** A downloaded model of the llama family (the family compared in lower case). */
  predicate IsDownloadedLlama(m: Model) {
    m.isDownloaded == 1 && Contains(Lower(m.family), "llama")
  }

  /** The parameter count is known and mentions `size`. */
  predicate HasSize(m: Model, size: string) {
    m.parameterCount.Some? && Contains(m.parameterCount.value, size)
  }

  /**
   * The light LLM: the first downloaded llama model with "1B" in its
   * parameter count, else the first downloaded llama model.
   */
  function LightLlm(installed: seq<Model>): (r: Option<Model>)
    ensures r.Some? ==> r.value in installed && IsDownloadedLlama(r.value)
    ensures r.None? <==> forall i :: 0 <= i < |installed| ==> !IsDownloadedLlama(installed[i])
    ensures (exists i :: 0 <= i < |installed| && IsDownloadedLlama(installed[i]) && HasSize(installed[i], "1B"))
            ==> r.Some? && HasSize(r.value, "1B")
    ensures r.Some? && !HasSize(r.value, "1B") ==>
      forall i :: 0 <= i < |installed| && IsDownloadedLlama(installed[i]) ==> !HasSize(installed[i], "1B")
  {
    var small := FirstWhere(installed, (m: Model) => IsDownloadedLlama(m) && HasSize(m, "1B"));
    if small.Some? then Some(installed[small.value])
    else
      var any := FirstWhere(installed, (m: Model) => IsDownloadedLlama(m));
      if any.Some? then Some(installed[any.value]) else None
  }

  /** What the start-up initialisation does: the path it loads, if any, and whether it warms the NLP services. */
  datatype LightPlan = LightPlan(loadPath: Option<string>, warmNlp: bool)

  /**
   * `download_and_load_light_models`: list the installed models
   * (`listed`, whose error ends the initialisation before anything is
   * loaded), load the light LLM when it has a file, and warm the embedding
   * and reranker services unless in multitasking mode.  A failed load or
   * warm-up is only logged, so it changes nothing here.
   */
  function LightInitialization(listed: Result<seq<Model>>, mode: Hardware.PerformanceMode): (r: Result<LightPlan>)
    ensures listed.Err? ==> r == Err(listed.error)
    ensures listed.Ok? ==> r.Ok? && (r.value.warmNlp <==> mode != Hardware.Multitasking)
    ensures listed.Ok? ==> (r.value.loadPath.Some? <==>
      LightLlm(listed.value).Some? && LightLlm(listed.value).value.filePath.Some?)
    ensures listed.Ok? && r.value.loadPath.Some? ==> r.value.loadPath == LightLlm(listed.value).value.filePath
  {
    if listed.Err? then Err(listed.error)
    else
      var llm := LightLlm(listed.value);
      var path := if llm.Some? then llm.value.filePath else None;
      Ok(LightPlan(path, mode != Hardware.Multitasking))
  }

  /** "1.1B" contains "1B", so a 1.1B model counts as a 1B model. */
  lemma OnePointOneCountsAsOne()
    ensures Contains("1.1B", "1B")
  {
    var s := "1.1B";
    assert s[2..4] == "1B";
    assert OccursAt(s, "1B", 2);
  }

  /** The model the balanced upgrade loads: the first downloaded model with "3B" in its parameter count. */
  function BalancedLlm(installed: seq<Model>): (r: Option<Model>)
    ensures r.Some? ==> r.value in installed && IsDownloaded(r.value) && HasSize(r.value, "3B")
    ensures r.None? <==> forall i :: 0 <= i < |installed| ==> !(IsDownloaded(installed[i]) && HasSize(installed[i], "3B"))
  {
    var i := FirstWhere(installed, (m: Model) => IsDownloaded(m) && HasSize(m, "3B"));
    if i.Some? then Some(installed[i.value]) else None
  }

  /** The manager's mutable state: the current LLM tier and the in-progress flag. */
  class Manager {
    var tier: ModelTier
    var isLoading: bool

    /** A new manager is in the light tier and not loading. */
    constructor()
      ensures tier == Light && !isLoading
    {
      tier := Light;
      isLoading := false;
    }

    function CurrentTier(): ModelTier
      reads this
    {
      tier
    }

    /**
     * `upgrade_to_balanced`.  `listed` is what listing the installed
     * models gives; `load` is the inference engine's load of a path
     * (`None` on success).  A listing or load error returns at once and
     * leaves the in-progress flag set.
     */
    method UpgradeToBalanced(listed: Result<seq<Model>>, load: string -> Option<AppError>) returns (r: Result<()>)
      modifies this
      ensures old(isLoading) ==> r == Ok(()) && tier == old(tier) && isLoading
      ensures !old(isLoading) && listed.Err? ==> r == Err(listed.error) && tier == old(tier) && isLoading
      ensures !old(isLoading) && listed.Ok? ==> (
        var m := BalancedLlm(listed.value);
        && (m.None? || m.value.filePath.None? ==> r == Ok(()) && tier == old(tier) && !isLoading)
        && (m.Some? && m.value.filePath.Some? && load(m.value.filePath.value).Some? ==>
              r == Err(load(m.value.filePath.value).value) && tier == old(tier) && isLoading)
        && (m.Some? && m.value.filePath.Some? && load(m.value.filePath.value).None? ==>
              r == Ok(()) && tier == Balanced && !isLoading))
      ensures r.Err? ==> isLoading
    {
      if isLoading {
        return Ok(());
      }
      isLoading := true;
      if listed.Err? {
        return Err(listed.error);
      }
      var model := BalancedLlm(listed.value);
      if model.Some? && model.value.filePath.Some? {
        var failure := load(model.value.filePath.value);
        if failure.Some? {
          return Err(failure.value);
        }
        tier := Balanced;
      }
      isLoading := false;
      r := Ok(());
    }

    /**
     * The upgrade with the in-progress flag released on every exit, the
     * way a guard against overlapping upgrades is meant to work: a failed
     * listing or load reports its error and leaves the flag clear.
     */
    method UpgradeToBalancedReleasing(listed: Result<seq<Model>>, load: string -> Option<AppError>) returns (r: Result<()>)
      modifies this
      ensures old(isLoading) ==> r == Ok(()) && tier == old(tier) && isLoading
      ensures !old(isLoading) ==> !isLoading
      ensures !old(isLoading) && listed.Err? ==> r == Err(listed.error) && tier == old(tier)
      ensures !old(isLoading) && listed.Ok? ==> (
        var m := BalancedLlm(listed.value);
        && (m.None? || m.value.filePath.None? ==> r == Ok(()) && tier == old(tier))
        && (m.Some? && m.value.filePath.Some? && load(m.value.filePath.value).Some? ==>
              r == Err(load(m.value.filePath.value).value) && tier == old(tier))
        && (m.Some? && m.value.filePath.Some? && load(m.value.filePath.value).None? ==>
              r == Ok(()) && tier == Balanced))
    {
      if isLoading {
        return Ok(());
      }
      isLoading := true;
      if listed.Err? {
        isLoading := false;
        return Err(listed.error);
      }
      var model := BalancedLlm(listed.value);
      if model.Some? && model.value.filePath.Some? {
        var failure := load(model.value.filePath.value);
        if failure.Some? {
          isLoading := false;
          return Err(failure.value);
        }
        tier := Balanced;
      }
      isLoading := false;
      r := Ok(());
    }

    /** `downgrade_to_light`: back to the light tier; the in-progress flag is untouched. */
    method DowngradeToLight()
      modifies this
      ensures tier == Light && isLoading == old(isLoading)
    {
      tier := Light;
    }
  }

  /**
   * Two upgrades in a row: once the first has failed, the second returns
   * at once and changes nothing, and so does every one after it.
   */
  method UpgradeAfterFailedUpgrade(m: Manager, first: Result<seq<Model>>, second: Result<seq<Model>>,
                                   load: string -> Option<AppError>)
    returns (r1: Result<()>, r2: Result<()>)
    modifies m
    ensures r1.Err? ==> r2 == Ok(()) && m.isLoading && m.tier == old(m.tier)
  {
    r1 := m.UpgradeToBalanced(first, load);
    r2 := m.UpgradeToBalanced(second, load);
  }

  /**
   * With the flag released, an upgrade after a failed one is tried
   * afresh: a second listing with a loadable 3B model reaches the
   * balanced tier.
   */
  method RetryAfterFailedUpgradeReleasing(m: Manager, first: Result<seq<Model>>, second: Result<seq<Model>>,
                                          load: string -> Option<AppError>)
    returns (r1: Result<()>, r2: Result<()>)
    requires !m.isLoading
    modifies m
    ensures !m.isLoading
    ensures (second.Ok? && BalancedLlm(second.value).Some? && BalancedLlm(second.value).value.filePath.Some?
             && load(BalancedLlm(second.value).value.filePath.value).None?)
            ==> r2 == Ok(()) && m.tier == Balanced
  {
    r1 := m.UpgradeToBalancedReleasing(first, load);
    r2 := m.UpgradeToBalancedReleasing(second, load);
  }
}
