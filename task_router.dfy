/**
 * The task router: normalises or infers the task type and QoS class of a
 * request, picks an installed model by a fixed ladder, builds the fallback
 * chain, and composes the routing decision with the governor's tuning.
 */
module TaskRouter {
  import opened Common
  import opened Models
  import opened Governor
  import opened Errors

  const TaskTypes: seq<string> := ["chat", "code", "reasoning", "retrieval_heavy", "tool_heavy"]
  const QosClasses: seq<string> := ["fast", "balanced", "max_quality"]

  /** `normalize_task_type`. */
  function NormalizeTaskType(value: string): (r: string)
    ensures r in TaskTypes
    ensures Lower(Trim(value)) in TaskTypes ==> r == Lower(Trim(value))
    ensures Lower(Trim(value)) !in TaskTypes ==> r == "chat"
  {
    AllowListed(value, TaskTypes, "chat")
  }

  /** `normalize_qos`. */
  function NormalizeQos(value: string): (r: string)
    ensures r in QosClasses
    ensures Lower(Trim(value)) in QosClasses ==> r == Lower(Trim(value))
    ensures Lower(Trim(value)) !in QosClasses ==> r == "balanced"
  {
    AllowListed(value, QosClasses, "balanced")
  }

  lemma NormalizeTaskTypeIdempotent(value: string)
    ensures NormalizeTaskType(NormalizeTaskType(value)) == NormalizeTaskType(value)
  {
    AllowListedIdempotent(value, TaskTypes, "chat");
  }

  lemma NormalizeQosIdempotent(value: string)
    ensures NormalizeQos(NormalizeQos(value)) == NormalizeQos(value)
  {
    AllowListedIdempotent(value, QosClasses, "balanced");
  }

  /** A listed task type passes `normalize_task_type` unchanged. */
  lemma ListedTaskTypeUnchanged(t: string)
    requires t in TaskTypes
    ensures NormalizeTaskType(t) == t
  {
    PlainWordCanonical(t);
  }

  /** A listed QoS class passes `normalize_qos` unchanged. */
  lemma ListedQosUnchanged(q: string)
    requires q in QosClasses
    ensures NormalizeQos(q) == q
  {
    PlainWordCanonical(q);
  }

  const CodeMarkers: seq<string> := ["debug", "error", "stack trace", "refactor"]
  const ReasoningMarkers: seq<string> := ["analy", "reason", "compare", "tradeoff"]
  const RetrievalMarkers: seq<string> := ["document", "source", "citation"]
  const ToolMarkers: seq<string> := ["tool", "calendar", "spotify", "run"]

  /** `infer_task_type`: the first marker group the lower-cased content hits. */
  function InferTaskType(content: string): (r: string)
    ensures r in TaskTypes
    ensures var q := Lower(content);
      && (r == "code" <==> ContainsAny(q, CodeMarkers))
      && (r == "reasoning" <==> !ContainsAny(q, CodeMarkers) && ContainsAny(q, ReasoningMarkers))
      && (r == "retrieval_heavy" <==>
            !ContainsAny(q, CodeMarkers) && !ContainsAny(q, ReasoningMarkers) && ContainsAny(q, RetrievalMarkers))
      && (r == "tool_heavy" <==>
            !ContainsAny(q, CodeMarkers) && !ContainsAny(q, ReasoningMarkers)
            && !ContainsAny(q, RetrievalMarkers) && ContainsAny(q, ToolMarkers))
      && (r == "chat" <==>
            !ContainsAny(q, CodeMarkers) && !ContainsAny(q, ReasoningMarkers)
            && !ContainsAny(q, RetrievalMarkers) && !ContainsAny(q, ToolMarkers))
  {
    var q := Lower(content);
    if ContainsAny(q, CodeMarkers) then "code"
    else if ContainsAny(q, ReasoningMarkers) then "reasoning"
    else if ContainsAny(q, RetrievalMarkers) then "retrieval_heavy"
    else if ContainsAny(q, ToolMarkers) then "tool_heavy"
    else "chat"
  }

  /** `default_qos`. */
  function DefaultQos(task: string): (r: string)
    ensures r in QosClasses
    ensures r == "max_quality" <==> task == "reasoning"
    ensures r == "fast" <==> task == "tool_heavy"
  {
    if task == "reasoning" then "max_quality" else if task == "tool_heavy" then "fast" else "balanced"
  }

  /** `base_max_tokens`. */
  function BaseMaxTokens(task: string): (n: nat)
    ensures 384 <= n <= 1024
    ensures task !in TaskTypes ==> n == 512
  {
    if task == "reasoning" then 1024
    else if task == "code" then 768
    else if task == "retrieval_heavy" then 640
    else if task == "tool_heavy" then 384
    else 512
  }

  // ---------------------------------------------------------------------
  // Model selection
  // ---------------------------------------------------------------------

  /** Index of the first model satisfying the default flag. */
  function FirstDefaultIndex(s: seq<Model>): (r: Option<nat>)
    ensures r.Some? ==> r.value < |s| && IsDefault(s[r.value]) && forall j :: 0 <= j < r.value ==> !IsDefault(s[j])
    ensures r.None? ==> forall j :: 0 <= j < |s| ==> !IsDefault(s[j])
  {
    if |s| == 0 then None
    else if IsDefault(s[0]) then Some(0)
    else
      var r := FirstDefaultIndex(s[1..]);
      if r.Some? then Some(r.value + 1) else None
  }

  /** Index of the first model of the given performance tier. */
  function FirstTierIndex(s: seq<Model>, tier: string): (r: Option<nat>)
    ensures r.Some? ==>
      (r.value < |s| && s[r.value].performanceTier == tier
       && forall j :: 0 <= j < r.value ==> s[j].performanceTier != tier)
    ensures r.None? ==> forall j :: 0 <= j < |s| ==> s[j].performanceTier != tier
  {
    if |s| == 0 then None
    else if s[0].performanceTier == tier then Some(0)
    else
      var r := FirstTierIndex(s[1..], tier);
      if r.Some? then Some(r.value + 1) else None
  }

  /**
   * `filter(tier != "fast").max_by_key(context_length)`: the LAST non-fast
   * model of maximal context length.
   */
  function BestContextIndex(s: seq<Model>): (r: Option<nat>)
    ensures r.None? <==> forall j :: 0 <= j < |s| ==> s[j].performanceTier == "fast"
    ensures r.Some? ==> r.value < |s| && s[r.value].performanceTier != "fast"
    ensures r.Some? ==> forall j :: 0 <= j < |s| && s[j].performanceTier != "fast" ==>
      s[j].contextLength <= s[r.value].contextLength
    ensures r.Some? ==> forall j :: r.value < j < |s| && s[j].performanceTier != "fast" ==>
      s[j].contextLength < s[r.value].contextLength
  {
    if |s| == 0 then None
    else
      var prev := BestContextIndex(s[..|s| - 1]);
      var last := |s| - 1;
      assert forall j :: 0 <= j < last ==> s[..last][j] == s[j];
      if s[last].performanceTier == "fast" then prev
      else if prev.None? || s[last].contextLength >= s[prev.value].contextLength then Some(last)
      else prev
  }

  function At(s: seq<Model>, i: Option<nat>): Option<Model>
    requires i.Some? ==> i.value < |s|
  {
    if i.Some? then Some(s[i.value]) else None
  }

  /** `select_model`: the selection ladder over the installed models. */
  function SelectModel(installed: seq<Model>, task: string, qos: string): (r: Option<Model>)
    ensures r.None? <==> |installed| == 0
    ensures r.Some? ==> r.value in installed
    ensures FirstDefaultIndex(installed).Some? && qos == "balanced" && task == "chat" ==>
      r == At(installed, FirstDefaultIndex(installed))
    ensures (!(FirstDefaultIndex(installed).Some? && qos == "balanced" && task == "chat")
             && qos == "fast" && FirstTierIndex(installed, "fast").Some?) ==>
      r == At(installed, FirstTierIndex(installed, "fast"))
  {
    if |installed| == 0 then None
    else
      var def := FirstDefaultIndex(installed);
      if def.Some? && qos == "balanced" && task == "chat" then At(installed, def)
      else
        var fast := FirstTierIndex(installed, "fast");
        if qos == "fast" && fast.Some? then At(installed, fast)
        else
          var best := BestContextIndex(installed);
          if (qos == "max_quality" || task == "reasoning") && best.Some? then At(installed, best)
          else if def.Some? then At(installed, def)
          else Some(installed[0])
  }

  /** Max-quality or reasoning requests get a non-fast model with the largest context, if any exists. */
  lemma QualityPicksLargestContext(installed: seq<Model>, task: string, qos: string)
    requires qos == "max_quality" || task == "reasoning"
    requires qos != "fast"
    requires !(qos == "balanced" && task == "chat")
    requires exists j :: 0 <= j < |installed| && installed[j].performanceTier != "fast"
    ensures var r := SelectModel(installed, task, qos);
      && r.Some? && r.value.performanceTier != "fast"
      && forall j :: 0 <= j < |installed| && installed[j].performanceTier != "fast" ==>
           installed[j].contextLength <= r.value.contextLength
  {
  }

  /** Otherwise the default model wins, else the first installed one. */
  lemma FallbackPicksDefaultOrFirst(installed: seq<Model>, task: string, qos: string)
    requires |installed| > 0
    requires qos != "fast" && qos != "max_quality" && task != "reasoning"
    ensures var r := SelectModel(installed, task, qos);
      if FirstDefaultIndex(installed).Some? then r == At(installed, FirstDefaultIndex(installed))
      else r == Some(installed[0])
  {
  }

  function Ids(s: seq<Model>): (ids: seq<string>)
    ensures |ids| == |s| && forall i :: 0 <= i < |s| ==> ids[i] == s[i].id
  {
    if |s| == 0 then [] else [s[0].id] + Ids(s[1..])
  }

  /** Ids of the installed models in order, without the selected one. */
  function IdsExcept(s: seq<Model>, selected: Option<string>): (ids: seq<string>)
    ensures |ids| <= |s|
    ensures selected.Some? ==> selected.value !in ids
    ensures forall x :: x in ids ==> x in Ids(s)
    ensures selected.None? ==> ids == Ids(s)
  {
    if |s| == 0 then []
    else
      var rest := IdsExcept(s[1..], selected);
      assert Ids(s) == [s[0].id] + Ids(s[1..]);
      if selected.Some? && selected.value == s[0].id then rest else [s[0].id] + rest
  }

  /** `fallback_chain`: the first three other installed ids, in installed order. */
  function FallbackChain(installed: seq<Model>, selected: Option<string>): (chain: seq<string>)
    ensures |chain| <= 3
    ensures selected.Some? ==> selected.value !in chain
    ensures forall x :: x in chain ==> x in Ids(installed)
    ensures chain == Take(IdsExcept(installed, selected), 3)
    ensures selected.None? ==> chain == Take(Ids(installed), 3)
  {
    Take(IdsExcept(installed, selected), 3)
  }

  // ---------------------------------------------------------------------
  // route / preview
  // ---------------------------------------------------------------------

  function ResolvedTask(content: string, taskType: Option<string>): (t: string)
    ensures t in TaskTypes
  {
    if taskType.Some? then NormalizeTaskType(taskType.value) else InferTaskType(content)
  }

  function ResolvedQos(task: string, qos: Option<string>): (q: string)
    ensures q in QosClasses
  {
    if qos.Some? then NormalizeQos(qos.value) else DefaultQos(task)
  }

  function SelectedId(m: Option<Model>): Option<string> { if m.Some? then Some(m.value.id) else None }
  function SelectedName(m: Option<Model>): Option<string> { if m.Some? then Some(m.value.displayName) else None }

  /** `format!("task={}, qos={}, pressure={}, fallback={}", ..)`. */
  function RouteReason(task: string, qos: string, pressure: Pressure, fallbackLen: nat): string {
    "task=" + task + ", qos=" + qos + ", pressure=" + PressureName(pressure) + ", fallback=" + NatToString(fallbackLen)
  }

  /**
   * The routing decision for the given request, resolved policy, pressure
   * level and installed models, with `reason` supplied by the caller.
   */
  function Decide(content: string, taskType: Option<string>, qos: Option<string>, policy: RuntimePolicy,
                  pressure: Pressure, installed: seq<Model>, isBackground: bool, reason: string): (d: RoutingDecision)
    ensures d.taskType in TaskTypes && d.qos in QosClasses
    ensures d.maxTokens <= BaseMaxTokens(d.taskType) && d.maxTokens <= LaneCap(policy, isBackground)
    ensures |d.fallbackChain| <= 3
    ensures d.selectedModelId.Some? ==> d.selectedModelId.value !in d.fallbackChain
    ensures d.selectedModelId.None? <==> |installed| == 0
    ensures d.pressureLevel == PressureName(pressure) && d.reason == reason
  {
    var task := ResolvedTask(content, taskType);
    var requestedQos := ResolvedQos(task, qos);
    var selected := SelectModel(installed, task, requestedQos);
    var base := DefaultGenerationOptions().(maxTokens := BaseMaxTokens(task));
    var tuned := TuneGeneration(base, policy, requestedQos, pressure, isBackground);
    var chain := FallbackChain(installed, SelectedId(selected));
    RoutingDecision(task, requestedQos, SelectedId(selected), SelectedName(selected), tuned.maxTokens,
      PressureName(pressure), reason, chain)
  }

  /** `preview`: the interactive decision with reason "preview". */
  function Preview(content: string, taskType: Option<string>, qos: Option<string>, policy: RuntimePolicy,
                   pressure: Pressure, installed: seq<Model>): (d: RoutingDecision)
    ensures d.reason == "preview"
  {
    Decide(content, taskType, qos, policy, pressure, installed, false, "preview")
  }

  /** One row of `routing_events`. */
  datatype RouteEvent = RouteEvent(userId: string, sessionId: Option<string>, decision: RoutingDecision)

  class Router {
    /** The `routing_events` audit table. */
    var events: seq<RouteEvent>

    constructor ()
      ensures events == []
    {
      events := [];
    }

    /**
     * `route`: reads the policy and the installed models (`policy` and
     * `listed`, either of which may have failed), classifies the pressure
     * of the governor's live sample `stats` under that policy, decides, then appends
     * the audit row; when the insert fails (`auditOk` false) the error is
     * dropped and the decision still returned.
     */
    method Route(userId: string, sessionId: Option<string>, content: string, taskType: Option<string>,
                 qos: Option<string>, policy: Result<RuntimePolicy>, stats: LiveSystemStats, listed: Result<seq<Model>>,
                 isBackground: bool, auditOk: bool) returns (r: Result<RoutingDecision>)
      modifies this
      ensures policy.Err? ==> r == Err(policy.error) && events == old(events)
      ensures policy.Ok? && listed.Err? ==> r == Err(listed.error) && events == old(events)
      ensures policy.Ok? && listed.Ok? ==>
        var task := ResolvedTask(content, taskType);
        var q := ResolvedQos(task, qos);
        var chain := FallbackChain(listed.value, SelectedId(SelectModel(listed.value, task, q)));
        var pressure := ClassifyPressure(stats, policy.value);
        r == Ok(Decide(content, taskType, qos, policy.value, pressure, listed.value, isBackground,
                       RouteReason(task, q, pressure, |chain|)))
      ensures r.Ok? && auditOk ==> events == old(events) + [RouteEvent(userId, sessionId, r.value)]
      ensures r.Ok? && !auditOk ==> events == old(events)
    {
      var task := ResolvedTask(content, taskType);
      var requestedQos := ResolvedQos(task, qos);
      if policy.Err? {
        return Err(policy.error);
      }
      if listed.Err? {
        return Err(listed.error);
      }
      var pressure := ClassifyPressure(stats, policy.value);
      var installed := listed.value;
      var selected := SelectModel(installed, task, requestedQos);
      var chain := FallbackChain(installed, SelectedId(selected));
      var d := Decide(content, taskType, qos, policy.value, pressure, installed, isBackground,
                      RouteReason(task, requestedQos, pressure, |chain|));
      if auditOk {
        events := events + [RouteEvent(userId, sessionId, d)];
      }
      r := Ok(d);
    }
  }

  /** `preview` agrees with an interactive `route` on everything but the reason. */
  lemma PreviewMatchesRoute(content: string, taskType: Option<string>, qos: Option<string>, policy: RuntimePolicy,
                            pressure: Pressure, installed: seq<Model>, reason: string)
    ensures Preview(content, taskType, qos, policy, pressure, installed)
         == Decide(content, taskType, qos, policy, pressure, installed, false, reason).(reason := "preview")
  {
  }

  /** "Debug this Rust function: ..." starts with "debug", so it routes as code, balanced, 768 tokens. */
  lemma DebugQueryRoutesAsCode()
    ensures InferTaskType(DebugQuery) == "code"
    ensures DefaultQos("code") == "balanced" && BaseMaxTokens("code") == 768
  {
    DebugQueryHasCodeMarker();
  }

  const DebugQuery: string := "Debug" + " this Rust function: fn add(a,b) { a+b }"

  lemma DebugQueryHasCodeMarker()
    ensures ContainsAny(Lower(DebugQuery), CodeMarkers)
  {
    LowerPrefixContained("Debug", " this Rust function: fn add(a,b) { a+b }");
    assert "Debug"[0] == 'D';
    assert Lower("Debug") == CodeMarkers[0];
  }
}
