/**
 * The conversation service's decisions around one chat turn: the message
 * position, the manual model selection and its fallbacks to automatic
 * routing, the generation budget, the text streamed and stored, and the
 * session title and summary.
 */
module ConversationService {
  import opened Common
  import opened Models
  import opened Errors
  import Governor
  import Inference
  import ModelCommands

  // ---------------------------------------------------------------------
  // Positions, mode and model lookup
  // ---------------------------------------------------------------------

  /** Stored positions increase along the session. */
  predicate AscendingPositions(ms: seq<Message>) {
    forall i, j :: 0 <= i < j < |ms| ==> ms[i].position < ms[j].position
  }

  /**
   * The position after the last stored message, or `empty` when there is
   * none (0 for the user's message, 1 for the assistant's reply).
   */
  function NextPosition(existing: seq<Message>, empty: int): (p: int)
    ensures |existing| == 0 ==> p == empty
    ensures |existing| > 0 ==> p == existing[|existing| - 1].position + 1
    ensures AscendingPositions(existing) && |existing| > 0 ==>
      forall i :: 0 <= i < |existing| ==> existing[i].position < p
  {
    if |existing| == 0 then empty else existing[|existing| - 1].position + 1
  }

  /** `is_manual_selection_mode`: the trimmed mode is "manual", in any case. */
  function IsManualSelectionMode(mode: Option<string>): (b: bool)
    ensures b ==> mode.Some? && |Trim(mode.value)| == 6
    ensures b <==> mode.Some? && EqIgnoreCase(Trim(mode.value), "manual")
  {
    match mode
    case None => false
    case Some(value) => EqIgnoreCase(Trim(value), "manual")
  }

  /** Padding around the mode does not matter. */
  lemma ManualModeIgnoresPadding(s: string)
    ensures IsManualSelectionMode(Some(Trim(s))) == IsManualSelectionMode(Some(s))
  {
    TrimIdempotent(s);
  }

  lemma TrimOfManual()
    ensures Trim("Manual") == "Manual"
  {
    var m := "Manual";
    assert forall i :: 0 <= i < |m| ==> 'A' <= m[i] <= 'z';
    TrimOfNoWs(m);
  }

  lemma LowerOfManual()
    ensures Lower("Manual") == "manual"
  {
    assert LowerChar('M') == 'm';
  }

  /** The capitalised spelling is manual. */
  lemma PlainManualIsManual()
    ensures IsManualSelectionMode(Some("Manual"))
  {
    TrimOfManual();
    LowerOfManual();
  }

  /** Another mode and no mode are automatic. */
  lemma AutoIsNotManual()
    ensures !IsManualSelectionMode(Some("auto"))
    ensures !IsManualSelectionMode(None)
  {
    var a := "auto";
    assert TrimStart(a) == a && TrimEnd(a) == a;
  }

  /** `resolve_selected_model`: nothing for a blank name, else by id, else by name. */
  function ResolveSelectedModel(catalog: seq<Model>, selected: string): (r: Option<Model>)
    ensures IsBlank(selected) ==> r.None?
    ensures !IsBlank(selected) ==>
      (r.Some? <==> ModelCommands.ResolveModel(catalog, Trim(selected)).Ok?)
      && (r.Some? ==> r.value == ModelCommands.ResolveModel(catalog, Trim(selected)).value)
  {
    var normalized := Trim(selected);
    if |normalized| == 0 then None
    else
      var byId := FirstWhere(catalog, (m: Model) => m.id == normalized);
      if byId.Some? then Some(catalog[byId.value])
      else
        var byName := FirstWhere(catalog, (m: Model) => m.name == normalized);
        if byName.Some? then Some(catalog[byName.value]) else None
  }

  /**
   * `resolve_target_model_for_routing`: the routed model when the catalog
   * has that id, else the installed default, else the first installed.
   */
  function TargetForRouting(routing: RoutingDecision, catalog: seq<Model>, installed: seq<Model>): (r: Option<Model>)
    ensures r.Some? ==> r.value in catalog || r.value in installed
    ensures routing.selectedModelId.Some? && (exists i :: 0 <= i < |catalog| && catalog[i].id == routing.selectedModelId.value)
            ==> r.Some? && r.value.id == routing.selectedModelId.value
    ensures (routing.selectedModelId.None? || (forall i :: 0 <= i < |catalog| ==> catalog[i].id != routing.selectedModelId.value))
            ==> ((r.Some? <==> |installed| > 0)
                 && ((exists i :: 0 <= i < |installed| && IsDefault(installed[i])) ==> r.Some? && IsDefault(r.value))
                 && ((forall i :: 0 <= i < |installed| ==> !IsDefault(installed[i])) && |installed| > 0 ==> r == Some(installed[0])))
    ensures r.None? ==> |installed| == 0
  {
    var routed := if routing.selectedModelId.Some?
                  then FirstWhere(catalog, (m: Model) => m.id == routing.selectedModelId.value)
                  else None;
    if routed.Some? then Some(catalog[routed.value])
    else
      var byDefault := FirstWhere(installed, (m: Model) => m.isDefault == 1);
      if byDefault.Some? then Some(installed[byDefault.value])
      else if |installed| > 0 then Some(installed[0])
      else None
  }

  // ---------------------------------------------------------------------
  // Manual selection
  // ---------------------------------------------------------------------

  const NoPickNotice := "Manual model mode was selected without picking a model. Using automatic routing."

  /**
   * The routing after a manual selection: a downloaded model found by id
   * or name replaces the routed model; otherwise the automatic routing
   * stays and a notice says why.
   */
  function ManualSelection(auto: RoutingDecision, selected: Option<string>, catalog: seq<Model>)
    : (r: (RoutingDecision, Option<string>))
    ensures r.1.Some? ==> r.0 == auto
    ensures (selected.None? || IsBlank(selected.value)) ==> r == (auto, Some(NoPickNotice))
    ensures r.1.None? ==> (selected.Some? && !IsBlank(selected.value)
      && ResolveSelectedModel(catalog, selected.value).Some?
      && IsDownloaded(ResolveSelectedModel(catalog, selected.value).value)
      && r.0 == auto.(selectedModelId := Some(ResolveSelectedModel(catalog, selected.value).value.id),
                      selectedModelName := Some(ResolveSelectedModel(catalog, selected.value).value.displayName),
                      reason := auto.reason + "; selection_mode=manual; requested_model="
                                + ResolveSelectedModel(catalog, selected.value).value.name))
    ensures selected.Some? && !IsBlank(selected.value) && ResolveSelectedModel(catalog, selected.value).None? ==>
      r.1 == Some("Selected model '" + Trim(selected.value) + "' was not found. Using automatic routing.")
    ensures (selected.Some? && ResolveSelectedModel(catalog, selected.value).Some?
      && !IsDownloaded(ResolveSelectedModel(catalog, selected.value).value)) ==>
      r.1 == Some("Selected model '" + ResolveSelectedModel(catalog, selected.value).value.displayName
                  + "' is not installed. Using automatic routing.")
  {
    var requested := if selected.Some? then Trim(selected.value) else "";
    if |requested| == 0 then (auto, Some(NoPickNotice))
    else
      match ResolveSelectedModel(catalog, requested)
      case Some(model) =>
        if model.isDownloaded == 1 then
          (auto.(selectedModelId := Some(model.id), selectedModelName := Some(model.displayName),
                 reason := auto.reason + "; selection_mode=manual; requested_model=" + model.name), None)
        else (auto, Some("Selected model '" + model.displayName + "' is not installed. Using automatic routing."))
      case None => (auto, Some("Selected model '" + requested + "' was not found. Using automatic routing."))
  }

  /** Resolving an already trimmed name is resolving the name. */
  lemma ResolveSelectedTrimmed(catalog: seq<Model>, s: string)
    ensures ResolveSelectedModel(catalog, Trim(s)) == ResolveSelectedModel(catalog, s)
  {
    TrimIdempotent(s);
  }

  // ---------------------------------------------------------------------
  // Loading the target
  // ---------------------------------------------------------------------

  /**
   * `ensure_model_loaded`: a model needs a local file; it is loaded
   * unless that file is already the active model.  `load` is the
   * inference engine's load of a path; `None` means success.
   */
  function EnsureModelLoaded(model: Model, activePath: Option<string>, load: string -> Option<AppError>): (r: Option<AppError>)
    ensures model.filePath.None? ==>
      r == Some(Inference("Selected model '" + model.displayName + "' is missing local file path."))
    ensures model.filePath.Some? && activePath == model.filePath ==> r.None?
    ensures model.filePath.Some? && activePath != model.filePath ==> r == load(model.filePath.value)
  {
    match model.filePath
    case None => Some(Inference("Selected model '" + model.displayName + "' is missing local file path."))
    case Some(path) => if activePath.Some? && activePath.value == path then None else load(path)
  }

  datatype Prepared = Prepared(routing: RoutingDecision, notice: Option<string>, target: Option<Model>)

  function LoadFailureContext(model: Model): string {
    "Failed to load selected model '" + model.displayName + "'"
  }

  /**
   * The part of `send_message` that settles the routing: apply a manual
   * selection, then load the routed model.  In manual mode a load failure
   * switches to the automatic target when that is another model; in
   * automatic mode it is ignored.
   */
  method PrepareTarget(auto: RoutingDecision, mode: Option<string>, selected: Option<string>,
                       catalog: seq<Model>, installed: seq<Model>,
                       activePath: Option<string>, load: string -> Option<AppError>)
    returns (r: Result<Prepared>)
    ensures !IsManualSelectionMode(mode) ==> r == Ok(Prepared(auto, None, TargetForRouting(auto, catalog, installed)))
    ensures IsManualSelectionMode(mode) ==> (
      var sel := ManualSelection(auto, selected, catalog);
      var target := TargetForRouting(sel.0, catalog, installed);
      var fallback := TargetForRouting(auto, catalog, installed);
      && (target.None? || EnsureModelLoaded(target.value, activePath, load).None? ==>
          r == Ok(Prepared(sel.0, sel.1, target)))
      && (target.Some? && EnsureModelLoaded(target.value, activePath, load).Some?
          && (fallback.None? || fallback.value.id == target.value.id) ==>
          r == Err(Context(EnsureModelLoaded(target.value, activePath, load).value, LoadFailureContext(target.value))))
      && (target.Some? && EnsureModelLoaded(target.value, activePath, load).Some?
          && fallback.Some? && fallback.value.id != target.value.id
          && EnsureModelLoaded(fallback.value, activePath, load).None? ==>
          r.Ok? && r.value.target == fallback && r.value.routing.selectedModelId == Some(fallback.value.id)
          && r.value.notice == Some("Selected model '" + target.value.displayName + "' could not be loaded. Switched to '"
                                    + fallback.value.displayName + "' automatically."))
      && (target.Some? && EnsureModelLoaded(target.value, activePath, load).Some?
          && fallback.Some? && fallback.value.id != target.value.id
          && EnsureModelLoaded(fallback.value, activePath, load).Some? ==>
          r == Err(Inference("Selected model '" + target.value.displayName + "' failed to load ("
                             + Display(EnsureModelLoaded(target.value, activePath, load).value) + "). Auto fallback '"
                             + fallback.value.displayName + "' also failed to load ("
                             + Display(EnsureModelLoaded(fallback.value, activePath, load).value) + ").")))
      && (r.Err? ==> target.Some? && EnsureModelLoaded(target.value, activePath, load).Some?))
  {
    var manual := IsManualSelectionMode(mode);
    var routing := auto;
    var notice: Option<string> := None;
    if manual {
      var sel := ManualSelection(auto, selected, catalog);
      routing := sel.0;
      notice := sel.1;
    }
    var target := TargetForRouting(routing, catalog, installed);
    if target.Some? {
      var model := target.value;
      var loadError := EnsureModelLoaded(model, activePath, load);
      if loadError.Some? && manual {
        var autoTarget := TargetForRouting(auto, catalog, installed);
        if autoTarget.Some? && autoTarget.value.id != model.id {
          var fallbackModel := autoTarget.value;
          var fallbackError := EnsureModelLoaded(fallbackModel, activePath, load);
          if fallbackError.Some? {
            return Err(Inference("Selected model '" + model.displayName + "' failed to load ("
                                 + Display(loadError.value) + "). Auto fallback '" + fallbackModel.displayName
                                 + "' also failed to load (" + Display(fallbackError.value) + ")."));
          }
          notice := Some("Selected model '" + model.displayName + "' could not be loaded. Switched to '"
                         + fallbackModel.displayName + "' automatically.");
          routing := routing.(selectedModelId := Some(fallbackModel.id),
                              selectedModelName := Some(fallbackModel.displayName),
                              reason := routing.reason + "; fallback=auto_after_manual_load_failure");
          target := Some(fallbackModel);
        } else {
          return Err(Context(loadError.value, LoadFailureContext(model)));
        }
      }
    }
    r := Ok(Prepared(routing, notice, target));
  }

  // ---------------------------------------------------------------------
  // Generation
  // ---------------------------------------------------------------------

  /**
   * The generation options: the defaults with `max_tokens` set to the
   * smaller of the routed budget and the orchestrator's hint, then tuned
   * for the policy, qos and pressure.
   */
  function GenerationOptionsFor(routing: RoutingDecision, maxTokensHint: nat, policy: RuntimePolicy,
                                qos: string, pressure: Pressure, deferBackground: bool): (o: GenerationOptions)
    ensures o.maxTokens <= routing.maxTokens && o.maxTokens <= maxTokensHint
    ensures o.maxTokens <= Governor.LaneCap(policy, deferBackground)
  {
    var base := DefaultGenerationOptions().(maxTokens := Min(routing.maxTokens, maxTokensHint));
    Governor.TuneGeneration(base, policy, qos, pressure, deferBackground)
  }

  /**
   * A failed first generation: in manual mode it retries on the automatic
   * target unless that is already the routed model; in automatic mode it
   * is the turn's error.  `fallbackLoad` and `retry` are what loading the
   * fallback and the second generation give.
   */
  method AfterGenerationFailure(prepared: Prepared, mode: Option<string>, autoTarget: Option<Model>, error: AppError,
                                activePath: Option<string>, load: string -> Option<AppError>,
                                retry: Option<AppError>)
    returns (r: Result<Prepared>)
    ensures !IsManualSelectionMode(mode) ==> r == Err(error)
    ensures autoTarget.None? ==> r == Err(error)
    ensures autoTarget.Some? && prepared.routing.selectedModelId == Some(autoTarget.value.id) ==> r == Err(error)
    ensures (IsManualSelectionMode(mode) && autoTarget.Some? && prepared.routing.selectedModelId != Some(autoTarget.value.id)
      && EnsureModelLoaded(autoTarget.value, activePath, load).None? && retry.Some?) ==> r == Err(retry.value)
    ensures (IsManualSelectionMode(mode) && autoTarget.Some? && prepared.routing.selectedModelId != Some(autoTarget.value.id)
      && EnsureModelLoaded(autoTarget.value, activePath, load).Some?) ==>
      r == Err(Inference("Selected model response failed (" + Display(error) + "). Auto fallback '"
                         + autoTarget.value.displayName + "' also failed ("
                         + Display(EnsureModelLoaded(autoTarget.value, activePath, load).value) + ")."))
    ensures r.Ok? ==> (IsManualSelectionMode(mode) && autoTarget.Some? && retry.None?
      && prepared.routing.selectedModelId != Some(autoTarget.value.id)
      && r.value.routing.selectedModelId == Some(autoTarget.value.id)
      && r.value.notice == Some("Selected model response failed. Switched to '" + autoTarget.value.displayName
                                + "' automatically."))
  {
    if !IsManualSelectionMode(mode) || autoTarget.None? {
      return Err(error);
    }
    var fallbackModel := autoTarget.value;
    if prepared.routing.selectedModelId == Some(fallbackModel.id) {
      return Err(error);
    }
    var fallbackError := EnsureModelLoaded(fallbackModel, activePath, load);
    if fallbackError.Some? {
      return Err(Inference("Selected model response failed (" + Display(error) + "). Auto fallback '"
                           + fallbackModel.displayName + "' also failed (" + Display(fallbackError.value) + ")."));
    }
    var notice := Some("Selected model response failed. Switched to '" + fallbackModel.displayName + "' automatically.");
    var routing := prepared.routing.(selectedModelId := Some(fallbackModel.id),
                                     selectedModelName := Some(fallbackModel.displayName),
                                     reason := prepared.routing.reason + "; fallback=auto_after_manual_generation_failure");
    if retry.Some? {
      return Err(retry.value);
    }
    r := Ok(Prepared(routing, notice, prepared.target));
  }

  /** The tokens of the chunks that are not the final marker, in order. */
  function StreamedTokens(chunks: seq<Inference.StreamChunk>): string {
    if |chunks| == 0 then ""
    else StreamedTokens(chunks[..|chunks| - 1]) + (if chunks[|chunks| - 1].done then "" else chunks[|chunks| - 1].token)
  }

  /** The text shown and stored: the notice and a blank line first, then the streamed tokens. */
  function FullText(notice: Option<string>, chunks: seq<Inference.StreamChunk>): (t: string)
    ensures notice.Some? ==> StartsWith(t, notice.value + "\n\n")
    ensures notice.None? ==> t == StreamedTokens(chunks)
    ensures EndsWith(t, StreamedTokens(chunks))
    ensures |t| == (if notice.Some? then |notice.value| + 2 else 0) + |StreamedTokens(chunks)|
  {
    var prefix := if notice.Some? then notice.value + "\n\n" else "";
    var t := prefix + StreamedTokens(chunks);
    assert t[..|prefix|] == prefix;
    t
  }

  /** An assistant message is stored only for a non-blank reply. */
  function StoredReply(notice: Option<string>, chunks: seq<Inference.StreamChunk>): (r: Option<string>)
    ensures r.Some? <==> !IsBlank(FullText(notice, chunks))
    ensures r.Some? ==> r.value == FullText(notice, chunks)
  {
    var t := FullText(notice, chunks);
    if |Trim(t)| == 0 then None else Some(t)
  }

  /** A notice always makes the reply worth storing. */
  lemma NoticeIsStored(notice: string, chunks: seq<Inference.StreamChunk>)
    requires !IsBlank(notice)
    ensures StoredReply(Some(notice), chunks).Some?
  {
    var t := FullText(Some(notice), chunks);
    BlankIffAllWs(notice);
    var k :| 0 <= k < |notice| && !IsWs(notice[k]);
    assert t[k] == notice[k];
    BlankIffAllWs(t);
  }

  // ---------------------------------------------------------------------
  // Title and summary
  // ---------------------------------------------------------------------

  const DefaultTitle := "New Conversation"

  function Contents(ms: seq<Message>): (cs: seq<string>)
    ensures |cs| == |ms| && forall i :: 0 <= i < |ms| ==> cs[i] == ms[i].content
  {
    if |ms| == 0 then [] else [ms[0].content] + Contents(ms[1..])
  }

  /** The words the title is taken from: those of the first two messages. */
  function TitleWords(messages: seq<Message>): seq<string> {
    SplitWs(Join(Contents(Take(messages, 2)), " "))
  }

  /** `generate_session_title`: the first five words of the first two messages. */
  function GenerateSessionTitle(messages: seq<Message>): (title: string)
    ensures |TitleWords(messages)| == 0 ==> title == DefaultTitle
    ensures |TitleWords(messages)| > 0 ==> SplitWs(title) == Take(TitleWords(messages), 5)
  {
    var words := Take(TitleWords(messages), 5);
    JoinOfWords(words);
    var title := Join(words, " ");
    if |title| == 0 then DefaultTitle else title
  }

  /** Words joined by spaces split back into the same words, and are empty only when there are none. */
  lemma JoinOfWords(ws: seq<string>)
    requires forall k :: 0 <= k < |ws| ==> IsWord(ws[k])
    ensures SplitWs(Join(ws, " ")) == ws
    ensures |ws| > 0 ==> |Join(ws, " ")| > 0
  {
    SplitWsOfJoin(ws);
  }

  /** A title has at most five words. */
  lemma TitleHasAtMostFiveWords(messages: seq<Message>)
    requires |TitleWords(messages)| > 0
    ensures |SplitWs(GenerateSessionTitle(messages))| <= 5
  {
  }

  /** The summary line of one message. */
  function SummaryLine(m: Message): string { m.role + ": " + m.content }

  /** The lines of the summary: the eight newest messages, newest first. */
  function SummaryLines(messages: seq<Message>): (lines: seq<string>)
    ensures |lines| == Min(8, |messages|)
    ensures forall i :: 0 <= i < |lines| ==> lines[i] == SummaryLine(messages[|messages| - 1 - i])
  {
    var newest := Take(Reverse(messages), 8);
    seq(|newest|, i requires 0 <= i < |newest| => SummaryLine(newest[i]))
  }

  /** `summarize_session`: nothing for an empty session, else the summary text. */
  function SessionSummary(messages: seq<Message>): (r: Option<string>)
    ensures r.None? <==> |messages| == 0
    ensures r.Some? ==> r.value == Join(SummaryLines(messages), "\n")
  {
    if |messages| == 0 then None else Some(Join(SummaryLines(messages), "\n"))
  }
}
