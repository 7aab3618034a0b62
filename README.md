# Sarah runtime core in Dafny

Sarah is a desktop AI assistant. Its Tauri back end runs a local LLM, a
retrieval pipeline, long-term memories and MCP tool servers on the user's
own machine. This project models the decision logic of that back end and
proves properties of the model. It covers:

- how the app judges the machine: device tiers, live pressure, the runtime
  governor's token budgets and policy patches, and the adaptive memory
  manager that unloads a model under pressure;
- how one request is planned: the query classifier, the usage learner, the
  predictive preloader, the task router's model ladder and fallback chain,
  and the runtime orchestrator that composes them;
- how a chat turn is prepared: the conversation service's manual model
  selection and its fallbacks, the context trimming, the repository's
  token-budgeted window, the Llama-3 prompt, memory extraction and the MCP
  routing of a query;
- the stored data: the embedding blob codec, the compact encrypted-secret
  form, the setup store, the download tracker and the analytics cell;
- start-up and background work: `AppState::initialize`'s decisions, the
  background worker's gating, the model manager's light and balanced tiers,
  and the first-run setup with its quality upgrade;
- the command layer's text handling: spoken audio commands, search results,
  model file names, the Spotify MCP scripts and the OAuth flow.

Each Rust source file of the core is one Dafny module named after it, in a
file of the same stem; `Common` and `Models` hold the shared helpers and
records:

| Rust file (under src-tauri/src) | Dafny module |
|---|---|
| commands/integration_commands.rs | IntegrationCommands |
| commands/local_commands.rs | LocalCommands |
| commands/model_commands.rs | ModelCommands |
| commands/runtime_commands.rs | RuntimeCommands |
| error.rs | Errors |
| repositories/conversation_repo.rs | ConversationRepo |
| repositories/mod.rs | Blob |
| services/adaptive_memory_manager.rs | MemoryManager |
| services/analytics_service.rs | Analytics |
| services/background_service.rs | Background |
| services/context_service.rs | Context |
| services/conversation_service.rs | ConversationService |
| services/crypto_service.rs | Crypto |
| services/hardware_service.rs | Hardware |
| services/inference_service.rs | Inference |
| services/intent_service.rs | Intent |
| services/mcp_service.rs | McpService |
| services/memory_service.rs | Memory |
| services/model_manager_service.rs | ModelManager |
| services/predictive_preloader.rs | Preloader |
| services/rag_service.rs | Rag |
| services/recommendation_service.rs | Recommendation |
| services/runtime_governor_service.rs | Governor |
| services/runtime_orchestrator_service.rs | Orchestrator |
| services/setup_orchestrator_service.rs | Setup |
| services/smart_query_classifier.rs | QueryClassifier |
| services/task_router_service.rs | TaskRouter |
| services/usage_learner.rs | UsageLearner |
| state.rs | AppState |
 Pure Rust functions are Dafny functions and lemmas. Services that
mutate their own state are classes with `modifies` and `reads` frames. The
Rust loops are methods with invariants, proved against specification
functions.

Modelling conventions:

- `f32` and `f64` are reals; `round` is floor of x + 1/2, and `{:.2}`
  rounds the magnitude to hundredths with an exact tie going to the even
  hundredth.
- Strings are ASCII: a byte length is a character count, and `to_lowercase`
  changes only A to Z.
- Clocks, the database, the network, processes and the llama.cpp engine are
  parameters or pre-computed results handed to the operations.

## Model

| member | source | states |
|---|---|---|
| Governor.MemoryPct | src-tauri/src/services/runtime_governor_service.rs:113-117 | the memory percentage is 0 when the total is unknown (0), never negative, and at most 100 while used ≤ total |
| Governor.ClassifyPressure | src-tauri/src/services/runtime_governor_service.rs:112-130 | exactly one level: critical iff cpu ≥ 95 or mem ≥ 93; high iff not critical and a policy threshold is reached; warm iff neither and cpu ≥ 70 or mem ≥ 75; normal otherwise |
| Governor.CriticalWhateverThePolicy | src-tauri/src/services/runtime_governor_service.rs:120-122 | cpu ≥ 95 or mem ≥ 93 gives critical under any two policies |
| Governor.ZeroTotalMemoryCpuDecides | src-tauri/src/services/runtime_governor_service.rs:113-130 | with memory total 0, two snapshots with the same CPU figure get the same level |
| Governor.ClassifyMonotone | src-tauri/src/services/runtime_governor_service.rs:120-129 | more CPU and memory load never gives a lower level |
| Governor.DefaultStatsAreNormal | src-tauri/src/services/runtime_governor_service.rs:112-130 | the all-zero default snapshot is normal pressure under the default policy and any policy with positive thresholds |
| Governor.TuneGeneration | src-tauri/src/services/runtime_governor_service.rs:132-168 | tuned max_tokens ≤ base and ≤ the lane cap, ≤ max(budget, 96) and ≥ min(base, cap, 96); top_p kept; temperature 0.1 exactly for qos "fast", else unchanged |
| Governor.TuneBudgetMonotone | src-tauri/src/services/runtime_governor_service.rs:152-159 | the scaled budget round(cap·qos·pressure) never grows as pressure rises |
| Governor.TuneMonotoneInPressure | src-tauri/src/services/runtime_governor_service.rs:152-161 | for fixed base, policy, qos and lane, tuned max_tokens is non-increasing from normal to critical |
| Governor.TuneFastCriticalExample | src-tauri/src/services/runtime_governor_service.rs:146-161 | default policy, base 512, qos fast, critical: max_tokens is 184 |
| Governor.PatchNat | src-tauri/src/services/runtime_governor_service.rs:178-192 | an absent field keeps its value, a present one lands in [lo, hi] and is kept when already inside |
| Governor.ApplyPatch | src-tauri/src/services/runtime_governor_service.rs:171-196 | the field-by-field update equals the patched policy; a present cpu field lies in [50, 99] and a present interactive budget in [96, 4096]; absent fields are unchanged |
| Governor.PatchIdempotent | src-tauri/src/services/runtime_governor_service.rs:171-196 | applying a patch twice equals applying it once |
| Governor.PatchPreservesRanges | src-tauri/src/services/runtime_governor_service.rs:171-196 | a policy inside every clamp range stays inside after any patch |
| Governor.FullPatchWithinRanges | src-tauri/src/services/runtime_governor_service.rs:171-192 | a patch with every clamped field present puts every field into its range, whatever the old policy |
| Governor.DefaultPatchIsIdentity | src-tauri/src/services/runtime_governor_service.rs:171-196 | the empty patch changes nothing |
| Governor.DefaultPolicyPatchFixedPoint | src-tauri/src/services/runtime_governor_service.rs:171-196 | the default policy is inside every range, so patching with all its values yields exactly the default |
| Governor.SelectedRow | src-tauri/src/services/runtime_governor_service.rs:29-52 | the user's row when it exists, else the global row, else none |
| Governor.MalformedUserRowYieldsDefault | src-tauri/src/services/runtime_governor_service.rs:37-57 | a user row that does not parse gives the default policy, not the global row |
| Governor.UserWithoutRowSeesGlobal | src-tauri/src/services/runtime_governor_service.rs:29-52 | a user without a row resolves exactly like a caller without a user |
| Governor.PolicyRead | src-tauri/src/services/runtime_governor_service.rs:28-59 | succeeds iff neither query that runs fails (the global one runs only without a user or without a user row); a success is the resolved policy; the user query's error comes first |
| Governor.OwnRowIgnoresGlobalQuery | src-tauri/src/services/runtime_governor_service.rs:29-43 | a user with its own row gets it whatever the global query would have done |
| Governor.PolicyStore.GetPolicy | src-tauri/src/services/runtime_governor_service.rs:28-59 | answers PolicyRead: a failing query that runs is returned; otherwise the parsed user row, else the parsed global row, else the default |
| Governor.PolicyStore.SetPolicy | src-tauri/src/services/runtime_governor_service.rs:61-106 | a read, update or insert error is returned and leaves every row as it was; a success is the resolved policy patched, only the caller's own row changes, to the result, which is what the caller then resolves |
| Governor.TunePressureFactor | src-tauri/src/services/runtime_governor_service.rs:151-156 | the pressure factor lies in (0, 1] |
| Governor.TunePressureFactorAntitone | src-tauri/src/services/runtime_governor_service.rs:151-156 | the factor never grows as pressure rises from normal to critical |
| Governor.PatchReal | src-tauri/src/services/runtime_governor_service.rs:171-177 | an absent field keeps its value, a present one lands in [50, 99] and is kept when already inside |
| Governor.PolicyStore.constructor | src-tauri/src/services/runtime_governor_service.rs:16-26 | a new store holds no policy rows |
| Orchestrator.DynamicMaxTokens | src-tauri/src/services/runtime_orchestrator_service.rs:254-257 | 512 plus 100 per whole GB of (saturating) free memory, so never below 512 |
| Orchestrator.TierTokenCap | src-tauri/src/services/runtime_orchestrator_service.rs:259-302 | the tier's interactive ceiling (128 … 16384), never below 128 |
| Orchestrator.TierBudget | src-tauri/src/services/runtime_orchestrator_service.rs:259-302 | interactive tokens are min(dynamic, tier cap); every other component at its floor or above |
| Orchestrator.TierBudgetMonotone | src-tauri/src/services/runtime_orchestrator_service.rs:259-302 | a stronger tier never gets a smaller component |
| Orchestrator.BudgetFactor | src-tauri/src/services/runtime_orchestrator_service.rs:307-312 | the factor lies in [0.5, 1.0] and is 1.0 exactly under normal pressure |
| Orchestrator.ScaledTokens | src-tauri/src/services/runtime_orchestrator_service.rs:323-328 | rounding x·f with f ≤ 1 never exceeds x, and f = 1 keeps x |
| Orchestrator.ScaledTokensMonotone | src-tauri/src/services/runtime_orchestrator_service.rs:323-328 | a larger factor never scales to fewer tokens |
| Orchestrator.ScaleBudget | src-tauri/src/services/runtime_orchestrator_service.rs:304-346 | floors 96 / 64 / 1 / 1; caps by the tier budget and by the policy (the token caps when the policy value is ≥ the floor); critical pressure gives ≤ 3 candidates, other levels exactly min(tier, policy) |
| Orchestrator.ScaleBudgetAntitone | src-tauri/src/services/runtime_orchestrator_service.rs:307-335 | more pressure never grants more tokens or candidates and leaves concurrency unchanged |
| Orchestrator.ComputeBudget | src-tauri/src/services/runtime_orchestrator_service.rs:252-347 | interactive ≥ 96, background ≥ 64, concurrencies ≥ 1; interactive ≤ max(tier cap, 96) and ≤ max(dynamic, 96); policy caps; critical pressure gives ≤ 3 candidates |
| Orchestrator.ComputeBudgetAntitone | src-tauri/src/services/runtime_orchestrator_service.rs:252-347 | with equal free memory, the sample under more pressure gets no more tokens and no more candidates |
| Orchestrator.InferTaskTypeFromCategory | src-tauri/src/services/runtime_orchestrator_service.rs:366-376 | an allow-listed task type; "code" exactly for Code, "chat" exactly for Creative, Simple and Medium, "reasoning" otherwise |
| Orchestrator.InferQosFromCategory | src-tauri/src/services/runtime_orchestrator_service.rs:378-387 | an allow-listed class; "fast" exactly for Simple, "max_quality" exactly for Complex, Code, Math and Analytical |
| Orchestrator.InferredPassesSanitizers | src-tauri/src/services/runtime_orchestrator_service.rs:350-387 | an inferred task type and qos pass the sanitisers unchanged |
| Orchestrator.HintFactor | src-tauri/src/services/runtime_orchestrator_service.rs:163-168 | the factor lies in [0.45, 1.0] and is 1.0 exactly under normal pressure |
| Orchestrator.PlanMaxTokens | src-tauri/src/services/runtime_orchestrator_service.rs:159-170 | the hint lies in [96, budget] (safe because the budget is ≥ 96), never above max(category hint, 96), and is the clamped min(hint, budget) under normal pressure |
| Orchestrator.PlanMaxTokensAntitone | src-tauri/src/services/runtime_orchestrator_service.rs:163-170 | more pressure never yields a larger hint |
| Orchestrator.Plan | src-tauri/src/services/runtime_orchestrator_service.rs:148-185 | explicit task/qos are sanitised, absent ones inferred from the category; the hint lies in [96, budget interactive]; the level is the governor's; deferral iff allowed, the policy defers and the level is high or critical |
| Orchestrator.RuntimeOrchestrator.StartBackgroundLoops | src-tauri/src/services/runtime_orchestrator_service.rs:120-128 | memory manager and preloader are enabled exactly per their feature gates; queued samples and jobs untouched |
| Orchestrator.RuntimeOrchestrator.ObserveQuery | src-tauri/src/services/runtime_orchestrator_service.rs:138-145 | the category is a valid classification, stored in the bounded history; the learner counts one more query and one more session |
| Orchestrator.RuntimeOrchestrator.RecordWithPreloader | src-tauri/src/services/runtime_orchestrator_service.rs:146 | an enabled preloader appends the query's sample to its bounded queue; a disabled one keeps the queue |
| Orchestrator.RuntimeOrchestrator.PlanRequest | src-tauri/src/services/runtime_orchestrator_service.rs:130-186 | the request is the plan of the stored category under the user's resolved policy, with the classifier's context hint after storing; the preloader samples as above |
| Orchestrator.RuntimeOrchestrator.MaybePreloadModel | src-tauri/src/services/runtime_orchestrator_service.rs:188-195 | nothing happens with the feature off; otherwise a preload starts iff the preloader's own conditions hold |
| Orchestrator.RuntimeOrchestrator.RecordModelUsage | src-tauri/src/services/runtime_orchestrator_service.rs:197-199 | the learner's count for the model rises by one, saturating at the u64 maximum |
| Orchestrator.RuntimeOrchestrator.GetRuntimeProfile | src-tauri/src/services/runtime_orchestrator_service.rs:201-220 | a `get_policy` error is returned; otherwise the resolved policy, its budget from the first live sample and its pressure level from the second; low-safe startup iff the active tier is Low or Minimal; tier names and gates as configured |
| Orchestrator.RuntimeOrchestrator.GetServiceHealth | src-tauri/src/services/runtime_orchestrator_service.rs:222-231 | both readiness flags set; the enabled flags and memory stats as the services report; at most 128 recent samples |
| Orchestrator.RuntimeOrchestrator.GetOptimizationStats | src-tauri/src/services/runtime_orchestrator_service.rs:233-250 | the learner's figures and suggestions, the recommended window, preferences, and a distribution of the active history |
| Orchestrator.RuntimeOrchestrator.constructor | src-tauri/src/services/runtime_orchestrator_service.rs:96-118 | the orchestrator holds exactly the services, tiers and feature gates it is given, in a consistent state |
| TaskRouter.NormalizeTaskType | src-tauri/src/services/task_router_service.rs:156-163 | an allow-listed task type: the trimmed lower-cased value when listed, else "chat" |
| TaskRouter.NormalizeQos | src-tauri/src/services/task_router_service.rs:165-170 | an allow-listed class: the trimmed lower-cased value when listed, else "balanced" |
| TaskRouter.NormalizeTaskTypeIdempotent | src-tauri/src/services/task_router_service.rs:156-163 | normalising twice equals normalising once |
| TaskRouter.NormalizeQosIdempotent | src-tauri/src/services/task_router_service.rs:165-170 | normalising twice equals normalising once |
| TaskRouter.ListedTaskTypeUnchanged | src-tauri/src/services/task_router_service.rs:157-159 | a listed task type is its own normal form |
| TaskRouter.ListedQosUnchanged | src-tauri/src/services/task_router_service.rs:166-167 | a listed class is its own normal form |
| TaskRouter.InferTaskType | src-tauri/src/services/task_router_service.rs:172-195 | first-match ladder on the lower-cased content: code, then reasoning, retrieval_heavy, tool_heavy, else chat, each iff its markers hit and no earlier group's did |
| TaskRouter.DefaultQos | src-tauri/src/services/task_router_service.rs:197-203 | max_quality exactly for reasoning, fast exactly for tool_heavy, else balanced |
| TaskRouter.BaseMaxTokens | src-tauri/src/services/task_router_service.rs:205-213 | between 384 and 1024; 512 for an unlisted task |
| TaskRouter.FirstDefaultIndex | src-tauri/src/services/task_router_service.rs:224-248 | the first model flagged default, or none when no model is |
| TaskRouter.FirstTierIndex | src-tauri/src/services/task_router_service.rs:231 | the first model of the given performance tier, or none |
| TaskRouter.BestContextIndex | src-tauri/src/services/task_router_service.rs:237-240 | none iff every model is fast; else a non-fast model of maximal context length with every later non-fast model strictly shorter (ties go to the last) |
| TaskRouter.SelectModel | src-tauri/src/services/task_router_service.rs:215-251 | none iff nothing is installed, else an installed model; balanced chat with a default picks the default; else qos fast picks the first fast model when there is one |
| TaskRouter.QualityPicksLargestContext | src-tauri/src/services/task_router_service.rs:236-244 | max_quality or reasoning (outside the earlier rungs) picks a non-fast model whose context no non-fast model exceeds |
| TaskRouter.FallbackPicksDefaultOrFirst | src-tauri/src/services/task_router_service.rs:246-250 | past the special rungs, the default model, else the first installed one |
| TaskRouter.IdsExcept | src-tauri/src/services/task_router_service.rs:254-257 | installed ids in order without the selected one; all ids when nothing is selected |
| TaskRouter.FallbackChain | src-tauri/src/services/task_router_service.rs:253-260 | at most 3 installed ids, never the selected one, the first 3 others in installed order; the first 3 ids when nothing is selected |
| TaskRouter.Decide | src-tauri/src/services/task_router_service.rs:38-78 | allow-listed task and qos; max_tokens ≤ the task's base and ≤ the lane cap; chain ≤ 3 without the selection; no selection iff nothing is installed |
| TaskRouter.Preview | src-tauri/src/services/task_router_service.rs:86-124 | the interactive decision with reason "preview" |
| TaskRouter.Router.Route | src-tauri/src/services/task_router_service.rs:29-84 | a policy or installed-model read error is returned and nothing is recorded; otherwise the decision under the pressure the live sample has under the read policy, with the formatted reason, the audit row appended when the insert succeeds, and a failed insert still returns the decision |
| TaskRouter.PreviewMatchesRoute | src-tauri/src/services/task_router_service.rs:86-124 | preview equals the interactive route decision with only the reason replaced |
| TaskRouter.DebugQueryRoutesAsCode | src-tauri/src/services/task_router_service.rs:174-209 | "Debug this Rust function: fn add(a,b) { a+b }" infers code, whose qos is balanced and base 768 |
| TaskRouter.ResolvedTask | src-tauri/src/services/task_router_service.rs:38-40 | the task type in use, normalised when given and inferred otherwise, is always allow-listed |
| TaskRouter.ResolvedQos | src-tauri/src/services/task_router_service.rs:41 | the QoS class in use, normalised when given and the task's default otherwise, is always allow-listed |
| TaskRouter.Router.constructor | src-tauri/src/services/task_router_service.rs:17-27 | a new router has written no audit rows |
| Hardware.TierRank | src-tauri/src/services/hardware_service.rs:20-27 | the six tiers are ranked 0 (Ultra) to 5 (Potato) |
| Hardware.TierRankInjective | src-tauri/src/services/hardware_service.rs:20-27 | two tiers have the same rank exactly when they are the same tier |
| Hardware.TierNameInjective | src-tauri/src/services/hardware_service.rs:29-39 | the display names "ultra" … "potato" tell tiers apart: equal names iff equal tiers |
| Hardware.EffectiveVram | src-tauri/src/services/hardware_service.rs:52-58 | on "metal", or "cuda" reporting 0 VRAM, the VRAM used is half the system RAM (truncating); otherwise the reported VRAM, 0 when unknown |
| Hardware.HardwareScore | src-tauri/src/services/hardware_service.rs:45-63 | with non-negative inputs the weighted score lies in [0, 100] |
| Hardware.RamOnlyTier | src-tauri/src/services/hardware_service.rs:72-78 | Low iff ≥ 7 GiB, Minimal iff 3–6 GiB, Potato below 3 GiB |
| Hardware.Classify | src-tauri/src/services/hardware_service.rs:43-79 | Ultra iff the Ultra gate (score ≥ 80, ≥ 60 GiB, VRAM ≥ 15000) holds; High iff not Ultra and the High gate holds; Medium likewise; otherwise the RAM-only tier |
| Hardware.SmallRamDecidesAlone | src-tauri/src/services/hardware_service.rs:64-78 | below 14 GiB the tier depends on RAM alone and is Low, Minimal or Potato |
| Hardware.FourGigabyteCpuMachineIsMinimal | src-tauri/src/services/hardware_service.rs:64-78 | a 4096 MB CPU machine without VRAM has 4 GiB and is Minimal |
| Hardware.MetalUsesHalfRam | src-tauri/src/services/hardware_service.rs:53-57 | a metal machine's VRAM is half its RAM whatever it reports |
| Hardware.Headroom | src-tauri/src/services/hardware_service.rs:307 | the headroom is at least 2048 MB and at least a quarter of total memory |
| Hardware.CanLoadModel | src-tauri/src/services/hardware_service.rs:301-309 | true when the total is unknown (0); otherwise true iff free memory exceeds the requirement plus the headroom |
| Hardware.MemoryFraction | src-tauri/src/services/hardware_service.rs:313-317 | the used fraction is 0 when the total is 0 and never negative |
| Hardware.ShouldLoadModel | src-tauri/src/services/hardware_service.rs:311-330 | Defer iff cpu ≥ 90 or memory ≥ 0.90; BackgroundOnly iff not Defer and cpu ≥ 70 or memory ≥ 0.75; LoadNow iff below both and the model fits; Skip iff below both and it does not fit |
| Hardware.BackgroundOnlyFromSeventyFivePercent | src-tauri/src/services/hardware_service.rs:319-324 | with cpu below 70 and memory in [0.75, 0.90) the decision is BackgroundOnly |
| Hardware.UnknownTotalLoadsWhenIdle | src-tauri/src/services/hardware_service.rs:303-326 | an unknown total with cpu below 70 always gives LoadNow |
| Hardware.LoadDecisionMonotoneInSize | src-tauri/src/services/hardware_service.rs:306-329 | if a larger model loads now, a smaller one does too |
| Hardware.PerformanceModeOf | src-tauri/src/services/hardware_service.rs:332-341 | Max iff the setting is "max", Multitasking iff "multitasking", Balanced for anything else, including no setting or a read error |
| Hardware.BaseTierConfig | src-tauri/src/services/hardware_service.rs:357-418 | embedding and reranker models exactly for Low and better; auto-load exactly for Medium and better; background tasks exactly for Low and better |
| Hardware.BaseMaxContextStrictlyDecreasing | src-tauri/src/services/hardware_service.rs:357-418 | the table's max_context strictly falls from Ultra to Potato |
| Hardware.MultitaskingTier | src-tauri/src/services/hardware_service.rs:347-352 | the multitasking downgrade lands on Low, Minimal or Potato and never on a better tier |
| Hardware.TierConfigFor | src-tauri/src/services/hardware_service.rs:343-430 | outside multitasking the table row of the tier; in multitasking the row of the downgraded tier with auto-load and background off, context ≤ 1024, embed cache / 10 and session cache / 4 |
| Hardware.GetTierConfig | src-tauri/src/services/hardware_service.rs:343-430 | the field-by-field overwrite equals the value-level configuration, and multitasking never auto-loads, never runs background tasks and keeps context ≤ 1024 |
| Hardware.NoAutoLoadFromLow | src-tauri/src/services/hardware_service.rs:388-427 | no tier at or below Low auto-loads, in any mode |
| Hardware.SuggestNGpuLayers | src-tauri/src/services/hardware_service.rs:287-299 | 0 without VRAM; -1 exactly when VRAM exceeds 1.1 × the model size; otherwise between 0 and the i32 maximum |
| Hardware.StatsOfSample | src-tauri/src/services/hardware_service.rs:445-460 | used memory is total minus available, saturating at 0, so never above total; no GPU name or usage |
| Hardware.HardwareMonitor.LiveStats | src-tauri/src/services/hardware_service.rs:432-468 | within 5 s of the last poll the cached snapshot, state unchanged; otherwise the new poll, which becomes the cache with the poll time |
| Hardware.HardwareMonitor.constructor | src-tauri/src/services/hardware_service.rs:109-126 | the cached statistics start as the all-zero snapshot, last checked at time 0 |
| QueryClassifier.CategoryNameInjective | src-tauri/src/services/smart_query_classifier.rs:22-34 | the nine category names are distinct: equal names iff equal categories |
| QueryClassifier.Priority | src-tauri/src/services/smart_query_classifier.rs:36-48 | priorities lie in 1..4; 4 exactly for code and math, 1 exactly for simple |
| QueryClassifier.MaxTokensHint | src-tauri/src/services/smart_query_classifier.rs:50-233 | hints lie in 256..1280; 256 exactly for simple, 1280 exactly for code, 300 for summarization |
| QueryClassifier.AddScore | src-tauri/src/services/smart_query_classifier.rs:191-306 | the category's score is its old score (0 when absent) plus the delta; every other entry is unchanged; positive scores stay positive |
| QueryClassifier.Weighted | src-tauri/src/services/smart_query_classifier.rs:301-306 | a positive hit count times a positive weight is positive |
| QueryClassifier.ScoreKeywords | src-tauri/src/services/smart_query_classifier.rs:294-308 | without any contained keyword the scores are unchanged; otherwise the category gains hits × weight |
| QueryClassifier.MathSymbolCount | src-tauri/src/services/smart_query_classifier.rs:194-198 | the count of + - * / = characters never exceeds the query length |
| QueryClassifier.KeywordScores | src-tauri/src/services/smart_query_classifier.rs:88-183 | after the six keyword tables every present score is positive |
| QueryClassifier.LengthBonus | src-tauri/src/services/smart_query_classifier.rs:203-209 | below 10 words simple is scored; positive scores stay positive |
| QueryClassifier.QueryScores | src-tauri/src/services/smart_query_classifier.rs:84-209 | all scores classify computes are positive, and a query below 10 words always scores simple |
| QueryClassifier.EmptyScoresMeanMedium | src-tauri/src/services/smart_query_classifier.rs:203-225 | when nothing scored the query has at least 10 words, so the fallback is always medium and its simple branch is unreachable |
| QueryClassifier.NoHitsShortQueryIsSimple | src-tauri/src/services/smart_query_classifier.rs:185-225 | with no keyword, marker or symbol hit, a query below 10 words is classified simple |
| QueryClassifier.NoHitsMidLengthQueryIsMedium | src-tauri/src/services/smart_query_classifier.rs:203-225 | with no hit, a query of 10 to 35 words scores nothing and falls back to medium |
| QueryClassifier.UniqueMaximumDetermines | src-tauri/src/services/smart_query_classifier.rs:211-218 | a category whose score is strictly above all others is the only possible answer |
| QueryClassifier.BestAmong | src-tauri/src/services/smart_query_classifier.rs:211-218 | a scan over a category list finds a present category whose score is at least every listed present score, and none iff none is present |
| QueryClassifier.TopExists | src-tauri/src/services/smart_query_classifier.rs:211-218 | any non-empty score map has a category of maximal score, so max_by always finds one |
| QueryClassifier.Stored | src-tauri/src/services/smart_query_classifier.rs:275-285 | below 256 records the new record is appended; at 256 or more the newest 192 of the pushed history remain; the last record is the new one |
| QueryClassifier.Active | src-tauri/src/services/smart_query_classifier.rs:237-240 | the active records are records of the history younger than the window |
| QueryClassifier.PrioritySum | src-tauri/src/services/smart_query_classifier.rs:246-249 | the priority sum lies between the count and four times the count |
| QueryClassifier.AveragePriority | src-tauri/src/services/smart_query_classifier.rs:246-250 | the average priority of a non-empty set of records lies in [1, 4] |
| QueryClassifier.ContextWindowHint | src-tauri/src/services/smart_query_classifier.rs:235-259 | 20 iff no record is younger than 300 s; otherwise 48 iff average priority ≥ 3.4, 32 iff in [2.2, 3.4), 18 iff below 2.2 |
| QueryClassifier.OnlyTopPriorityGivesWidestWindow | src-tauri/src/services/smart_query_classifier.rs:246-253 | when every record is code or math and one is recent, the hint is 48 |
| QueryClassifier.CountsSumToLength | src-tauri/src/services/smart_query_classifier.rs:265-270 | the per-category counts add up to the number of records |
| QueryClassifier.DistributionStep | src-tauri/src/services/smart_query_classifier.rs:269 | bumping the entry of a record's category name turns the distribution of a history into that of the history plus the record |
| QueryClassifier.Classifier.Store | src-tauri/src/services/smart_query_classifier.rs:275-285 | the history becomes the stored history and stays within 256 records |
| QueryClassifier.Classifier.Classify | src-tauri/src/services/smart_query_classifier.rs:83-229 | the answer is a category of maximal score (the fallback when nothing scored), and it is appended to the history at now |
| QueryClassifier.Classifier.DistributionSnapshot | src-tauri/src/services/smart_query_classifier.rs:261-273 | the map has one key per category seen in the last 900 s, holding exactly its count |
| QueryClassifier.DistributionSumsToActive | src-tauri/src/services/smart_query_classifier.rs:261-273 | the snapshot's counts add up to the number of records it looked at, and none exceeds it |
| QueryClassifier.Classifier.constructor | src-tauri/src/services/smart_query_classifier.rs:77-81 | a new classifier has an empty history |
| UsageLearner.SatInc | src-tauri/src/services/usage_learner.rs:96-105 | saturating_add(1): one more below the cap, the cap itself at the cap, never above it |
| UsageLearner.RunningAverageFormula | src-tauri/src/services/usage_learner.rs:65-68 | the kept update avg + (len − avg) / n equals the source's (avg·(n−1) + len) / n |
| UsageLearner.RunningMean | src-tauri/src/services/usage_learner.rs:63-68 | updating the mean of some lengths with one more length gives the mean of all of them |
| UsageLearner.RunningMeanIsMean | src-tauri/src/services/usage_learner.rs:61-74 | averaging query lengths one at a time gives their arithmetic mean |
| UsageLearner.SumValuesIncrement | src-tauri/src/services/usage_learner.rs:70-73 | bumping one category's count raises the total of the distribution by one |
| UsageLearner.QueryStatsStep | src-tauri/src/services/usage_learner.rs:61-74 | one record_query keeps count, average and distribution in agreement with the recorded queries |
| UsageLearner.TopKeyExists | src-tauri/src/services/usage_learner.rs:107-168 | any non-empty count map has a key of maximal count |
| UsageLearner.LastArgMax | src-tauri/src/services/usage_learner.rs:155-161 | the peak hour has a maximal bucket and every later hour has a strictly smaller one (Rust's max_by_key keeps the last maximum) |
| UsageLearner.FlatCountsPeakAtLastHour | src-tauri/src/services/usage_learner.rs:155-161 | with all 24 buckets equal, for instance all zero, the peak hour is 23 |
| UsageLearner.ContextWindowFor | src-tauri/src/services/usage_learner.rs:118-131 | 16 iff avg < 50, 28 iff in [50, 150), 44 iff in [150, 300), 64 iff ≥ 300 |
| UsageLearner.ContextWindowMonotone | src-tauri/src/services/usage_learner.rs:118-131 | a longer average query never gets a smaller window |
| UsageLearner.CountOf | src-tauri/src/services/usage_learner.rs:141-145 | the count of an hour is at most the number of records and 0 exactly when the hour was never recorded |
| UsageLearner.UnseenHourIsNoPeak | src-tauri/src/services/usage_learner.rs:138-148 | an hour with no recorded session start is never a peak hour |
| UsageLearner.Learner.AverageIsMean | src-tauri/src/services/usage_learner.rs:61-74 | under the learner's invariant the kept average is the mean byte length of all recorded queries |
| UsageLearner.Learner.constructor | src-tauri/src/services/usage_learner.rs:52-59 | a new learner: all counts zero, no preferences, 24 zero buckets, reset at now |
| UsageLearner.Learner.RecordQuery | src-tauri/src/services/usage_learner.rs:61-74 | one more query: the count rises by one, its length is recorded (so the average stays the mean), its category's count rises by one, nothing else changes |
| UsageLearner.Learner.RecordSessionStart | src-tauri/src/services/usage_learner.rs:76-85 | the session count rises by one, the hour is appended and past 200 entries the oldest 100 are dropped; nothing else changes |
| UsageLearner.Learner.RecordTimeUsage | src-tauri/src/services/usage_learner.rs:87-97 | more than 86400 s after the last reset the buckets restart with only this hour at 1; otherwise only this hour's bucket is bumped, saturating at the u32 maximum |
| UsageLearner.Learner.RecordModelUsage | src-tauri/src/services/usage_learner.rs:99-116 | the model's count is bumped (saturating at the u64 maximum); the preferred model then has a maximal count and the fallback exists iff two models were seen and has a maximal count among the others |
| UsageLearner.Learner.OptimalContextWindow | src-tauri/src/services/usage_learner.rs:118-131 | the window is the bucket of the kept average |
| UsageLearner.Learner.ModelRecommendation | src-tauri/src/services/usage_learner.rs:133-136 | the preferred model is absent only before any usage and has a maximal count; the fallback exists iff two models were seen and is maximal among the rest |
| UsageLearner.Learner.LearningStatsNow | src-tauri/src/services/usage_learner.rs:150-177 | the counts and average as kept; the peak hour is the last maximal bucket (< 24); the top category has a maximal count, "unknown" when none was recorded |
| UsageLearner.Learner.SuggestOptimizations | src-tauri/src/services/usage_learner.rs:179-196 | "increase_context_window" iff avg > 200; "prefer_lightweight_model" only with > 100 queries and "simple" maximal, and surely when it is the only maximal category; "defer_background_jobs" iff the hour's share of session starts exceeds 15%; nothing else |
| MemoryManager.ClampedThresholds | src-tauri/src/services/adaptive_memory_manager.rs:43-64 | every threshold lands in its clamp range and is kept when already inside; the cooldown is 90 s |
| MemoryManager.DefaultHighAndLowDisjoint | src-tauri/src/services/adaptive_memory_manager.rs:32-90 | with the default thresholds no reading is both high and low pressure |
| MemoryManager.Step | src-tauri/src/services/adaptive_memory_manager.rs:74-125 | never loads; unloads exactly when enabled, under high pressure, past the cooldown and with a model loaded, then records the time and one more unload; otherwise nothing changes |
| MemoryManager.Run | src-tauri/src/services/adaptive_memory_manager.rs:140-161 | a run of watchdog ticks yields one action per tick |
| MemoryManager.UnloadsAfterCooldown | src-tauri/src/services/adaptive_memory_manager.rs:102-125 | with a clock that never goes back, every unload of a run comes a full cooldown after the unload before the run |
| MemoryManager.UnloadsSpacedByCooldown | src-tauri/src/services/adaptive_memory_manager.rs:102-125 | any two unloads of such a run are at least one cooldown apart |
| MemoryManager.DisabledRunDoesNothing | src-tauri/src/services/adaptive_memory_manager.rs:74-77 | a disabled manager never acts |
| MemoryManager.Manager.constructor | src-tauri/src/services/adaptive_memory_manager.rs:27-41 | enabled, with 0.85 / 0.65 memory, 85 / 50 CPU and a 30 s cooldown, no unload yet |
| MemoryManager.Manager.WithThresholds | src-tauri/src/services/adaptive_memory_manager.rs:43-64 | enabled, with the clamped thresholds, no unload yet |
| MemoryManager.Manager.SetEnabled | src-tauri/src/services/adaptive_memory_manager.rs:66-68 | only the enabled flag changes |
| MemoryManager.Manager.CheckAndManage | src-tauri/src/services/adaptive_memory_manager.rs:74-100 | the action and the new state are those of Step on the engine's loaded model; the engine is emptied exactly when the action is an unload |
| MemoryManager.Manager.MaybeUnloadModel | src-tauri/src/services/adaptive_memory_manager.rs:102-125 | unloads, records now and counts one more unload exactly when past the cooldown with a model loaded; otherwise nothing changes |
| MemoryManager.Manager.MaybeLoadModel | src-tauri/src/services/adaptive_memory_manager.rs:127-138 | never loads, whether or not the 30 s cooldown has passed |
| MemoryManager.Manager.Stats | src-tauri/src/services/adaptive_memory_manager.rs:163-173 | the snapshot reports the flag, counters and thresholds as kept |
| Preloader.Saturate | src-tauri/src/services/predictive_preloader.rs:196-219 | clamp(0, 1) lands in [0, 1] and keeps a value already inside |
| Preloader.EstimateComplexity | src-tauri/src/services/predictive_preloader.rs:194-222 | the score lies in [0, 1]; without code or reasoning indicators it is at most 0.35 (length alone); with no words at most 0.65 |
| Preloader.Bounded | src-tauri/src/services/predictive_preloader.rs:69-72 | popping from the front until 128 remain keeps the newest min(n, 128) samples |
| Preloader.FreshCount | src-tauri/src/services/predictive_preloader.rs:116-122 | the newest n samples are all at most 300 s old and, when the walk stops early, the sample before them is older |
| Preloader.ComplexitySumBounds | src-tauri/src/services/predictive_preloader.rs:120-121 | the sum of unit complexities lies between 0 and the count |
| Preloader.RecentAverageBounds | src-tauri/src/services/predictive_preloader.rs:111-129 | the recent average of unit complexities lies in [0, 1] |
| Preloader.PlainTextStaysBelowTrigger | src-tauri/src/services/predictive_preloader.rs:87-222 | a query without code or reasoning indicators scores below the 0.62 trigger |
| Preloader.DropStale | src-tauri/src/services/predictive_preloader.rs:182-188 | the trimmed queue is a suffix of the queue whose first sample is at most 1200 s old |
| Preloader.DropStaleRemovesOnlyStale | src-tauri/src/services/predictive_preloader.rs:182-188 | every sample the trim removes is older than 1200 s |
| Preloader.Preloader.constructor | src-tauri/src/services/predictive_preloader.rs:32-46 | enabled, empty queue, nothing scheduled, 30 s cooldown |
| Preloader.Preloader.SetEnabled | src-tauri/src/services/predictive_preloader.rs:48-50 | only the enabled flag changes |
| Preloader.Preloader.RecordQuery | src-tauri/src/services/predictive_preloader.rs:56-74 | when enabled the scored sample is appended and the queue bounded to the newest 128; when disabled nothing changes |
| Preloader.Preloader.SampleCount | src-tauri/src/services/predictive_preloader.rs:76-79 | the number of kept samples, never above 128 |
| Preloader.Preloader.RecentComplexity | src-tauri/src/services/predictive_preloader.rs:111-129 | the backward walk returns the mean complexity of the newest samples up to the first older than 300 s (0 when none), a value in [0, 1] |
| Preloader.Preloader.TriggerPreload | src-tauri/src/services/predictive_preloader.rs:131-152 | a warm-up starts exactly when none is scheduled; a second trigger while one is in flight changes nothing |
| Preloader.Preloader.MaybePreload | src-tauri/src/services/predictive_preloader.rs:81-109 | triggers exactly when enabled, idle, the recent average is ≥ 0.62 (≥ 0.75 without embeddings) and the hardware answers LoadNow or BackgroundOnly for 4096 MB |
| Preloader.Preloader.RunPreloadLoad | src-tauri/src/services/predictive_preloader.rs:142-147 | the warm-up loads its model when the file exists and the pass succeeds, else leaves the engine as it was; the job stays scheduled and records the load time |
| Preloader.Preloader.WakeAfterCooldown | src-tauri/src/services/predictive_preloader.rs:149-150 | the scheduled flag clears exactly when the cooldown has passed since the load |
| Preloader.Preloader.BackgroundTick | src-tauri/src/services/predictive_preloader.rs:154-191 | paused (nothing changes) when disabled or above 85% CPU or 88% memory; otherwise the leading samples older than 1200 s are removed |
| Models.PressureName | src-tauri/src/services/runtime_governor_service.rs:120-130 | the four pressure levels have the four distinct wire names "normal", "warm", "high" and "critical" |
| Inference.RoleTag | src-tauri/src/services/inference_service.rs:317-338 | "assistant" and "system" keep their header; every other role renders as "user" |
| Inference.TurnsAppend | src-tauri/src/services/inference_service.rs:322-334 | the rendering of two message lists one after the other is the concatenation of their renderings |
| Inference.BuildPrompt | src-tauri/src/services/inference_service.rs:317-338 | the begin marker, one header block with the trimmed content and end-of-turn per message in order, then the assistant header |
| Inference.PromptFrame | src-tauri/src/services/inference_service.rs:317-338 | every prompt starts with the begin-of-text marker and ends with the assistant header |
| Inference.ThreadCount | src-tauri/src/services/inference_service.rs:71-79 | at least one thread and never more than the CPU threads (min 1); outside multitasking all of them; in multitasking a quarter, within 1 to 4 |
| Inference.GpuLayers | src-tauri/src/services/inference_service.rs:80-84 | all layers (-1) exactly when at least 1024 MB of VRAM are reported, else 0 |
| Inference.AsU32 | src-tauri/src/services/inference_service.rs:359-363 | the u32 cast wraps modulo 2^32 and keeps smaller values |
| Inference.SafeContextLength | src-tauri/src/services/inference_service.rs:359-366 | the context is at most 8192 and at most the model's context, at least 1024 when the model allows, and holds prompt + reply whenever both bounds permit |
| Inference.BatchSize | src-tauri/src/services/inference_service.rs:390 | the batch lies in [1024, 4096] and is prompt + 128 when that fits |
| Inference.BatchHoldsPrompt | src-tauri/src/services/inference_service.rs:389-397 | every prompt token fits the batch exactly when the prompt has at most 4096 tokens |
| Inference.GenerateWithLlama | src-tauri/src/services/inference_service.rs:340-455 | empty prompt, zero context, overflow and a prompt over the batch fail with the source's messages; success iff prompt + max_tokens fits the context and the batch holds the prompt; then at most max_tokens pieces, the sampled text in order, "length" iff the limit was reached and "stop" iff end of generation came first |
| Inference.StreamOf | src-tauri/src/services/inference_service.rs:200-235 | the stream ends with exactly one done chunk, preceded by the pieces and, on failure, one "[inference error]" line |
| Inference.Pieces | src-tauri/src/services/inference_service.rs:200-222 | the pieces the callback sees are the sampled texts in order |
| Inference.Engine.ActiveModelInfo | src-tauri/src/services/inference_service.rs:292-297 | some info exactly when a model is loaded, namely the loaded one |
| Inference.Engine.LoadModel | src-tauri/src/services/inference_service.rs:59-130 | a missing file fails with "Model file does not exist"; a backend or file failure is returned; on failure the slot is unchanged; success iff the file exists and loads, then the slot holds the path, trained context, GPU layers and thread count |
| Inference.Engine.UnloadModel | src-tauri/src/services/inference_service.rs:299-306 | the slot is empty afterwards, so ActiveModelInfo answers none |
| Inference.Engine.AutoUnloadTick | src-tauri/src/services/inference_service.rs:132-153 | a model idle for more than 300 s is dropped, any other state is kept |
| Inference.Engine.GenerateStream | src-tauri/src/services/inference_service.rs:155-239 | without a model it fails with "No active model loaded…" and changes nothing; otherwise it marks the model used and streams exactly one done chunk at the end; an empty prompt, a zero context, an overflowing prompt or one the batch cannot hold streams only that error line; a fitting prompt streams the pieces decoded before the stop, with the length or stop reason |
| Inference.FirstStop | src-tauri/src/services/inference_service.rs:418-424 | the first position from i on that is end of generation, or the budget when none is; every position before it is a piece |
| Inference.StopsAtFirstStop | src-tauri/src/services/inference_service.rs:418-424 | any place decoding can stop is the first stop |
| Inference.StreamGeneration | src-tauri/src/services/inference_service.rs:188-236 | the stream ends in exactly one done chunk; a sizing or batch failure streams only its "[inference error]" line; a fitting prompt streams the pieces decoded before the first stop |
| Inference.Engine.constructor | src-tauri/src/services/inference_service.rs:48-53 | no model is loaded |
| Rag.Chunker | src-tauri/src/services/rag_service.rs:172-204 | blank text gives no chunks; otherwise chunk i has index i, a non-empty word range of at most chunk_size words, token_count equal to its word count and content its words joined by single spaces; the first starts at word 0, the last ends at the word count, and each earlier chunk is full and followed by one starting overlap words before its end (saturating) |
| Rag.AppendChunk | src-tauri/src/services/rag_service.rs:186-193 | appending a well-formed chunk linked to the previous one keeps every chunk well formed and linked |
| Rag.ChunksCoverWords | src-tauri/src/services/rag_service.rs:182-203 | every word of the document lies in some chunk's range |
| Rag.IngestionChunkingTerminates | src-tauri/src/services/rag_service.rs:74 | the ingestion call's 512-word chunks with 64 overlap always satisfy the loop's termination condition |
| Rag.CandidateIds | src-tauri/src/services/rag_service.rs:216-231 | the candidate ids are strictly sorted and duplicate-free, with exactly the BM25 ids when there are any and the recent chunk ids otherwise |
| Context.PromptTail | src-tauri/src/services/context_service.rs:195-200 | the tail is the last 400 characters: 400 long, and the prompt is some prefix followed by it |
| Context.Trimmed | src-tauri/src/services/context_service.rs:183-206 | the kept messages are a suffix of the input with at least min(n, 4) of them; on exit the estimate fits or at most 4 remain; the prompt is unchanged unless it was cut to its 400-character tail with at most 4 messages left; input within budget is returned unchanged and a message is dropped only when over budget |
| Context.TrimContext | src-tauri/src/services/context_service.rs:183-206 | the in-place loop leaves exactly the trimmed prompt and messages |
| Context.KeepNewest | src-tauri/src/services/context_service.rs:115-117 | the 24-message cap keeps the newest min(n, 24) messages in order |
| Context.FitConversation | src-tauri/src/services/context_service.rs:115-171 | the conversation passed on is the 3500-token trimming of the 24 newest messages: a suffix of the window of at most 24 messages that fits 3500 tokens or has at most 4 messages |
| Context.ActiveModel | src-tauri/src/services/context_service.rs:119-124 | none exactly without installed models; the first default model when there is one; else the last installed model |
| ConversationRepo.TokensOf | src-tauri/src/repositories/conversation_repo.rs:202-204 | a message costs its stored token count, else the estimate len / 4 + 1, which is at least 1 |
| ConversationRepo.GetContextWindow | src-tauri/src/repositories/conversation_repo.rs:186-214 | the result is the first k newest-first rows reversed, where every prefix up to k fits the budget and the next row would not (so a newest message over budget gives nothing), and newest-first rows come back in ascending position order |
| ConversationRepo.SumTokensGrows | src-tauri/src/repositories/conversation_repo.rs:201-210 | with non-negative costs a longer newest prefix costs at least as much |
| ConversationRepo.LongestFittingRun | src-tauri/src/repositories/conversation_repo.rs:205-207 | stopping at the first row that does not fit keeps the longest fitting newest run: no longer prefix fits |
| Memory.SplitSentences | src-tauri/src/services/memory_service.rs:48 | splitting on '.', '!' and '?' gives at least one piece and no piece contains a terminator |
| Memory.SplitSentencesRoundTrip | src-tauri/src/services/memory_service.rs:48 | splitting loses nothing: there is one more piece than terminators, and the pieces with the terminators between them rebuild the text |
| Memory.Confidence | src-tauri/src/services/memory_service.rs:54-58 | 0.84 exactly when the fragment contains "always" or "prefer" (case-sensitive), else 0.72, so the < 0.7 filter never fires |
| Memory.Extracted | src-tauri/src/services/memory_service.rs:48-83 | a run of fragments yields at most one memory per fragment |
| Memory.ExtractedStep | src-tauri/src/services/memory_service.rs:48-83 | one more fragment appends exactly its own memories |
| Memory.ExtractedWellFormed | src-tauri/src/services/memory_service.rs:48-83 | every extracted memory is a trimmed fragment of at least 16 bytes without terminators, built with the fixed fields (semantic, fact, user, said, importance 0.55, decay 0.001, private, the message id and session), its confidence rule and a 96-character summary |
| Memory.ExtractFromMessage | src-tauri/src/services/memory_service.rs:41-86 | the extracted list is the memories of the message's sentence fragments in order, each well formed |
| Memory.ExtractBatch | src-tauri/src/services/memory_service.rs:88-98 | the batch is the per-message extraction concatenated in message order |
| Memory.BatchAppend | src-tauri/src/services/memory_service.rs:88-98 | the batch of two message lists is the batch of the first followed by that of the second |
| Memory.RetrieveWithoutEmbeddings | src-tauri/src/services/memory_service.rs:106-122 | without embeddings the first limit text hits when there are any, else the first limit memories of the listing; never more than limit |
| Memory.MemoryBlock | src-tauri/src/services/memory_service.rs:224-235 | the output is the lines of the first count memories, whose estimated cost fits the budget while one more line would not |
| Memory.LinesCostGrows | src-tauri/src/services/memory_service.rs:227-235 | a longer run of memory lines never costs less |
| Memory.MemoryBlockIsLongest | src-tauri/src/services/memory_service.rs:227-235 | the block keeps the longest fitting run: no longer run fits |
| Memory.BuildMemoryContext | src-tauri/src/services/memory_service.rs:217-238 | the context is the lines of the longest fitting run of the 12 retrieved memories |
| Intent.ClassifyIntent | src-tauri/src/services/intent_service.rs:12-35 | the first rung of the ladder (Database 0.93, Code 0.9, Search 0.86, Memory 0.88, Calendar 0.82, Task 0.82) one of whose keywords occurs in the lowercased query, with no earlier rung hit; Chat at 0.7 exactly when no rung hits |
| Intent.FirstHit | src-tauri/src/services/intent_service.rs:15-29 | the index found hits and every earlier rule misses; none exactly when no rule hits |
| Intent.BarcodeIsCode | src-tauri/src/services/intent_service.rs:13-18 | matching is by substring, so "barcode" is the Code intent at 0.9 |
| Intent.TrimPunctStart | src-tauri/src/services/intent_service.rs:50-51 | trimming ',', '.' and ';' from the front leaves a suffix that does not start with one, having removed only those characters |
| Intent.TrimPunctEnd | src-tauri/src/services/intent_service.rs:50-51 | the same from the back: a prefix, only punctuation removed |
| Intent.TrimPunct | src-tauri/src/services/intent_service.rs:50-51 | the trimmed token is a slice of the token with only punctuation cut off either end and none left at either end |
| Intent.ExtractEntities | src-tauri/src/services/intent_service.rs:37-64 | the entities are those of the whitespace tokens in token order, each token checked for url, file path and number independently |
| Intent.EntitiesShaped | src-tauri/src/services/intent_service.rs:40-61 | every url entity starts with http:// or https://, every file path is trimmed of punctuation, every number is at least four ASCII digits |
| Intent.UrlAndPathFromOneToken | src-tauri/src/services/intent_service.rs:40-61 | one token can yield two entities: "http://c:\x" is both a url and a Windows path |
| Intent.TemporalPhrase | src-tauri/src/services/intent_service.rs:66-99 | "yesterday" iff the lowercased query contains it; else "last week" iff contained; else "today" iff contained; else none |
| Intent.NeededIds | src-tauri/src/services/intent_service.rs:105-123 | an id is picked exactly when some MCP with that id is needed: system category, builtin, or one of the named matches |
| Intent.PredictNeededMcps | src-tauri/src/services/intent_service.rs:101-128 | the result is sorted and duplicate-free, holds exactly the ids of needed MCPs, and always includes every system-category and builtin MCP |
| McpService.AfterCheck | src-tauri/src/services/mcp_service.rs:40-53 | a check that does not reject turns an open entry with at least 5 errors (by then 30 s old) into half-open stamped now with the same count; every other entry is unchanged |
| McpService.NoneOpenNeverRejects | src-tauri/src/services/mcp_service.rs:40-173 | with no open entry the breaker never rejects and a check changes nothing |
| McpService.ToolOutput | src-tauri/src/services/mcp_service.rs:93-151 | builtin answers with the JSON echo, the tool name written as a JSON string; stdio succeeds exactly with a command and a run that starts, finishes within 30 s and succeeds; any other type fails with "Unsupported MCP type"; every failure is an McpError for this id |
| McpService.EscapeChar | src-tauri/src/services/mcp_service.rs:94-100 | a character is written as itself exactly when it is neither a quote, a backslash nor a control character; every escape is at most six characters |
| McpService.HexDigit | src-tauri/src/services/mcp_service.rs:94-100 | the lower-case hex digit written for d reads back as d |
| McpService.UnescapeChar | src-tauri/src/services/mcp_service.rs:94-100 | reading back an escaped character and then any rest yields the character followed by the read-back rest |
| McpService.EscapeRoundTrip | src-tauri/src/services/mcp_service.rs:94-100 | every tool name written as a JSON string body reads back as itself |
| McpService.EscapePlain | src-tauri/src/services/mcp_service.rs:94-100 | a name without quotes, backslashes or control characters is written unchanged |
| McpService.WithoutIdle | src-tauri/src/services/mcp_service.rs:296-309 | an entry stays exactly when it was used within the idle TTL, unchanged |
| McpService.McpService.EnsureConnected | src-tauri/src/services/mcp_service.rs:39-81 | rejects with "Circuit breaker open", changing nothing, exactly when the entry is open with ≥ 5 errors and under 30 s old; otherwise the breaker entry is refreshed, a pool hit refreshes its use time without a lookup, a lookup error is returned with the pool unchanged, an unknown id is NotFound, and a found row is pooled, a connection-state write error then being returned with the row already pooled |
| McpService.McpService.CallTool | src-tauri/src/services/mcp_service.rs:83-183 | the pool becomes what connecting leaves; a connection error is returned; once connected, the call succeeds iff the tool's output is Ok, a tool error is returned as is, and a success carries exactly that output, this id and tool, success and no error, and resets the breaker to (0, now, closed); a failure leaves the breaker unchanged; no entry is ever opened |
| McpService.McpService.CleanupIdleConnections | src-tauri/src/services/mcp_service.rs:296-309 | the pool loses exactly the entries idle longer than the TTL; the breaker is untouched |
| McpService.HealthOf | src-tauri/src/services/mcp_service.rs:189-221 | builtin or stdio with a command is healthy; stdio without one is down with "Missing command"; any other type is unknown |
| McpService.HealthOfActiveSound | src-tauri/src/services/mcp_service.rs:185-229 | every reported status is that of an active MCP of the list |
| McpService.HealthCheckAll | src-tauri/src/services/mcp_service.rs:185-229 | a listing error is returned; otherwise the statuses are those of the active MCPs in list order, inactive ones skipped |
| McpService.Active | src-tauri/src/services/mcp_service.rs:237-240 | the active MCPs are exactly the listed ones with is_active = 1 |
| McpService.RouteMcpsForQuery | src-tauri/src/services/mcp_service.rs:231-259 | a listing error is returned; otherwise the result is sorted and duplicate-free, and holds exactly the ids of active MCPs that are predicted, builtin, or of category "data" under a Search intent |
| McpService.McpService.constructor | src-tauri/src/services/mcp_service.rs:29-37 | the connection pool and the breaker table start empty |
| Recommendation.RamFit | src-tauri/src/services/recommendation_service.rs:35-36 | at most 1, not negative for a real machine, and exactly 1 once total RAM reaches the recommended RAM (at least 1) |
| Recommendation.VramFit | src-tauri/src/services/recommendation_service.rs:37-41 | at most 1, exactly 1 for a model needing no VRAM, and not negative |
| Recommendation.PerfFit | src-tauri/src/services/recommendation_service.rs:43-46 | 0.55 when the speed is unknown, otherwise inside [0.25, 1] |
| Recommendation.WeightedBounds | src-tauri/src/services/recommendation_service.rs:48 | the 0.40/0.35/0.25 weighted fit of three fits in [0, 1] lies in [0, 1] |
| Recommendation.ModeScore | src-tauri/src/services/recommendation_service.rs:50-56 | other modes keep the score; Multitasking scales models recommending over 3500 MB by 0.3 and the rest by 1.25 |
| Recommendation.ScoreBounds | src-tauri/src/services/recommendation_service.rs:35-56 | a candidate's score is never negative, at most 1 outside Multitasking and at most 1.25 in it |
| Recommendation.TierOf | src-tauri/src/services/recommendation_service.rs:58-66 | the four tiers partition the scores at 0.88, 0.65 and 0.45, each boundary inclusive from above |
| Recommendation.TierMonotone | src-tauri/src/services/recommendation_service.rs:58-66 | a higher score never gets a worse tier |
| Recommendation.EnergyOf | src-tauri/src/services/recommendation_service.rs:85-96 | ratings A to D partition the scores at 0.85, 0.7 and 0.55, each threshold strict |
| Recommendation.Recommend | src-tauri/src/services/recommendation_service.rs:68-100 | a candidate's entry carries its model and profile ids, its score, the tier and rating of that score and no primary flag; its reasoning is "RAM fit x, VRAM fit y, perf fit z, tier t" over the three fits and that tier, its speed estimate is TokensEstimate of the score and speed fit, its load time LoadTimeEstimate of the score |
| Recommendation.TokensEstimate | src-tauri/src/services/recommendation_service.rs:80 | for a score in [0, 1.25] and a speed fit in [0.25, 1] the estimate lies in 4..65 tokens per second |
| Recommendation.LoadTimeEstimate | src-tauri/src/services/recommendation_service.rs:81 | never under 225 ms, exactly 225 ms from a score of 0.95, and at most 4500 ms for a non-negative score |
| Recommendation.EstimateBounds | src-tauri/src/services/recommendation_service.rs:78-83 | on a real machine every entry estimates 4..65 tokens per second and 225..4500 ms |
| Recommendation.InsertByScoreFacts | src-tauri/src/services/recommendation_service.rs:103-107 | inserting into a descending list keeps it descending and adds exactly the new entry |
| Recommendation.SortByScoreFacts | src-tauri/src/services/recommendation_service.rs:103-107 | the sort by descending score is descending and a permutation of its input |
| Recommendation.ScoreCandidates | src-tauri/src/services/recommendation_service.rs:34-101 | the loop builds one recommendation per candidate, in candidate order |
| Recommendation.Recompute | src-tauri/src/services/recommendation_service.rs:23-117 | a listing or storing error is returned, and only then does it fail; otherwise one entry per candidate, by descending score, with the primary flag set on the first entry and on no other |
| Recommendation.RecomputeIsPermutation | src-tauri/src/services/recommendation_service.rs:103-110 | flags aside, the ranking is a permutation of the scored candidates, so each is ranked exactly once |
| Recommendation.Scored | src-tauri/src/services/recommendation_service.rs:34-101 | one recommendation per candidate, in candidate order, each the candidate's scoring |
| Recommendation.MarkPrimary | src-tauri/src/services/recommendation_service.rs:108-110 | the order and entries are kept, with only the first flagged primary |
| Recommendation.FlagPrimary | src-tauri/src/services/recommendation_service.rs:108-110 | the flag loop gives MarkPrimary of the sorted list |
| Recommendation.MarkPrimaryKeepsOrder | src-tauri/src/services/recommendation_service.rs:103-110 | flagging keeps a descending list descending, and exactly index 0 is primary |
| Recommendation.UnflaggedPermutation | src-tauri/src/services/recommendation_service.rs:103-107 | a permutation of unflagged entries is unflagged, so sorting freshly scored entries leaves them unflagged |
| Setup.Coalesce | src-tauri/src/services/setup_orchestrator_service.rs:146-149 | a given value wins, otherwise the kept one stays |
| Setup.Upserted | src-tauri/src/services/setup_orchestrator_service.rs:126-200 | status, stage, progress and last error are overwritten; an update keeps bundle, hardware profile and metadata unless given; a first insert takes what is given and stores "{}" for absent metadata |
| Setup.UpsertIdempotent | src-tauri/src/services/setup_orchestrator_service.rs:126-200 | repeating the same upsert on the row it produced leaves that row as it is |
| Setup.RetryAfterFailure | src-tauri/src/services/setup_orchestrator_service.rs:89-123 | after mark_failed the error is recorded and a retry clears it while keeping bundle, hardware profile and metadata |
| Setup.SetupStore.GetState | src-tauri/src/services/setup_orchestrator_service.rs:21-35 | a row is found exactly when the user key (the absent user id being its own key) has one, and it is that row |
| Setup.SetupStore.UpsertState | src-tauri/src/services/setup_orchestrator_service.rs:126-200 | the user's row becomes the upserted row and is returned; no other user's row changes |
| Setup.SetupStore.StartOrResume | src-tauri/src/services/setup_orchestrator_service.rs:37-54 | running at stage A preflight, 10%, error cleared, auto-upgrade pending, with the given bundle and profile |
| Setup.SetupStore.UpdateStage | src-tauri/src/services/setup_orchestrator_service.rs:56-73 | running at the given stage and progress with the error cleared, everything optional kept |
| Setup.SetupStore.MarkCompleted | src-tauri/src/services/setup_orchestrator_service.rs:75-87 | completed at 100% at stage D with the auto-upgrade queued |
| Setup.SetupStore.MarkFailed | src-tauri/src/services/setup_orchestrator_service.rs:89-97 | failed at the given stage, 0%, with the error recorded |
| Setup.SetupStore.SkipQualityUpgrade | src-tauri/src/services/setup_orchestrator_service.rs:99-114 | completed at 100% at the skipped stage D with the auto-upgrade skipped |
| Setup.SetupStore.RetryStage | src-tauri/src/services/setup_orchestrator_service.rs:116-123 | running at the given stage, 15%, error cleared |
| Setup.SetupStore.constructor | src-tauri/src/services/setup_orchestrator_service.rs:14-19 | a new store holds no rows |
| Crypto.ToCompact | src-tauri/src/services/crypto_service.rs:20-22 | the compact form is the nonce, one colon, then the ciphertext |
| Crypto.FromCompact | src-tauri/src/services/crypto_service.rs:24-39 | fails with "Missing ciphertext component" exactly when there is no colon; the nonce part never holds a colon |
| Crypto.FromCompactOfToCompact | src-tauri/src/services/crypto_service.rs:20-39 | parsing the compact form of a payload whose nonce has no colon gives the payload back |
| Crypto.ToCompactOfFromCompact | src-tauri/src/services/crypto_service.rs:20-39 | a string with a colon parses, and its parts joined again are the string |
| Crypto.LaterColonsStayInCiphertext | src-tauri/src/services/crypto_service.rs:24-39 | only the first colon splits, so later colons stay in the ciphertext |
| Crypto.Decrypt | src-tauri/src/services/crypto_service.rs:101-115 | no colon fails with "Missing ciphertext component"; a nonce decoding error, a nonce of other than 12 bytes ("Invalid nonce length") and a ciphertext decoding error are returned in that order; then it succeeds iff the cipher opens the ciphertext, returning exactly its plaintext, and fails with "Invalid encrypted payload or key" otherwise |
| Blob.LeBytes | src-tauri/src/repositories/mod.rs:15 | four bytes, least significant first |
| Blob.FromLeOfLeBytes | src-tauri/src/repositories/mod.rs:15-22 | the four little-endian bytes of a value put it back together |
| Blob.EncodedLength | src-tauri/src/repositories/mod.rs:12-18 | the blob has four bytes per value |
| Blob.EncodedAppend | src-tauri/src/repositories/mod.rs:12-18 | encoding distributes over concatenation |
| Blob.EncodedLayout | src-tauri/src/repositories/mod.rs:12-18 | bytes 4i to 4i+3 are the bytes of value i |
| Blob.VectorToBlob | src-tauri/src/repositories/mod.rs:12-18 | the loop's buffer is the encoding of the vector, four bytes per value |
| Blob.BlobToVector | src-tauri/src/repositories/mod.rs:20-24 | one value per whole 4-byte chunk |
| Blob.BlobToVectorLayout | src-tauri/src/repositories/mod.rs:20-24 | value i is read from bytes 4i to 4i+3 |
| Blob.RoundTrip | src-tauri/src/repositories/mod.rs:12-36 | decoding an encoded vector gives back every value's bit pattern |
| Blob.TrailingBytesIgnored | src-tauri/src/repositories/mod.rs:20-24 | up to three trailing bytes do not change the decoded vector |
| Errors.TagDecidesVariant | src-tauri/src/error.rs:5-44 | two errors with the same position in the declaration are of the same variant |
| Errors.Context | src-tauri/src/error.rs:48-63 | a single-message variant keeps its variant and its message becomes the context, a colon and a space, then the old message; McpError, NotFound and Validation pass through unchanged |
| Errors.ContextComposes | src-tauri/src/error.rs:48-63 | two contexts nest with the later one outermost, and the variant never changes |
| Errors.DisplayOfMessage | src-tauri/src/error.rs:5-44 | a single-message variant displays as its variant's prefix followed by its message |
| Errors.DisplayOfContext | src-tauri/src/error.rs:5-63 | an error with context displays the context right after the variant's prefix |
| Errors.FromSql | src-tauri/src/error.rs:67-83 | a pool time-out becomes Timeout, a missing row NotFound("row", "unknown"), a missing column or any other error Database, each with the text the conversion embeds |
| LocalCommands.JoinWordsSingleSpaced | src-tauri/src/commands/local_commands.rs:100-102 | words joined by single spaces leave no leading, trailing or repeated whitespace |
| LocalCommands.NormalizeSpacesShape | src-tauri/src/commands/local_commands.rs:100-102 | the normalised text has no leading, trailing or repeated whitespace, and every whitespace left is one space |
| LocalCommands.NormalizeSpacesIdempotent | src-tauri/src/commands/local_commands.rs:100-102 | normalising twice is normalising once |
| LocalCommands.SplitWsOfBlank | src-tauri/src/commands/local_commands.rs:100-102 | all-whitespace text splits into no words |
| LocalCommands.SkipNonDigits | src-tauri/src/commands/local_commands.rs:107 | what is left is a suffix that starts with a digit, and everything skipped is a non-digit |
| LocalCommands.TakeDigits | src-tauri/src/commands/local_commands.rs:108 | the maximal prefix of digits |
| LocalCommands.ExtractFirstNumber | src-tauri/src/commands/local_commands.rs:104-116 | a number exactly when the first run of digits is non-empty and fits an i64, and then it is that run's value |
| LocalCommands.ExtractWrittenNumber | src-tauri/src/commands/local_commands.rs:104-116 | a number written after digit-free text and before a non-digit is read back exactly |
| LocalCommands.StripPrefix | src-tauri/src/commands/local_commands.rs:148-204 | a rest exactly when the text starts with the prefix, and the text is the prefix followed by the rest |
| LocalCommands.RemoveAll | src-tauri/src/commands/local_commands.rs:163 | removing every occurrence never lengthens the text |
| LocalCommands.VolumeStep | src-tauri/src/commands/local_commands.rs:134-155 | "volume up" or "increase volume" gives +10 before anything else, then "volume down" or "decrease volume" gives −10; a set value is clamped to [0, 100] |
| LocalCommands.QueueStep | src-tauri/src/commands/local_commands.rs:157-169 | a queue command needs the "queue " or "add … queue" shape and a non-empty query |
| LocalCommands.TransportStep | src-tauri/src/commands/local_commands.rs:171-186 | pause, stop, next and prev each come from exactly their listed phrases, in that order; no other text gives one |
| LocalCommands.MediaOf | src-tauri/src/commands/local_commands.rs:213-239 | a media-typed play exactly when the rest starts with the type and a space and the trimmed query after it is non-empty; that trimmed query is the query |
| LocalCommands.PlayStep | src-tauri/src/commands/local_commands.rs:188-245 | a play exactly for "play …", or "resume…" or "start …" with an audio keyword; a non-track type always has a non-empty query |
| LocalCommands.PlayOf | src-tauri/src/commands/local_commands.rs:199-244 | nothing after the verb plays with no query as a track; otherwise one of the four media types, non-track ones with a non-empty query |
| LocalCommands.ParseAudioIntent | src-tauri/src/commands/local_commands.rs:118-248 | blank text is no command; a volume-up phrase always adjusts by +10; set volumes lie in [0, 100]; transport commands come only from their phrases; queues and typed plays have non-empty queries |
| LocalCommands.BlankIsNoCommand | src-tauri/src/commands/local_commands.rs:119-123 | blank input is no command |
| LocalCommands.NormalizedWord | src-tauri/src/commands/local_commands.rs:119-120 | a single lower-case word is its own normalised form |
| LocalCommands.PlayAloneIsNoCommand | src-tauri/src/commands/local_commands.rs:188-192 | "play" alone is no command |
| LocalCommands.PlayStepsDecline | src-tauri/src/commands/local_commands.rs:134-191 | no step of the ladder accepts "play" |
| LocalCommands.ResumeAloneIsNoCommand | src-tauri/src/commands/local_commands.rs:188-192 | "resume" alone is no command, since it holds no audio keyword |
| LocalCommands.ResumeHasNoKeyword | src-tauri/src/commands/local_commands.rs:124-132 | "resume" holds none of the audio keywords |
| LocalCommands.ResumeStepsDecline | src-tauri/src/commands/local_commands.rs:134-191 | no step of the ladder accepts "resume" |
| LocalCommands.Find | src-tauri/src/commands/local_commands.rs:275-286 | the first occurrence of the pattern, or none when it does not occur |
| LocalCommands.FindIsFirst | src-tauri/src/commands/local_commands.rs:275-286 | an occurrence with none before it is the one find reports |
| LocalCommands.TakeAlnum | src-tauri/src/commands/local_commands.rs:265-268 | the maximal prefix of ASCII letters and digits |
| LocalCommands.SecondPiece | src-tauri/src/commands/local_commands.rs:261-263 | the second piece exists exactly when the marker occurs, and holds no marker |
| LocalCommands.IdOf | src-tauri/src/commands/local_commands.rs:261-270 | an id is a non-empty alphanumeric run and exists only when the text has "ID:" |
| LocalCommands.TitleBefore | src-tauri/src/commands/local_commands.rs:277-281 | a title is non-empty, trimmed and free of quotes |
| LocalCommands.ArtistAfter | src-tauri/src/commands/local_commands.rs:284-290 | an artist is non-empty and trimmed |
| LocalCommands.TitleAndArtist | src-tauri/src/commands/local_commands.rs:272-293 | title and artist are non-empty and trimmed, the title has no quote, and neither is found without the opening marker |
| LocalCommands.ParseSearchResult | src-tauri/src/commands/local_commands.rs:250-296 | the id is a non-empty alphanumeric run and the title a non-empty quote-free text; these are shape facts only, and what the fields mean is stated by ScrapesWrittenLine and ScrapesWrittenId |
| LocalCommands.ScrapesWrittenLine | src-tauri/src/commands/local_commands.rs:272-293 | the title and artist of a result line as the search tool writes it are read back |
| LocalCommands.QuoteClosesTitle | src-tauri/src/commands/local_commands.rs:277-281 | the first quote after a quote-free title closes it, and the title is read back |
| LocalCommands.ArtistReadBack | src-tauri/src/commands/local_commands.rs:284-290 | an artist written between " by " and " (" is read back |
| LocalCommands.ScrapesWrittenId | src-tauri/src/commands/local_commands.rs:261-270 | an id written after the first "ID:" marker and a space is read back |
| LocalCommands.FirstByDisplayName | src-tauri/src/commands/local_commands.rs:347-348 | the head after a stable sort by display name: no display name precedes it, and every earlier model's display name comes strictly after it |
| LocalCommands.ResolveInstalledModel | src-tauri/src/commands/local_commands.rs:298-349 | nothing installed and a blank name are refused; an id match wins; any resolved model matches the name by id, name or display name, ignoring ASCII case; a name is refused only when nothing matches; with no name a default model when there is one, else one with the first display name |
| LocalCommands.NameBeatsDisplayName | src-tauri/src/commands/local_commands.rs:320-336 | with no id match, a model whose name matches ignoring ASCII case wins over any display-name match |
| LocalCommands.NoNameTakesFirstDefault | src-tauri/src/commands/local_commands.rs:343-345 | with no name requested, the first installed model flagged default is the one resolved |
| LocalCommands.LocalPath | src-tauri/src/commands/local_commands.rs:352-363 | a path, when present, is non-empty |
| LocalCommands.PlanLoad | src-tauri/src/commands/local_commands.rs:351-373 | no trimmed path refuses; loading is skipped exactly when the active model has this very path, and otherwise the model's path is loaded |
| ModelCommands.FirstPiece | src-tauri/src/commands/model_commands.rs:244-245 | the first piece before the separator always exists, holds no separator and starts the text |
| ModelCommands.AfterLast | src-tauri/src/commands/model_commands.rs:246-247 | the last piece holds no separator, ends the text, follows a separator when shorter, and is the whole text without one |
| ModelCommands.LastPiece | src-tauri/src/commands/model_commands.rs:246-247 | the last piece always exists, holds no separator and ends the text |
| ModelCommands.SanitizeChar | src-tauri/src/commands/model_commands.rs:251-257 | a forbidden character becomes an allowed one, others stay, and whitespace is kept as whitespace |
| ModelCommands.Sanitize | src-tauri/src/commands/model_commands.rs:251-257 | same length, each character sanitized, no forbidden character left |
| ModelCommands.Segment | src-tauri/src/commands/model_commands.rs:244-249 | the segment is the last path piece of the URL before its query |
| ModelCommands.WithGguf | src-tauri/src/commands/model_commands.rs:259-261 | the result ends in ".gguf" ignoring case, is unchanged when it already does, and adds no forbidden character |
| ModelCommands.NormalizedFilenameShape | src-tauri/src/commands/model_commands.rs:243-263 | the file name holds none of the forbidden characters and ends in ".gguf", ignoring case |
| ModelCommands.FallbackNeverUsed | src-tauri/src/commands/model_commands.rs:244-249 | the fallback name never changes the result |
| ModelCommands.NormalizeFilenameIdempotent | src-tauri/src/commands/model_commands.rs:243-263 | normalising a normalised file name changes nothing |
| ModelCommands.SegmentOfClean | src-tauri/src/commands/model_commands.rs:244-249 | a name free of forbidden characters is its own segment |
| ModelCommands.NormalizedEdges | src-tauri/src/commands/model_commands.rs:243-263 | a normalised name is clean, non-empty and starts and ends with a non-space |
| ModelCommands.ResolveModel | src-tauri/src/commands/model_commands.rs:308-324 | the row with that id wins, else one with that name; NotFound("model", …) exactly when neither exists |
| ModelCommands.NlpTarget | src-tauri/src/commands/model_commands.rs:441-471 | a non-blank request resolves that model; otherwise the installed default, the first installed, the starter model by name, the first catalog row, else NotFound("model", "catalog-empty") |
| ModelCommands.NlpTargetFailsOnlyOnEmptyCatalog | src-tauri/src/commands/model_commands.rs:441-471 | without a request, the target is missing exactly when nothing is installed and the catalog is empty |
| ModelCommands.NlpTargetRead | src-tauri/src/commands/model_commands.rs:441-471 | with both reads ok it is NlpTarget; a request fails with the catalog read's error; without one the installed listing's error is returned, a non-empty listing gives an installed model without consulting the catalog, and an empty one returns the catalog read's error |
| ModelCommands.CompatibilityScore | src-tauri/src/commands/model_commands.rs:541-549 | at most 1, not negative for a real machine, and 1 for a model that fits RAM and needs no VRAM |
| ModelCommands.GetModelCompatibility | src-tauri/src/commands/model_commands.rs:524-555 | an unknown model is NotFound("model", id), a missing profile NotFound("system_profile", "current"); a success is for the resolved model, its score is CompatibilityScore (at most 1) and its reason reads "RAM x, VRAM y" with both fits to two decimals |
| Common.Hundredths | src-tauri/src/commands/model_commands.rs:552 | a count of hundredths is written as digits, a point and exactly two digits |
| Common.RoundHalfEven | src-tauri/src/commands/model_commands.rs:552 | the result is an integer nearest the input, an exact half going to the even one, and never negative for a non-negative input |
| Common.Fixed2 | src-tauri/src/commands/model_commands.rs:552 | `{:.2}` gives digits, a point and two digits, with a leading minus exactly for negative values |
| Common.Fixed2OfHundredths | src-tauri/src/commands/model_commands.rs:552 | a value with at most two decimals is written exactly |
| Common.Fixed2Examples | src-tauri/src/commands/model_commands.rs:552 | a whole fit is written "1.00" and a half fit "0.50" |
| Common.Fixed2TiesToEven | src-tauri/src/commands/model_commands.rs:552 | exact ties go to the even hundredth: 0.625 is written "0.62", 0.875 "0.88" and -0.125 "-0.12" |
| ModelCommands.TrackerEntry | src-tauri/src/commands/model_commands.rs:371-381 | a fresh entry in the given status with nothing transferred |
| ModelCommands.ProgressPct | src-tauri/src/commands/model_commands.rs:698-706 | 0 with no positive total, otherwise within [0, 100] and 100 once every byte has arrived |
| ModelCommands.ProgressMonotone | src-tauri/src/commands/model_commands.rs:698-706 | more bytes never show less progress |
| ModelCommands.Downloading | src-tauri/src/commands/model_commands.rs:708-716 | an in-flight entry carries its byte counts and a percentage within [0, 100] |
| ModelCommands.Completed | src-tauri/src/commands/model_commands.rs:756-764 | a finished entry is at 100% with the file's size and path |
| ModelCommands.Failed | src-tauri/src/commands/model_commands.rs:780-788 | a failed entry resets progress and bytes and keeps the error's display text |
| ModelCommands.FileKeepsValid | src-tauri/src/commands/model_commands.rs:240 | filing an entry under its own model with a known status keeps the tracker well-formed |
| ModelCommands.DownloadTracker.constructor | src-tauri/src/commands/model_commands.rs:240 | the tracker starts empty |
| ModelCommands.DownloadTracker.Start | src-tauri/src/commands/model_commands.rs:567-804 | an entry in flight is reported and nothing starts; no URL is a Validation error; a file on disk completes at once as "already_downloaded"; otherwise the entry is queued and a failure to persist its row is returned with the entry left queued; no other entry changes; the answer and the new entries are StartOutcome of the old ones |
| ModelCommands.StartOutcome | src-tauri/src/commands/model_commands.rs:577-641 | a handle names the model and the status of the entry it leaves (completed for "already_downloaded"); an error is either a missing URL, entries unchanged, or the row write failure, entry queued |
| ModelCommands.StartOutcomeFiled | src-tauri/src/commands/model_commands.rs:577-641 | starting a download keeps every tracker entry filed under its own model with a known status and a percentage |
| ModelCommands.DownloadTracker.Transfer | src-tauri/src/commands/model_commands.rs:646-798 | a request failure or a stream failure leaves a failed entry; otherwise the completed file; the bytes reported are the chunks' total |
| ModelCommands.DownloadTracker.Progress | src-tauri/src/commands/model_commands.rs:807-868 | the tracker entry first, then the latest persisted row, then completed for a downloaded model, else not started |
| ModelCommands.AdvanceNlpStages | src-tauri/src/commands/model_commands.rs:427-439 | the caller's setup row ends running at the download stage with 30 percent, its bundle and profile kept, every other row unchanged |
| ModelCommands.RunNlpSetup | src-tauri/src/commands/model_commands.rs:418-484 | a catalog-seeding error is returned with the setup rows and the tracker unchanged; otherwise the setup row ends running at the model-download stage at 30% with other users' rows and the chosen bundle and profile kept; a missing target or a failed read fails with the tracker unchanged; with a target the tracker is what starting its download leaves, a start error is returned, and a success names the target's id and display name and the download's status |
| RuntimeCommands.WindowHours | src-tauri/src/commands/runtime_commands.rs:163 | the window is 24 hours by default and otherwise the request clamped to [1, 720] |
| RuntimeCommands.InsertIntFacts | src-tauri/src/commands/runtime_commands.rs:197 | inserting into a sorted list keeps it sorted and adds exactly the new value |
| RuntimeCommands.SortIntsFacts | src-tauri/src/commands/runtime_commands.rs:197 | the sort is ascending and a permutation of the latencies |
| RuntimeCommands.PercentileIndex | src-tauri/src/commands/runtime_commands.rs:198-201 | the floor of n times the quantile, capped at n − 1, is always a valid index |
| RuntimeCommands.MedianIndex | src-tauri/src/commands/runtime_commands.rs:198-200 | the p50 index is n / 2 |
| RuntimeCommands.PercentileIndexMonotone | src-tauri/src/commands/runtime_commands.rs:198-201 | a higher quantile never picks an earlier index |
| RuntimeCommands.LatencyPercentiles | src-tauri/src/commands/runtime_commands.rs:194-203 | both are absent exactly when there are no latencies; otherwise both are recorded latencies, p50 is the middle of the sorted list, p95 the sorted entry at min(floor(0.95·n), n−1), and p50 ≤ p95 |
| RuntimeCommands.ChooseStarterBundle | src-tauri/src/commands/runtime_commands.rs:460-466 | the 1B llama starter exactly from 12000 MB of RAM, the 0.5B qwen starter below |
| RuntimeCommands.ChooseQualityUpgradeTarget | src-tauri/src/commands/runtime_commands.rs:613-619 | the 1.5B qwen target exists exactly from 12000 MB of RAM |
| RuntimeCommands.UpgradeTargetIsNotStarter | src-tauri/src/commands/runtime_commands.rs:460-619 | the upgrade target is never the starter bundle |
| RuntimeCommands.ByName | src-tauri/src/commands/runtime_commands.rs:480-489 | a catalog row with that name, none exactly when no row has it |
| RuntimeCommands.UpgradeJobTarget | src-tauri/src/commands/runtime_commands.rs:468-493 | a job is queued exactly when there is a target, the catalog has it, it is not the starter and it is not downloaded |
| RuntimeCommands.FirstCalm | src-tauri/src/commands/runtime_commands.rs:525-591 | the first attempt at normal or warm pressure, under the policy read on that attempt, among the first n, or n when none is |
| RuntimeCommands.FirstCalmIs | src-tauri/src/commands/runtime_commands.rs:525-591 | an attempt preceded only by pressured attempts and calm itself is the first calm one |
| RuntimeCommands.RunUpgradeJob | src-tauri/src/commands/runtime_commands.rs:522-610 | each attempt classifies with the policy read then, the default when the read fails; the defer count is the number of pressured attempts before the first calm one; the job is deferred with count 24 exactly when all 24 attempts are pressured, and then starts nothing; otherwise the tracker and the submitted or failed outcome are those of starting the download once; a failed job had no URL or left the entry queued after a row write failure |
| RuntimeCommands.AlwaysCriticalDefers | src-tauri/src/commands/runtime_commands.rs:525-609 | a system critical on every attempt, under each attempt's policy, defers the job after 24 attempts |
| RuntimeCommands.BenchmarkModel | src-tauri/src/commands/runtime_commands.rs:346-363 | with an id the row found by id, then by name; without one the installed default, else the first installed, else NotFound("model", "default") |
| RuntimeCommands.BenchmarkPath | src-tauri/src/commands/runtime_commands.rs:346-371 | the selected model's file path, a Validation error when it has none |
| RuntimeCommands.StartFirstRunSetup | src-tauri/src/commands/runtime_commands.rs:225-302 | a missing starter is NotFound and touches no setup row; a success completes the user's row at 100% with the starter as bundle and this profile; a failed NLP setup marks the row failed at the starter-install stage with the error's text |
| IntegrationCommands.ResolveDirectory | src-tauri/src/commands/integration_commands.rs:135-156 | a blank path is rejected with "{field} is required"; the trimmed path is accepted exactly when it is an existing directory |
| IntegrationCommands.ResolveFile | src-tauri/src/commands/integration_commands.rs:158-179 | a blank path is rejected with "{field} is required"; the trimmed path is accepted exactly when it is an existing regular file |
| IntegrationCommands.ResolveDirectoryIgnoresPadding | src-tauri/src/commands/integration_commands.rs:135-156 | padding around a path does not change the outcome |
| IntegrationCommands.ReadNpmScripts | src-tauri/src/commands/integration_commands.rs:181-206 | a missing package file and a missing scripts object are rejected with their messages; otherwise the names are strictly sorted and are exactly the package's script names |
| IntegrationCommands.FindScript | src-tauri/src/commands/integration_commands.rs:208-215 | the first candidate, in candidate order, that is a script; none exactly when no candidate is |
| IntegrationCommands.FindScriptOrderFree | src-tauri/src/commands/integration_commands.rs:208-215 | the order of the script list never changes which candidate is found |
| IntegrationCommands.SortedScriptsFindTheSame | src-tauri/src/commands/integration_commands.rs:181-215 | sorting the names in read_npm_scripts changes no lookup |
| IntegrationCommands.BuildScript | src-tauri/src/commands/integration_commands.rs:559-566 | "build" wins, then "spotify:build"; with neither the error lists the available scripts |
| IntegrationCommands.OAuthScript | src-tauri/src/commands/integration_commands.rs:575-593 | an OAuth script is found exactly when one of the five candidates exists, and "oauth" wins |
| IntegrationCommands.FailureDetail | src-tauri/src/commands/integration_commands.rs:231-239 | trimmed stderr if non-blank, else trimmed stdout if non-blank, else "Exit status: …"; never empty |
| IntegrationCommands.RunCommandOutput | src-tauri/src/commands/integration_commands.rs:217-243 | a time-out and a spawn failure give their messages, success gives trimmed stdout, a failed exit gives the failure detail |
| IntegrationCommands.AudioAction | src-tauri/src/commands/integration_commands.rs:264-281 | resumePlayback and playMusic emit play, pausePlayback pause, skipToNext next, skipToPrevious prev; any other tool emits nothing |
| IntegrationCommands.PlanSpotifyTool | src-tauri/src/commands/integration_commands.rs:626-677 | a bad server root or a blank tool is rejected; a runner script is used only when the package lists it; the node entry only when no runner script is found; the tool is trimmed |
| IntegrationCommands.ParseU64 | src-tauri/src/commands/integration_commands.rs:308 | a parsed value fits a u64 |
| IntegrationCommands.ParseExpiresAt | src-tauri/src/commands/integration_commands.rs:296-311 | an absent value gives none; a u64 is kept; a negative integer gives none; a string is trimmed then parsed; any other JSON type gives none |
| IntegrationCommands.ExpiresAtFromText | src-tauri/src/commands/integration_commands.rs:307-308 | a number written in a string with whitespace around it is read back |
| ConversationService.NextPosition | src-tauri/src/services/conversation_service.rs:208-453 | one past the last message's position, or the given start (0 for the user message, 1 for the reply) in an empty session; above every position of an ascending session |
| ConversationService.IsManualSelectionMode | src-tauri/src/services/conversation_service.rs:83-88 | true exactly when a mode is given and its trimmed text equals "manual" ignoring ASCII case |
| ConversationService.ManualModeIgnoresPadding | src-tauri/src/services/conversation_service.rs:83-88 | padding around the mode never changes the answer |
| ConversationService.PlainManualIsManual | src-tauri/src/services/conversation_service.rs:83-88 | "Manual" is manual mode |
| ConversationService.AutoIsNotManual | src-tauri/src/services/conversation_service.rs:83-88 | "auto" and an absent mode are not manual mode |
| ConversationService.ResolveSelectedModel | src-tauri/src/services/conversation_service.rs:90-101 | a blank selection finds nothing; otherwise the trimmed name is resolved by id, then by name |
| ConversationService.ResolveSelectedTrimmed | src-tauri/src/services/conversation_service.rs:90-101 | trimming the selection first changes nothing |
| ConversationService.TargetForRouting | src-tauri/src/services/conversation_service.rs:103-119 | the routed model when the catalog has its id; otherwise the installed default, else the first installed, and nothing only when nothing is installed |
| ConversationService.ManualSelection | src-tauri/src/services/conversation_service.rs:256-290 | no pick keeps automatic routing with a notice; an installed pick replaces the routed model and extends the reason; an unknown or uninstalled pick keeps automatic routing with the matching notice |
| ConversationService.EnsureModelLoaded | src-tauri/src/services/conversation_service.rs:159-188 | a model without a file path fails with the missing-path message; a model whose path is active loads nothing; otherwise the load's outcome |
| ConversationService.PrepareTarget | src-tauri/src/services/conversation_service.rs:252-330 | automatic mode routes as planned; in manual mode a load failure switches to a different automatic target that loads, with the switch notice, fails with both load errors when that one fails too, and fails with context when there is no other target |
| ConversationService.GenerationOptionsFor | src-tauri/src/services/conversation_service.rs:338-350 | the token cap never exceeds the routing's cap, the plan's hint or the lane cap of the policy |
| ConversationService.AfterGenerationFailure | src-tauri/src/services/conversation_service.rs:352-403 | outside manual mode, without an automatic target or when already on it, the error stands; otherwise a loaded fallback is retried with the switch notice, and a failed one gives the combined error |
| ConversationService.FullText | src-tauri/src/services/conversation_service.rs:418-443 | the stored reply is exactly the notice and a blank line, when there is one, followed by the streamed tokens |
| ConversationService.StoredReply | src-tauri/src/services/conversation_service.rs:445-466 | a reply is stored exactly when the full text is not blank, and it is that text |
| ConversationService.NoticeIsStored | src-tauri/src/services/conversation_service.rs:420-445 | a non-blank notice always gets the reply stored |
| ConversationService.GenerateSessionTitle | src-tauri/src/services/conversation_service.rs:549-568 | "New Conversation" when the first two messages hold no word; otherwise the title's words are their first five words |
| ConversationService.JoinOfWords | src-tauri/src/services/conversation_service.rs:555-561 | splitting words joined by spaces gives the words back |
| ConversationService.TitleHasAtMostFiveWords | src-tauri/src/services/conversation_service.rs:557-561 | a title has at most five words |
| ConversationService.SummaryLines | src-tauri/src/services/conversation_service.rs:579-584 | the eight newest messages, newest first, each as "role: content" |
| ConversationService.SessionSummary | src-tauri/src/services/conversation_service.rs:570-590 | no summary for an empty session; otherwise the summary lines joined by newlines |
| Background.IsPressureHigh | src-tauri/src/services/background_service.rs:330-337 | with no memory total only CPU at 88% or more counts; otherwise CPU or memory use at 88% or more |
| Background.PercentThreshold | src-tauri/src/services/background_service.rs:335-336 | the memory percentage reaches a threshold exactly when used times 100 reaches threshold times total |
| Background.JobFor | src-tauri/src/services/background_service.rs:140-160 | an embed task runs exactly when RAG is present; a summary runs exactly when pressure is not high; a refresh exactly when pressure is not high and a profile exists |
| Background.Performed | src-tauri/src/services/background_service.rs:131-167 | the worker never performs more jobs than it receives tasks |
| Background.Work | src-tauri/src/services/background_service.rs:131-167 | the worker loop performs exactly the jobs the tasks call for, in order |
| Background.EmbeddingIsNeverGated | src-tauri/src/services/background_service.rs:141-145 | with RAG present every embed task is performed, whatever the pressure |
| Background.HighPressureOnlyEmbeds | src-tauri/src/services/background_service.rs:146-160 | under constant high pressure only embedding jobs run |
| Background.CalmRunsEverything | src-tauri/src/services/background_service.rs:140-160 | without pressure and with RAG and a profile every task is performed |
| Background.SummaryTasksAreEligible | src-tauri/src/services/background_service.rs:267-272 | every queued summary is for a listed session with at least 20 messages |
| Background.EligibleSessionsAreQueued | src-tauri/src/services/background_service.rs:267-272 | every listed session with at least 20 messages is queued for a summary |
| Background.SummaryJobTick | src-tauri/src/services/background_service.rs:266-273 | one tick queues exactly the summaries of the eligible sessions, in listing order |
| Background.StartedJobs | src-tauri/src/services/background_service.rs:86-120 | the MCP health job always starts; disabled, it is the only one; enabled, the worker, session summary and three more jobs start too |
| Background.TaskChannel.constructor | src-tauri/src/services/background_service.rs:61 | a new channel is empty |
| Background.TaskChannel.Send | src-tauri/src/services/background_service.rs:61 | a task is appended to the queue of at most 256 |
| Background.TaskChannel.Receive | src-tauri/src/services/background_service.rs:138-162 | the oldest task is taken off the queue, none from an empty one |
| AppState.StartupTier | src-tauri/src/state.rs:182-186 | Ultra to Low machines start as Low, Minimal and Potato as Minimal, so no machine starts above Low |
| AppState.StartupConfig | src-tauri/src/state.rs:188-189 | the startup tier's configuration in the stored mode with background tasks switched off |
| AppState.Initialize | src-tauri/src/state.rs:139-415 | embeddings and reranking exist exactly when configured and constructed; RAG exactly with both; the model manager only with auto-load and both; background tasks off; the feature gates follow RAG and the startup tier |
| AppState.ModelManagerNeverCreated | src-tauri/src/state.rs:391-414 | no startup tier auto-loads a model, so the model manager is never created |
| AppState.SmallMachinesStartLean | src-tauri/src/state.rs:183-353 | Minimal and Potato machines start without embeddings, reranking, RAG or preloading |
| AppState.CapableMachinesGetRag | src-tauri/src/state.rs:218-290 | outside multitasking mode a machine good enough for Low gets RAG exactly when both services can be created |
| AppState.MultitaskingStartsWithoutRag | src-tauri/src/state.rs:188-290 | in multitasking mode there is no RAG |
| AppState.OnlyHealthCheckRunsAtStartup | src-tauri/src/state.rs:375-389 | with background tasks off, only the MCP health job runs after startup |
| ModelManager.LightLlm | src-tauri/src/services/model_manager_service.rs:106-122 | a downloaded llama model with "1B" in its parameter count when there is one, else the first downloaded llama model, none exactly when there is no downloaded llama model |
| ModelManager.LightInitialization | src-tauri/src/services/model_manager_service.rs:93-165 | a listing error ends it with nothing loaded or warmed; otherwise the light LLM's path is loaded exactly when it has one, and the NLP services are warmed exactly outside multitasking mode |
| ModelManager.OnePointOneCountsAsOne | src-tauri/src/services/model_manager_service.rs:113-116 | a "1.1B" model counts as a 1B model, since substring containment decides it |
| ModelManager.BalancedLlm | src-tauri/src/services/model_manager_service.rs:181-189 | a downloaded model with "3B" in its parameter count, none exactly when there is none |
| ModelManager.Manager.constructor | src-tauri/src/services/model_manager_service.rs:34-52 | a new manager is light and not loading |
| ModelManager.Manager.UpgradeToBalanced | src-tauri/src/services/model_manager_service.rs:167-207 | an upgrade in progress returns at once; a listing or load error is returned with the flag left set; a loaded 3B model makes the tier balanced; no usable model leaves the tier and clears the flag |
| ModelManager.Manager.UpgradeToBalancedReleasing | src-tauri/src/services/model_manager_service.rs:167-207 | as the upgrade, but the in-progress flag is clear after every call that was not refused |
| ModelManager.Manager.DowngradeToLight | src-tauri/src/services/model_manager_service.rs:209-212 | the tier becomes light and the flag is untouched |
| ModelManager.UpgradeAfterFailedUpgrade | src-tauri/src/services/model_manager_service.rs:171-198 | after a failed upgrade the next one returns Ok at once and changes nothing |
| ModelManager.RetryAfterFailedUpgradeReleasing | src-tauri/src/services/model_manager_service.rs:167-207 | with the flag released, a retry with a loadable 3B model reaches the balanced tier |
| Analytics.Step | src-tauri/src/services/analytics_service.rs:29-36 | a set cell never changes; an unset cell takes the latency exactly of a success with a latency that is not negative |
| Analytics.Reading | src-tauri/src/services/analytics_service.rs:58-65 | no latency exactly while the cell is negative, otherwise its value |
| Analytics.FirstRecordingCallWins | src-tauri/src/services/analytics_service.rs:18-65 | after any calls the reading is the latency of the first successful call with a non-negative latency, and nothing when there is none |
| Analytics.ReadingIsStable | src-tauri/src/services/analytics_service.rs:18-65 | once set, later calls never change the reading |
| Analytics.Service.constructor | src-tauri/src/services/analytics_service.rs:6-16 | the cell starts unset and the log empty |
| Analytics.Service.FirstInferenceLatencyMs | src-tauri/src/services/analytics_service.rs:58-65 | the reading of the cell |
| Analytics.Service.LogInference | src-tauri/src/services/analytics_service.rs:18-56 | the cell is offered the latency before the write; a set reading never changes; a successful write appends one "inference" row with the call's fields, a failed one appends nothing and returns its error |

## Left out

- I/O of every kind: database reads and writes, the file system, processes, the network, Tauri windows and events. Operations take the outcome of such calls as parameters, except for the calls that the lines below name, whose errors are not modelled.
- Concurrency: tokio tasks, locks, atomics and channels are modelled as sequential state. Interleavings are not modelled.
- Timers: the background service's 10 s and 60 s start delays, its interval tickers and `stop_all` are left out. So are the job bodies, which call services outside this model: memory decay, model refresh, analytics aggregation and the MCP health loop. Only the worker's and the session-summary tick's decisions are modelled.
- The orchestrator's `start_memory_monitor`, `start_background_predictor` and `start_auto_unloader` loops are left out. The body of one tick of each is modelled.
- Background.TaskChannel.Send: the precondition that the queue holds fewer than 256 tasks stands for the blocking bounded send. Blocking itself is not modelled.
- `AppState::initialize`: the other services it builds, the caches, the database pool and the default-user creation carry no decision and are left out.
- Floating point is modelled as exact reals, so rounding error and NaN are not modelled.
- Recommendation.Recommend: the random UUID `id` and the `computed_at` and `created_at` timestamps are left out. The performance estimate is kept as its two numbers, not as the JSON text the source stores.
- Sorting (rag candidate ids, MCP lists, script names, recommendations, latencies) is modelled on values, not in place.
- Rag.Chunker: requires the exact condition under which the source's loop ends. The source loops forever when the chunk size is 0, or when the overlap is at least the chunk size and the text has more words than one chunk. Ingestion's own sizes meet the condition, as IngestionChunkingTerminates shows.
- Orchestrator.RuntimeOrchestrator.PlanRequest: the governor's `get_policy` database error is not modelled; the policy is resolved from the stored rows.
- TaskRouter.Preview: takes the policy and the installed models as read; their database errors are not modelled. TaskRouter.Router.Route models both.
- Governor.PolicyStore.SetPolicy: the JSON encoding error exit is not modelled, because serialising a policy of plain numbers and booleans does not fail.
- ModelCommands.RunNlpSetup: the `get_by_id`, `get_by_name` and `list_all` catalog queries are one catalog read, whose error stands for the first of them that fails.
- ModelCommands.GetModelCompatibility: takes the catalog and the profile as read; the catalog seeding and model lookup errors are not modelled.
- RuntimeCommands.StartFirstRunSetup: the catalog seeding, hardware profile, starter lookup and setup-row write errors (its own `?` exits) are not modelled; it hands the NLP setup a seeded catalog and successful reads.
- Inference.GenerateWithLlama: the context creation and decode errors of llama.cpp are not modelled; the batch error's detail text is llama.cpp's and is a parameter.
- LocalCommands.ResolveInstalledModel: takes the installed models as read; the listing's database error, which the source returns as its text, is not modelled.
- ModelCommands.DownloadTracker.Start: the catalog seeding, data-directory and `create_dir_all` errors before the file check, and the metadata, model-row update and cache-refresh errors of the already-downloaded branch, are not modelled. The queued row's write error is modelled.
- Orchestrator.RuntimeOrchestrator.ObserveQuery: states the classifier history and the learner's query and session totals, but not the learner's category distribution or hourly counts.
- UsageLearner.Learner.RecordQuery: the running average is not stated in the method's contract. It is kept through the class invariant, and AverageIsMean proves it equals the mean of the stored lengths.
- The classifier's worked example of scoring "fn add" is not proved; the score tables are modelled.
- Feature flags read through `is_enabled` are parameters.
- Intent: `detect_temporal_context` yields only the phrase; calendar dates from the clock are not modelled.
- Context.PromptTail: treats bytes as characters, so multi-byte text is not modelled.
- McpService: `save_mcp_secret`, `decrypt_mcp_secret` and `get_stats` are storage or reporting wrappers and are left out.
- McpService.McpService.CallTool: the usage write and the connection-state write after the tool has run are taken to succeed; their errors are not modelled.
- McpService.HealthCheckAll: the `update_health` write per server and its error exit are left out; the listing error and the health values are modelled.
- UsageLearner: the local hour (`Local::now`) is a parameter.
- Inference: llama.cpp tokenisation and sampling are parameters, the sampler a function from positions to tokens.
- Crypto: `encrypt`, `encrypt_to_compact`, `new` and the zeroising of the key rely on the RNG, the OS keychain and AES-GCM. They are left out, and `decrypt` takes base64 decoding and the cipher as parameters.
- Errors: the other `From` conversions each map a foreign error to one variant, with the foreign library's text. Only the SQLite mapping is modelled.
- Errors.Display: has no contract of its own; DisplayOfMessage and DisplayOfContext state its text.
- LocalCommands and IntegrationCommands: the Tauri, window, Ollama and process commands are UI and process I/O and are left out; their parsing and decision logic is modelled.
- RuntimeCommands: the microbenchmark's timing is a parameter.
- RuntimeCommands.StartFirstRunSetup: the benchmark call and the spawned `maybe_queue_quality_upgrade` are not part of this method. They are modelled separately as UpgradeJobTarget and RunUpgradeJob.
- Setup: database errors of the setup store are left out.
- ModelManager: `get_current_tier` is a plain read and `is_model_loaded` asks the inference engine, so both are left out. The spawn and sleep of `initialize` are left out too.
- ConversationService: `active_or_default_profile` reads the database and is left out.
- `sanitize_task_type` and `sanitize_qos` are private functions of runtime_orchestrator_service.rs (lines 350-364) with the same bodies as the task router's `normalize_task_type` and `normalize_qos` (task_router_service.rs lines 156-170); they are modelled once, as TaskRouter.NormalizeTaskType and TaskRouter.NormalizeQos.
- The `token_count` estimate, `log_event`, `report_error` and `aggregate_daily` are logging or reporting and are left out.

## Findings

| source | as written | input that shows it | evidently intended | confidence | as-written member | corrected member |
|---|---|---|---|---|---|---|
| src-tauri/src/services/model_manager_service.rs:167-207 | a listing error (181) or load error (198) leaves `upgrade_to_balanced` through `?` before the in-progress flag is cleared (205), so every later upgrade returns Ok at once (171-175) and does nothing | a first upgrade whose listing or load fails, then a second upgrade with a downloaded 3B model that loads | the in-progress flag is cleared on every exit, so a later upgrade is tried afresh | not executed | ModelManager.UpgradeAfterFailedUpgrade | ModelManager.RetryAfterFailedUpgradeReleasing |
