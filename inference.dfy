/**
 * The local inference engine: the Llama-3 chat prompt, the loaded-model
 * slot with its load and unload rules, the context and batch sizing of a
 * generation, the token loop with its finish reason, and the shape of the
 * streamed reply. The llama.cpp library is abstract: the tokenizer gives a
 * token count, the sampler a token per position, the model file its
 * trained context length.
 */
module Inference {
  import opened Common
  import opened Models
  import opened Errors
  import Hardware

  // ---------------------------------------------------------------------
  // Prompt
  // ---------------------------------------------------------------------

  /** The header role of a message: unknown roles render as "user". */
  function RoleTag(role: string): (r: string)
    ensures r in ["user", "assistant", "system"]
    ensures role in ["user", "assistant", "system"] ==> r == role
    ensures role !in ["user", "assistant", "system"] ==> r == "user"
  {
    if role == "assistant" then "assistant" else if role == "system" then "system" else "user"
  }

  const BeginOfText: string := "<|begin_of_text|>"
  const HeaderStart: string := "<|start_header_id|>"
  const HeaderEnd: string := "<|end_header_id|>\n\n"
  const EndOfTurn: string := "<|eot_id|>"
  const AssistantHeader: string := HeaderStart + "assistant" + HeaderEnd

  /** One message as a header block followed by its trimmed content. */
  function Turn(m: Message): string
  {
    HeaderStart + RoleTag(m.role) + HeaderEnd + Trim(m.content) + EndOfTurn
  }

  function Turns(ms: seq<Message>): string
  {
    if |ms| == 0 then "" else Turns(ms[..|ms| - 1]) + Turn(ms[|ms| - 1])
  }

  /** The rendering of a conversation is the rendering of its parts in order. */
  lemma {:induction false} TurnsAppend(a: seq<Message>, b: seq<Message>)
    ensures Turns(a + b) == Turns(a) + Turns(b)
    decreases |b|
  {
    if |b| == 0 {
      assert a + b == a;
    } else {
      var b' := b[..|b| - 1];
      var last := b[|b| - 1];
      assert (a + b)[..|a + b| - 1] == a + b';
      assert (a + b)[|a + b| - 1] == last;
      assert Turns(a + b) == Turns(a + b') + Turn(last);
      TurnsAppend(a, b');
      AppendAssoc(Turns(a), Turns(b'), Turn(last));
    }
  }

  lemma TurnsPrefix(ms: seq<Message>, i: nat)
    requires i < |ms|
    ensures Turns(ms[..i + 1]) == Turns(ms[..i]) + Turn(ms[i])
  {
    assert ms[..i + 1][..i] == ms[..i];
  }

  /**
   * `build_prompt`: the begin marker, one block per message in order, and
   * the assistant header that asks for the reply.
   */
  method BuildPrompt(messages: seq<Message>) returns (prompt: string)
    ensures prompt == BeginOfText + Turns(messages) + AssistantHeader
  {
    prompt := BeginOfText;
    var i := 0;
    while i < |messages|
      invariant 0 <= i <= |messages|
      invariant prompt == BeginOfText + Turns(messages[..i])
    {
      var turn := Turn(messages[i]);
      TurnsPrefix(messages, i);
      AppendAssoc(BeginOfText, Turns(messages[..i]), turn);
      prompt := prompt + turn;
      i := i + 1;
    }
    assert messages[..i] == messages;
    prompt := prompt + AssistantHeader;
  }

  /** Every prompt starts with the begin marker and ends with the assistant header. */
  lemma PromptFrame(messages: seq<Message>)
    ensures StartsWith(BeginOfText + Turns(messages) + AssistantHeader, BeginOfText)
    ensures EndsWith(BeginOfText + Turns(messages) + AssistantHeader, AssistantHeader)
  {
    Framed(BeginOfText, Turns(messages), AssistantHeader);
  }

  /** A string framed by `a` and `c` starts with `a` and ends with `c`. */
  lemma Framed(a: string, b: string, c: string)
    ensures StartsWith(a + b + c, a) && EndsWith(a + b + c, c)
  {
    var p := a + b + c;
    assert p[..|a|] == a;
    assert p[|p| - |c|..] == c;
  }

  // ---------------------------------------------------------------------
  // Loading
  // ---------------------------------------------------------------------

  datatype ModelInfo = ModelInfo(path: string, contextLength: nat, nGpuLayers: int, nThreads: nat)

  /**
   * Threads for a load: at least one; under Multitasking a quarter of the
   * threads, kept within 1 to 4.
   */
  function ThreadCount(cpuThreads: int, mode: Hardware.PerformanceMode): (n: nat)
    ensures 1 <= n <= Max(cpuThreads, 1)
    ensures mode != Hardware.Multitasking ==> n == Max(cpuThreads, 1)
    ensures mode == Hardware.Multitasking ==> n <= 4
    ensures mode == Hardware.Multitasking && 4 <= cpuThreads < 20 ==> n == cpuThreads / 4
  {
    var t := Max(cpuThreads, 1);
    if mode == Hardware.Multitasking then Clamp(t / 4, 1, 4) else t
  }

  /** All layers go to the GPU (-1) iff at least 1024 MB of VRAM are reported. */
  function GpuLayers(vramMb: Option<int>): (n: int)
    ensures n == -1 || n == 0
    ensures n == -1 <==> vramMb.Some? && vramMb.value >= 1024
  {
    if (if vramMb.Some? then vramMb.value else 0) >= 1024 then -1 else 0
  }

  /** What the sampler yields at one position: a text piece or end of generation. */
  datatype SampledToken = Piece(text: string) | EndOfGeneration

  datatype GenerationResult = GenerationResult(text: string, tokensGenerated: nat, finishReason: string)

  datatype StreamChunk = StreamChunk(sessionId: string, token: string, done: bool)

  const U32Modulus: nat := 0x1_0000_0000

  /** `as u32` on a `usize`: wraps modulo 2^32. */
  function AsU32(x: nat): (r: nat)
    ensures r < U32Modulus
    ensures x < U32Modulus ==> r == x
  {
    x % U32Modulus
  }

  /**
   * The context requested from llama.cpp: prompt plus reply, at least 1024
   * and at most 8192, and never past the model's trained context.
   */
  function SafeContextLength(promptTokens: nat, maxTokens: nat, modelContext: nat): (n: nat)
    ensures n <= 8192 && n <= AsU32(modelContext)
    ensures AsU32(modelContext) >= 1024 ==> n >= 1024
    ensures promptTokens + maxTokens <= 8192 && promptTokens + maxTokens <= AsU32(modelContext) ==>
              promptTokens + maxTokens <= n
  {
    Min(Min(Max(AsU32(promptTokens + maxTokens), 1024), 8192), AsU32(modelContext))
  }

  /** The batch holds the prompt plus 128, within 1024 to 4096. */
  function BatchSize(promptTokens: nat): (n: nat)
    ensures 1024 <= n <= 4096
    ensures 1024 <= promptTokens + 128 <= 4096 ==> n == promptTokens + 128
  {
    Min(Max(promptTokens + 128, 1024), 4096)
  }

  function PieceText(t: SampledToken): string { if t.Piece? then t.text else "" }

  /** The text of the first `n` sampled pieces, in order. */
  function Generated(sample: nat -> SampledToken, n: nat): string
  {
    if n == 0 then "" else Generated(sample, n - 1) + PieceText(sample(n - 1))
  }

  function OverflowMessage(needed: nat, ctx: nat): string
  {
    "Context overflow: prompt + max_tokens is " + NatToString(needed) + " but we clamped context to "
      + NatToString(ctx) + " to prevent RAM exhaustion. Please send a shorter message."
  }

  /** The error of a prompt token the batch has no room for; `detail` is llama.cpp's own text. */
  function BatchAddFailed(detail: string): AppError
  {
    Inference("Batch add failed: " + detail)
  }

  /**
   * The batch takes every prompt token exactly when the prompt is at most
   * 4096 tokens long: below that the batch is never smaller than the prompt.
   */
  lemma BatchHoldsPrompt(promptTokens: nat)
    ensures promptTokens <= BatchSize(promptTokens) <==> promptTokens <= 4096
  {
  }

  /**
   * `generate_with_llama` for a prompt of `promptTokens` tokens: the sizing
   * checks, the batch that must hold the whole prompt, then up to
   * `max_tokens` decoded pieces, stopping early at end of generation.
   * `batchAddError` is llama.cpp's description of a full batch. Backend,
   * context and decode failures of llama.cpp are not modelled.
   */
  method GenerateWithLlama(info: ModelInfo, promptTokens: nat, opts: GenerationOptions, sample: nat -> SampledToken,
                           batchAddError: string)
    returns (r: Result<GenerationResult>)
    ensures promptTokens == 0 ==> r == Err(Inference("Prompt tokenization was empty"))
    ensures promptTokens > 0 && SafeContextLength(promptTokens, opts.maxTokens, info.contextLength) == 0 ==>
              r == Err(Inference("Invalid context window size computed"))
    ensures var ctx := SafeContextLength(promptTokens, opts.maxTokens, info.contextLength);
      promptTokens > 0 && ctx > 0 && promptTokens + opts.maxTokens > ctx ==>
        r == Err(Inference(OverflowMessage(promptTokens + opts.maxTokens, ctx)))
    ensures var ctx := SafeContextLength(promptTokens, opts.maxTokens, info.contextLength);
      promptTokens > 0 && promptTokens + opts.maxTokens <= ctx && promptTokens > BatchSize(promptTokens) ==>
        r == Err(BatchAddFailed(batchAddError))
    ensures r.Ok? <==> promptTokens > 0 && promptTokens + opts.maxTokens <= SafeContextLength(promptTokens, opts.maxTokens, info.contextLength)
                       && promptTokens <= BatchSize(promptTokens)
    ensures r.Ok? ==>
      var n := r.value.tokensGenerated;
      && n <= opts.maxTokens
      && (r.value.finishReason == "length" <==> n == opts.maxTokens)
      && (r.value.finishReason == "stop" <==> n < opts.maxTokens)
      && r.value.text == Generated(sample, n)
      && (forall i :: 0 <= i < n ==> sample(i).Piece?)
      && (n < opts.maxTokens ==> sample(n) == EndOfGeneration)
  {
    if promptTokens == 0 {
      return Err(Inference("Prompt tokenization was empty"));
    }
    var ctx := SafeContextLength(promptTokens, opts.maxTokens, info.contextLength);
    if ctx == 0 {
      return Err(Inference("Invalid context window size computed"));
    }
    var needed := promptTokens + opts.maxTokens;
    if needed > ctx {
      return Err(Inference(OverflowMessage(needed, ctx)));
    }
    if promptTokens > BatchSize(promptTokens) {
      return Err(BatchAddFailed(batchAddError));
    }
    var generated := "";
    var decoded := 0;
    while decoded < opts.maxTokens
      invariant 0 <= decoded <= opts.maxTokens
      invariant generated == Generated(sample, decoded)
      invariant forall i :: 0 <= i < decoded ==> sample(i).Piece?
    {
      var token := sample(decoded);
      if token == EndOfGeneration {
        break;
      }
      generated := generated + token.text;
      decoded := decoded + 1;
    }
    var reason := if decoded >= opts.maxTokens then "length" else "stop";
    r := Ok(GenerationResult(generated, decoded, reason));
  }

  /** The reply stream: the pieces, an error line if generation failed, then exactly one end marker. */
  function StreamOf(sessionId: string, outcome: Result<GenerationResult>, pieces: seq<string>): (chunks: seq<StreamChunk>)
    ensures |chunks| >= 1 && chunks[|chunks| - 1] == StreamChunk(sessionId, "", true)
    ensures forall i :: 0 <= i < |chunks| - 1 ==> !chunks[i].done
    ensures outcome.Ok? ==> |chunks| == |pieces| + 1
    ensures outcome.Err? ==> (|chunks| == |pieces| + 2
        && chunks[|pieces|].token == "[inference error] " + Display(outcome.error))
  {
    seq(|pieces|, i requires 0 <= i < |pieces| => StreamChunk(sessionId, pieces[i], false))
      + (if outcome.Err? then [StreamChunk(sessionId, "[inference error] " + Display(outcome.error), false)] else [])
      + [StreamChunk(sessionId, "", true)]
  }

  /** The decoded pieces one by one, as the token callback sees them. */
  function Pieces(sample: nat -> SampledToken, n: nat): (ps: seq<string>)
    ensures |ps| == n
    ensures forall i :: 0 <= i < n ==> ps[i] == PieceText(sample(i))
  {
    if n == 0 then [] else Pieces(sample, n - 1) + [PieceText(sample(n - 1))]
  }

  /** Decoding stops after `n` pieces: all of them are pieces and, short of the budget, the next is end of generation. */
  predicate StopsAt(sample: nat -> SampledToken, maxTokens: nat, n: nat)
  {
    n <= maxTokens && (forall i :: 0 <= i < n ==> sample(i).Piece?)
    && (n < maxTokens ==> sample(n) == EndOfGeneration)
  }

  /** Where decoding from position `i` on stops: the first end of generation, or the budget. */
  function FirstStop(sample: nat -> SampledToken, maxTokens: nat, i: nat): (n: nat)
    requires i <= maxTokens
    ensures i <= n <= maxTokens
    ensures forall j :: i <= j < n ==> sample(j).Piece?
    ensures n < maxTokens ==> sample(n) == EndOfGeneration
    decreases maxTokens - i
  {
    if i == maxTokens || sample(i) == EndOfGeneration then i else FirstStop(sample, maxTokens, i + 1)
  }

  /** Decoding can stop in one place only, the first stop. */
  lemma StopsAtFirstStop(sample: nat -> SampledToken, maxTokens: nat, n: nat)
    requires StopsAt(sample, maxTokens, n)
    ensures n == FirstStop(sample, maxTokens, 0)
  {
  }

  /**
   * The stream of a generation on `info`: an empty prompt, a zero context,
   * an overflowing prompt or a prompt the batch cannot hold streams only
   * that error; a fitting prompt streams the pieces decoded before the
   * first stop, with its reason.
   */
  predicate StreamsGeneration(chunks: seq<StreamChunk>, sessionId: string, info: ModelInfo, promptTokens: nat,
                              opts: GenerationOptions, sample: nat -> SampledToken, batchAddError: string)
  {
    var ctx := SafeContextLength(promptTokens, opts.maxTokens, info.contextLength);
    && (promptTokens == 0 ==>
          chunks == StreamOf(sessionId, Err(Inference("Prompt tokenization was empty")), []))
    && (promptTokens > 0 && ctx == 0 ==>
          chunks == StreamOf(sessionId, Err(Inference("Invalid context window size computed")), []))
    && (promptTokens > 0 && ctx > 0 && promptTokens + opts.maxTokens > ctx ==>
          chunks == StreamOf(sessionId, Err(Inference(OverflowMessage(promptTokens + opts.maxTokens, ctx))), []))
    && (promptTokens > 0 && promptTokens + opts.maxTokens <= ctx && promptTokens > BatchSize(promptTokens) ==>
          chunks == StreamOf(sessionId, Err(BatchAddFailed(batchAddError)), []))
    && (promptTokens > 0 && promptTokens + opts.maxTokens <= ctx && promptTokens <= BatchSize(promptTokens) ==>
          var n := FirstStop(sample, opts.maxTokens, 0);
          chunks == StreamOf(sessionId, Ok(GenerationResult(Generated(sample, n), n,
                                                            if n == opts.maxTokens then "length" else "stop")),
                             Pieces(sample, n)))
  }

  /**
   * The streaming side of `generate_stream`: runs the generation and
   * hands each decoded piece on, then an error line if it failed, then
   * the end marker.
   */
  method StreamGeneration(sessionId: string, info: ModelInfo, promptTokens: nat, opts: GenerationOptions,
                          sample: nat -> SampledToken, batchAddError: string) returns (chunks: seq<StreamChunk>)
    ensures |chunks| >= 1 && chunks[|chunks| - 1].done
    ensures forall i :: 0 <= i < |chunks| - 1 ==> !chunks[i].done
    ensures StreamsGeneration(chunks, sessionId, info, promptTokens, opts, sample, batchAddError)
  {
    var outcome := GenerateWithLlama(info, promptTokens, opts, sample, batchAddError);
    if outcome.Err? {
      return StreamOf(sessionId, outcome, []);
    }
    var n := outcome.value.tokensGenerated;
    StopsAtFirstStop(sample, opts.maxTokens, n);
    var result := GenerationResult(Generated(sample, n), n, if n == opts.maxTokens then "length" else "stop");
    assert outcome.value == result;
    chunks := StreamOf(sessionId, Ok(result), Pieces(sample, n));
  }

  /** The error of a generation asked for while no model is loaded. */
  const NoActiveModel := Inference("No active model loaded. Register a local GGUF model first.")

  /** The loaded-model slot of `InferenceService`. */
  class Engine {
    var loaded: Option<ModelInfo>
    var lastUsed: nat

    constructor()
      ensures loaded == None && lastUsed == 0
    {
      loaded := None;
      lastUsed := 0;
    }

    /** `get_active_model_info`. */
    function ActiveModelInfo(): (info: Option<ModelInfo>)
      reads this
      ensures info.Some? <==> loaded.Some?
      ensures info.Some? ==> info.value == loaded.value
    {
      loaded
    }

    /**
     * `load_model`. `fileExists` says whether the path exists; `trained`
     * is the outcome of initialising the backend and reading the GGUF file
     * (its trained context length). Only a complete load replaces the slot.
     */
    method LoadModel(path: string, profile: SystemProfile, mode: Hardware.PerformanceMode, fileExists: bool,
                     trained: Result<nat>, now: nat) returns (r: Result<()>)
      modifies this
      ensures !fileExists ==> r == Err(Inference("Model file does not exist: " + path))
      ensures fileExists && trained.Err? ==> r == Err(trained.error)
      ensures r.Err? ==> loaded == old(loaded) && lastUsed == old(lastUsed)
      ensures r.Ok? <==> fileExists && trained.Ok?
      ensures r.Ok? ==> (lastUsed == now
        && loaded == Some(ModelInfo(path, trained.value, GpuLayers(profile.gpuVramMb), ThreadCount(profile.cpuThreads, mode))))
    {
      if !fileExists {
        return Err(Inference("Model file does not exist: " + path));
      }
      var threads := Max(profile.cpuThreads, 1);
      if mode == Hardware.Multitasking {
        threads := Clamp(threads / 4, 1, 4);
      }
      var layers := GpuLayers(profile.gpuVramMb);
      if trained.Err? {
        return Err(trained.error);
      }
      loaded := Some(ModelInfo(path, trained.value, layers, threads));
      lastUsed := now;
      r := Ok(());
    }

    /** `unload_model`: the slot is empty afterwards. */
    method UnloadModel() returns (r: Result<()>)
      modifies this
      ensures r == Ok(()) && loaded == None && lastUsed == old(lastUsed)
    {
      loaded := None;
      r := Ok(());
    }

    /** One pass of the Multitasking auto-unloader: a model idle for more than 300 s is dropped. */
    method AutoUnloadTick(now: nat)
      modifies this
      ensures loaded == (if old(loaded).Some? && SatSub(now, old(lastUsed)) > 300 then None else old(loaded))
      ensures lastUsed == old(lastUsed)
    {
      if loaded.Some? && SatSub(now, lastUsed) > 300 {
        loaded := None;
      }
    }

    /**
     * `generate_stream`: fails at once when no model is loaded; otherwise
     * marks the model used and streams the generation on the loaded model.
     */
    method GenerateStream(sessionId: string, messages: seq<Message>, opts: GenerationOptions, now: nat,
                          promptTokens: nat, sample: nat -> SampledToken, batchAddError: string)
      returns (r: Result<seq<StreamChunk>>)
      modifies this
      ensures loaded == old(loaded)
      ensures old(loaded).None? ==> (r == Err(NoActiveModel)
        && lastUsed == old(lastUsed))
      ensures old(loaded).Some? ==> r.Ok? && lastUsed == now
      ensures r.Ok? ==> (|r.value| >= 1 && r.value[|r.value| - 1].done
        && forall i :: 0 <= i < |r.value| - 1 ==> !r.value[i].done)
      ensures r.Ok? ==> loaded.Some? && StreamsGeneration(r.value, sessionId, loaded.value, promptTokens, opts, sample, batchAddError)
    {
      if loaded.None? {
        return Err(NoActiveModel);
      }
      var info := loaded.value;
      lastUsed := now;
      var prompt := BuildPrompt(messages);
      var chunks := StreamGeneration(sessionId, info, promptTokens, opts, sample, batchAddError);
      r := Ok(chunks);
    }
  }
}
