/**
 * The context service's shaping of a conversation before generation: keep
 * the 24 newest messages, then trim the oldest ones (and, as a last resort,
 * the system prompt) until the estimated tokens fit 3500. Also the pick of
 * the active model line.
 */
module Context {
  import opened Common
  import opened Models
  import TaskRouter

  /** The byte-length-over-four token estimate. */
  function EstimateTokens(text: string): nat { |text| / 4 }

  function MessageTokens(ms: seq<Message>): nat {
    if |ms| == 0 then 0 else EstimateTokens(ms[0].content) + MessageTokens(ms[1..])
  }

  function TotalTokens(prompt: string, ms: seq<Message>): nat {
    EstimateTokens(prompt) + MessageTokens(ms)
  }

  /** The last 400 characters of a prompt longer than 400. */
  function PromptTail(prompt: string): (r: string)
    requires |prompt| > 400
    ensures |r| == 400 && prompt == prompt[..|prompt| - 400] + r
  {
    prompt[|prompt| - 400..]
  }

  /**
   * The effect of `trim_context`: while over budget, drop the oldest
   * message as long as more than 4 remain; then, if still over budget,
   * keep only the prompt's tail when it is longer than 400 and stop.
   */
  function Trimmed(prompt: string, ms: seq<Message>, maxTokens: nat): (r: (string, seq<Message>))
    ensures |r.1| <= |ms| && r.1 == ms[|ms| - |r.1|..]
    ensures |r.1| >= Min(|ms|, 4)
    ensures TotalTokens(r.0, r.1) <= maxTokens || |r.1| <= 4
    ensures r.0 == prompt || (|prompt| > 400 && r.0 == PromptTail(prompt) && |r.1| <= 4)
    ensures TotalTokens(prompt, ms) <= maxTokens ==> r == (prompt, ms)
    ensures |r.1| < |ms| ==> TotalTokens(prompt, ms) > maxTokens
    decreases |ms|
  {
    if TotalTokens(prompt, ms) <= maxTokens then (prompt, ms)
    else if |ms| > 4 then
      var r := Trimmed(prompt, ms[1..], maxTokens);
      assert ms[1..][|ms| - 1 - |r.1|..] == ms[|ms| - |r.1|..];
      r
    else if |prompt| > 400 then (PromptTail(prompt), ms)
    else (prompt, ms)
  }

  /** `trim_context(system_prompt, messages, max_tokens)` on the two mutable arguments. */
  method TrimContext(systemPrompt: string, messages: seq<Message>, maxTokens: nat)
    returns (prompt: string, kept: seq<Message>)
    ensures (prompt, kept) == Trimmed(systemPrompt, messages, maxTokens)
  {
    prompt := systemPrompt;
    kept := messages;
    while TotalTokens(prompt, kept) > maxTokens
      invariant prompt == systemPrompt
      invariant |kept| <= |messages| && Trimmed(systemPrompt, messages, maxTokens) == Trimmed(prompt, kept, maxTokens)
      decreases |kept|
    {
      if |kept| > 4 {
        kept := kept[1..];
      } else if |prompt| > 400 {
        prompt := PromptTail(prompt);
        break;
      } else {
        break;
      }
    }
  }

  /** `split_off(len - 24)` when there are more than 24 messages. */
  function KeepNewest(ms: seq<Message>, cap: nat): (r: seq<Message>)
    ensures |r| == Min(|ms|, cap) && r == ms[|ms| - |r|..]
  {
    if |ms| > cap then ms[|ms| - cap..] else ms
  }

  /**
   * The conversation part of `build_context`: at most the 24 newest
   * messages of the window, trimmed to 3500 estimated tokens.
   */
  method FitConversation(systemPrompt: string, window: seq<Message>) returns (prompt: string, kept: seq<Message>)
    ensures (prompt, kept) == Trimmed(systemPrompt, KeepNewest(window, 24), 3500)
    ensures |kept| <= 24 && kept == window[|window| - |kept|..]
    ensures TotalTokens(prompt, kept) <= 3500 || |kept| <= 4
  {
    var newest := KeepNewest(window, 24);
    prompt, kept := TrimContext(systemPrompt, newest, 3500);
    assert newest[|newest| - |kept|..] == window[|window| - |kept|..];
  }

  /** The first default model, else the last installed one (`find`, then `pop`). */
  function ActiveModel(installed: seq<Model>): (m: Option<Model>)
    ensures m.None? <==> |installed| == 0
    ensures m.Some? && IsDefault(m.value) ==>
      (exists j :: 0 <= j < |installed| && installed[j] == m.value && forall k :: 0 <= k < j ==> !IsDefault(installed[k]))
    ensures (exists i :: 0 <= i < |installed| && IsDefault(installed[i])) ==> m.Some? && IsDefault(m.value)
    ensures (forall i :: 0 <= i < |installed| ==> !IsDefault(installed[i])) && |installed| > 0 ==>
      m == Some(installed[|installed| - 1])
  {
    var d := TaskRouter.FirstDefaultIndex(installed);
    if d.Some? then Some(installed[d.value])
    else if |installed| > 0 then Some(installed[|installed| - 1])
    else None
  }

  /** The model line of the system prompt. */
  function ModelLine(active: Option<Model>): string {
    if active.Some? then "Active model: " + active.value.displayName + " (" + active.value.name + ")"
    else "Active model: none selected"
  }
}
