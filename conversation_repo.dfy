/**
 * The conversation repository's token-budgeted context window: walk a
 * session's messages newest first, keep them while the running token sum
 * stays within the budget, stop at the first one that does not fit, and
 * hand the kept ones back oldest first.
 */
module ConversationRepo {
  import opened Common
  import opened Models

  /** A message's token cost: its stored count, else the estimate `len / 4 + 1`. */
  function TokensOf(m: Message): (t: int)
    ensures m.tokenCount.None? ==> t == |m.content| / 4 + 1 && t >= 1
    ensures m.tokenCount.Some? ==> t == m.tokenCount.value
  {
    if m.tokenCount.Some? then m.tokenCount.value else |m.content| / 4 + 1
  }

  /** The summed cost of some messages, added from the front as the loop does. */
  function SumTokens(ms: seq<Message>): int
  {
    if |ms| == 0 then 0 else SumTokens(ms[..|ms| - 1]) + TokensOf(ms[|ms| - 1])
  }

  /** Every message's cost is non-negative (always so when the counts are estimates). */
  predicate NonNegativeCosts(ms: seq<Message>)
  {
    forall i :: 0 <= i < |ms| ==> TokensOf(ms[i]) >= 0
  }

  /** Positions strictly decreasing, the order of `ORDER BY position DESC`. */
  predicate NewestFirst(ms: seq<Message>)
  {
    forall i, j :: 0 <= i < j < |ms| ==> ms[i].position > ms[j].position
  }

  predicate OldestFirst(ms: seq<Message>)
  {
    forall i, j :: 0 <= i < j < |ms| ==> ms[i].position < ms[j].position
  }

  /**
   * The selection of `get_context_window` over the session's rows, given
   * newest first: the kept messages are the first `k` rows, reversed, where
   * every prefix up to `k` fits the budget and the next row would not.
   */
  method GetContextWindow(rows: seq<Message>, maxTokens: int) returns (selected: seq<Message>)
    ensures |selected| <= |rows| && selected == Reverse(rows[..|selected|])
    ensures forall j :: 1 <= j <= |selected| ==> SumTokens(rows[..j]) <= maxTokens
    ensures |selected| < |rows| ==> SumTokens(rows[..|selected| + 1]) > maxTokens
    ensures |rows| > 0 && TokensOf(rows[0]) > maxTokens ==> |selected| == 0
    ensures NewestFirst(rows) ==> OldestFirst(selected)
  {
    var running := 0;
    var kept: seq<Message> := [];
    var i := 0;
    while i < |rows|
      invariant 0 <= i <= |rows|
      invariant kept == rows[..i]
      invariant running == SumTokens(rows[..i])
      invariant forall j :: 1 <= j <= i ==> SumTokens(rows[..j]) <= maxTokens
    {
      var tokens := TokensOf(rows[i]);
      assert rows[..i + 1][..i] == rows[..i];
      if running + tokens > maxTokens {
        break;
      }
      running := running + tokens;
      kept := kept + [rows[i]];
      i := i + 1;
    }
    selected := Reverse(kept);
    if |rows| > 0 && TokensOf(rows[0]) > maxTokens {
      assert rows[..1][..0] == [];
    }
  }

  /** With non-negative costs, a longer newest prefix costs at least as much. */
  lemma {:induction false} SumTokensGrows(ms: seq<Message>, j: nat, k: nat)
    requires j <= k <= |ms| && NonNegativeCosts(ms)
    ensures SumTokens(ms[..j]) <= SumTokens(ms[..k])
    decreases k - j
  {
    if j < k {
      SumTokensGrows(ms, j, k - 1);
      assert ms[..k][..k - 1] == ms[..k - 1];
      assert TokensOf(ms[k - 1]) >= 0;
    }
  }

  /**
   * Stopping at the first message that does not fit keeps the longest
   * fitting newest run when costs are non-negative: no longer prefix fits.
   */
  lemma LongestFittingRun(rows: seq<Message>, maxTokens: int, k: nat, j: nat)
    requires k < j <= |rows| && NonNegativeCosts(rows)
    requires SumTokens(rows[..k + 1]) > maxTokens
    ensures SumTokens(rows[..j]) > maxTokens
  {
    SumTokensGrows(rows, k + 1, j);
  }
}
