/**
 * The memory service's rule-based extraction of facts from messages, the
 * no-embedding path of retrieval, and the token-budgeted memory block that
 * is added to a prompt.
 */
module Memory {
  import opened Common
  import opened Models

  // ---------------------------------------------------------------------
  // Sentence splitting
  // ---------------------------------------------------------------------

  predicate IsTerminator(c: char) { c == '.' || c == '!' || c == '?' }

  predicate NoTerminator(s: string) { forall i :: 0 <= i < |s| ==> !IsTerminator(s[i]) }

  /**
   * `split(['.', '!', '?'])`: the pieces between terminators, empty ones
   * included, so there is always at least one.
   */
  function SplitSentences(s: string): (fs: seq<string>)
    ensures |fs| >= 1
    ensures forall k :: 0 <= k < |fs| ==> NoTerminator(fs[k])
  {
    if |s| == 0 then [""]
    else
      var rest := SplitSentences(s[1..]);
      if IsTerminator(s[0]) then [""] + rest
      else [[s[0]] + rest[0]] + rest[1..]
  }

  /** The terminators of `s`, in order. */
  function Terminators(s: string): seq<char>
  {
    if |s| == 0 then []
    else if IsTerminator(s[0]) then [s[0]] + Terminators(s[1..])
    else Terminators(s[1..])
  }

  /** Pieces put back together with one terminator between neighbours. */
  function Interleave(fs: seq<string>, ts: seq<char>): string
    requires |fs| == |ts| + 1
  {
    if |ts| == 0 then fs[0] else fs[0] + [ts[0]] + Interleave(fs[1..], ts[1..])
  }

  /** Splitting loses nothing: the pieces and the terminators rebuild the text. */
  lemma {:induction false} SplitSentencesRoundTrip(s: string)
    ensures |SplitSentences(s)| == |Terminators(s)| + 1
    ensures Interleave(SplitSentences(s), Terminators(s)) == s
  {
    if |s| > 0 {
      SplitSentencesRoundTrip(s[1..]);
      var rest := SplitSentences(s[1..]);
      var ts := Terminators(s[1..]);
      if IsTerminator(s[0]) {
        assert SplitSentences(s)[1..] == rest;
      } else {
        var fs := SplitSentences(s);
        assert fs[1..] == rest[1..];
        if |ts| > 0 {
          assert Interleave(rest, ts) == rest[0] + [ts[0]] + Interleave(rest[1..], ts[1..]);
          AppendAssoc([s[0]], rest[0], [ts[0]] + Interleave(rest[1..], ts[1..]));
        }
      }
    }
  }

  // ---------------------------------------------------------------------
  // Extraction
  // ---------------------------------------------------------------------

  /** `NewMemory`; `pred` and `obj` are the source's `predicate` and `object`. */
  datatype NewMemory = NewMemory(
    userId: string,
    memoryType: string,
    category: Option<string>,
    subject: Option<string>,
    pred: Option<string>,
    obj: Option<string>,
    content: string,
    summary: Option<string>,
    source: string,
    sourceId: Option<string>,
    sessionId: Option<string>,
    confidence: real,
    importance: real,
    decayRate: real,
    privacyLevel: string,
    tags: string,
    metadata: string)

  /** 0.84 for a fragment stating a preference or a habit, else 0.72. */
  function Confidence(t: string): (c: real)
    ensures c == 0.84 <==> Contains(t, "always") || Contains(t, "prefer")
    ensures c == 0.84 || c == 0.72
  {
    if Contains(t, "always") || Contains(t, "prefer") then 0.84 else 0.72
  }

  /** Fragments shorter than 16 bytes after trimming are skipped. */
  predicate Substantial(t: string) { |t| >= 16 }

  /** The memory recorded for one kept fragment `t` of message `m`. */
  function MemoryOf(t: string, m: Message, userId: string): NewMemory
  {
    NewMemory(userId, "semantic", Some("fact"), Some("user"), Some("said"), None, t,
      Some(Take(t, 96)), "conversation", Some(m.id), Some(m.sessionId), Confidence(t),
      0.55, 0.001, "private", "[]", "{}")
  }

  /** What one raw fragment contributes: its memory if its trim is long enough. */
  function FragmentMemories(f: string, m: Message, userId: string): seq<NewMemory>
  {
    var t := Trim(f);
    if Substantial(t) && Confidence(t) >= 0.7 then [MemoryOf(t, m, userId)] else []
  }

  /** The memories of a run of fragments, in fragment order. */
  function Extracted(fs: seq<string>, m: Message, userId: string): (r: seq<NewMemory>)
    ensures |r| <= |fs|
  {
    if |fs| == 0 then []
    else Extracted(fs[..|fs| - 1], m, userId) + FragmentMemories(fs[|fs| - 1], m, userId)
  }

  /** One more fragment adds its own memories at the end. */
  lemma ExtractedStep(fs: seq<string>, i: nat, m: Message, userId: string)
    requires i < |fs|
    ensures Extracted(fs[..i + 1], m, userId) == Extracted(fs[..i], m, userId) + FragmentMemories(fs[i], m, userId)
  {
    assert fs[..i + 1][..i] == fs[..i];
  }

  /** Properties every extracted memory has. */
  predicate WellFormedMemory(x: NewMemory, m: Message, userId: string)
  {
    && Substantial(x.content)
    && NoTerminator(x.content)
    && x == MemoryOf(x.content, m, userId)
    && (x.confidence == 0.84 <==> Contains(x.content, "always") || Contains(x.content, "prefer"))
    && x.summary == Some(x.content[..Min(96, |x.content|)])
  }

  /** Each extracted memory is a substantial, trimmed, terminator-free fragment. */
  lemma {:induction false} ExtractedWellFormed(fs: seq<string>, m: Message, userId: string)
    requires forall k :: 0 <= k < |fs| ==> NoTerminator(fs[k])
    ensures forall k :: 0 <= k < |Extracted(fs, m, userId)| ==> WellFormedMemory(Extracted(fs, m, userId)[k], m, userId)
  {
    if |fs| > 0 {
      ExtractedWellFormed(fs[..|fs| - 1], m, userId);
      var f := fs[|fs| - 1];
      TrimKeepsChars(f);
      var t := Trim(f);
      assert NoTerminator(t) by {
        forall i | 0 <= i < |t| ensures !IsTerminator(t[i]) {
          assert t[i] in f;
        }
      }
    }
  }

  /** `extract_from_message`: one memory per substantial sentence, in order. */
  method ExtractFromMessage(m: Message, userId: string) returns (extracted: seq<NewMemory>)
    ensures extracted == Extracted(SplitSentences(m.content), m, userId)
    ensures forall k :: 0 <= k < |extracted| ==> WellFormedMemory(extracted[k], m, userId)
  {
    var fragments := SplitSentences(m.content);
    extracted := [];
    var i := 0;
    while i < |fragments|
      invariant 0 <= i <= |fragments|
      invariant extracted == Extracted(fragments[..i], m, userId)
    {
      ExtractedStep(fragments, i, m, userId);
      assert Extracted(fragments[..i + 1], m, userId) == extracted + FragmentMemories(fragments[i], m, userId);
      var trimmed := Trim(fragments[i]);
      if |trimmed| < 16 {
        i := i + 1;
        continue;
      }
      var confidence := Confidence(trimmed);
      if confidence < 0.7 {
        i := i + 1;
        continue;
      }
      extracted := extracted + [MemoryOf(trimmed, m, userId)];
      i := i + 1;
    }
    assert fragments[..|fragments|] == fragments;
    ExtractedWellFormed(fragments, m, userId);
  }

  /** The memories of several messages: each message's, in message order. */
  function Batch(ms: seq<Message>, userId: string): seq<NewMemory>
  {
    if |ms| == 0 then [] else Batch(ms[..|ms| - 1], userId) + MessageMemories(ms[|ms| - 1], userId)
  }

  /** The memories of one message. */
  function MessageMemories(m: Message, userId: string): seq<NewMemory>
  {
    Extracted(SplitSentences(m.content), m, userId)
  }

  /** `extract_batch`. */
  method ExtractBatch(ms: seq<Message>, userId: string) returns (all: seq<NewMemory>)
    ensures all == Batch(ms, userId)
  {
    all := [];
    var i := 0;
    while i < |ms|
      invariant 0 <= i <= |ms|
      invariant all == Batch(ms[..i], userId)
    {
      PrefixStep(ms, i);
      BatchStep(ms[..i + 1], userId);
      var one := ExtractFromMessage(ms[i], userId);
      all := all + one;
      i := i + 1;
    }
    assert ms[..|ms|] == ms;
  }

  /** Batching splits over concatenation: the batch of `a + b` is `a`'s then `b`'s. */
  lemma {:induction false} BatchAppend(a: seq<Message>, b: seq<Message>, userId: string)
    ensures Batch(a + b, userId) == Batch(a, userId) + Batch(b, userId)
    decreases |b|
  {
    if |b| == 0 {
      assert a + b == a;
    } else {
      var b' := b[..|b| - 1];
      var x := MessageMemories(b[|b| - 1], userId);
      BatchAppend(a, b', userId);
      DropLastOfAppend(a, b);
      BatchStep(a + b, userId);
      AppendAssoc(Batch(a, userId), Batch(b', userId), x);
    }
  }

  lemma PrefixStep(ms: seq<Message>, i: nat)
    requires i < |ms|
    ensures ms[..i + 1][..i] == ms[..i] && ms[..i + 1][i] == ms[i] && |ms[..i + 1]| == i + 1
  {
  }

  /** One unfolding of `Batch`. */
  lemma BatchStep(ms: seq<Message>, userId: string)
    requires |ms| > 0
    ensures Batch(ms, userId) == Batch(ms[..|ms| - 1], userId) + MessageMemories(ms[|ms| - 1], userId)
  {
  }

  // ---------------------------------------------------------------------
  // Retrieval without embeddings and the prompt block
  // ---------------------------------------------------------------------

  /** The fields of a stored memory that retrieval and the prompt block use. */
  datatype StoredMemory = StoredMemory(id: string, content: string, importance: real)

  /**
   * `retrieve_relevant` without an embedding service: the text hits when
   * there are any, else the importance listing, cut to `limit`.
   */
  function RetrieveWithoutEmbeddings(textHits: seq<StoredMemory>, listing: seq<StoredMemory>, limit: nat)
    : (r: seq<StoredMemory>)
    ensures |textHits| > 0 ==> r == textHits[..Min(limit, |textHits|)]
    ensures |textHits| == 0 ==> r == listing[..Min(limit, |listing|)]
    ensures |r| <= limit
  {
    Take(if |textHits| > 0 then textHits else listing, limit)
  }

  /** The prompt line of one memory. */
  function Line(m: StoredMemory): string { "- [Memory:" + m.id + "] " + m.content + "\n" }

  function LineCost(m: StoredMemory): nat { |Line(m)| / 4 }

  /** The lines of some memories, in order. */
  function Lines(ms: seq<StoredMemory>): string
  {
    if |ms| == 0 then [] else Lines(ms[..|ms| - 1]) + Line(ms[|ms| - 1])
  }

  /** Their summed estimated cost. */
  function LinesCost(ms: seq<StoredMemory>): nat
  {
    if |ms| == 0 then 0 else LinesCost(ms[..|ms| - 1]) + LineCost(ms[|ms| - 1])
  }

  /**
   * The loop of `build_memory_context`: the lines of the first `count`
   * memories, which fit the budget while one more would not.
   */
  method MemoryBlock(memories: seq<StoredMemory>, maxTokens: nat) returns (output: string, ghost count: nat)
    ensures count <= |memories| && output == Lines(memories[..count])
    ensures LinesCost(memories[..count]) <= maxTokens
    ensures count < |memories| ==> LinesCost(memories[..count + 1]) > maxTokens
  {
    output := "";
    var used := 0;
    var i := 0;
    while i < |memories|
      invariant 0 <= i <= |memories|
      invariant output == Lines(memories[..i]) && used == LinesCost(memories[..i])
      invariant used <= maxTokens
    {
      assert memories[..i + 1][..i] == memories[..i];
      var line := Line(memories[i]);
      var estimate := |line| / 4;
      if used + estimate > maxTokens {
        break;
      }
      used := used + estimate;
      output := output + line;
      i := i + 1;
    }
    count := i;
  }

  /** A longer run of memories never costs less. */
  lemma {:induction false} LinesCostGrows(ms: seq<StoredMemory>, j: nat, k: nat)
    requires j <= k <= |ms|
    ensures LinesCost(ms[..j]) <= LinesCost(ms[..k])
    decreases k - j
  {
    if j < k {
      LinesCostGrows(ms, j, k - 1);
      assert ms[..k][..k - 1] == ms[..k - 1];
    }
  }

  /** The block keeps the longest fitting run: no longer run of memories fits. */
  lemma MemoryBlockIsLongest(memories: seq<StoredMemory>, maxTokens: nat, count: nat, j: nat)
    requires count < j <= |memories|
    requires LinesCost(memories[..count + 1]) > maxTokens
    ensures LinesCost(memories[..j]) > maxTokens
  {
    LinesCostGrows(memories, count + 1, j);
  }

  /** The first `count` memories fit the budget and one more would not. */
  predicate LongestFit(ms: seq<StoredMemory>, count: nat, maxTokens: nat)
  {
    count <= |ms| && LinesCost(ms[..count]) <= maxTokens
    && (count < |ms| ==> LinesCost(ms[..count + 1]) > maxTokens)
  }

  /**
   * `build_memory_context` on the no-embedding path: the 12 best
   * candidates, then as many of their lines as the budget allows.
   */
  method BuildMemoryContext(textHits: seq<StoredMemory>, listing: seq<StoredMemory>, maxTokens: nat)
    returns (output: string)
    ensures var memories := RetrieveWithoutEmbeddings(textHits, listing, 12);
      exists count: nat :: LongestFit(memories, count, maxTokens) && output == Lines(memories[..count])
  {
    var memories := RetrieveWithoutEmbeddings(textHits, listing, 12);
    ghost var count;
    output, count := MemoryBlock(memories, maxTokens);
    assert LongestFit(memories, count, maxTokens);
  }
}
