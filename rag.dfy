/**
 * The retrieval service's chunker, which cuts a document's words into
 * overlapping chunks, and the candidate-id list it hands to the vector
 * search (sorted, without duplicates).
 */
module Rag {
  import opened Common

  /**
   * One chunk. `startChar` and `endChar` are the chunk's word range
   * `[startChar, endChar)` in the document's whitespace-split words, not
   * character offsets.
   */
  datatype TextChunk = TextChunk(chunkIndex: nat, tokenCount: nat, startChar: nat, endChar: nat, content: string)

  /** What chunk `i` of a chunking of `words` must look like on its own. */
  predicate WellFormedChunk(c: TextChunk, i: nat, words: seq<string>, chunkSize: nat)
  {
    && c.chunkIndex == i
    && c.startChar < c.endChar <= |words|
    && c.endChar - c.startChar <= chunkSize
    && c.tokenCount == c.endChar - c.startChar
    && c.content == Join(words[c.startChar..c.endChar], " ")
  }

  /** How consecutive chunks relate: full chunks, each next one starting `overlap` words back. */
  predicate Linked(a: TextChunk, b: TextChunk, n: nat, chunkSize: nat, overlap: nat)
  {
    a.endChar == a.startChar + chunkSize && a.endChar < n && b.startChar == SatSub(a.endChar, overlap)
  }

  /**
   * Whether the chunker's loop terminates on these arguments: the source
   * never advances when the chunk size is 0, nor when the overlap swallows
   * a whole chunk and more than one chunk is needed.
   */
  predicate ChunkerTerminates(n: nat, chunkSize: nat, overlap: nat)
  {
    n == 0 || (chunkSize > 0 && (overlap < chunkSize || n <= chunkSize))
  }

  /**
   * `chunker(text, chunkSize, overlap)`: no chunks for blank text;
   * otherwise chunks numbered 0, 1, …, the first starting at word 0, the
   * last ending at the last word, every one but the last holding exactly
   * `chunkSize` words and the next starting `overlap` words before its end.
   */
  method Chunker(text: string, chunkSize: nat, overlap: nat) returns (out: seq<TextChunk>)
    requires ChunkerTerminates(|SplitWs(text)|, chunkSize, overlap)
    ensures var words := SplitWs(text);
      && (|out| == 0 <==> |words| == 0)
      && (forall i :: 0 <= i < |out| ==> WellFormedChunk(out[i], i, words, chunkSize))
      && (|out| > 0 ==> out[0].startChar == 0 && out[|out| - 1].endChar == |words|)
      && (forall i :: 0 <= i < |out| - 1 ==> Linked(out[i], out[i + 1], |words|, chunkSize, overlap))
  {
    var words := SplitWs(text);
    var n := |words|;
    if n == 0 {
      return [];
    }
    out := [];
    var idx := 0;
    var chunkIndex := 0;
    while idx < n
      invariant 0 <= idx < n
      invariant chunkIndex == |out|
      invariant AllWellFormed(out, words, chunkSize)
      invariant |out| == 0 ==> idx == 0
      invariant |out| > 0 ==> out[0].startChar == 0
      invariant |out| > 0 ==> out[|out| - 1].endChar == out[|out| - 1].startChar + chunkSize
                              && out[|out| - 1].endChar < n && idx == SatSub(out[|out| - 1].endChar, overlap)
      invariant AllLinked(out, n, chunkSize, overlap)
      decreases n - idx
    {
      var end := Min(idx + chunkSize, n);
      var slice := words[idx..end];
      var chunk := TextChunk(chunkIndex, |slice|, idx, end, Join(slice, " "));
      AppendChunk(out, chunk, words, chunkSize, overlap);
      out := out + [chunk];
      if end == n {
        break;
      }
      idx := SatSub(end, overlap);
      chunkIndex := chunkIndex + 1;
    }
  }

  /** Every chunk is well formed at its position. */
  predicate AllWellFormed(out: seq<TextChunk>, words: seq<string>, chunkSize: nat)
  {
    forall i :: 0 <= i < |out| ==> WellFormedChunk(out[i], i, words, chunkSize)
  }

  /** Every chunk is linked to the next. */
  predicate AllLinked(out: seq<TextChunk>, n: nat, chunkSize: nat, overlap: nat)
  {
    forall i :: 0 <= i < |out| - 1 ==> Linked(out[i], out[i + 1], n, chunkSize, overlap)
  }

  /** A well formed chunk linked to the last one extends a chunking. */
  lemma AppendChunk(out: seq<TextChunk>, c: TextChunk, words: seq<string>, chunkSize: nat, overlap: nat)
    requires AllWellFormed(out, words, chunkSize) && AllLinked(out, |words|, chunkSize, overlap)
    requires WellFormedChunk(c, |out|, words, chunkSize)
    requires |out| > 0 ==> Linked(out[|out| - 1], c, |words|, chunkSize, overlap)
    ensures AllWellFormed(out + [c], words, chunkSize) && AllLinked(out + [c], |words|, chunkSize, overlap)
  {
  }

  /** Chunks cover the document: every word lies in some chunk. */
  lemma ChunksCoverWords(out: seq<TextChunk>, words: seq<string>, chunkSize: nat, overlap: nat, w: nat)
    requires |out| > 0 && w < |words|
    requires forall i :: 0 <= i < |out| ==> WellFormedChunk(out[i], i, words, chunkSize)
    requires out[0].startChar == 0 && out[|out| - 1].endChar == |words|
    requires forall i :: 0 <= i < |out| - 1 ==> Linked(out[i], out[i + 1], |words|, chunkSize, overlap)
    ensures exists i :: 0 <= i < |out| && out[i].startChar <= w < out[i].endChar
  {
    var k := 0;
    while k < |out| - 1 && out[k].endChar <= w
      invariant 0 <= k < |out|
      invariant out[k].startChar <= w
    {
      assert Linked(out[k], out[k + 1], |words|, chunkSize, overlap);
      k := k + 1;
    }
    assert out[k].startChar <= w < out[k].endChar;
  }

  /** The ingestion call's chunking, 512 words with 64 overlap, always terminates. */
  lemma IngestionChunkingTerminates(text: string)
    ensures ChunkerTerminates(|SplitWs(text)|, 512, 64)
  {
  }

  /**
   * The candidate ids of `retrieve`: the BM25 hits, or the recent chunk
   * ids when there are none, sorted and deduplicated.
   */
  function CandidateIds(bm25Ids: seq<string>, recentIds: seq<string>): (ids: seq<string>)
    ensures StrictlySorted(ids)
    ensures |bm25Ids| > 0 ==> forall y :: y in ids <==> y in bm25Ids
    ensures |bm25Ids| == 0 ==> forall y :: y in ids <==> y in recentIds
    ensures forall i, j :: 0 <= i < j < |ids| ==> ids[i] != ids[j]
  {
    var ids := SortDedup(if |bm25Ids| > 0 then bm25Ids else recentIds);
    assert forall i, j :: 0 <= i < j < |ids| ==> ids[i] != ids[j] by {
      forall i, j | 0 <= i < j < |ids| ensures ids[i] != ids[j] {
        LexIrreflexive(ids[i]);
      }
    }
    ids
  }
}
