/**
 * The recommendation service's ranking of candidate models for a hardware
 * profile: RAM, VRAM and speed fit combined into a score, a mode factor,
 * a tier and energy rating per model, then the list ordered by descending
 * score with the first entry marked primary.
 */
module Recommendation {
  import opened Common
  import opened Models
  import opened Errors
  import Hardware

  datatype ModelRecommendation = ModelRecommendation(
    systemProfileId: string,
    modelId: string,
    recommendationTier: string,
    score: real,
    reasoning: string,
    tokensPerSec: int,
    loadTimeMs: int,
    energyRating: string,
    isPrimaryRecommendation: int)

  /** RAM fit: total RAM over the recommended RAM (at least 1), capped at 1. */
  function RamFit(profile: SystemProfile, model: Model): (r: real)
    ensures r <= 1.0
    ensures profile.totalRamMb >= 0 ==> r >= 0.0
    ensures profile.totalRamMb >= Max(model.recommendedRamMb, 1) ==> r == 1.0
  {
    var denom := Max(model.recommendedRamMb, 1) as real;
    var q := profile.totalRamMb as real / denom;
    QuotientFacts(profile.totalRamMb as real, denom);
    MinR(q, 1.0)
  }

  /** Sign and size of a quotient by a divisor of at least 1. */
  lemma QuotientFacts(s: real, n: real)
    requires n >= 1.0
    ensures s >= 0.0 ==> s / n >= 0.0
    ensures s >= n ==> s / n >= 1.0
  {
    if s >= 0.0 { DivBounds(s, n, 0.0, s); }
    if s >= n { DivBounds(s, n, 1.0, s); }
  }

  function VramOf(profile: SystemProfile): int { if profile.gpuVramMb.Some? then profile.gpuVramMb.value else 0 }

  /** VRAM fit: 1 when the model needs none, else VRAM over the minimum, capped at 1. */
  function VramFit(profile: SystemProfile, model: Model): (r: real)
    ensures r <= 1.0
    ensures model.minVramMb <= 0 ==> r == 1.0
    ensures VramOf(profile) >= 0 ==> r >= 0.0
  {
    if model.minVramMb <= 0 then 1.0
    else
      var v := VramOf(profile) as real;
      var denom := model.minVramMb as real;
      QuotientFacts(v, denom);
      MinR(v / denom, 1.0)
  }

  /** Speed fit: measured tokens per second over 45, clamped to [0.25, 1]; 0.55 when unknown. */
  function PerfFit(model: Model): (r: real)
    ensures model.avgTokensPerSec.None? ==> r == 0.55
    ensures 0.25 <= r <= 1.0
  {
    if model.avgTokensPerSec.Some? then ClampR(model.avgTokensPerSec.value / 45.0, 0.25, 1.0) else 0.55
  }

  function Weighted(ram: real, vram: real, perf: real): real { ram * 0.40 + vram * 0.35 + perf * 0.25 }

  /** The weighted fit lies in [0, 1] when each fit does. */
  lemma WeightedBounds(ram: real, vram: real, perf: real)
    requires 0.0 <= ram <= 1.0 && 0.0 <= vram <= 1.0 && 0.0 <= perf <= 1.0
    ensures 0.0 <= Weighted(ram, vram, perf) <= 1.0
  {
  }

  /**
   * The mode factor: under Multitasking a model recommending more than
   * 3500 MB is scaled by 0.3, a smaller one by 1.25; other modes keep the score.
   */
  function ModeScore(score: real, mode: Hardware.PerformanceMode, model: Model): (r: real)
    ensures mode != Hardware.Multitasking ==> r == score
    ensures mode == Hardware.Multitasking && model.recommendedRamMb > 3500 ==> r == score * 0.3
    ensures mode == Hardware.Multitasking && model.recommendedRamMb <= 3500 ==> r == score * 1.25
  {
    if mode == Hardware.Multitasking && model.recommendedRamMb > 3500 then score * 0.3
    else if mode == Hardware.Multitasking && model.recommendedRamMb <= 3500 then score * 1.25
    else score
  }

  /** The score of one candidate. */
  function Score(profile: SystemProfile, mode: Hardware.PerformanceMode, model: Model): real
  {
    ModeScore(Weighted(RamFit(profile, model), VramFit(profile, model), PerfFit(model)), mode, model)
  }

  /** Outside Multitasking the score is a weighted fit in [0, 1] for a real machine. */
  lemma ScoreBounds(profile: SystemProfile, mode: Hardware.PerformanceMode, model: Model)
    requires profile.totalRamMb >= 0 && VramOf(profile) >= 0
    ensures 0.0 <= Score(profile, mode, model)
    ensures mode != Hardware.Multitasking ==> Score(profile, mode, model) <= 1.0
    ensures mode == Hardware.Multitasking ==> Score(profile, mode, model) <= 1.25
  {
    WeightedBounds(RamFit(profile, model), VramFit(profile, model), PerfFit(model));
  }

  /** Tier names from the score. */
  function TierOf(score: real): (t: string)
    ensures t == "optimal" <==> score >= 0.88
    ensures t == "compatible" <==> 0.65 <= score < 0.88
    ensures t == "stretch" <==> 0.45 <= score < 0.65
    ensures t == "incompatible" <==> score < 0.45
  {
    if score >= 0.88 then "optimal"
    else if score >= 0.65 then "compatible"
    else if score >= 0.45 then "stretch"
    else "incompatible"
  }

  function TierRank(t: string): nat
  {
    if t == "optimal" then 3 else if t == "compatible" then 2 else if t == "stretch" then 1 else 0
  }

  /** A higher score never gets a worse tier. */
  lemma TierMonotone(a: real, b: real)
    requires a <= b
    ensures TierRank(TierOf(a)) <= TierRank(TierOf(b))
  {
  }

  /** Energy rating with strict thresholds 0.85 / 0.7 / 0.55. */
  function EnergyOf(score: real): (e: string)
    ensures e == "A" <==> score > 0.85
    ensures e == "B" <==> 0.7 < score <= 0.85
    ensures e == "C" <==> 0.55 < score <= 0.7
    ensures e == "D" <==> score <= 0.55
  {
    if score > 0.85 then "A" else if score > 0.7 then "B" else if score > 0.55 then "C" else "D"
  }

  /** The stored reasoning: the three fits with two decimals, then the tier. */
  function Reasoning(ram: real, vram: real, perf: real, tier: string): string
  {
    "RAM fit " + Fixed2(ram) + ", VRAM fit " + Fixed2(vram) + ", perf fit " + Fixed2(perf) + ", tier " + tier
  }

  /** Estimated tokens per second: 40 per unit of score plus 15 per unit of speed fit, rounded. */
  function TokensEstimate(score: real, perf: real): (t: int)
    ensures 0.0 <= score <= 1.25 && 0.25 <= perf <= 1.0 ==> 4 <= t <= 65
  {
    var v := score * 40.0 + perf * 15.0;
    RoundMonotone(MinR(3.75, v), v);
    RoundMonotone(v, MaxR(v, 65.0));
    assert Round(3.75) == 4 && Round(65.0) == 65;
    Round(v)
  }

  /** Estimated load time: 4.5 s scaled by the missing score, at least 5% of it, rounded. */
  function LoadTimeEstimate(score: real): (ms: int)
    ensures ms >= 225
    ensures score >= 0.95 ==> ms == 225
    ensures score >= 0.0 ==> ms <= 4500
  {
    RoundMonotone(0.05 * 4500.0, MaxR(1.0 - score, 0.05) * 4500.0);
    RoundMonotone(MaxR(1.0 - score, 0.05) * 4500.0, MaxR(MaxR(1.0 - score, 0.05) * 4500.0, 4500.0));
    assert Round(225.0) == 225 && Round(4500.0) == 4500;
    Round(MaxR(1.0 - score, 0.05) * 4500.0)
  }

  /** The unranked recommendation of one candidate. */
  function Recommend(profile: SystemProfile, mode: Hardware.PerformanceMode, model: Model): (r: ModelRecommendation)
    ensures r.modelId == model.id && r.systemProfileId == profile.id && r.isPrimaryRecommendation == 0
    ensures r.score == Score(profile, mode, model)
    ensures r.recommendationTier == TierOf(r.score) && r.energyRating == EnergyOf(r.score)
    ensures r.reasoning == Reasoning(RamFit(profile, model), VramFit(profile, model), PerfFit(model), r.recommendationTier)
    ensures r.tokensPerSec == TokensEstimate(r.score, PerfFit(model))
    ensures r.loadTimeMs == LoadTimeEstimate(r.score)
  {
    var score := Score(profile, mode, model);
    var tier := TierOf(score);
    ModelRecommendation(profile.id, model.id, tier, score,
      Reasoning(RamFit(profile, model), VramFit(profile, model), PerfFit(model), tier),
      TokensEstimate(score, PerfFit(model)), LoadTimeEstimate(score),
      EnergyOf(score), 0)
  }

  /** On a real machine the estimates stay within 4..65 tokens per second and 225..4500 ms. */
  lemma EstimateBounds(profile: SystemProfile, mode: Hardware.PerformanceMode, model: Model)
    requires profile.totalRamMb >= 0 && VramOf(profile) >= 0
    ensures 4 <= Recommend(profile, mode, model).tokensPerSec <= 65
    ensures 225 <= Recommend(profile, mode, model).loadTimeMs <= 4500
  {
    ScoreBounds(profile, mode, model);
  }

  predicate SortedDesc(s: seq<ModelRecommendation>)
  {
    forall i, j :: 0 <= i < j < |s| ==> s[i].score >= s[j].score
  }

  /** Insert after every entry scoring at least as much, which keeps equal scores in arrival order. */
  function InsertByScore(x: ModelRecommendation, s: seq<ModelRecommendation>): seq<ModelRecommendation>
  {
    if |s| == 0 then [x]
    else if s[0].score >= x.score then [s[0]] + InsertByScore(x, s[1..])
    else [x] + s
  }

  /** Inserting into a descending list keeps it descending and adds exactly `x`. */
  lemma {:induction false} InsertByScoreFacts(x: ModelRecommendation, s: seq<ModelRecommendation>)
    requires SortedDesc(s)
    ensures SortedDesc(InsertByScore(x, s))
    ensures multiset(InsertByScore(x, s)) == multiset(s) + multiset{x}
    ensures |InsertByScore(x, s)| == |s| + 1
    ensures forall y :: y in InsertByScore(x, s) ==> y == x || y in s
  {
    InsertByScoreContents(x, s);
    if |s| > 0 && s[0].score >= x.score {
      var rest := InsertByScore(x, s[1..]);
      DescTail(s);
      InsertByScoreFacts(x, s[1..]);
      forall y | y in rest ensures s[0].score >= y.score {
        if y != x {
          assert y in s;
          HeadIsHighest(s, y);
        }
      }
      ConsDesc(s[0], rest);
    } else if |s| > 0 {
      forall y | y in s ensures x.score >= y.score {
        HeadIsHighest(s, y);
      }
      ConsDesc(x, s);
    }
  }

  /** Inserting adds exactly `x`, in whatever order the list is. */
  lemma {:induction false} InsertByScoreContents(x: ModelRecommendation, s: seq<ModelRecommendation>)
    ensures multiset(InsertByScore(x, s)) == multiset(s) + multiset{x}
    ensures |InsertByScore(x, s)| == |s| + 1
    ensures forall y :: y in InsertByScore(x, s) ==> y == x || y in s
    ensures |s| > 0 && s[0].score >= x.score ==> InsertByScore(x, s) == [s[0]] + InsertByScore(x, s[1..])
    ensures |s| > 0 && s[0].score < x.score ==> InsertByScore(x, s) == [x] + s
  {
    if |s| > 0 {
      assert s == [s[0]] + s[1..];
      if s[0].score >= x.score {
        InsertByScoreContents(x, s[1..]);
      }
    }
  }

  lemma DescTail(s: seq<ModelRecommendation>)
    requires SortedDesc(s) && |s| > 0
    ensures SortedDesc(s[1..])
  {
    assert forall i :: 0 <= i < |s| - 1 ==> s[1..][i] == s[i + 1];
  }

  /** The head of a descending list scores highest. */
  lemma HeadIsHighest(s: seq<ModelRecommendation>, y: ModelRecommendation)
    requires SortedDesc(s) && y in s
    ensures s[0].score >= y.score
  {
    var k :| 0 <= k < |s| && s[k] == y;
  }

  /** An entry scoring at least every entry of a descending list may lead it. */
  lemma ConsDesc(a: ModelRecommendation, r: seq<ModelRecommendation>)
    requires SortedDesc(r) && forall y :: y in r ==> a.score >= y.score
    ensures SortedDesc([a] + r)
  {
    var t := [a] + r;
    forall i, j | 0 <= i < j < |t| ensures t[i].score >= t[j].score {
      assert t[j] == r[j - 1];
      if i > 0 {
        assert t[i] == r[i - 1];
      } else {
        assert r[j - 1] in r;
      }
    }
  }

  /** `sort_by` descending score, stable. */
  function SortByScore(s: seq<ModelRecommendation>): seq<ModelRecommendation>
  {
    if |s| == 0 then [] else InsertByScore(s[|s| - 1], SortByScore(s[..|s| - 1]))
  }

  /** The sort yields a descending permutation. */
  lemma {:induction false} SortByScoreFacts(s: seq<ModelRecommendation>)
    ensures SortedDesc(SortByScore(s))
    ensures multiset(SortByScore(s)) == multiset(s) && |SortByScore(s)| == |s|
  {
    if |s| > 0 {
      SortByScoreFacts(s[..|s| - 1]);
      InsertByScoreFacts(s[|s| - 1], SortByScore(s[..|s| - 1]));
      assert s == s[..|s| - 1] + [s[|s| - 1]];
    }
  }

  /** The primary flag loop: 1 at index 0, 0 elsewhere. */
  function MarkPrimary(s: seq<ModelRecommendation>): (r: seq<ModelRecommendation>)
    ensures |r| == |s|
    ensures forall i :: 0 <= i < |s| ==> r[i] == s[i].(isPrimaryRecommendation := if i == 0 then 1 else 0)
  {
    seq(|s|, i requires 0 <= i < |s| => s[i].(isPrimaryRecommendation := if i == 0 then 1 else 0))
  }

  /** The candidates' recommendations, in candidate order. */
  function Scored(profile: SystemProfile, mode: Hardware.PerformanceMode, cs: seq<Model>): (r: seq<ModelRecommendation>)
    ensures |r| == |cs| && forall k :: 0 <= k < |cs| ==> r[k] == Recommend(profile, mode, cs[k])
  {
    seq(|cs|, k requires 0 <= k < |cs| => Recommend(profile, mode, cs[k]))
  }

  /** No entry carries the primary flag. */
  predicate Unflagged(s: seq<ModelRecommendation>)
  {
    forall i :: 0 <= i < |s| ==> s[i].isPrimaryRecommendation == 0
  }

  /** Scoring one more candidate appends its recommendation. */
  lemma ScoredSnoc(profile: SystemProfile, mode: Hardware.PerformanceMode, cs: seq<Model>, i: nat)
    requires i < |cs|
    ensures Scored(profile, mode, cs[..i + 1]) == Scored(profile, mode, cs[..i]) + [Recommend(profile, mode, cs[i])]
  {
    var a := Scored(profile, mode, cs[..i + 1]);
    var b := Scored(profile, mode, cs[..i]) + [Recommend(profile, mode, cs[i])];
    assert |a| == |b|;
    forall k | 0 <= k < |a| ensures a[k] == b[k] {
      assert cs[..i + 1][k] == cs[k];
      if k < i {
        assert cs[..i][k] == cs[k];
        assert b[k] == Scored(profile, mode, cs[..i])[k];
      }
    }
  }

  /** The loop of `recompute` that scores each candidate in turn. */
  method ScoreCandidates(profile: SystemProfile, mode: Hardware.PerformanceMode, candidates: seq<Model>)
    returns (built: seq<ModelRecommendation>)
    ensures built == Scored(profile, mode, candidates)
  {
    built := [];
    var i := 0;
    while i < |candidates|
      invariant 0 <= i <= |candidates|
      invariant built == Scored(profile, mode, candidates[..i])
    {
      ScoredSnoc(profile, mode, candidates, i);
      built := built + [Recommend(profile, mode, candidates[i])];
      i := i + 1;
    }
    assert candidates[..i] == candidates;
  }

  /**
   * `recompute` over the outcome `listed` of listing the compatible
   * candidates: one recommendation per candidate, ordered by descending
   * score, only the first one primary. `writeFailure` is the outcome of
   * storing them; a listing or storing error is returned instead.
   */
  method Recompute(profile: SystemProfile, mode: Hardware.PerformanceMode, listed: Result<seq<Model>>,
                   writeFailure: Option<AppError>)
    returns (r: Result<seq<ModelRecommendation>>)
    ensures listed.Err? ==> r == Err(listed.error)
    ensures listed.Ok? && writeFailure.Some? ==> r == Err(writeFailure.value)
    ensures r.Ok? <==> listed.Ok? && writeFailure.None?
    ensures r.Ok? ==> var recs := r.value;
      && recs == MarkPrimary(SortByScore(Scored(profile, mode, listed.value)))
      && |recs| == |listed.value|
      && SortedDesc(recs)
      && forall i :: 0 <= i < |recs| ==> (recs[i].isPrimaryRecommendation == 1 <==> i == 0)
  {
    if listed.Err? {
      return Err(listed.error);
    }
    var candidates := listed.value;
    var built := ScoreCandidates(profile, mode, candidates);
    var sorted := SortByScore(built);
    SortByScoreFacts(built);
    var recs := FlagPrimary(sorted);
    MarkPrimaryKeepsOrder(sorted);
    if writeFailure.Some? {
      return Err(writeFailure.value);
    }
    r := Ok(recs);
  }

  /** The loop of `recompute` that flags index 0 as primary and clears every other entry. */
  method FlagPrimary(sorted: seq<ModelRecommendation>) returns (recs: seq<ModelRecommendation>)
    ensures recs == MarkPrimary(sorted)
  {
    recs := sorted;
    var idx := 0;
    while idx < |recs|
      invariant 0 <= idx <= |recs| == |sorted|
      invariant forall k :: 0 <= k < idx ==> recs[k] == sorted[k].(isPrimaryRecommendation := if k == 0 then 1 else 0)
      invariant forall k :: idx <= k < |recs| ==> recs[k] == sorted[k]
    {
      recs := recs[idx := recs[idx].(isPrimaryRecommendation := if idx == 0 then 1 else 0)];
      idx := idx + 1;
    }
  }

  /** Flagging keeps a descending list descending, and only index 0 is primary. */
  lemma MarkPrimaryKeepsOrder(s: seq<ModelRecommendation>)
    requires SortedDesc(s)
    ensures SortedDesc(MarkPrimary(s))
    ensures forall i :: 0 <= i < |s| ==> (MarkPrimary(s)[i].isPrimaryRecommendation == 1 <==> i == 0)
  {
    var recs := MarkPrimary(s);
    assert forall k :: 0 <= k < |recs| ==> recs[k].score == s[k].score;
  }

  /** Every candidate is ranked exactly once: the ranking, flags aside, is a permutation of the scored list. */
  lemma RecomputeIsPermutation(profile: SystemProfile, mode: Hardware.PerformanceMode, candidates: seq<Model>)
    ensures var recs := MarkPrimary(SortByScore(Scored(profile, mode, candidates)));
      multiset(seq(|recs|, i requires 0 <= i < |recs| => recs[i].(isPrimaryRecommendation := 0)))
        == multiset(Scored(profile, mode, candidates))
  {
    var scored := Scored(profile, mode, candidates);
    ScoredUnflagged(profile, mode, candidates);
    SortByScoreFacts(scored);
    UnflaggedPermutation(SortByScore(scored), scored);
    ClearedMarksRestore(SortByScore(scored));
  }

  /** Freshly scored entries carry no primary flag. */
  lemma ScoredUnflagged(profile: SystemProfile, mode: Hardware.PerformanceMode, cs: seq<Model>)
    ensures Unflagged(Scored(profile, mode, cs))
  {
  }

  /** A permutation of unflagged entries is unflagged. */
  lemma UnflaggedPermutation(a: seq<ModelRecommendation>, b: seq<ModelRecommendation>)
    requires multiset(a) == multiset(b) && Unflagged(b)
    ensures Unflagged(a)
  {
    forall i | 0 <= i < |a| ensures a[i].isPrimaryRecommendation == 0 {
      assert a[i] in multiset(b);
      var k :| 0 <= k < |b| && b[k] == a[i];
    }
  }

  /** Clearing the flags that `MarkPrimary` set gives back an unflagged list. */
  lemma ClearedMarksRestore(s: seq<ModelRecommendation>)
    requires Unflagged(s)
    ensures var recs := MarkPrimary(s);
      seq(|recs|, i requires 0 <= i < |recs| => recs[i].(isPrimaryRecommendation := 0)) == s
  {
  }
}
