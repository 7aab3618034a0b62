/**
 * The keyword and heuristic query classifier: per-category score tables,
 * structural bonuses, the word-count bonus, a maximal-score pick, and the
 * bounded history of recent classifications behind the context-window hint
 * and the distribution snapshot.
 */
module QueryClassifier {
  import opened Common

  datatype QueryCategory =
    Simple | Medium | Complex | Code | Math | Creative | Analytical | Summarization | Translation

  function CategoryName(c: QueryCategory): string {
    match c
    case Simple => "simple"
    case Medium => "medium"
    case Complex => "complex"
    case Code => "code"
    case Math => "math"
    case Creative => "creative"
    case Analytical => "analytical"
    case Summarization => "summarization"
    case Translation => "translation"
  }

  lemma CategoryNameInjective(a: QueryCategory, b: QueryCategory)
    ensures CategoryName(a) == CategoryName(b) <==> a == b
  {
  }

  function Priority(c: QueryCategory): (p: nat)
    ensures 1 <= p <= 4
    ensures p == 4 <==> c == Code || c == Math
    ensures p == 1 <==> c == Simple
  {
    match c
    case Simple => 1
    case Medium => 2
    case Complex => 3
    case Code => 4
    case Math => 4
    case Creative => 2
    case Analytical => 3
    case Summarization => 2
    case Translation => 2
  }

  /** `max_tokens_hint`; the answer of `suggest_max_tokens`. */
  function MaxTokensHint(c: QueryCategory): (n: nat)
    ensures 256 <= n <= 1280
    ensures n == 256 <==> c == Simple
    ensures n == 1280 <==> c == Code
    ensures c == Summarization ==> n == 300
  {
    match c
    case Simple => 256
    case Medium => 512
    case Complex => 1024
    case Code => 1280
    case Math => 768
    case Creative => 768
    case Analytical => 1024
    case Summarization => 300
    case Translation => 1024
  }

  // ---------------------------------------------------------------------
  // Scoring
  // ---------------------------------------------------------------------

  const CodeKeywords: seq<string> := ["debug", "error", "stack", "trace", "function", "class",
    "compile", "refactor", "rust", "typescript", "python", "java"]
  const MathKeywords: seq<string> := ["calculate", "equation", "integral", "derivative", "matrix",
    "probability", "statistics", "solve"]
  const AnalyticalKeywords: seq<string> := ["analyze", "evaluate", "compare", "tradeoff", "reason",
    "architecture", "strategy", "optimize"]
  const CreativeKeywords: seq<string> := ["story", "poem", "creative", "imagine", "compose", "draft", "brainstorm"]
  const SummarizationKeywords: seq<string> := ["summarize", "summary", "tldr", "tl;dr", "in short", "brief", "outline"]
  const TranslationKeywords: seq<string> := ["translate", "in spanish", "in french", "in german",
    "in english", "meaning of"]

  type Scores = map<QueryCategory, real>

  /** Every recorded score is positive. */
  predicate PositiveScores(m: Scores) { forall k :: k in m ==> m[k] > 0.0 }

  /** `*scores.entry(cat).or_insert(0.0) += delta`. */
  function AddScore(m: Scores, cat: QueryCategory, delta: real): (r: Scores)
    ensures cat in r && r[cat] == (if cat in m then m[cat] else 0.0) + delta
    ensures forall k :: k != cat ==> (k in r <==> k in m) && (k in m ==> r[k] == m[k])
    ensures PositiveScores(m) && delta > 0.0 ==> PositiveScores(r)
  {
    m[cat := (if cat in m then m[cat] else 0.0) + delta]
  }

  /** `hits as f32 * weight`. */
  function Weighted(hits: nat, weight: real): (d: real)
    ensures hits > 0 && weight > 0.0 ==> d > 0.0
  {
    hits as real * weight
  }

  /** `score_keywords`: adds `hits * weight` for the keywords `q` contains, when there is a hit. */
  function ScoreKeywords(q: string, keywords: seq<string>, cat: QueryCategory, weight: real, m: Scores): (r: Scores)
    ensures !ContainsAny(q, keywords) ==> r == m
    ensures ContainsAny(q, keywords) ==> r == AddScore(m, cat, Weighted(CountContained(q, keywords), weight))
    ensures PositiveScores(m) && weight > 0.0 ==> PositiveScores(r)
  {
    var hits := CountContained(q, keywords);
    if hits > 0 then AddScore(m, cat, Weighted(hits, weight)) else m
  }

  /** The structural code markers: a fence, `=>`, `::`, ` fn ` or ` let `. */
  predicate HasCodeMarker(q: string) {
    Contains(q, "```") || Contains(q, "=>") || Contains(q, "::") || Contains(q, " fn ") || Contains(q, " let ")
  }

  predicate IsMathSymbol(c: char) { c == '+' || c == '-' || c == '*' || c == '/' || c == '=' }

  function MathSymbolCount(s: string): (n: nat)
    ensures n <= |s|
  {
    if |s| == 0 then 0 else (if IsMathSymbol(s[0]) then 1 else 0) + MathSymbolCount(s[1..])
  }

  function WordCount(s: string): nat { |SplitWs(s)| }

  /** Scores after the six keyword tables. */
  function KeywordScores(q: string): (r: Scores)
    ensures PositiveScores(r)
  {
    var m0: Scores := map[];
    var m1 := ScoreKeywords(q, CodeKeywords, Code, 2.0, m0);
    var m2 := ScoreKeywords(q, MathKeywords, Math, 1.8, m1);
    var m3 := ScoreKeywords(q, AnalyticalKeywords, Analytical, 1.4, m2);
    var m4 := ScoreKeywords(q, CreativeKeywords, Creative, 1.2, m3);
    var m5 := ScoreKeywords(q, SummarizationKeywords, Summarization, 3.0, m4);
    ScoreKeywords(q, TranslationKeywords, Translation, 2.5, m5)
  }

  /** The word-count bonus: Simple below 10 words, Complex above 80, Medium above 35. */
  function LengthBonus(m: Scores, wordCount: nat): (r: Scores)
    ensures PositiveScores(m) ==> PositiveScores(r)
    ensures wordCount < 10 ==> Simple in r
  {
    if wordCount < 10 then AddScore(m, Simple, 1.0)
    else if wordCount > 80 then AddScore(m, Complex, 2.0)
    else if wordCount > 35 then AddScore(m, Medium, 1.0)
    else m
  }

  /** All scores `classify` computes for `query` before picking a maximum. */
  function QueryScores(query: string): (r: Scores)
    ensures PositiveScores(r)
    ensures WordCount(query) < 10 ==> Simple in r
  {
    var q := Lower(query);
    var m6 := KeywordScores(q);
    var m7 := if HasCodeMarker(q) then AddScore(m6, Code, 3.0) else m6;
    var m8 := if MathSymbolCount(query) >= 3 then AddScore(m7, Math, 2.0) else m7;
    LengthBonus(m8, WordCount(query))
  }

  /** `c` has a maximal score in `m`. */
  predicate IsTop(m: Scores, c: QueryCategory) {
    c in m && forall k :: k in m ==> m[k] <= m[c]
  }

  /** The `unwrap_or_else` fallback when no category scored. */
  function EmptyFallback(wordCount: nat): QueryCategory {
    if wordCount < 8 then Simple else Medium
  }

  /**
   * The categories `classify` may return: a maximal-score category (ties
   * are broken by hash-map iteration order), or the fallback when nothing
   * scored.
   */
  predicate ValidClassification(query: string, c: QueryCategory) {
    var m := QueryScores(query);
    if |m| == 0 then c == EmptyFallback(WordCount(query)) else IsTop(m, c)
  }

  /** Nothing scores only from ten words up, so the `< 8` fallback branch is unreachable. */
  lemma EmptyScoresMeanMedium(query: string)
    requires |QueryScores(query)| == 0
    ensures WordCount(query) >= 10
    ensures EmptyFallback(WordCount(query)) == Medium
  {
  }

  /** With no keyword or marker hit the word count alone decides. */
  lemma NoHitsShortQueryIsSimple(query: string, c: QueryCategory)
    requires KeywordScores(Lower(query)) == map[]
    requires !HasCodeMarker(Lower(query)) && MathSymbolCount(query) < 3
    requires WordCount(query) < 10
    requires ValidClassification(query, c)
    ensures c == Simple
  {
    assert QueryScores(query) == map[Simple := 1.0];
  }

  lemma NoHitsMidLengthQueryIsMedium(query: string, c: QueryCategory)
    requires KeywordScores(Lower(query)) == map[]
    requires !HasCodeMarker(Lower(query)) && MathSymbolCount(query) < 3
    requires 10 <= WordCount(query) <= 35
    requires ValidClassification(query, c)
    ensures c == Medium
  {
    assert QueryScores(query) == map[];
  }

  /** A category whose score strictly exceeds every other's is the only answer. */
  lemma UniqueMaximumDetermines(query: string, c: QueryCategory, d: QueryCategory)
    requires var m := QueryScores(query); c in m && forall k :: k in m && k != c ==> m[k] < m[c]
    requires ValidClassification(query, d)
    ensures d == c
  {
  }

  function AllCategories(): seq<QueryCategory> {
    [Simple, Medium, Complex, Code, Math, Creative, Analytical, Summarization, Translation]
  }

  lemma AllCategoriesComplete(c: QueryCategory)
    ensures c in AllCategories()
  {
  }

  /** The last category of `cs` with a maximal score among those present in `m`. */
  function BestAmong(cs: seq<QueryCategory>, m: Scores): (r: Option<QueryCategory>)
    ensures r.None? <==> forall i :: 0 <= i < |cs| ==> cs[i] !in m
    ensures r.Some? ==> r.value in m && r.value in cs
    ensures r.Some? ==> forall i :: 0 <= i < |cs| && cs[i] in m ==> m[cs[i]] <= m[r.value]
  {
    if |cs| == 0 then None
    else
      var rest := BestAmong(cs[1..], m);
      assert forall i :: 1 <= i < |cs| ==> cs[i] == cs[1..][i - 1];
      if cs[0] !in m then rest
      else if rest.None? || m[cs[0]] > m[rest.value] then Some(cs[0])
      else rest
  }

  lemma TopExists(m: Scores)
    requires |m| > 0
    ensures exists c :: IsTop(m, c)
  {
    var k :| k in m;
    var all := AllCategories();
    AllCategoriesComplete(k);
    var i :| 0 <= i < |all| && all[i] == k;
    var b := BestAmong(all, m);
    assert b.Some?;
    forall j | j in m
      ensures m[j] <= m[b.value]
    {
      AllCategoriesComplete(j);
      var ij :| 0 <= ij < |all| && all[ij] == j;
    }
    assert IsTop(m, b.value);
  }

  // ---------------------------------------------------------------------
  // History of recent classifications
  // ---------------------------------------------------------------------

  datatype ClassificationRecord = ClassificationRecord(category: QueryCategory, observedAt: nat)


  const HistoryCap: nat := 256
  const HistoryKeep: nat := 192

  /** `store`: push, then on overflow keep only the newest 192 records. */
  function Stored(h: seq<ClassificationRecord>, rec: ClassificationRecord): (r: seq<ClassificationRecord>)
    ensures |h| < HistoryCap ==> r == h + [rec]
    ensures |h| >= HistoryCap ==> |r| == HistoryKeep && r == (h + [rec])[|h| + 1 - HistoryKeep..]
    ensures |h| <= HistoryCap ==> |r| <= HistoryCap
    ensures r[|r| - 1] == rec
  {
    var pushed := h + [rec];
    if |pushed| > HistoryCap then pushed[SatSub(|pushed|, HistoryKeep)..] else pushed
  }

  /** Records younger than `window` seconds at `now`, oldest first. */
  function Active(h: seq<ClassificationRecord>, now: nat, window: nat): (r: seq<ClassificationRecord>)
    ensures |r| <= |h|
    ensures forall i :: 0 <= i < |r| ==> r[i] in h && Elapsed(now, r[i].observedAt) < window
  {
    if |h| == 0 then []
    else
      var rest := Active(h[..|h| - 1], now, window);
      if Elapsed(now, h[|h| - 1].observedAt) < window then rest + [h[|h| - 1]] else rest
  }

  function PrioritySum(h: seq<ClassificationRecord>): (s: nat)
    ensures |h| <= s <= 4 * |h|
  {
    if |h| == 0 then 0 else PrioritySum(h[..|h| - 1]) + Priority(h[|h| - 1].category)
  }

  function AveragePriority(a: seq<ClassificationRecord>): (avg: real)
    requires |a| > 0
    ensures 1.0 <= avg <= 4.0
  {
    DivBounds(PrioritySum(a) as real, |a| as real, 1.0, 4.0);
    PrioritySum(a) as real / |a| as real
  }

  /**
   * `context_window_hint`: 20 without records from the last 300 s,
   * otherwise 48 / 32 / 18 by the average priority of those records.
   */
  function ContextWindowHint(h: seq<ClassificationRecord>, now: nat): (hint: nat)
    ensures hint == 20 <==> |Active(h, now, 300)| == 0
    ensures |Active(h, now, 300)| > 0 ==>
      && (hint == 48 <==> AveragePriority(Active(h, now, 300)) >= 3.4)
      && (hint == 32 <==> 2.2 <= AveragePriority(Active(h, now, 300)) < 3.4)
      && (hint == 18 <==> AveragePriority(Active(h, now, 300)) < 2.2)
  {
    var active := Active(h, now, 300);
    if |active| == 0 then 20
    else
      var avg := AveragePriority(active);
      if avg >= 3.4 then 48 else if avg >= 2.2 then 32 else 18
  }

  /** Only Code and Math recently: the widest window. */
  lemma OnlyTopPriorityGivesWidestWindow(h: seq<ClassificationRecord>, now: nat)
    requires |Active(h, now, 300)| > 0
    requires forall i :: 0 <= i < |h| ==> Priority(h[i].category) == 4
    ensures ContextWindowHint(h, now) == 48
  {
    var a := Active(h, now, 300);
    AllTopPrioritySum(a, h);
    AverageOfConstant(a);
  }

  lemma AverageOfConstant(a: seq<ClassificationRecord>)
    requires |a| > 0 && PrioritySum(a) == 4 * |a|
    ensures AveragePriority(a) == 4.0
  {
    var n := |a| as real;
    assert PrioritySum(a) as real == 4.0 * n;
    DivBounds(PrioritySum(a) as real, n, 4.0, 4.0);
  }

  lemma {:induction false} AllTopPrioritySum(a: seq<ClassificationRecord>, h: seq<ClassificationRecord>)
    requires forall i :: 0 <= i < |a| ==> a[i] in h
    requires forall i :: 0 <= i < |h| ==> Priority(h[i].category) == 4
    ensures PrioritySum(a) == 4 * |a|
  {
    if |a| > 0 {
      assert a[|a| - 1] in h;
      AllTopPrioritySum(a[..|a| - 1], h);
    }
  }

  function CountCategory(h: seq<ClassificationRecord>, c: QueryCategory): (n: nat)
    ensures n <= |h|
  {
    if |h| == 0 then 0
    else CountCategory(h[..|h| - 1], c) + (if h[|h| - 1].category == c then 1 else 0)
  }

  /** The per-category counts added over every category. */
  function CountAllCategories(h: seq<ClassificationRecord>): nat {
    CountCategory(h, Simple) + CountCategory(h, Medium) + CountCategory(h, Complex)
    + CountCategory(h, Code) + CountCategory(h, Math) + CountCategory(h, Creative)
    + CountCategory(h, Analytical) + CountCategory(h, Summarization) + CountCategory(h, Translation)
  }

  /** Every record is counted under exactly one category. */
  lemma {:induction false} CountsSumToLength(h: seq<ClassificationRecord>)
    ensures CountAllCategories(h) == |h|
  {
    if |h| > 0 {
      CountsSumToLength(h[..|h| - 1]);
    }
  }

  /** The snapshot's contents: one key per category seen, with its count. */
  predicate IsDistribution(m: map<string, nat>, h: seq<ClassificationRecord>) {
    && (forall k :: k in m ==> exists c :: CategoryName(c) == k)
    && (forall c :: CategoryName(c) in m <==> CountCategory(h, c) > 0)
    && (forall c :: CategoryName(c) in m ==> m[CategoryName(c)] == CountCategory(h, c))
  }

  lemma {:induction false} DistributionOfEmpty(h: seq<ClassificationRecord>)
    requires |h| == 0
    ensures IsDistribution(map[], h)
  {
  }

  /** Counting one more record bumps exactly its category's entry. */
  lemma DistributionStep(m: map<string, nat>, h: seq<ClassificationRecord>, rec: ClassificationRecord)
    requires IsDistribution(m, h)
    ensures var name := CategoryName(rec.category);
      IsDistribution(m[name := (if name in m then m[name] else 0) + 1], h + [rec])
  {
    var name := CategoryName(rec.category);
    var m' := m[name := (if name in m then m[name] else 0) + 1];
    var h' := h + [rec];
    assert h'[..|h'| - 1] == h;
    forall c
      ensures CategoryName(c) in m' <==> CountCategory(h', c) > 0
      ensures CategoryName(c) in m' ==> m'[CategoryName(c)] == CountCategory(h', c)
    {
      CategoryNameInjective(c, rec.category);
    }
  }

  class Classifier {
    var history: seq<ClassificationRecord>

    predicate Valid()
      reads this
    {
      |history| <= HistoryCap
    }

    constructor ()
      ensures Valid() && history == []
    {
      history := [];
    }

    /** `store`. */
    method Store(category: QueryCategory, now: nat)
      requires Valid()
      modifies this
      ensures Valid()
      ensures history == Stored(old(history), ClassificationRecord(category, now))
    {
      history := history + [ClassificationRecord(category, now)];
      if |history| > HistoryCap {
        var drainTo := SatSub(|history|, HistoryKeep);
        history := history[drainTo..];
      }
    }

    /**
     * `classify`: scores the query, returns a category of maximal score
     * (the fallback when nothing scored) and records it at `now`.
     */
    method Classify(query: string, now: nat) returns (category: QueryCategory)
      requires Valid()
      modifies this
      ensures Valid()
      ensures ValidClassification(query, category)
      ensures history == Stored(old(history), ClassificationRecord(category, now))
    {
      var scores := QueryScores(query);
      if |scores| == 0 {
        category := EmptyFallback(WordCount(query));
      } else {
        TopExists(scores);
        category :| IsTop(scores, category);
      }
      Store(category, now);
    }

    /** `distribution_snapshot`: counts per category name of the records younger than 900 s. */
    method DistributionSnapshot(now: nat) returns (dist: map<string, nat>)
      ensures IsDistribution(dist, Active(history, now, 900))
    {
      dist := map[];
      var i := 0;
      DistributionOfEmpty(Active(history[..0], now, 900));
      while i < |history|
        invariant 0 <= i <= |history|
        invariant IsDistribution(dist, Active(history[..i], now, 900))
      {
        var rec := history[i];
        assert history[..i + 1][..i] == history[..i];
        if Elapsed(now, rec.observedAt) < 900 {
          assert Active(history[..i + 1], now, 900) == Active(history[..i], now, 900) + [rec];
          DistributionStep(dist, Active(history[..i], now, 900), rec);
          var name := CategoryName(rec.category);
          dist := dist[name := (if name in dist then dist[name] else 0) + 1];
        } else {
          assert Active(history[..i + 1], now, 900) == Active(history[..i], now, 900);
        }
        i := i + 1;
      }
      assert history[..|history|] == history;
    }
  }

  /** The snapshot's counts add up to the number of records it looked at. */
  lemma DistributionSumsToActive(m: map<string, nat>, h: seq<ClassificationRecord>, now: nat)
    requires IsDistribution(m, Active(h, now, 900))
    ensures CountAllCategories(Active(h, now, 900)) == |Active(h, now, 900)|
    ensures forall c :: CategoryName(c) in m ==> m[CategoryName(c)] <= |Active(h, now, 900)|
  {
    CountsSumToLength(Active(h, now, 900));
  }
}
