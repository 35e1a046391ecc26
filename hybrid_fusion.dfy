/**
 * How the hybrid retriever combines the results of its two paths (the
 * local FAISS index and the Vertex AI path): conversion to a common result
 * record, first-occurrence de-duplication, reciprocal-rank fusion with a
 * keyword and a similarity boost, the weighted fusion used when
 * re-ranking is off, and the final truncation.
 *
 * Python's `\w` character class, which decides where a regular expression
 * sees a word boundary, is the parameter `wordChar`.
 */
module Fusion {
  import opened Wrappers
  import opened Text
  import opened Sorting
  import opened OrderedDict

  /** `RetrievalConfig`. */
  datatype RetrievalConfig = RetrievalConfig(
    numCandidates: int, finalResults: int, faissWeight: real, vertexWeight: real,
    minSimilarity: real, highConfidenceThreshold: real, maxParallelTimeout: real,
    fallbackThreshold: real, rrfK: int, enableReranking: bool)

  /** The defaults of `RetrievalConfig`. */
  const DefaultConfig: RetrievalConfig := RetrievalConfig(10, 5, 0.6, 0.4, 0.3, 0.8, 5.0, 2.0, 60, true)

  /** `RetrievalResult`; `retrievalSource` is `faiss`, `vertex` or `hybrid`. */
  datatype RetrievalResult = RetrievalResult(id: string, text: string, source: string, similarity: real,
                                             distance: real, rank: int, retrievalSource: string, confidence: real)

  /** A result dictionary of either path; an absent key is `None`. */
  datatype RawResult = RawResult(id: Option<string>, datapointId: Option<string>, text: Option<string>,
                                 contentPreview: Option<string>, similarity: Option<real>, distance: Option<real>,
                                 source: Option<string>, rank: Option<int>)

  function MinReal(a: real, b: real): real { if a <= b then a else b }

  // -------------------------------------------------------------------
  // _convert_to_retrieval_results
  // -------------------------------------------------------------------

  /** The record for the `i`-th result dictionary of path `source`, with the defaults of the conversion. */
  function ConvertOne(r: RawResult, source: string, i: nat): RetrievalResult
  {
    var similarity := r.similarity.GetOr(1.0 - r.distance.GetOr(0.0));
    RetrievalResult(r.id.GetOr(r.datapointId.GetOr(source + "_" + NatToString(i))),
                    r.text.GetOr(r.contentPreview.GetOr("")),
                    r.source.GetOr("unknown"),
                    similarity,
                    r.distance.GetOr(1.0 - similarity),
                    r.rank.GetOr(i + 1),
                    source,
                    similarity)
  }

  /** `_convert_to_retrieval_results(results, source)`. */
  function Convert(results: seq<RawResult>, source: string): (rs: seq<RetrievalResult>)
    ensures |rs| == |results|
  {
    seq(|results|, i requires 0 <= i < |results| => ConvertOne(results[i], source, i))
  }

  /**
   * Every converted result is tagged with its path, starts with its
   * similarity as confidence, and has distance `1 - similarity` whenever
   * the dictionary did not carry a different distance.
   */
  lemma ConvertedResults(results: seq<RawResult>, source: string)
    ensures var rs := Convert(results, source);
      forall i :: 0 <= i < |rs| ==>
        && rs[i].retrievalSource == source
        && rs[i].confidence == rs[i].similarity
        && (results[i].similarity.None? || results[i].distance.None? ||
            results[i].distance.value == 1.0 - results[i].similarity.value ==>
              rs[i].distance == 1.0 - rs[i].similarity)
        && (results[i].id.None? && results[i].datapointId.None? ==> rs[i].id == source + "_" + NatToString(i))
  {
  }

  // -------------------------------------------------------------------
  // _deduplicate_results
  // -------------------------------------------------------------------

  function Ids(s: seq<RetrievalResult>): (ids: seq<string>)
    ensures |ids| == |s|
    ensures forall i :: 0 <= i < |s| ==> ids[i] == s[i].id
  {
    seq(|s|, i requires 0 <= i < |s| => s[i].id)
  }

  predicate DistinctIds(s: seq<RetrievalResult>)
  {
    forall i, j :: 0 <= i < j < |s| ==> s[i].id != s[j].id
  }

  /** The results whose id was not seen before, in order. */
  function Dedup(s: seq<RetrievalResult>): seq<RetrievalResult>
    decreases |s|
  {
    if |s| == 0 then []
    else
      var d := Dedup(s[..|s| - 1]);
      if s[|s| - 1].id in Ids(d) then d else d + [s[|s| - 1]]
  }

  /** Position of the first occurrence of `k`; `|ids|` when there is none. */
  function FirstIndex(ids: seq<string>, k: string): (i: nat)
    ensures i <= |ids|
    ensures i < |ids| <==> k in ids
    ensures i < |ids| ==> ids[i] == k
    ensures forall j :: 0 <= j < i ==> ids[j] != k
    decreases |ids|
  {
    if |ids| == 0 then 0
    else if ids[0] == k then 0
    else
      var i := 1 + FirstIndex(ids[1..], k);
      assert forall j :: 1 <= j < |ids| ==> ids[j] == ids[1..][j - 1];
      i
  }

  /** Appending an id moves no first occurrence. */
  lemma FirstIndexSnoc(ids: seq<string>, x: string, k: string)
    ensures FirstIndex(ids + [x], k) == if k in ids then FirstIndex(ids, k) else if x == k then |ids| else |ids| + 1
  {
    var i := FirstIndex(ids + [x], k);
    var i0 := FirstIndex(ids, k);
    assert forall j :: 0 <= j < |ids| ==> (ids + [x])[j] == ids[j];
    if k in ids {
      assert (ids + [x])[i0] == k;
    }
  }

  /** The strings of `s` without repetitions, in order of first occurrence. */
  function Uniq(s: seq<string>): seq<string>
    decreases |s|
  {
    if |s| == 0 then []
    else
      var u := Uniq(s[..|s| - 1]);
      if s[|s| - 1] in u then u else u + [s[|s| - 1]]
  }

  /** `_deduplicate_results`. */
  method DeduplicateResults(results: seq<RetrievalResult>) returns (unique: seq<RetrievalResult>)
    ensures unique == Dedup(results)
  {
    var seenIds: set<string> := {};
    unique := [];
    var i := 0;
    while i < |results|
      invariant 0 <= i <= |results|
      invariant unique == Dedup(results[..i])
      invariant forall k :: k in seenIds <==> k in Ids(unique)
    {
      var result := results[i];
      assert results[..i + 1][..i] == results[..i];
      if result.id !in seenIds {
        assert Ids(unique + [result]) == Ids(unique) + [result.id];
        seenIds := seenIds + {result.id};
        unique := unique + [result];
      }
      i := i + 1;
    }
    assert results[..i] == results;
  }

  /** De-duplication keeps one result per id: the ids are distinct and they are the ids of the input. */
  lemma {:induction false} DedupIds(s: seq<RetrievalResult>)
    ensures DistinctIds(Dedup(s))
    ensures forall k :: k in Ids(Dedup(s)) <==> k in Ids(s)
    decreases |s|
  {
    if |s| != 0 {
      var n := |s| - 1;
      DedupIds(s[..n]);
      assert Ids(s) == Ids(s[..n]) + [s[n].id];
      var d0 := Dedup(s[..n]);
      if s[n].id !in Ids(d0) {
        assert Ids(d0 + [s[n]]) == Ids(d0) + [s[n].id];
      }
    }
  }

  /** Each kept result is the first one of the input with its id. */
  lemma {:induction false} DedupFirst(s: seq<RetrievalResult>)
    ensures forall i :: 0 <= i < |Dedup(s)| ==>
      Dedup(s)[i].id in Ids(s) && Dedup(s)[i] == s[FirstIndex(Ids(s), Dedup(s)[i].id)]
    decreases |s|
  {
    if |s| != 0 {
      var n := |s| - 1;
      var init := s[..n];
      DedupFirst(init);
      var d0 := Dedup(init);
      var x := s[n];
      assert Ids(s) == Ids(init) + [x.id];
      forall i | 0 <= i < |d0| ensures d0[i].id in Ids(s) && d0[i] == s[FirstIndex(Ids(s), d0[i].id)] {
        assert d0[i].id in Ids(init) && d0[i] == init[FirstIndex(Ids(init), d0[i].id)];
        FirstIndexSnoc(Ids(init), x.id, d0[i].id);
        assert init[FirstIndex(Ids(init), d0[i].id)] == s[FirstIndex(Ids(init), d0[i].id)];
      }
      if x.id !in Ids(d0) {
        DedupIds(init);
        FirstIndexSnoc(Ids(init), x.id, x.id);
        assert Dedup(s) == d0 + [x];
      }
    }
  }

  /** Kept results keep their relative order. */
  lemma {:induction false} DedupOrder(s: seq<RetrievalResult>)
    ensures forall i, j :: 0 <= i < j < |Dedup(s)| ==>
      FirstIndex(Ids(s), Dedup(s)[i].id) < FirstIndex(Ids(s), Dedup(s)[j].id)
    decreases |s|
  {
    if |s| != 0 {
      var n := |s| - 1;
      var init := s[..n];
      DedupOrder(init);
      DedupIds(init);
      var d0 := Dedup(init);
      var x := s[n];
      assert Ids(s) == Ids(init) + [x.id];
      forall i | 0 <= i < |d0| ensures FirstIndex(Ids(s), d0[i].id) == FirstIndex(Ids(init), d0[i].id) < n {
        assert d0[i].id in Ids(d0);
        FirstIndexSnoc(Ids(init), x.id, d0[i].id);
      }
      if x.id !in Ids(d0) {
        FirstIndexSnoc(Ids(init), x.id, x.id);
        assert Dedup(s) == d0 + [x];
      }
    }
  }

  /** The ids of the de-duplicated results are the ids without repetitions. */
  lemma {:induction false} DedupUniq(s: seq<RetrievalResult>)
    ensures Ids(Dedup(s)) == Uniq(Ids(s))
    decreases |s|
  {
    if |s| != 0 {
      var n := |s| - 1;
      DedupUniq(s[..n]);
      assert Ids(s)[..n] == Ids(s[..n]);
      assert Ids(Dedup(s[..n]) + [s[n]]) == Ids(Dedup(s[..n])) + [s[n].id];
    }
  }

  // -------------------------------------------------------------------
  // _calculate_keyword_boost
  // -------------------------------------------------------------------

  /** The core concepts that earn an extra boost: deposit (two spellings), difference (three words). */
  const CoreConcepts: set<string> := {"定金", "订金", "区别", "差别", "不同"}

  /** `set(query.lower().split())`. */
  function QueryKeywords(query: string): set<string>
  {
    set w | w in Words(Lower(query))
  }

  predicate WordCharAt(text: string, p: int, wordChar: char -> bool)
  {
    0 <= p < |text| && wordChar(text[p])
  }

  /** `\b` matches at position `p`. */
  predicate BoundaryAt(text: string, p: int, wordChar: char -> bool)
  {
    WordCharAt(text, p - 1, wordChar) != WordCharAt(text, p, wordChar)
  }

  /** `re.search(rf'\b{re.escape(k)}\b', text)` finds a match. */
  predicate WholeWord(text: string, k: string, wordChar: char -> bool)
  {
    exists i :: 0 <= i <= |text| - |k| && OccursAt(text, k, i) &&
                BoundaryAt(text, i, wordChar) && BoundaryAt(text, i + |k|, wordChar)
  }

  /** The keywords of `keywords` that occur in `text`. */
  function Matched(text: string, keywords: set<string>): (m: set<string>)
    ensures m <= keywords
  {
    set k | k in keywords && Contains(text, k)
  }

  /** The keywords of `keywords` that occur in `text` as whole words. */
  function ExactlyMatched(text: string, keywords: set<string>, wordChar: char -> bool): (m: set<string>)
    ensures m <= Matched(text, keywords)
  {
    var m := set k | k in keywords && WholeWord(text, k, wordChar);
    assert forall k :: k in m ==> Contains(text, k) by {
      forall k | k in m ensures Contains(text, k) {
        var i :| 0 <= i <= |text| - |k| && OccursAt(text, k, i) &&
                 BoundaryAt(text, i, wordChar) && BoundaryAt(text, i + |k|, wordChar);
        assert OccursAt(text, k, i);
      }
    }
    m
  }

  lemma SubsetCard<T>(a: set<T>, b: set<T>)
    requires a <= b
    ensures |a| <= |b|
  {
    assert b == a + (b - a);
  }

  /** `m / n` for `0 <= m <= n` lies in `[0, 1]`. */
  lemma Ratio(m: nat, n: nat)
    requires m <= n && 0 < n
    ensures 0.0 <= (m as real) / (n as real) <= 1.0
  {
    assert (m as real) <= (n as real);
  }

  /**
   * `_calculate_keyword_boost`: 0 without keywords or text; otherwise 0.6
   * times the share of keywords that occur, 0.8 times the share that occur
   * as whole words, and 0.3 per core concept that occurs, at most 0.9.
   */
  function KeywordBoost(text: string, keywords: set<string>, wordChar: char -> bool): (boost: real)
    ensures 0.0 <= boost <= 2.3
    ensures |keywords| == 0 || |text| == 0 ==> boost == 0.0
  {
    if |keywords| == 0 || |text| == 0 then 0.0
    else
      var lower := Lower(text);
      var matches := |Matched(lower, keywords)|;
      var exact := |ExactlyMatched(lower, keywords, wordChar)|;
      var concepts := |Matched(lower, CoreConcepts)|;
      SubsetCard(Matched(lower, keywords), keywords);
      SubsetCard(ExactlyMatched(lower, keywords, wordChar), Matched(lower, keywords));
      Ratio(matches, |keywords|);
      Ratio(exact, |keywords|);
      (matches as real) / (|keywords| as real) * 0.6 + (exact as real) / (|keywords| as real) * 0.8 +
        MinReal(concepts as real * 0.3, 0.9)
  }

  /** Text in which every keyword occurs as a whole word earns at least 1.4. */
  lemma AllWholeWordsBoost(text: string, keywords: set<string>, wordChar: char -> bool)
    requires |keywords| != 0 && |text| != 0
    requires forall k :: k in keywords ==> WholeWord(Lower(text), k, wordChar)
    ensures 1.4 <= KeywordBoost(text, keywords, wordChar)
  {
    var lower := Lower(text);
    assert ExactlyMatched(lower, keywords, wordChar) == keywords;
    assert Matched(lower, keywords) == keywords;
    assert (|keywords| as real) / (|keywords| as real) == 1.0;
  }

  // -------------------------------------------------------------------
  // _reciprocal_rank_fusion
  // -------------------------------------------------------------------

  /** `1.0 / (rrf_k + rank + 1)` raises for no rank below `n`. */
  predicate DenominatorsNonZero(rrfK: int, n: nat)
  {
    0 <= rrfK || n <= -rrfK - 1
  }

  /** The keyword boost of a result's text. */
  function BoostBy(keywords: set<string>, wordChar: char -> bool): RetrievalResult -> real
  {
    (r: RetrievalResult) => KeywordBoost(r.text, keywords, wordChar)
  }

  /**
   * What the result at 0-based position `rank` of a path of weight `weight`
   * adds to its id's score, `boost` giving its keyword boost.
   */
  function Contribution(r: RetrievalResult, rank: nat, weight: real, rrfK: int, boost: RetrievalResult -> real): real
    requires rrfK + rank + 1 != 0
  {
    1.0 / ((rrfK + rank + 1) as real) * weight + boost(r) + r.similarity * 0.3
  }

  /** The (id, contribution) pairs of one path, in rank order. */
  function Contributions(rs: seq<RetrievalResult>, weight: real, rrfK: int, boost: RetrievalResult -> real)
    : (cs: seq<(string, real)>)
    requires DenominatorsNonZero(rrfK, |rs|)
    ensures |cs| == |rs|
    ensures forall i :: 0 <= i < |rs| ==> cs[i].0 == rs[i].id
  {
    seq(|rs|, i requires 0 <= i < |rs| => (rs[i].id, Contribution(rs[i], i, weight, rrfK, boost)))
  }

  /** The contributions of both paths: FAISS first, then Vertex AI. */
  function RrfContributions(faiss: seq<RetrievalResult>, vertex: seq<RetrievalResult>, config: RetrievalConfig,
                            boost: RetrievalResult -> real): seq<(string, real)>
    requires DenominatorsNonZero(config.rrfK, |faiss|) && DenominatorsNonZero(config.rrfK, |vertex|)
  {
    Contributions(faiss, config.faissWeight, config.rrfK, boost) +
    Contributions(vertex, config.vertexWeight, config.rrfK, boost)
  }

  /** The contributions name the results' ids, in order. */
  lemma RrfIds(faiss: seq<RetrievalResult>, vertex: seq<RetrievalResult>, config: RetrievalConfig,
               boost: RetrievalResult -> real)
    requires DenominatorsNonZero(config.rrfK, |faiss|) && DenominatorsNonZero(config.rrfK, |vertex|)
    ensures Keys(RrfContributions(faiss, vertex, config, boost)) == Ids(faiss + vertex)
  {
    var cs := RrfContributions(faiss, vertex, config, boost);
    forall i | 0 <= i < |cs| ensures Keys(cs)[i] == Ids(faiss + vertex)[i] {
      if i < |faiss| {
        assert cs[i].0 == faiss[i].id;
      } else {
        assert cs[i].0 == vertex[i - |faiss|].id;
      }
    }
  }

  /** The `scores` dictionary after `scores[id] = scores.get(id, 0) + c` for each pair in turn. */
  function Accumulate(scores: Dict<string, real>, cs: seq<(string, real)>): Dict<string, real>
    decreases |cs|
  {
    if |cs| == 0 then scores
    else
      var prev := Accumulate(scores, cs[..|cs| - 1]);
      var e := cs[|cs| - 1];
      Set(prev, e.0, Get(prev, e.0).GetOr(0.0) + e.1)
  }

  /** The sum of the contributions to `id`. */
  function SumFor(cs: seq<(string, real)>, id: string): real
    decreases |cs|
  {
    if |cs| == 0 then 0.0
    else SumFor(cs[..|cs| - 1], id) + (if cs[|cs| - 1].0 == id then cs[|cs| - 1].1 else 0.0)
  }

  /** The sort key of `sorted(scores.items(), key=score, reverse=True)`. */
  function NegScore(e: (string, real)): real { -e.1 }

  /** `result_map[id]`, built by `{r.id: r for r in all_results}`: the last result with that id. */
  function LastWithId(s: seq<RetrievalResult>, id: string): (r: RetrievalResult)
    requires id in Ids(s)
    ensures r in s && r.id == id
    decreases |s|
  {
    var n := |s| - 1;
    if s[n].id == id then s[n]
    else
      assert Ids(s) == Ids(s[..n]) + [s[n].id];
      var r := LastWithId(s[..n], id);
      assert r in s[..n];
      r
  }

  /** A fused result: its rank, its confidence `min(0.5 * score, 1)` and the source `hybrid`. */
  function Hybridised(r: RetrievalResult, rank: nat, score: real): RetrievalResult
  {
    r.(rank := rank, confidence := MinReal(score * 0.5, 1.0), retrievalSource := "hybrid")
  }

  /** The loop over the sorted scores: ranks follow the sorted position, ids without a result are skipped. */
  function Ranked(sorted: seq<(string, real)>, all: seq<RetrievalResult>): seq<RetrievalResult>
    decreases |sorted|
  {
    if |sorted| == 0 then []
    else
      var n := |sorted| - 1;
      var e := sorted[n];
      Ranked(sorted[..n], all) + (if e.0 in Ids(all) then [Hybridised(LastWithId(all, e.0), n + 1, e.1)] else [])
  }

  /** The fused scores, in order of first appearance of each id. */
  function RrfScores(faiss: seq<RetrievalResult>, vertex: seq<RetrievalResult>, config: RetrievalConfig,
                     boost: RetrievalResult -> real): Dict<string, real>
    requires DenominatorsNonZero(config.rrfK, |faiss|) && DenominatorsNonZero(config.rrfK, |vertex|)
  {
    Accumulate([], RrfContributions(faiss, vertex, config, boost))
  }

  /** `_reciprocal_rank_fusion`; `None` when `1.0 / (rrf_k + rank + 1)` divides by zero. */
  function Rrf(faiss: seq<RetrievalResult>, vertex: seq<RetrievalResult>, all: seq<RetrievalResult>,
               config: RetrievalConfig, boost: RetrievalResult -> real): Option<seq<RetrievalResult>>
  {
    if !DenominatorsNonZero(config.rrfK, |faiss|) || !DenominatorsNonZero(config.rrfK, |vertex|) then None
    else Some(Ranked(SortBy(RrfScores(faiss, vertex, config, boost), NegScore), all))
  }

  /** One loop of `_reciprocal_rank_fusion`: adds the contributions of the results of one path to `scores`. */
  method AddPathScores(scores: Dict<string, real>, rs: seq<RetrievalResult>, weight: real, rrfK: int,
                       boost: RetrievalResult -> real) returns (updated: Dict<string, real>)
    requires DenominatorsNonZero(rrfK, |rs|)
    ensures updated == Accumulate(scores, Contributions(rs, weight, rrfK, boost))
  {
    var cs := Contributions(rs, weight, rrfK, boost);
    updated := scores;
    var rank := 0;
    while rank < |rs|
      invariant 0 <= rank <= |rs|
      invariant updated == Accumulate(scores, cs[..rank])
    {
      var result := rs[rank];
      var totalScore := Contribution(result, rank, weight, rrfK, boost);
      assert cs[rank] == (result.id, totalScore);
      AccumulatePrefixStep(scores, cs, rank);
      updated := Set(updated, result.id, Get(updated, result.id).GetOr(0.0) + totalScore);
      rank := rank + 1;
    }
    assert cs[..rank] == cs;
  }

  /** One more contribution of a prefix is added onto the sums of the shorter prefix. */
  lemma AccumulatePrefixStep(scores: Dict<string, real>, cs: seq<(string, real)>, n: nat)
    requires n < |cs|
    ensures var prev := Accumulate(scores, cs[..n]);
      Accumulate(scores, cs[..n + 1]) == Set(prev, cs[n].0, Get(prev, cs[n].0).GetOr(0.0) + cs[n].1)
  {
    assert cs[..n + 1][..n] == cs[..n];
  }

  /** The ranking loop of `_reciprocal_rank_fusion`. */
  method RankResults(sortedItems: seq<(string, real)>, all: seq<RetrievalResult>) returns (results: seq<RetrievalResult>)
    ensures results == Ranked(sortedItems, all)
  {
    results := [];
    var i := 0;
    while i < |sortedItems|
      invariant 0 <= i <= |sortedItems|
      invariant results == Ranked(sortedItems[..i], all)
    {
      var (resultId, score) := sortedItems[i];
      assert sortedItems[..i + 1][..i] == sortedItems[..i];
      if resultId in Ids(all) {
        var result := LastWithId(all, resultId);
        results := results + [result.(rank := i + 1, confidence := MinReal(score * 0.5, 1.0), retrievalSource := "hybrid")];
      }
      i := i + 1;
    }
    assert sortedItems[..i] == sortedItems;
  }

  /** Adding two lists of contributions is adding the first, then the second. */
  lemma {:induction false} AccumulateConcat(scores: Dict<string, real>, a: seq<(string, real)>, b: seq<(string, real)>)
    ensures Accumulate(scores, a + b) == Accumulate(Accumulate(scores, a), b)
    decreases |b|
  {
    if |b| == 0 {
      assert a + b == a;
    } else {
      var n := |b| - 1;
      AccumulateConcat(scores, a, b[..n]);
      AccumulateExtend(scores, Accumulate(scores, a), a + b[..n], b[..n], b[n]);
      SplitLast(a, b);
    }
  }

  /** Two lists of contributions with the same sums still agree after one more contribution. */
  lemma {:induction false} AccumulateExtend(s: Dict<string, real>, t: Dict<string, real>, c: seq<(string, real)>,
                                            d: seq<(string, real)>, e: (string, real))
    requires Accumulate(s, c) == Accumulate(t, d)
    ensures Accumulate(s, c + [e]) == Accumulate(t, d + [e])
  {
    AccumulateSnoc(s, c, e);
    AccumulateSnoc(t, d, e);
  }

  /** Splitting off the last element of `b`, alone and after `a`. */
  lemma SplitLast<T>(a: seq<T>, b: seq<T>)
    requires |b| > 0
    ensures b == b[..|b| - 1] + [b[|b| - 1]]
    ensures a + b == (a + b[..|b| - 1]) + [b[|b| - 1]]
  {
  }

  /** Adding one more contribution adds it to the sum so far. */
  lemma {:induction false} AccumulateSnoc(scores: Dict<string, real>, cs: seq<(string, real)>, e: (string, real))
    ensures var prev := Accumulate(scores, cs);
      Accumulate(scores, cs + [e]) == Set(prev, e.0, Get(prev, e.0).GetOr(0.0) + e.1)
  {
    assert (cs + [e])[..|cs|] == cs;
  }

  /**
   * `_reciprocal_rank_fusion`: sums each id's contributions over both
   * paths, sorts the ids by descending score and updates the result of
   * each id.  The division by zero the source raises part-way through a
   * loop is decided before the loops here; the outcome is the same.
   */
  method ReciprocalRankFusion(faiss: seq<RetrievalResult>, vertex: seq<RetrievalResult>, all: seq<RetrievalResult>,
                              config: RetrievalConfig, keywords: set<string>, wordChar: char -> bool)
    returns (ranked: Option<seq<RetrievalResult>>)
    ensures ranked == Rrf(faiss, vertex, all, config, BoostBy(keywords, wordChar))
  {
    if !DenominatorsNonZero(config.rrfK, |faiss|) || !DenominatorsNonZero(config.rrfK, |vertex|) {
      return None;
    }
    var boost := BoostBy(keywords, wordChar);
    var scores := AddPathScores([], faiss, config.faissWeight, config.rrfK, boost);
    scores := AddPathScores(scores, vertex, config.vertexWeight, config.rrfK, boost);
    AccumulateConcat([], Contributions(faiss, config.faissWeight, config.rrfK, boost),
                     Contributions(vertex, config.vertexWeight, config.rrfK, boost));
    var sortedItems := SortBy(scores, NegScore);
    var results := RankResults(sortedItems, all);
    return Some(results);
  }

  /** The score dictionary has one entry per id. */
  lemma {:induction false} AccumulateDistinct(cs: seq<(string, real)>)
    ensures DistinctKeys(Accumulate([], cs))
    decreases |cs|
  {
    if |cs| != 0 {
      var init := cs[..|cs| - 1];
      var e := cs[|cs| - 1];
      AccumulateDistinct(init);
      SetDistinct(Accumulate([], init), e.0, Get(Accumulate([], init), e.0).GetOr(0.0) + e.1);
    }
  }

  /** The keys of the score dictionary are the ids in order of first appearance. */
  lemma {:induction false} AccumulateKeys(cs: seq<(string, real)>)
    ensures Keys(Accumulate([], cs)) == Uniq(Keys(cs))
    decreases |cs|
  {
    if |cs| != 0 {
      var n := |cs| - 1;
      var init := cs[..n];
      AccumulateKeys(init);
      var prev := Accumulate([], init);
      var e := cs[n];
      assert Keys(cs)[..n] == Keys(init);
      assert HasKey(prev, e.0) <==> e.0 in Keys(prev);
    }
  }

  /** Adding one more contribution to an id's sum. */
  lemma SumForLast(cs: seq<(string, real)>, k: string)
    requires |cs| != 0
    ensures SumFor(cs, k) == SumFor(cs[..|cs| - 1], k) + if cs[|cs| - 1].0 == k then cs[|cs| - 1].1 else 0.0
  {
  }

  /** Each entry of the score dictionary holds the sum of its id's contributions. */
  lemma {:induction false} AccumulateSums(cs: seq<(string, real)>)
    ensures var scores := Accumulate([], cs);
      forall j :: 0 <= j < |scores| ==> scores[j].1 == SumFor(cs, scores[j].0)
    decreases |cs|
  {
    if |cs| != 0 {
      var n := |cs| - 1;
      var init := cs[..n];
      var prev := Accumulate([], init);
      var e := cs[n];
      AccumulateSums(init);
      AccumulateDistinct(init);
      var v := Get(prev, e.0).GetOr(0.0) + e.1;
      var scores := Accumulate([], cs);
      assert scores == Set(prev, e.0, v);
      forall x | x != e.0 ensures SumFor(cs, x) == SumFor(init, x) {
        SumForLast(cs, x);
      }
      assert SumFor(cs, e.0) == SumFor(init, e.0) + e.1 by {
        SumForLast(cs, e.0);
      }
      match Find(prev, e.0)
      case Some(i) =>
        FindDistinct(prev, i);
        assert scores == prev[i := (e.0, v)];
      case None =>
        assert e.0 !in Keys(init) by {
          AccumulateKeys(init);
          UniqMembers(Keys(init), e.0);
          assert !HasKey(prev, e.0);
        }
        SumForAbsent(init, e.0);
        assert scores == prev + [(e.0, v)];
    }
  }

  /** When every sorted id has a result, every entry is ranked, at its sorted position. */
  lemma {:induction false} RankedAll(sorted: seq<(string, real)>, all: seq<RetrievalResult>)
    requires forall i :: 0 <= i < |sorted| ==> sorted[i].0 in Ids(all)
    ensures |Ranked(sorted, all)| == |sorted|
    ensures forall i :: 0 <= i < |sorted| ==>
      Ranked(sorted, all)[i] == Hybridised(LastWithId(all, sorted[i].0), i + 1, sorted[i].1)
    decreases |sorted|
  {
    if |sorted| != 0 {
      var n := |sorted| - 1;
      RankedAll(sorted[..n], all);
    }
  }

  /** In a sequence with distinct ids, the last result with the id of `s[j]` is `s[j]`. */
  lemma LastWithIdDistinct(s: seq<RetrievalResult>, j: nat)
    requires DistinctIds(s) && j < |s|
    ensures LastWithId(s, s[j].id) == s[j]
    decreases |s|
  {
    var n := |s| - 1;
    if j < n {
      assert s[n].id != s[j].id;
      assert s[..n][j] == s[j];
      LastWithIdDistinct(s[..n], j);
    }
  }

  /** A permutation of a dictionary with distinct keys has distinct keys. */
  lemma PermutationDistinctKeys(a: Dict<string, real>, b: Dict<string, real>)
    requires DistinctKeys(a) && multiset(a) == multiset(b)
    ensures DistinctKeys(b)
  {
    forall i, j | 0 <= i < j < |b| ensures b[i].0 != b[j].0 {
      DistinctKeysOnce(a, b[i]);
      TwoPositions(b, i, j);
      assert b[i] in multiset(a) && b[j] in multiset(a);
      var p :| 0 <= p < |a| && a[p] == b[i];
      var q :| 0 <= q < |a| && a[q] == b[j];
    }
  }

  /** In a dictionary with distinct keys every entry occurs at most once. */
  lemma {:induction false} DistinctKeysOnce(a: Dict<string, real>, x: (string, real))
    requires DistinctKeys(a)
    ensures multiset(a)[x] <= 1
    decreases |a|
  {
    if |a| != 0 {
      var n := |a| - 1;
      DistinctKeysOnce(a[..n], x);
      assert a == a[..n] + [a[n]];
      assert a[n] !in a[..n];
    }
  }

  /** An element at two positions occurs at least twice. */
  lemma TwoPositions<T>(s: seq<T>, i: nat, j: nat)
    requires i < j < |s|
    ensures multiset(s)[s[i]] >= 1 + (if s[j] == s[i] then 1 else 0)
  {
    assert s == s[..j] + [s[j]] + s[j + 1..];
    assert s[i] in s[..j];
  }

  /** An id without contributions sums to 0. */
  lemma {:induction false} SumForAbsent(cs: seq<(string, real)>, k: string)
    requires k !in Keys(cs)
    ensures SumFor(cs, k) == 0.0
    decreases |cs|
  {
    if |cs| != 0 {
      var n := |cs| - 1;
      assert Keys(cs[..n]) == Keys(cs)[..n];
      SumForAbsent(cs[..n], k);
    }
  }

  /** The strings of `Uniq(s)` are those of `s`. */
  lemma {:induction false} UniqMembers(s: seq<string>, k: string)
    ensures k in Uniq(s) <==> k in s
    decreases |s|
  {
    if |s| != 0 {
      var n := |s| - 1;
      UniqMembers(s[..n], k);
      assert s == s[..n] + [s[n]];
    }
  }

  /** Each entry of the sorted scores is an entry of the score dictionary. */
  lemma SortedEntry(cs: seq<(string, real)>, i: nat)
    requires i < |SortBy(Accumulate([], cs), NegScore)|
    ensures var sorted := SortBy(Accumulate([], cs), NegScore);
      sorted[i].0 in Keys(Accumulate([], cs)) && sorted[i].1 == SumFor(cs, sorted[i].0)
  {
    var scores := Accumulate([], cs);
    var sorted := SortBy(scores, NegScore);
    AccumulateDistinct(cs);
    SortByPermutation(scores, NegScore);
    assert sorted[i] in multiset(scores);
    var j :| 0 <= j < |scores| && scores[j] == sorted[i];
    AccumulateSums(cs);
  }

  /** Every key of the score dictionary is among the sorted scores. */
  lemma SortedCovers(cs: seq<(string, real)>, k: string)
    requires k in Keys(Accumulate([], cs))
    ensures k in Keys(SortBy(Accumulate([], cs), NegScore))
  {
    var scores := Accumulate([], cs);
    var sorted := SortBy(scores, NegScore);
    SortByPermutation(scores, NegScore);
    var j :| 0 <= j < |scores| && Keys(scores)[j] == k;
    assert scores[j] in multiset(sorted);
    var i :| 0 <= i < |sorted| && sorted[i] == scores[j];
    assert Keys(sorted)[i] == k;
  }

  /**
   * The sorted score dictionary of contributions over the ids of `s`: one
   * entry per distinct id, in descending order of score, each holding its
   * id's summed contributions.
   */
  lemma SortedScores(s: seq<RetrievalResult>, cs: seq<(string, real)>)
    requires Keys(cs) == Ids(s)
    ensures var sorted := SortBy(Accumulate([], cs), NegScore);
      && |sorted| == |Dedup(s)|
      && DistinctKeys(sorted)
      && SortedBy(sorted, NegScore)
      && (forall i :: 0 <= i < |sorted| ==> sorted[i].0 in Ids(Dedup(s)) && sorted[i].1 == SumFor(cs, sorted[i].0))
      && (forall k :: k in Ids(s) ==> k in Keys(sorted))
  {
    var scores := Accumulate([], cs);
    var sorted := SortBy(scores, NegScore);
    AccumulateDistinct(cs);
    AccumulateKeys(cs);
    DedupUniq(s);
    assert Keys(scores) == Ids(Dedup(s));
    SortBySorted(scores, NegScore);
    SortByPermutation(scores, NegScore);
    PermutationDistinctKeys(scores, sorted);
    forall i | 0 <= i < |sorted|
      ensures sorted[i].0 in Ids(Dedup(s)) && sorted[i].1 == SumFor(cs, sorted[i].0)
    {
      SortedEntry(cs, i);
    }
    forall k | k in Ids(s) ensures k in Keys(sorted) {
      UniqMembers(Ids(s), k);
      SortedCovers(cs, k);
    }
  }

  /** Ranking the sorted scores gives each sorted id its first result, at its sorted position. */
  lemma RankedEntries(s: seq<RetrievalResult>, cs: seq<(string, real)>)
    requires Keys(cs) == Ids(s)
    ensures var sorted := SortBy(Accumulate([], cs), NegScore);
      var out := Ranked(sorted, Dedup(s));
      && |out| == |sorted|
      && forall i :: 0 <= i < |out| ==>
           out[i].id == sorted[i].0 && sorted[i].0 in Ids(s) &&
           out[i] == Hybridised(s[FirstIndex(Ids(s), sorted[i].0)], i + 1, sorted[i].1)
  {
    var all := Dedup(s);
    var sorted := SortBy(Accumulate([], cs), NegScore);
    SortedScores(s, cs);
    DedupIds(s);
    DedupFirst(s);
    RankedAll(sorted, all);
    forall i | 0 <= i < |sorted|
      ensures Ranked(sorted, all)[i] == Hybridised(s[FirstIndex(Ids(s), sorted[i].0)], i + 1, sorted[i].1)
    {
      var j :| 0 <= j < |all| && Ids(all)[j] == sorted[i].0;
      LastWithIdDistinct(all, j);
    }
  }

  /** Ranking the sorted scores over the de-duplicated results of `s` ranks every distinct id of `s` once. */
  lemma RankedIds(s: seq<RetrievalResult>, cs: seq<(string, real)>)
    requires Keys(cs) == Ids(s)
    ensures var out := Ranked(SortBy(Accumulate([], cs), NegScore), Dedup(s));
      && |out| == |Dedup(s)|
      && DistinctIds(out)
      && (forall k :: k in Ids(out) <==> k in Ids(s))
  {
    var sorted := SortBy(Accumulate([], cs), NegScore);
    SortedScores(s, cs);
    RankedEntries(s, cs);
    RankedIdsOf(s, sorted, Ranked(sorted, Dedup(s)));
  }

  /** The id facts of `RankedIds`, for any output whose ids follow distinct sorted keys. */
  lemma RankedIdsOf(s: seq<RetrievalResult>, sorted: seq<(string, real)>, out: seq<RetrievalResult>)
    requires |out| == |sorted| && DistinctKeys(sorted)
    requires forall i :: 0 <= i < |out| ==> out[i].id == sorted[i].0 && sorted[i].0 in Ids(s)
    requires forall k :: k in Ids(s) ==> k in Keys(sorted)
    ensures DistinctIds(out)
    ensures forall k :: k in Ids(out) <==> k in Ids(s)
  {
    forall k | k in Ids(s) ensures k in Ids(out) {
      var i :| 0 <= i < |sorted| && Keys(sorted)[i] == k;
      assert Ids(out)[i] == k;
    }
  }

  /**
   * Result `i` of the ranking has rank `i + 1`, source `hybrid`, the first
   * result of `s` with its id otherwise, and confidence `min(0.5 * score, 1)`
   * for its id's summed score; scores do not increase along the output.
   */
  lemma RankedOrder(s: seq<RetrievalResult>, cs: seq<(string, real)>)
    requires Keys(cs) == Ids(s)
    ensures var out := Ranked(SortBy(Accumulate([], cs), NegScore), Dedup(s));
      && (forall i :: 0 <= i < |out| ==>
            out[i].id in Ids(s) &&
            out[i] == Hybridised(s[FirstIndex(Ids(s), out[i].id)], i + 1, SumFor(cs, out[i].id)))
      && (forall i, j :: 0 <= i < j < |out| ==> SumFor(cs, out[j].id) <= SumFor(cs, out[i].id))
  {
    SortedScores(s, cs);
    RankedEntries(s, cs);
  }

  /**
   * Reciprocal-rank fusion of the two paths' results ranks every distinct
   * id once, with the sum of the contributions of every occurrence of the
   * id in both lists as its score, in descending order of score.
   */
  lemma RrfFused(faiss: seq<RetrievalResult>, vertex: seq<RetrievalResult>, config: RetrievalConfig,
                 boost: RetrievalResult -> real)
    requires DenominatorsNonZero(config.rrfK, |faiss|) && DenominatorsNonZero(config.rrfK, |vertex|)
    ensures var s := faiss + vertex;
      var cs := RrfContributions(faiss, vertex, config, boost);
      var out := Rrf(faiss, vertex, Dedup(s), config, boost).value;
      && |out| == |Dedup(s)|
      && DistinctIds(out)
      && (forall k :: k in Ids(out) <==> k in Ids(s))
      && (forall i :: 0 <= i < |out| ==>
            out[i].id in Ids(s) &&
            out[i] == Hybridised(s[FirstIndex(Ids(s), out[i].id)], i + 1, SumFor(cs, out[i].id)))
      && (forall i, j :: 0 <= i < j < |out| ==> SumFor(cs, out[j].id) <= SumFor(cs, out[i].id))
  {
    RrfIds(faiss, vertex, config, boost);
    RankedIds(faiss + vertex, RrfContributions(faiss, vertex, config, boost));
    RankedOrder(faiss + vertex, RrfContributions(faiss, vertex, config, boost));
  }

  /**
   * Ties keep their order: the ids with equal fused score appear in the
   * output in the order of the score dictionary, which is the order in
   * which the ids first appear in the FAISS results followed by the Vertex
   * AI results.
   */
  lemma RrfTieOrder(faiss: seq<RetrievalResult>, vertex: seq<RetrievalResult>, config: RetrievalConfig,
                    boost: RetrievalResult -> real, v: real)
    requires DenominatorsNonZero(config.rrfK, |faiss|) && DenominatorsNonZero(config.rrfK, |vertex|)
    ensures var scores := RrfScores(faiss, vertex, config, boost);
      && Keys(scores) == Uniq(Ids(faiss + vertex))
      && WithKey(SortBy(scores, NegScore), NegScore, v) == WithKey(scores, NegScore, v)
  {
    var cs := RrfContributions(faiss, vertex, config, boost);
    AccumulateKeys(cs);
    RrfIds(faiss, vertex, config, boost);
    SortByStable(Accumulate([], cs), NegScore, v);
  }
  // -------------------------------------------------------------------
  // _weighted_fusion
  // -------------------------------------------------------------------

  function NegSimilarity(r: RetrievalResult): real { -r.similarity }

  /** The weight of a path's results in the weighted fusion. */
  function WeightFor(retrievalSource: string, config: RetrievalConfig): real
  {
    if retrievalSource == "faiss" then config.faissWeight
    else if retrievalSource == "vertex" then config.vertexWeight
    else 1.0
  }

  /** A result after the weighted fusion at position `i`. */
  function Weighed(r: RetrievalResult, i: nat, config: RetrievalConfig): RetrievalResult
  {
    r.(rank := i + 1, confidence := r.similarity * WeightFor(r.retrievalSource, config))
  }

  /** `_weighted_fusion`. */
  function Weighted(results: seq<RetrievalResult>, config: RetrievalConfig): (w: seq<RetrievalResult>)
    ensures |w| == |results|
  {
    var sorted := SortBy(results, NegSimilarity);
    seq(|sorted|, i requires 0 <= i < |sorted| => Weighed(sorted[i], i, config))
  }

  /** `_weighted_fusion`: sorts by descending similarity, then ranks and weighs each result. */
  method WeightedFusion(results: seq<RetrievalResult>, config: RetrievalConfig) returns (ranked: seq<RetrievalResult>)
    ensures ranked == Weighted(results, config)
  {
    var sorted := SortBy(results, NegSimilarity);
    ranked := [];
    var i := 0;
    while i < |sorted|
      invariant 0 <= i <= |sorted|
      invariant ranked == Weighted(results, config)[..i]
    {
      var result := sorted[i];
      var confidence := result.similarity;
      if result.retrievalSource == "faiss" {
        confidence := confidence * config.faissWeight;
      } else if result.retrievalSource == "vertex" {
        confidence := confidence * config.vertexWeight;
      }
      assert Weighted(results, config)[i] == Weighed(sorted[i], i, config);
      assert result.(rank := i + 1, confidence := confidence) == Weighed(sorted[i], i, config);
      assert Weighted(results, config)[..i + 1] == Weighted(results, config)[..i] + [Weighted(results, config)[i]];
      ranked := ranked + [result.(rank := i + 1, confidence := confidence)];
      i := i + 1;
    }
    assert Weighted(results, config)[..i] == Weighted(results, config);
  }

  /**
   * The weighted fusion ranks the results by descending similarity, keeps
   * equal similarities in input order, and changes only their rank and
   * confidence, the similarity times the weight of their path.
   */
  lemma WeightedRanks(results: seq<RetrievalResult>, config: RetrievalConfig, v: real)
    ensures var w := Weighted(results, config);
      var sorted := SortBy(results, NegSimilarity);
      && (forall i, j :: 0 <= i < j < |w| ==> w[j].similarity <= w[i].similarity)
      && (forall i :: 0 <= i < |w| ==> sorted[i] in results && w[i] == Weighed(sorted[i], i, config))
      && multiset(sorted) == multiset(results)
      && WithKey(sorted, NegSimilarity, v) == WithKey(results, NegSimilarity, v)
  {
    var sorted := SortBy(results, NegSimilarity);
    SortBySorted(results, NegSimilarity);
    SortByPermutation(results, NegSimilarity);
    SortByStable(results, NegSimilarity, v);
    forall i | 0 <= i < |sorted| ensures sorted[i] in results {
      assert sorted[i] in multiset(results);
    }
  }

  /** Weighted fusion keeps the ids distinct when they were. */
  lemma WeightedDistinct(results: seq<RetrievalResult>, config: RetrievalConfig)
    requires DistinctIds(results)
    ensures DistinctIds(Weighted(results, config))
  {
    var sorted := SortBy(results, NegSimilarity);
    SortByPermutation(results, NegSimilarity);
    forall i, j | 0 <= i < j < |sorted| ensures sorted[i].id != sorted[j].id {
      DistinctIdsOnce(results, sorted[i]);
      TwoPositions(sorted, i, j);
      assert sorted[i] in multiset(results) && sorted[j] in multiset(results);
      var p :| 0 <= p < |results| && results[p] == sorted[i];
      var q :| 0 <= q < |results| && results[q] == sorted[j];
    }
  }

  /** In a sequence with distinct ids every result occurs at most once. */
  lemma {:induction false} DistinctIdsOnce(a: seq<RetrievalResult>, x: RetrievalResult)
    requires DistinctIds(a)
    ensures multiset(a)[x] <= 1
    decreases |a|
  {
    if |a| != 0 {
      var n := |a| - 1;
      DistinctIdsOnce(a[..n], x);
      assert a == a[..n] + [a[n]];
      assert a[n] !in a[..n];
    }
  }

  // -------------------------------------------------------------------
  // _merge_results
  // -------------------------------------------------------------------

  /** `_merge_results`: de-duplicate, fuse, keep the first `final_results`; `None` when the fusion raises. */
  function Merge(faiss: seq<RetrievalResult>, vertex: seq<RetrievalResult>, config: RetrievalConfig,
                 keywords: set<string>, wordChar: char -> bool): Option<seq<RetrievalResult>>
  {
    var unique := Dedup(faiss + vertex);
    if config.enableReranking then
      match Rrf(faiss, vertex, unique, config, BoostBy(keywords, wordChar))
      case None => None
      case Some(ranked) => Some(Take(ranked, config.finalResults))
    else Some(Take(Weighted(unique, config), config.finalResults))
  }

  /** `_merge_results`. */
  method MergeResults(faiss: seq<RetrievalResult>, vertex: seq<RetrievalResult>, config: RetrievalConfig,
                      keywords: set<string>, wordChar: char -> bool) returns (merged: Option<seq<RetrievalResult>>)
    ensures merged == Merge(faiss, vertex, config, keywords, wordChar)
  {
    var uniqueResults := DeduplicateResults(faiss + vertex);
    var ranked;
    if config.enableReranking {
      var fused := ReciprocalRankFusion(faiss, vertex, uniqueResults, config, keywords, wordChar);
      if fused.None? {
        return None;
      }
      ranked := fused.value;
    } else {
      ranked := WeightedFusion(uniqueResults, config);
    }
    return Some(Take(ranked, config.finalResults));
  }

  /**
   * The merged results number at most `final_results`, have distinct ids
   * drawn from the inputs, and are only missing when the fusion divides by
   * zero.
   */
  lemma MergeBounds(faiss: seq<RetrievalResult>, vertex: seq<RetrievalResult>, config: RetrievalConfig,
                    keywords: set<string>, wordChar: char -> bool)
    ensures Merge(faiss, vertex, config, keywords, wordChar).None? <==>
      config.enableReranking && !(DenominatorsNonZero(config.rrfK, |faiss|) && DenominatorsNonZero(config.rrfK, |vertex|))
    ensures var m := Merge(faiss, vertex, config, keywords, wordChar);
      m.Some? ==>
        && (0 <= config.finalResults ==> |m.value| <= config.finalResults)
        && DistinctIds(m.value)
        && (forall i :: 0 <= i < |m.value| ==> m.value[i].id in Ids(faiss + vertex))
  {
    var s := faiss + vertex;
    var unique := Dedup(s);
    DedupIds(s);
    var boost := BoostBy(keywords, wordChar);
    if config.enableReranking {
      if DenominatorsNonZero(config.rrfK, |faiss|) && DenominatorsNonZero(config.rrfK, |vertex|) {
        RrfFused(faiss, vertex, config, boost);
        var ranked := Rrf(faiss, vertex, unique, config, boost).value;
        assert forall i :: 0 <= i < |ranked| ==> ranked[i].id in Ids(ranked);
        TakeRanked(ranked, config.finalResults, s);
      }
    } else {
      WeightedFromInputs(unique, config);
      TakeRanked(Weighted(unique, config), config.finalResults, s);
    }
  }

  /** The weighted ranking keeps distinct ids, each one of its input's. */
  lemma WeightedFromInputs(unique: seq<RetrievalResult>, config: RetrievalConfig)
    requires DistinctIds(unique)
    ensures var w := Weighted(unique, config);
      DistinctIds(w) && forall i :: 0 <= i < |w| ==> w[i].id in Ids(unique)
  {
    WeightedDistinct(unique, config);
    WeightedRanks(unique, config, 0.0);
    var w := Weighted(unique, config);
    forall i | 0 <= i < |w| ensures w[i].id in Ids(unique) {
      var sorted := SortBy(unique, NegSimilarity);
      var j :| 0 <= j < |unique| && unique[j] == sorted[i];
      assert unique[j].id in Ids(unique);
    }
  }

  /** Cutting a ranking to `n` results keeps at most `n`, with distinct ids drawn from `s`. */
  lemma TakeRanked(ranked: seq<RetrievalResult>, n: int, s: seq<RetrievalResult>)
    requires DistinctIds(ranked) && forall i :: 0 <= i < |ranked| ==> ranked[i].id in Ids(s)
    ensures var t := Take(ranked, n);
      && (0 <= n ==> |t| <= n)
      && DistinctIds(t)
      && (forall i :: 0 <= i < |t| ==> t[i].id in Ids(s))
  {
    var t := Take(ranked, n);
    assert t == ranked[..|t|];
    forall i | 0 <= i < |t| ensures t[i] == ranked[i] { }
  }
}
