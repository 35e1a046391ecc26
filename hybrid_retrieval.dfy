/**
 * The hybrid retriever (`HybridRetrieval`): it runs the local FAISS path
 * and the Vertex AI path under one of five strategies, fuses their results,
 * keeps a chunk map for the Vertex path's local fallbacks, and counts
 * queries and successes.
 *
 * Everything the two paths ask of the outside world is one `Services`
 * value: FAISS's rows for `k` neighbours of the query, whether that FAISS
 * search raises (the query encoder or `index.search`), the query's
 * embedding, cosine similarity, the chunk encoder, the Vertex AI answer for
 * `n` neighbours (`None` when the call raises), whether each parallel path
 * finished within `max_parallel_timeout`, and Python's `\w` class.  The
 * two parallel paths are modelled one after the other.
 */
module Hybrid {
  import opened Wrappers
  import opened Text
  import opened OrderedDict
  import opened VectorSearch
  import opened Fusion
  import Chunker
  import FastRag
  import RagRetrieval

  datatype Strategy = FastOnly | VertexOnly | HybridParallel | Adaptive | Fallback

  /** ADAPTIVE sends queries shorter than this many characters to the FAISS path alone. */
  const AdaptiveQueryLength: nat := 10

  /** The counters of `self.stats` (the timing entries are not modelled). */
  datatype Stats = Stats(totalQueries: nat, fastSuccess: nat, vertexSuccess: nat, hybridSuccess: nat,
                         fallbackUsed: nat)

  const NoQueries: Stats := Stats(0, 0, 0, 0, 0)

  /** What the outside world answers while one query is served. */
  datatype Services = Services(
    faiss: int -> seq<FaissHit>,
    faissRaises: int -> bool,
    faissInTime: bool,
    vertexInTime: bool,
    queryEmbedding: RagRetrieval.Vec,
    cosine: (RagRetrieval.Vec, RagRetrieval.Vec) -> Option<real>,
    embed: string -> RagRetrieval.Vec,
    vertex: int -> Option<seq<RagRetrieval.Neighbor>>,
    wordChar: char -> bool)

  /** What the strategies read of the retriever: its configuration, its local index (if any) and its chunk maps. */
  datatype View = View(config: RetrievalConfig, fast: Option<IndexState>, chunkMap: Dict<string, string>,
                       chunkEmbeddings: map<string, RagRetrieval.Vec>)

  /** What a strategy did: its results, or `None` when it raised; and the counters after it. */
  datatype Outcome = Outcome(results: Option<seq<RetrievalResult>>, stats: Stats)

  /** What `search` returns and leaves in the counters. */
  datatype Answer = Answer(results: seq<RetrievalResult>, stats: Stats)

  /** Counters never credit more than two successes per query, nor more than one fallback. */
  predicate StatsBound(s: Stats)
  {
    s.fastSuccess + s.vertexSuccess + s.hybridSuccess <= 2 * s.totalQueries && s.fallbackUsed <= s.totalQueries
  }

  // -------------------------------------------------------------------
  // The two paths
  // -------------------------------------------------------------------

  /** A result dictionary of the FAISS path carries every key. */
  function FromRagHit(h: FastRag.RagHit): RawResult
  {
    RawResult(Some(h.id), Some(h.datapointId), Some(h.text), Some(h.contentPreview), Some(h.similarity),
              Some(h.distance), Some(h.source), Some(h.rank))
  }

  /** A result dictionary of the Vertex path has no text, source or rank. */
  function FromNeighbor(n: RagRetrieval.Neighbor): RawResult
  {
    RawResult(Some(n.id), Some(n.datapointId), None, None, n.similarity, Some(n.distance), None, None)
  }

  function FaissRaw(hits: seq<FastRag.RagHit>): (raw: seq<RawResult>)
    ensures |raw| == |hits|
  {
    seq(|hits|, i requires 0 <= i < |hits| => FromRagHit(hits[i]))
  }

  function VertexRaw(found: seq<RagRetrieval.Neighbor>): (raw: seq<RawResult>)
    ensures |raw| == |found|
  {
    seq(|found|, i requires 0 <= i < |found| => FromNeighbor(found[i]))
  }

  /** The FAISS path asked for `k` results, converted. */
  function FaissPath(state: IndexState, svc: Services, config: RetrievalConfig, k: int): seq<RetrievalResult>
  {
    Convert(FaissRaw(FastRag.KeepAbove(SearchResults(state, svc.faiss(k)), config.minSimilarity)), "faiss")
  }

  /** The Vertex path asked for `n` results, converted. */
  function VertexPath(v: View, svc: Services, n: int): seq<RetrievalResult>
  {
    var found := RagRetrieval.Retrieve(svc.queryEmbedding, v.chunkMap, v.chunkEmbeddings, n,
                                       svc.cosine, svc.embed, svc.vertex(n));
    Convert(VertexRaw(found), "vertex")
  }

  /**
   * The FAISS search for `k` raises: the query encoder or `index.search`
   * raised, which they can only once the index holds vectors (an empty
   * index answers `[]` before either is called).
   */
  predicate FaissRaises(state: IndexState, svc: Services, k: int)
  {
    |state.vectors| != 0 && svc.faissRaises(k)
  }

  /**
   * `_safe_search_faiss`: the FAISS path for `num_candidates`, or nothing
   * without a local retriever or when the search raises.
   */
  function SafeFaiss(v: View, svc: Services): seq<RetrievalResult>
  {
    match v.fast
    case None => []
    case Some(state) =>
      if FaissRaises(state, svc, v.config.numCandidates) then []
      else FaissPath(state, svc, v.config, v.config.numCandidates)
  }

  /** `_safe_search_vertex`: the Vertex path for `num_candidates`. */
  function SafeVertex(v: View, svc: Services): seq<RetrievalResult>
  {
    VertexPath(v, svc, v.config.numCandidates)
  }

  // -------------------------------------------------------------------
  // The strategies
  // -------------------------------------------------------------------

  /** The query keywords of the fusion: those of the last query, none before the first. */
  function KeywordsOf(lastQuery: Option<string>): set<string>
  {
    match lastQuery
    case None => {}
    case Some(q) => QueryKeywords(q)
  }

  /**
   * `_search_fast_only`: raises without a local retriever or when the FAISS
   * search raises (it has no handler of its own), else counts a FAISS
   * success whatever it finds.
   */
  function FastOnlyOutcome(v: View, svc: Services, stats: Stats): Outcome
  {
    match v.fast
    case None => Outcome(None, stats)
    case Some(state) =>
      if FaissRaises(state, svc, v.config.finalResults) then Outcome(None, stats)
      else
        Outcome(Some(FaissPath(state, svc, v.config, v.config.finalResults)),
                stats.(fastSuccess := stats.fastSuccess + 1))
  }

  /** `_search_vertex_only`: counts a Vertex success whatever it finds. */
  function VertexOnlyOutcome(v: View, svc: Services, stats: Stats): Outcome
  {
    Outcome(Some(VertexPath(v, svc, v.config.finalResults)), stats.(vertexSuccess := stats.vertexSuccess + 1))
  }

  /**
   * `_search_hybrid_parallel`: a path that did not finish in time counts as
   * empty; raises when both are empty or the fusion raises.
   */
  function HybridOutcome(v: View, svc: Services, keywords: set<string>, stats: Stats): Outcome
  {
    var faiss := if svc.faissInTime then SafeFaiss(v, svc) else [];
    var vertex := if svc.vertexInTime then SafeVertex(v, svc) else [];
    if |faiss| == 0 && |vertex| == 0 then Outcome(None, stats)
    else
      match Merge(faiss, vertex, v.config, keywords, svc.wordChar)
      case None => Outcome(None, stats)
      case Some(merged) => Outcome(Some(merged), stats.(hybridSuccess := stats.hybridSuccess + 1))
  }

  /** `_search_adaptive`. */
  function AdaptiveOutcome(query: string, v: View, svc: Services, keywords: set<string>, stats: Stats): Outcome
  {
    if |query| < AdaptiveQueryLength then FastOnlyOutcome(v, svc, stats) else HybridOutcome(v, svc, keywords, stats)
  }

  /** `_search_fallback`: the first non-empty of the two safe paths, FAISS first; never raises. */
  function FallbackOutcome(v: View, svc: Services, stats: Stats): Outcome
  {
    var faiss := SafeFaiss(v, svc);
    if |faiss| != 0 then Outcome(Some(faiss), stats.(fallbackUsed := stats.fallbackUsed + 1))
    else
      var vertex := SafeVertex(v, svc);
      if |vertex| != 0 then Outcome(Some(vertex), stats.(fallbackUsed := stats.fallbackUsed + 1))
      else Outcome(Some([]), stats)
  }

  function StrategyOutcome(strategy: Strategy, query: string, v: View, svc: Services, keywords: set<string>,
                           stats: Stats): Outcome
  {
    match strategy
    case FastOnly => FastOnlyOutcome(v, svc, stats)
    case VertexOnly => VertexOnlyOutcome(v, svc, stats)
    case HybridParallel => HybridOutcome(v, svc, keywords, stats)
    case Adaptive => AdaptiveOutcome(query, v, svc, keywords, stats)
    case Fallback => FallbackOutcome(v, svc, stats)
  }

  /** The success `search` itself counts for a non-empty answer. */
  function Credited(strategy: Strategy, s: Stats): Stats
  {
    match strategy
    case FastOnly => s.(fastSuccess := s.fastSuccess + 1)
    case VertexOnly => s.(vertexSuccess := s.vertexSuccess + 1)
    case _ => s.(hybridSuccess := s.hybridSuccess + 1)
  }

  /**
   * `search`: counts the query, runs the strategy with the query's
   * keywords, turns an exception into no results, and credits a non-empty
   * answer once more.
   */
  function SearchAnswer(strategy: Strategy, query: string, v: View, svc: Services, stats: Stats): Answer
  {
    var o := StrategyOutcome(strategy, query, v, svc, QueryKeywords(query),
                             stats.(totalQueries := stats.totalQueries + 1));
    match o.results
    case None => Answer([], o.stats)
    case Some(rs) => Answer(rs, if |rs| == 0 then o.stats else Credited(strategy, o.stats))
  }

  /** `success_rate` of `get_stats`. */
  function SuccessRate(s: Stats): real
  {
    if s.totalQueries > 0
    then (s.fastSuccess + s.vertexSuccess + s.hybridSuccess) as real / s.totalQueries as real
    else 0.0
  }

  // -------------------------------------------------------------------
  // The chunk map
  // -------------------------------------------------------------------

  /** The chunk-map id of chunk `i` of a file: `file_{file_id}_chunk_{i}`. */
  function ChunkMapId(fileId: string, i: nat): string
  {
    "file_" + fileId + "_chunk_" + NatToString(i)
  }

  /** The chunk map after `chunk_map[file_{id}_chunk_{i}] = chunk` for every chunk, in order. */
  function PutChunks(m: Dict<string, string>, fileId: string, chunks: seq<string>): Dict<string, string>
    decreases |chunks|
  {
    if |chunks| == 0 then m
    else Set(PutChunks(m, fileId, chunks[..|chunks| - 1]), ChunkMapId(fileId, |chunks| - 1), chunks[|chunks| - 1])
  }

  /** The loop `d[f"file_{file_id}_chunk_{i}"] = chunk` over the chunks, in order. */
  method PutChunksInto(d: Dict<string, string>, fileId: string, chunks: seq<string>) returns (r: Dict<string, string>)
    requires DistinctKeys(d)
    ensures r == PutChunks(d, fileId, chunks)
    ensures DistinctKeys(r)
  {
    r := d;
    var i := 0;
    while i < |chunks|
      invariant 0 <= i <= |chunks|
      invariant r == PutChunks(d, fileId, chunks[..i])
      invariant DistinctKeys(r)
    {
      SetDistinct(r, ChunkMapId(fileId, i), chunks[i]);
      r := Set(r, ChunkMapId(fileId, i), chunks[i]);
      assert chunks[..i + 1][..i] == chunks[..i];
      i := i + 1;
    }
    assert chunks[..i] == chunks;
  }

  // -------------------------------------------------------------------
  // Configuration, statistics, health
  // -------------------------------------------------------------------

  /** The keyword arguments of `update_config` that name a configuration field. */
  datatype ConfigPatch = ConfigPatch(
    numCandidates: Option<int>, finalResults: Option<int>,
    faissWeight: Option<real>, vertexWeight: Option<real>,
    minSimilarity: Option<real>, highConfidenceThreshold: Option<real>,
    maxParallelTimeout: Option<real>, fallbackThreshold: Option<real>,
    rrfK: Option<int>, enableReranking: Option<bool>)

  /** `setattr(self.config, key, value)` for every given field. */
  function Patched(c: RetrievalConfig, p: ConfigPatch): RetrievalConfig
  {
    RetrievalConfig(p.numCandidates.GetOr(c.numCandidates), p.finalResults.GetOr(c.finalResults),
                    p.faissWeight.GetOr(c.faissWeight), p.vertexWeight.GetOr(c.vertexWeight),
                    p.minSimilarity.GetOr(c.minSimilarity),
                    p.highConfidenceThreshold.GetOr(c.highConfidenceThreshold),
                    p.maxParallelTimeout.GetOr(c.maxParallelTimeout), p.fallbackThreshold.GetOr(c.fallbackThreshold),
                    p.rrfK.GetOr(c.rrfK), p.enableReranking.GetOr(c.enableReranking))
  }

  /** What `get_stats` reports besides the timing entries. */
  datatype StatsReport = StatsReport(stats: Stats, successRate: real, fastRetrievalAvailable: bool,
                                     faissWeight: real, vertexWeight: real, strategy: string)

  /** What `health_check` reports. */
  datatype Health = Health(faissAvailable: bool, vertexAvailable: bool, hybridAvailable: bool)

  /** Python truthiness of an optional string. */
  predicate Truthy(s: Option<string>)
  {
    s.Some? && s.value != ""
  }

  class HybridRetrieval {
    var config: RetrievalConfig
    const projectId: Option<string>
    const location: Option<string>
    const endpointId: Option<string>
    var stats: Stats
    var lastQuery: Option<string>
    const fastRetrieval: FastRag.FastRAGRetrieval?
    var chunkMap: Dict<string, string>
    const chunkEmbeddings: map<string, RagRetrieval.Vec>

    /** The local retriever and its index, when there is one. */
    function FastParts(): set<object>
    {
      if fastRetrieval == null then {} else {fastRetrieval, fastRetrieval.engine}
    }

    ghost predicate Valid()
      reads this
    {
      StatsBound(stats) && DistinctKeys(chunkMap)
    }

    function Snapshot(): View
      reads this, FastParts()
    {
      View(config, if fastRetrieval == null then None else Some(fastRetrieval.engine.State()), chunkMap,
           chunkEmbeddings)
    }

    /**
     * `__init__`: the given configuration or the default one, zero
     * counters, empty chunk maps, and a local retriever unless creating it
     * raised (`fastInit == None`).
     */
    constructor (config: Option<RetrievalConfig>, projectId: Option<string>, location: Option<string>,
                 endpointId: Option<string>, fastInit: Option<(nat, LoadOutcome)>)
      ensures Valid()
      ensures this.config == config.GetOr(DefaultConfig)
      ensures this.projectId == projectId && this.location == location && this.endpointId == endpointId
      ensures stats == NoQueries && lastQuery == None && chunkMap == [] && chunkEmbeddings == map[]
      ensures fastInit.None? <==> fastRetrieval == null
      ensures fastRetrieval != null ==>
        && fresh(fastRetrieval) && fresh(fastRetrieval.engine)
        && fastRetrieval.cacheDir == FastRag.DefaultCacheDir
        && fastRetrieval.engine.modelName == FastRag.DefaultModelName
        && fastRetrieval.engine.dimension == fastInit.value.0
        && (fastInit.value.1.Loaded? ==> fastRetrieval.engine.State() == fastInit.value.1.state)
        && (!fastInit.value.1.Loaded? ==> fastRetrieval.engine.State() == IndexState(Flat, [], map[]))
    {
      this.config := config.GetOr(DefaultConfig);
      this.projectId := projectId;
      this.location := location;
      this.endpointId := endpointId;
      stats := NoQueries;
      lastQuery := None;
      chunkMap := [];
      chunkEmbeddings := map[];
      if fastInit.Some? {
        fastRetrieval := new FastRag.FastRAGRetrieval(FastRag.DefaultModelName, FastRag.DefaultCacheDir,
                                                      fastInit.value.0, fastInit.value.1);
      } else {
        fastRetrieval := null;
      }
    }

    /**
     * `add_document`: hands the document to the local retriever (if any),
     * puts its chunks into the chunk map under `file_{id}_chunk_{i}`, and
     * always reports success.
     */
    method AddDocument(fileId: string, text: string, filename: Option<string>,
                       encode: string -> Vec, outcomes: IndexOutcomes, now: string) returns (success: bool)
      requires Valid()
      modifies this, FastParts()
      ensures Valid()
      ensures success
      ensures chunkMap == PutChunks(old(chunkMap), fileId,
                                    Chunker.Chunks(text, Chunker.ServiceChunkSize, Chunker.ServiceOverlapSize))
      ensures fastRetrieval != null ==>
        fastRetrieval.engine.State() ==
          AfterAdd(old(fastRetrieval.engine.State()), FastRag.FileRecords(fileId, text, filename), encode, outcomes, now)
      ensures config == old(config) && stats == old(stats) && lastQuery == old(lastQuery)
    {
      success := true;
      if fastRetrieval != null {
        var _ := fastRetrieval.AddDocument(fileId, text, filename, encode, outcomes, now);
      }
      var chunks := Chunker.ChunkText(text, Chunker.ServiceChunkSize, Chunker.ServiceOverlapSize);
      StoreChunks(fileId, chunks);
    }

    /** The loop of `add_document` that fills the chunk map. */
    method StoreChunks(fileId: string, chunks: seq<string>)
      requires Valid()
      modifies this
      ensures Valid()
      ensures chunkMap == PutChunks(old(chunkMap), fileId, chunks)
      ensures config == old(config) && stats == old(stats) && lastQuery == old(lastQuery)
    {
      chunkMap := PutChunksInto(chunkMap, fileId, chunks);
    }

    /** `_safe_search_faiss`. */
    method SafeSearchFaiss(svc: Services) returns (results: seq<RetrievalResult>)
      ensures results == SafeFaiss(Snapshot(), svc)
    {
      if fastRetrieval == null {
        return [];
      }
      if |fastRetrieval.engine.vectors| != 0 && svc.faissRaises(config.numCandidates) {
        return [];
      }
      var hits := fastRetrieval.Search(config.numCandidates, config.minSimilarity, svc.faiss);
      results := Convert(FaissRaw(hits), "faiss");
    }

    /** `_safe_search_vertex`. */
    method SafeSearchVertex(svc: Services) returns (results: seq<RetrievalResult>)
      ensures results == SafeVertex(Snapshot(), svc)
    {
      var found := RagRetrieval.RetrieveRelevantChunks(svc.queryEmbedding, chunkMap, chunkEmbeddings,
                                                       config.numCandidates, svc.cosine, svc.embed,
                                                       svc.vertex(config.numCandidates));
      results := Convert(VertexRaw(found), "vertex");
    }

    /** `_search_fast_only`; `None` is the exception. */
    method SearchFastOnly(svc: Services) returns (results: Option<seq<RetrievalResult>>)
      modifies this
      ensures Outcome(results, stats) == FastOnlyOutcome(old(Snapshot()), svc, old(stats))
      ensures config == old(config) && chunkMap == old(chunkMap) && lastQuery == old(lastQuery)
    {
      if fastRetrieval == null {
        return None;
      }
      if |fastRetrieval.engine.vectors| != 0 && svc.faissRaises(config.finalResults) {
        return None;
      }
      var hits := fastRetrieval.Search(config.finalResults, config.minSimilarity, svc.faiss);
      stats := stats.(fastSuccess := stats.fastSuccess + 1);
      results := Some(Convert(FaissRaw(hits), "faiss"));
    }

    /** `_search_vertex_only`. */
    method SearchVertexOnly(svc: Services) returns (results: Option<seq<RetrievalResult>>)
      modifies this
      ensures Outcome(results, stats) == VertexOnlyOutcome(old(Snapshot()), svc, old(stats))
      ensures config == old(config) && chunkMap == old(chunkMap) && lastQuery == old(lastQuery)
    {
      var found := RagRetrieval.RetrieveRelevantChunks(svc.queryEmbedding, chunkMap, chunkEmbeddings,
                                                       config.finalResults, svc.cosine, svc.embed,
                                                       svc.vertex(config.finalResults));
      stats := stats.(vertexSuccess := stats.vertexSuccess + 1);
      results := Some(Convert(VertexRaw(found), "vertex"));
    }

    /** `_search_hybrid_parallel`, with the keywords of the last query; `None` is the exception. */
    method SearchHybridParallel(svc: Services) returns (results: Option<seq<RetrievalResult>>)
      modifies this
      ensures Outcome(results, stats) == HybridOutcome(old(Snapshot()), svc, KeywordsOf(old(lastQuery)), old(stats))
      ensures config == old(config) && chunkMap == old(chunkMap) && lastQuery == old(lastQuery)
    {
      ghost var v := Snapshot();
      var faissResults := [];
      var vertexResults := [];
      if svc.faissInTime {
        faissResults := SafeSearchFaiss(svc);
      }
      if svc.vertexInTime {
        vertexResults := SafeSearchVertex(svc);
      }
      if |faissResults| == 0 && |vertexResults| == 0 {
        return None;
      }
      var merged := MergeResults(faissResults, vertexResults, config, KeywordsOf(lastQuery), svc.wordChar);
      assert merged == Merge(if svc.faissInTime then SafeFaiss(v, svc) else [],
                             if svc.vertexInTime then SafeVertex(v, svc) else [],
                             v.config, KeywordsOf(lastQuery), svc.wordChar);
      if merged.None? {
        return None;
      }
      stats := stats.(hybridSuccess := stats.hybridSuccess + 1);
      results := merged;
    }

    /** `_search_adaptive`. */
    method SearchAdaptive(query: string, svc: Services) returns (results: Option<seq<RetrievalResult>>)
      modifies this
      ensures Outcome(results, stats) == AdaptiveOutcome(query, old(Snapshot()), svc, KeywordsOf(old(lastQuery)), old(stats))
      ensures config == old(config) && chunkMap == old(chunkMap) && lastQuery == old(lastQuery)
    {
      if |query| < AdaptiveQueryLength {
        results := SearchFastOnly(svc);
      } else {
        results := SearchHybridParallel(svc);
      }
    }

    /** `_search_fallback`. */
    method SearchFallback(svc: Services) returns (results: Option<seq<RetrievalResult>>)
      modifies this
      ensures Outcome(results, stats) == FallbackOutcome(old(Snapshot()), svc, old(stats))
      ensures config == old(config) && chunkMap == old(chunkMap) && lastQuery == old(lastQuery)
    {
      var found := SafeSearchFaiss(svc);
      if |found| != 0 {
        stats := stats.(fallbackUsed := stats.fallbackUsed + 1);
        return Some(found);
      }
      found := SafeSearchVertex(svc);
      if |found| != 0 {
        stats := stats.(fallbackUsed := stats.fallbackUsed + 1);
        return Some(found);
      }
      return Some([]);
    }

    /** The strategy dispatch of `search`, with the keywords of the last query. */
    method RunStrategy(query: string, strategy: Strategy, svc: Services) returns (outcome: Option<seq<RetrievalResult>>)
      modifies this
      ensures Outcome(outcome, stats) ==
        StrategyOutcome(strategy, query, old(Snapshot()), svc, KeywordsOf(old(lastQuery)), old(stats))
      ensures config == old(config) && chunkMap == old(chunkMap) && lastQuery == old(lastQuery)
    {
      match strategy {
        case FastOnly => outcome := SearchFastOnly(svc);
        case VertexOnly => outcome := SearchVertexOnly(svc);
        case HybridParallel => outcome := SearchHybridParallel(svc);
        case Adaptive => outcome := SearchAdaptive(query, svc);
        case Fallback => outcome := SearchFallback(svc);
      }
    }

    /** `search`. */
    method Search(query: string, strategy: Strategy, svc: Services) returns (results: seq<RetrievalResult>)
      requires Valid()
      modifies this
      ensures Valid()
      ensures Answer(results, stats) == SearchAnswer(strategy, query, old(Snapshot()), svc, old(stats))
      ensures lastQuery == Some(query)
      ensures config == old(config) && chunkMap == old(chunkMap)
    {
      ghost var v := Snapshot();
      ghost var before := stats;
      lastQuery := Some(query);
      stats := stats.(totalQueries := stats.totalQueries + 1);
      ghost var counted := stats;
      assert Snapshot() == v;
      var outcome := RunStrategy(query, strategy, svc);
      assert Outcome(outcome, stats) == StrategyOutcome(strategy, query, v, svc, QueryKeywords(query), counted);
      if outcome.None? {
        results := [];
      } else {
        results := outcome.value;
        if |results| != 0 {
          stats := Credited(strategy, stats);
        }
      }
      SearchKeepsBound(strategy, query, v, svc, before);
    }

    /** `update_config`. */
    method UpdateConfig(patch: ConfigPatch)
      modifies this
      ensures config == Patched(old(config), patch)
      ensures stats == old(stats) && lastQuery == old(lastQuery) && chunkMap == old(chunkMap)
    {
      config := Patched(config, patch);
    }

    /** `get_stats`. */
    function GetStats(): (report: StatsReport)
      reads this
      ensures report.stats == stats && report.fastRetrievalAvailable == (fastRetrieval != null)
      ensures report.faissWeight == config.faissWeight && report.vertexWeight == config.vertexWeight
      ensures report.strategy == "hybrid_parallel"
      ensures StatsBound(stats) ==> 0.0 <= report.successRate <= 2.0
      ensures report.successRate == 0.0 <==>
        stats.totalQueries == 0 || stats.fastSuccess + stats.vertexSuccess + stats.hybridSuccess == 0
    {
      SuccessRateRange(stats);
      StatsReport(stats, SuccessRate(stats), fastRetrieval != null, config.faissWeight, config.vertexWeight,
                  "hybrid_parallel")
    }

    /**
     * `health_check`: FAISS is available when its index holds a vector,
     * Vertex AI when both the project and the location are set.
     */
    function HealthCheck(): (health: Health)
      reads this, FastParts()
      ensures health.faissAvailable <==> fastRetrieval != null && |fastRetrieval.engine.vectors| > 0
      ensures health.vertexAvailable <==> Truthy(projectId) && Truthy(location)
      ensures health.hybridAvailable <==> health.faissAvailable || health.vertexAvailable
    {
      var faiss := fastRetrieval != null && fastRetrieval.GetStats().totalDocuments > 0;
      var vertex := Truthy(projectId) && Truthy(location);
      Health(faiss, vertex, faiss || vertex)
    }
  }

  // -------------------------------------------------------------------
  // hybrid_search
  // -------------------------------------------------------------------

  /** One result of `hybrid_search`, in the dictionary shape of the older retrieval code. */
  datatype CompatResult = CompatResult(id: string, datapointId: string, text: string, source: string,
                                       similarity: real, distance: real, rank: int, retrievalSource: string,
                                       confidence: real, contentPreview: string)

  function Compatible(r: RetrievalResult): CompatResult
  {
    CompatResult(r.id, r.id, r.text, r.source, r.similarity, r.distance, r.rank, r.retrievalSource,
                 r.confidence, FastRag.Preview(r.text))
  }

  function CompatibleAll(rs: seq<RetrievalResult>): (cs: seq<CompatResult>)
    ensures |cs| == |rs|
  {
    seq(|rs|, i requires 0 <= i < |rs| => Compatible(rs[i]))
  }

  /** `hybrid_search`: `search`, with every result rewritten in the older dictionary shape. */
  method HybridSearch(query: string, retrieval: HybridRetrieval, strategy: Strategy, svc: Services)
    returns (results: seq<CompatResult>)
    requires retrieval.Valid()
    modifies retrieval
    ensures retrieval.Valid()
    ensures var a := SearchAnswer(strategy, query, old(retrieval.Snapshot()), svc, old(retrieval.stats));
      results == CompatibleAll(a.results) && retrieval.stats == a.stats
  {
    ghost var before := retrieval.Snapshot();
    ghost var counted := retrieval.stats;
    var found := retrieval.Search(query, strategy, svc);
    ghost var a := SearchAnswer(strategy, query, before, svc, counted);
    assert found == a.results && retrieval.stats == a.stats;
    results := [];
    var i := 0;
    while i < |found|
      invariant 0 <= i <= |found|
      invariant |results| == i
      invariant forall j :: 0 <= j < i ==> results[j] == Compatible(found[j])
    {
      results := results + [Compatible(found[i])];
      i := i + 1;
    }
  }

  // -------------------------------------------------------------------
  // Properties
  // -------------------------------------------------------------------

  /**
   * Every call counts one query; a strategy that raised leaves no results
   * and no success; and the counters stay within two successes per query
   * and one fallback per query.
   */
  lemma SearchKeepsBound(strategy: Strategy, query: string, v: View, svc: Services, stats: Stats)
    requires StatsBound(stats)
    ensures var a := SearchAnswer(strategy, query, v, svc, stats);
      && a.stats.totalQueries == stats.totalQueries + 1
      && StatsBound(a.stats)
      && a.stats.fallbackUsed <= stats.fallbackUsed + 1
  {
  }

  /** A search whose strategy raised answers nothing and credits no success. */
  lemma RaisedSearch(strategy: Strategy, query: string, v: View, svc: Services, stats: Stats)
    requires StrategyOutcome(strategy, query, v, svc, QueryKeywords(query),
                             stats.(totalQueries := stats.totalQueries + 1)).results.None?
    ensures SearchAnswer(strategy, query, v, svc, stats) == Answer([], stats.(totalQueries := stats.totalQueries + 1))
  {
    var counted := stats.(totalQueries := stats.totalQueries + 1);
    match strategy {
      case FastOnly =>
      case VertexOnly =>
      case HybridParallel =>
      case Adaptive =>
      case Fallback =>
    }
  }

  /**
   * A FAST_ONLY search that finds something counts two FAISS successes:
   * one in `_search_fast_only` and one in `search`.
   */
  lemma FastOnlyCountedTwice(query: string, v: View, svc: Services, stats: Stats)
    requires v.fast.Some? && !FaissRaises(v.fast.value, svc, v.config.finalResults)
    requires |FaissPath(v.fast.value, svc, v.config, v.config.finalResults)| != 0
    ensures var a := SearchAnswer(FastOnly, query, v, svc, stats);
      && a.results == FaissPath(v.fast.value, svc, v.config, v.config.finalResults)
      && a.stats == stats.(totalQueries := stats.totalQueries + 1, fastSuccess := stats.fastSuccess + 2)
  {
  }

  /**
   * A FAST_ONLY search, or an ADAPTIVE one for a short query, whose FAISS
   * search raises answers `[]` and credits no success: the exception skips
   * `_search_fast_only`'s count and is caught by `search`.
   */
  lemma FastOnlyRaisingCountsNothing(query: string, v: View, svc: Services, stats: Stats)
    requires v.fast.Some? && FaissRaises(v.fast.value, svc, v.config.finalResults)
    ensures SearchAnswer(FastOnly, query, v, svc, stats) == Answer([], stats.(totalQueries := stats.totalQueries + 1))
    ensures |query| < AdaptiveQueryLength ==>
      SearchAnswer(Adaptive, query, v, svc, stats) == Answer([], stats.(totalQueries := stats.totalQueries + 1))
  {
  }

  /** A VERTEX_ONLY search counts a Vertex success even when it finds nothing. */
  lemma VertexOnlyCountedWhenEmpty(query: string, v: View, svc: Services, stats: Stats)
    requires |VertexPath(v, svc, v.config.finalResults)| == 0
    ensures SearchAnswer(VertexOnly, query, v, svc, stats).stats ==
      stats.(totalQueries := stats.totalQueries + 1, vertexSuccess := stats.vertexSuccess + 1)
  {
  }

  /** So one successful FAST_ONLY query from fresh counters reports a success rate of 2. */
  lemma SuccessRateReachesTwo(query: string, v: View, svc: Services)
    requires v.fast.Some? && !FaissRaises(v.fast.value, svc, v.config.finalResults)
    requires |FaissPath(v.fast.value, svc, v.config, v.config.finalResults)| != 0
    ensures SuccessRate(SearchAnswer(FastOnly, query, v, svc, NoQueries).stats) == 2.0
  {
    FastOnlyCountedTwice(query, v, svc, NoQueries);
    assert SearchAnswer(FastOnly, query, v, svc, NoQueries).stats == Stats(1, 2, 0, 0, 0);
  }

  /** Within the bound, the success rate lies in [0, 2], and it is 0 exactly when nothing succeeded. */
  lemma SuccessRateRange(s: Stats)
    ensures StatsBound(s) ==> 0.0 <= SuccessRate(s) <= 2.0
    ensures SuccessRate(s) == 0.0 <==> s.totalQueries == 0 || s.fastSuccess + s.vertexSuccess + s.hybridSuccess == 0
  {
    if s.totalQueries > 0 {
      var n := (s.fastSuccess + s.vertexSuccess + s.hybridSuccess) as real;
      var t := s.totalQueries as real;
      assert SuccessRate(s) == n / t;
      QuotientRange(n, t);
      if StatsBound(s) {
        assert n <= 2.0 * t;
      }
    }
  }

  /** A share of a positive total is 0 exactly when the share is, and at most 2 when the share is at most twice the total. */
  lemma QuotientRange(n: real, t: real)
    requires 0.0 <= n && 0.0 < t
    ensures 0.0 <= n / t
    ensures n / t == 0.0 <==> n == 0.0
    ensures n <= 2.0 * t ==> n / t <= 2.0
  {
    var q := n / t;
    assert q * t == n;
    if n <= 2.0 * t && q > 2.0 {
      assert q * t > 2.0 * t;
    }
  }

  /** ADAPTIVE answers like FAST_ONLY for a query under 10 characters and like HYBRID_PARALLEL otherwise. */
  lemma AdaptiveDispatch(query: string, v: View, svc: Services, stats: Stats)
    ensures |query| < 10 ==>
      SearchAnswer(Adaptive, query, v, svc, stats).results == SearchAnswer(FastOnly, query, v, svc, stats).results
    ensures 10 <= |query| ==>
      SearchAnswer(Adaptive, query, v, svc, stats) == SearchAnswer(HybridParallel, query, v, svc, stats)
  {
  }

  /**
   * FALLBACK answers the FAISS path's results when there are any, else the
   * Vertex path's; it counts one fallback for a non-empty answer.
   */
  lemma FallbackOrder(query: string, v: View, svc: Services, stats: Stats)
    ensures var a := SearchAnswer(Fallback, query, v, svc, stats);
      && (|SafeFaiss(v, svc)| != 0 ==> a.results == SafeFaiss(v, svc))
      && (|SafeFaiss(v, svc)| == 0 ==> a.results == SafeVertex(v, svc))
      && (a.stats.fallbackUsed == stats.fallbackUsed + 1 <==> |a.results| != 0)
  {
  }

  /**
   * HYBRID_PARALLEL raises only when both paths come back empty or the
   * fusion raises; otherwise it answers at most `final_results` results
   * with distinct ids, all drawn from the two paths.
   */
  lemma HybridAnswer(v: View, svc: Services, keywords: set<string>, stats: Stats)
    ensures var faiss := if svc.faissInTime then SafeFaiss(v, svc) else [];
      var vertex := if svc.vertexInTime then SafeVertex(v, svc) else [];
      var o := HybridOutcome(v, svc, keywords, stats);
      && (o.results.None? <==>
            (|faiss| == 0 && |vertex| == 0) ||
            (v.config.enableReranking &&
             !(DenominatorsNonZero(v.config.rrfK, |faiss|) && DenominatorsNonZero(v.config.rrfK, |vertex|))))
      && (o.results.Some? ==>
            && (0 <= v.config.finalResults ==> |o.results.value| <= v.config.finalResults)
            && DistinctIds(o.results.value)
            && (forall i :: 0 <= i < |o.results.value| ==> o.results.value[i].id in Ids(faiss + vertex))
            && o.stats == stats.(hybridSuccess := stats.hybridSuccess + 1))
  {
    var faiss := if svc.faissInTime then SafeFaiss(v, svc) else [];
    var vertex := if svc.vertexInTime then SafeVertex(v, svc) else [];
    MergeBounds(faiss, vertex, v.config, keywords, svc.wordChar);
  }

  /**
   * A result of the Vertex path carries no text and the source `unknown`,
   * keeps the neighbour's id, and ranks by position.
   */
  lemma VertexResultsBare(v: View, svc: Services, n: int)
    ensures var found := RagRetrieval.Retrieve(svc.queryEmbedding, v.chunkMap, v.chunkEmbeddings, n,
                                               svc.cosine, svc.embed, svc.vertex(n));
      var rs := VertexPath(v, svc, n);
      |rs| == |found| &&
      forall i :: 0 <= i < |rs| ==>
        && rs[i].id == found[i].id && rs[i].text == "" && rs[i].source == "unknown"
        && rs[i].rank == i + 1 && rs[i].retrievalSource == "vertex"
        && rs[i].distance == found[i].distance
  {
  }

  /** A result of the FAISS path keeps the hit's id, text, source, rank and similarity. */
  lemma FaissResultsKept(state: IndexState, svc: Services, config: RetrievalConfig, k: int)
    ensures var hits := FastRag.KeepAbove(SearchResults(state, svc.faiss(k)), config.minSimilarity);
      var rs := FaissPath(state, svc, config, k);
      |rs| == |hits| &&
      forall i :: 0 <= i < |rs| ==>
        && rs[i].id == hits[i].id && rs[i].text == hits[i].text && rs[i].source == hits[i].source
        && rs[i].rank == hits[i].rank && rs[i].similarity == hits[i].similarity
        && rs[i].confidence == hits[i].similarity && rs[i].retrievalSource == "faiss"
  {
  }

  /**
   * The chunk map's id of a chunk never equals the local index's id of any
   * chunk of the same file, so de-duplication never merges the two paths'
   * copies of one chunk.
   */
  lemma PathIdsNeverCollide(fileId: string, i: nat, j: nat)
    ensures ChunkMapId(fileId, i) != FastRag.ChunkId(fileId, j)
  {
    var s := ChunkMapId(fileId, i);
    var t := FastRag.ChunkId(fileId, j);
    if |s| == |t| {
      // the digits of `j` start where `s` still spells `_chunk_`
      var p := |fileId| + 7;
      assert s[p] == 'h';
      assert t[p] == NatToString(j)[0] && IsDigit(t[p]);
    }
  }

  /** The chunk-map ids of one file are distinct. */
  lemma ChunkMapIdsDistinct(fileId: string, i: nat, j: nat)
    requires i != j
    ensures ChunkMapId(fileId, i) != ChunkMapId(fileId, j)
  {
    var p := "file_" + fileId + "_chunk_";
    if ChunkMapId(fileId, i) == ChunkMapId(fileId, j) {
      assert NatToString(i) == ChunkMapId(fileId, i)[|p|..];
      assert NatToString(j) == ChunkMapId(fileId, j)[|p|..];
      NatToStringInjective(i, j);
    }
  }

  /** Filling the chunk map keeps its keys distinct. */
  lemma {:induction false} PutChunksDistinct(m: Dict<string, string>, fileId: string, chunks: seq<string>)
    requires DistinctKeys(m)
    ensures DistinctKeys(PutChunks(m, fileId, chunks))
    decreases |chunks|
  {
    if |chunks| != 0 {
      var n := |chunks| - 1;
      PutChunksDistinct(m, fileId, chunks[..n]);
      SetDistinct(PutChunks(m, fileId, chunks[..n]), ChunkMapId(fileId, n), chunks[n]);
    }
  }

  /** After `add_document`, each chunk is found under its chunk-map id. */
  lemma {:induction false} PutChunksHit(m: Dict<string, string>, fileId: string, chunks: seq<string>, i: nat)
    requires DistinctKeys(m) && i < |chunks|
    ensures Get(PutChunks(m, fileId, chunks), ChunkMapId(fileId, i)) == Some(chunks[i])
    decreases |chunks|
  {
    var n := |chunks| - 1;
    var init := chunks[..n];
    var prev := PutChunks(m, fileId, init);
    PutChunksDistinct(m, fileId, init);
    if i == n {
      GetSetSame(prev, ChunkMapId(fileId, n), chunks[n]);
    } else {
      PutChunksHit(m, fileId, init, i);
      ChunkMapIdsDistinct(fileId, i, n);
      GetSetOther(prev, ChunkMapId(fileId, n), chunks[n], ChunkMapId(fileId, i));
    }
  }

  /** After `add_document`, every key that is no chunk-map id of the new chunks keeps its value. */
  lemma {:induction false} PutChunksMiss(m: Dict<string, string>, fileId: string, chunks: seq<string>, k: string)
    requires DistinctKeys(m)
    requires forall i: nat :: i < |chunks| ==> k != ChunkMapId(fileId, i)
    ensures Get(PutChunks(m, fileId, chunks), k) == Get(m, k)
    decreases |chunks|
  {
    if |chunks| != 0 {
      var n := |chunks| - 1;
      var init := chunks[..n];
      PutChunksMiss(m, fileId, init, k);
      PutChunksDistinct(m, fileId, init);
      GetSetOther(PutChunks(m, fileId, init), ChunkMapId(fileId, n), chunks[n], k);
    }
  }

  /** The compatible shape repeats the id as `datapoint_id` and previews the first 100 characters. */
  lemma CompatibleShape(r: RetrievalResult)
    ensures Compatible(r).datapointId == Compatible(r).id == r.id
    ensures |Compatible(r).contentPreview| <= FastRag.PreviewLength + 3
    ensures StartsWith(Compatible(r).contentPreview, Take(r.text, FastRag.PreviewLength))
  {
    FastRag.PreviewShape(r.text);
  }
}
