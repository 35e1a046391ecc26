/**
 * The retrieval path used when no local vector index answers
 * (`retrieve_relevant_chunks`): a decision tree between a similarity
 * search over precomputed chunk embeddings, the Vertex AI Vector Search
 * endpoint, a similarity search that embeds every chunk, and two fixed
 * mock results.
 *
 * The query's embedding is the parameter `query` (`[]` when the embedding
 * service failed), cosine similarity is the oracle `cosine` (`None` when
 * numpy raises, as for vectors of different lengths), chunk embeddings are
 * the oracle `embed` (`[]` on failure) and the Vertex AI answer is
 * `vertex` (`None` when the call raises).
 */
module RagRetrieval {
  import opened Wrappers
  import opened Text
  import opened Sorting
  import opened OrderedDict

  type Vec = seq<real>

  /** One retrieved chunk; the Vertex AI and mock results carry no similarity. */
  datatype Neighbor = Neighbor(id: string, distance: real, datapointId: string, similarity: Option<real>)

  /** The result for a chunk of similarity `sim`: distance `1 - sim`. */
  function Scored(id: string, sim: real): Neighbor
  {
    Neighbor(id, 1.0 - sim, id, Some(sim))
  }

  /** The sort key. */
  function Distance(n: Neighbor): real
  {
    n.distance
  }

  /** The results returned when Vertex AI fails and there is no chunk map. */
  function MockResults(): (r: seq<Neighbor>)
  {
    [Neighbor("chunk_0", 0.15, "chunk_0", None), Neighbor("chunk_1", 0.23, "chunk_1", None)]
  }

  /** `results.sort(key=distance)` followed by `results[:n]`. */
  function TopN(candidates: seq<Neighbor>, n: int): seq<Neighbor>
  {
    Take(SortBy(candidates, Distance), n)
  }

  /**
   * The candidates of `fast_similarity_search`: one per chunk of the map,
   * in order, that has a precomputed embedding; `None` when a similarity
   * computation raises.
   */
  function FastCandidates(query: Vec, chunkMap: Dict<string, string>, embeddings: map<string, Vec>,
                          cosine: (Vec, Vec) -> Option<real>): Option<seq<Neighbor>>
    decreases |chunkMap|
  {
    if |chunkMap| == 0 then Some([])
    else
      var id := chunkMap[|chunkMap| - 1].0;
      match FastCandidates(query, chunkMap[..|chunkMap| - 1], embeddings, cosine)
      case None => None
      case Some(cs) =>
        if id !in embeddings then Some(cs)
        else match cosine(query, embeddings[id])
          case None => None
          case Some(sim) => Some(cs + [Scored(id, sim)])
  }

  /** What `fast_similarity_search` returns: `[]` when it raised. */
  function FastSearch(query: Vec, chunkMap: Dict<string, string>, embeddings: map<string, Vec>, n: int,
                      cosine: (Vec, Vec) -> Option<real>): seq<Neighbor>
  {
    match FastCandidates(query, chunkMap, embeddings, cosine)
    case None => []
    case Some(cs) => TopN(cs, n)
  }

  /**
   * The candidates of `simple_similarity_search`: one per chunk of the map,
   * in order, except those whose embedding or similarity raises.
   */
  function SimpleCandidates(query: Vec, chunkMap: Dict<string, string>, embed: string -> Vec,
                            cosine: (Vec, Vec) -> Option<real>): seq<Neighbor>
    decreases |chunkMap|
  {
    if |chunkMap| == 0 then []
    else
      var e := chunkMap[|chunkMap| - 1];
      SimpleCandidates(query, chunkMap[..|chunkMap| - 1], embed, cosine) +
        match cosine(query, embed(e.1))
        case None => []
        case Some(sim) => [Scored(e.0, sim)]
  }

  /** What `retrieve_relevant_chunks` returns. */
  function Retrieve(query: Vec, chunkMap: Dict<string, string>, embeddings: map<string, Vec>, n: int,
                    cosine: (Vec, Vec) -> Option<real>, embed: string -> Vec,
                    vertex: Option<seq<Neighbor>>): seq<Neighbor>
  {
    if |query| == 0 then []
    else if |chunkMap| != 0 && |embeddings| != 0 then FastSearch(query, chunkMap, embeddings, n, cosine)
    else match vertex
      case Some(r) => r
      case None =>
        if |chunkMap| != 0 then TopN(SimpleCandidates(query, chunkMap, embed, cosine), n)
        else MockResults()
  }

  /** `fast_similarity_search`. */
  method FastSimilaritySearch(query: Vec, chunkMap: Dict<string, string>, embeddings: map<string, Vec>, n: int,
                              cosine: (Vec, Vec) -> Option<real>) returns (results: seq<Neighbor>)
    ensures results == FastSearch(query, chunkMap, embeddings, n, cosine)
  {
    results := [];
    var i := 0;
    while i < |chunkMap|
      invariant 0 <= i <= |chunkMap|
      invariant FastCandidates(query, chunkMap[..i], embeddings, cosine) == Some(results)
    {
      var (chunkId, _) := chunkMap[i];
      assert chunkMap[..i + 1][..i] == chunkMap[..i];
      if chunkId in embeddings {
        var similarity := cosine(query, embeddings[chunkId]);
        if similarity.None? {
          FastCandidatesStaysNone(query, chunkMap, embeddings, cosine, i + 1);
          return [];
        }
        results := results + [Neighbor(chunkId, 1.0 - similarity.value, chunkId, Some(similarity.value))];
      }
      i := i + 1;
    }
    assert chunkMap[..i] == chunkMap;
    results := SortBy(results, Distance);
    results := Take(results, n);
  }

  /** `simple_similarity_search`. */
  method SimpleSimilaritySearch(query: Vec, chunkMap: Dict<string, string>, n: int, embed: string -> Vec,
                                cosine: (Vec, Vec) -> Option<real>) returns (results: seq<Neighbor>)
    ensures results == TopN(SimpleCandidates(query, chunkMap, embed, cosine), n)
  {
    results := [];
    var i := 0;
    while i < |chunkMap|
      invariant 0 <= i <= |chunkMap|
      invariant results == SimpleCandidates(query, chunkMap[..i], embed, cosine)
    {
      var (chunkId, chunkText) := chunkMap[i];
      assert chunkMap[..i + 1][..i] == chunkMap[..i];
      var similarity := cosine(query, embed(chunkText));
      if similarity.Some? {
        results := results + [Neighbor(chunkId, 1.0 - similarity.value, chunkId, Some(similarity.value))];
      }
      i := i + 1;
    }
    assert chunkMap[..i] == chunkMap;
    results := SortBy(results, Distance);
    results := Take(results, n);
  }

  /** `retrieve_relevant_chunks`. */
  method RetrieveRelevantChunks(query: Vec, chunkMap: Dict<string, string>, embeddings: map<string, Vec>, n: int,
                                cosine: (Vec, Vec) -> Option<real>, embed: string -> Vec,
                                vertex: Option<seq<Neighbor>>) returns (results: seq<Neighbor>)
    ensures results == Retrieve(query, chunkMap, embeddings, n, cosine, embed, vertex)
  {
    if |query| == 0 {
      return [];
    }
    if |chunkMap| != 0 && |embeddings| != 0 {
      results := FastSimilaritySearch(query, chunkMap, embeddings, n, cosine);
      return;
    }
    if vertex.Some? {
      return vertex.value;
    }
    if |chunkMap| != 0 {
      results := SimpleSimilaritySearch(query, chunkMap, n, embed, cosine);
      return;
    }
    results := MockResults();
  }

  // -------------------------------------------------------------------
  // Properties
  // -------------------------------------------------------------------

  /** Once a similarity computation has raised, the whole search has. */
  lemma {:induction false} FastCandidatesStaysNone(query: Vec, chunkMap: Dict<string, string>, embeddings: map<string, Vec>,
                                                   cosine: (Vec, Vec) -> Option<real>, i: nat)
    requires i <= |chunkMap|
    requires FastCandidates(query, chunkMap[..i], embeddings, cosine).None?
    ensures FastCandidates(query, chunkMap, embeddings, cosine).None?
    decreases |chunkMap| - i
  {
    if i < |chunkMap| {
      var next := chunkMap[..i + 1];
      assert next[..i] == chunkMap[..i];
      FastCandidatesStaysNone(query, chunkMap, embeddings, cosine, i + 1);
    } else {
      assert chunkMap[..i] == chunkMap;
    }
  }

  /**
   * The fast candidates are exactly the chunks of the map that have a
   * precomputed embedding, each at distance `1 - similarity`.
   */
  lemma {:induction false} FastCandidatesExactly(query: Vec, chunkMap: Dict<string, string>, embeddings: map<string, Vec>,
                                                 cosine: (Vec, Vec) -> Option<real>)
    requires FastCandidates(query, chunkMap, embeddings, cosine).Some?
    ensures var cs := FastCandidates(query, chunkMap, embeddings, cosine).value;
      && |cs| <= |chunkMap|
      && (forall x :: x in cs ==> HasKey(chunkMap, x.id) && x.id in embeddings && x.datapointId == x.id &&
                                  x.similarity.Some? && x.distance == 1.0 - x.similarity.value)
      && (forall i :: 0 <= i < |chunkMap| && chunkMap[i].0 in embeddings ==>
            cosine(query, embeddings[chunkMap[i].0]).Some? &&
            Scored(chunkMap[i].0, cosine(query, embeddings[chunkMap[i].0]).value) in cs)
    decreases |chunkMap|
  {
    if |chunkMap| != 0 {
      var init := chunkMap[..|chunkMap| - 1];
      FastCandidatesExactly(query, init, embeddings, cosine);
      forall x | x in FastCandidates(query, init, embeddings, cosine).value ensures HasKey(chunkMap, x.id) {
        var j :| 0 <= j < |init| && init[j].0 == x.id;
        assert chunkMap[j] == init[j];
      }
      forall i | 0 <= i < |init| ensures chunkMap[i] == init[i] { }
    }
  }

  /**
   * The simple candidates are exactly the chunks of the map whose embedding
   * and similarity succeed, each at distance `1 - similarity`.
   */
  lemma {:induction false} SimpleCandidatesExactly(query: Vec, chunkMap: Dict<string, string>, embed: string -> Vec,
                                                   cosine: (Vec, Vec) -> Option<real>)
    ensures var cs := SimpleCandidates(query, chunkMap, embed, cosine);
      && |cs| <= |chunkMap|
      && (forall x :: x in cs ==> HasKey(chunkMap, x.id) && x.datapointId == x.id &&
                                  x.similarity.Some? && x.distance == 1.0 - x.similarity.value)
      && (forall i :: 0 <= i < |chunkMap| && cosine(query, embed(chunkMap[i].1)).Some? ==>
            Scored(chunkMap[i].0, cosine(query, embed(chunkMap[i].1)).value) in cs)
    decreases |chunkMap|
  {
    if |chunkMap| != 0 {
      var init := chunkMap[..|chunkMap| - 1];
      SimpleCandidatesExactly(query, init, embed, cosine);
      forall x | x in SimpleCandidates(query, init, embed, cosine) ensures HasKey(chunkMap, x.id) {
        var j :| 0 <= j < |init| && init[j].0 == x.id;
        assert chunkMap[j] == init[j];
      }
      forall i | 0 <= i < |init| ensures chunkMap[i] == init[i] { }
    }
  }

  /**
   * The top `n` are sorted by ascending distance, are drawn from the
   * candidates, number `min(n, |candidates|)`, and no candidate left out is
   * closer than one kept.
   */
  lemma TopNIsTop(candidates: seq<Neighbor>, n: int)
    ensures var r := TopN(candidates, n);
      && SortedBy(r, Distance)
      && multiset(r) <= multiset(candidates)
      && (0 <= n ==> |r| == if n <= |candidates| then n else |candidates|)
      && (forall x, y :: x in candidates && y in r && x !in r ==> y.distance <= x.distance)
  {
    var m := SliceBound(n, |candidates|);
    assert TopN(candidates, n) == SortBy(candidates, Distance)[..m];
    SortByPrefix(candidates, m, Distance);
  }

  /**
   * With precomputed embeddings for a non-empty chunk map only the fast
   * search runs: neither the Vertex AI answer nor the chunk embedder
   * matters.
   */
  lemma FastPathOnly(query: Vec, chunkMap: Dict<string, string>, embeddings: map<string, Vec>, n: int,
                     cosine: (Vec, Vec) -> Option<real>, embed1: string -> Vec, embed2: string -> Vec,
                     vertex1: Option<seq<Neighbor>>, vertex2: Option<seq<Neighbor>>)
    requires |query| != 0 && |chunkMap| != 0 && |embeddings| != 0
    ensures Retrieve(query, chunkMap, embeddings, n, cosine, embed1, vertex1) ==
            Retrieve(query, chunkMap, embeddings, n, cosine, embed2, vertex2)
    ensures Retrieve(query, chunkMap, embeddings, n, cosine, embed1, vertex1) ==
            FastSearch(query, chunkMap, embeddings, n, cosine)
  {
  }

  /**
   * Every local result names a chunk of the map, at distance
   * `1 - similarity`, and there are at most `n` of them; only a Vertex AI
   * answer or the mock results name anything else.
   */
  lemma LocalResultsFromChunkMap(query: Vec, chunkMap: Dict<string, string>, embeddings: map<string, Vec>, n: int,
                                 cosine: (Vec, Vec) -> Option<real>, embed: string -> Vec,
                                 vertex: Option<seq<Neighbor>>)
    requires 0 <= n && |chunkMap| != 0
    requires |embeddings| != 0 || vertex.None?
    ensures var r := Retrieve(query, chunkMap, embeddings, n, cosine, embed, vertex);
      && |r| <= n
      && forall x :: x in r ==> HasKey(chunkMap, x.id) && x.similarity.Some? && x.distance == 1.0 - x.similarity.value
  {
    var r := Retrieve(query, chunkMap, embeddings, n, cosine, embed, vertex);
    if |query| != 0 {
      var cs;
      if |embeddings| != 0 {
        var fc := FastCandidates(query, chunkMap, embeddings, cosine);
        if fc.None? {
          return;
        }
        FastCandidatesExactly(query, chunkMap, embeddings, cosine);
        cs := fc.value;
      } else {
        SimpleCandidatesExactly(query, chunkMap, embed, cosine);
        cs := SimpleCandidates(query, chunkMap, embed, cosine);
      }
      assert r == TopN(cs, n);
      TopNIsTop(cs, n);
      forall x | x in r ensures x in cs {
        assert x in multiset(r);
      }
    }
  }

  /** Without a query embedding nothing is retrieved; without any chunk map a failed Vertex AI call yields the two mock results. */
  lemma RetrieveFallbacks(query: Vec, chunkMap: Dict<string, string>, embeddings: map<string, Vec>, n: int,
                          cosine: (Vec, Vec) -> Option<real>, embed: string -> Vec, vertex: Option<seq<Neighbor>>)
    ensures Retrieve([], chunkMap, embeddings, n, cosine, embed, vertex) == []
    ensures |query| != 0 ==> Retrieve(query, [], embeddings, n, cosine, embed, None) == MockResults()
  {
  }
}
