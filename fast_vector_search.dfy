/**
 * The local vector index (`FastVectorSearch`): a FAISS inner-product index
 * that is upgraded from a flat index to an IVF index once it holds 500
 * vectors, plus a metadata dictionary keyed by the decimal position of
 * each vector.
 *
 * The sentence encoder is the parameter `encode` (it already returns
 * L2-normalised vectors), the answer of FAISS to a query is the parameter
 * `hits`, and whether FAISS training and rebuilding succeed are the
 * booleans of `IndexOutcomes`.
 */
module VectorSearch {
  import opened Wrappers
  import opened Text

  type Vec = seq<real>

  /** Number of vectors from which the flat index is replaced by an IVF index. */
  const UpgradeThreshold: nat := 500
  const MinClusters: nat := 10
  const MaxClusters: nat := 256

  datatype IndexKind = Flat | Ivf(clusters: nat, trained: bool)

  /** `index.is_trained`: a flat index needs no training. */
  predicate Trained(kind: IndexKind)
  {
    kind.Flat? || kind.trained
  }

  /** What the metadata dictionary holds for one position. */
  datatype DocMeta = DocMeta(text: string, source: string, originalId: string, timestamp: string)

  /** A document handed to `add_documents`; absent keys are `None`. */
  datatype Document = Document(id: Option<string>, text: string, source: Option<string>)

  /** One row of FAISS's answer: a score and a position, `-1` when FAISS ran out of results. */
  datatype FaissHit = FaissHit(score: real, position: int)

  /** One result of `search`. */
  datatype SearchHit = SearchHit(rank: nat, score: real, similarity: real, index: int,
                                 id: string, text: string, source: string, timestamp: string)

  datatype IndexStats = IndexStats(totalDocuments: nat, embeddingDimension: nat, modelName: string,
                                   indexTrained: bool, metadataCount: nat)

  /** Whether the FAISS calls that may raise during `add_documents` succeed. */
  datatype IndexOutcomes = IndexOutcomes(upgradeOk: bool, trainOk: bool, downgradeOk: bool)

  /** The index and its metadata. */
  datatype IndexState = IndexState(kind: IndexKind, vectors: seq<Vec>, metadata: map<string, DocMeta>)

  /** What `load_index` finds on disk. */
  datatype LoadOutcome =
    | Loaded(state: IndexState)   // both files exist and can be read
    | Missing                     // one of the files does not exist
    | Unreadable                  // reading raised

  // -------------------------------------------------------------------
  // Cluster count
  // -------------------------------------------------------------------

  /** The integer square root, searching upwards from `r`. */
  function ISqrtFrom(n: nat, r: nat): (s: nat)
    requires r * r <= n
    ensures s * s <= n < (s + 1) * (s + 1)
    decreases n - r
  {
    if n < (r + 1) * (r + 1) then r
    else
      assert r + 1 <= (r + 1) * (r + 1);
      ISqrtFrom(n, r + 1)
  }

  /** `int(np.sqrt(n))`. */
  function ISqrt(n: nat): (s: nat)
    ensures s * s <= n < (s + 1) * (s + 1)
  {
    ISqrtFrom(n, 0)
  }

  /** `min(max(int(np.sqrt(n)), 10), 256)`. */
  function Clusters(n: nat): (c: nat)
    ensures MinClusters <= c <= MaxClusters
    ensures MinClusters < c < MaxClusters ==> c * c <= n < (c + 1) * (c + 1)
  {
    var r := ISqrt(n);
    if r < MinClusters then MinClusters else if MaxClusters < r then MaxClusters else r
  }

  // -------------------------------------------------------------------
  // The state changes of add_documents, as functions of the old state
  // -------------------------------------------------------------------

  /** `_upgrade_to_ivf_index`: a non-empty index is rebuilt as a trained IVF index unless FAISS raises. */
  function Upgraded(s: IndexState, ok: bool): IndexState
  {
    if |s.vectors| == 0 || !ok then s else s.(kind := Ivf(Clusters(|s.vectors|), true))
  }

  /** `_downgrade_to_flat_index`: when rebuilding raises, a new empty flat index replaces the old one. */
  function Downgraded(s: IndexState, ok: bool): IndexState
  {
    if |s.vectors| == 0 || ok then s.(kind := Flat) else s.(kind := Flat, vectors := [])
  }

  /** The index `add_documents` adds `n` vectors to: upgraded, trained or downgraded as needed. */
  function Prepared(s: IndexState, n: nat, outcomes: IndexOutcomes): IndexState
  {
    var s1 := if UpgradeThreshold <= |s.vectors| + n && s.kind.Flat? then Upgraded(s, outcomes.upgradeOk) else s;
    if Trained(s1.kind) then s1
    else if outcomes.trainOk then s1.(kind := s1.kind.(trained := true))
    else if !s1.kind.Flat? then Downgraded(s1, outcomes.downgradeOk)
    else s1
  }

  function Embed(docs: seq<Document>, encode: string -> Vec): (vs: seq<Vec>)
    ensures |vs| == |docs|
  {
    seq(|docs|, i requires 0 <= i < |docs| => encode(docs[i].text))
  }

  /**
   * The metadata `add_documents` records for a document stored at `pos`.
   * An absent `source` or `id` key gets its `.get` default; a key present
   * with the value `None`, which `.get` would return as `None`, is not
   * modelled.
   */
  function MetaFor(doc: Document, pos: nat, now: string): DocMeta
  {
    DocMeta(doc.text, doc.source.GetOr("unknown"), doc.id.GetOr("doc_" + NatToString(pos)), now)
  }

  /** The metadata key of a position: `str(doc_id)`. */
  function PosKey(pos: nat): string
  {
    NatToString(pos)
  }

  /** The keys of positions `start` to `start + n - 1`. */
  function PosKeys(start: nat, n: nat): set<string>
  {
    set p | start <= p < start + n :: PosKey(p)
  }

  /** The metadata after recording `docs` at positions `start`, `start + 1`, ... */
  function PutMetadata(m: map<string, DocMeta>, docs: seq<Document>, start: nat, now: string): map<string, DocMeta>
    decreases |docs|
  {
    if |docs| == 0 then m
    else
      var last := start + |docs| - 1;
      PutMetadata(m, docs[..|docs| - 1], start, now)[PosKey(last) := MetaFor(docs[|docs| - 1], last, now)]
  }

  /** The index after `add_documents(docs)`. */
  function AfterAdd(s: IndexState, docs: seq<Document>, encode: string -> Vec,
                    outcomes: IndexOutcomes, now: string): IndexState
  {
    if |docs| == 0 then s
    else
      var p := Prepared(s, |docs|, outcomes);
      IndexState(p.kind, p.vectors + Embed(docs, encode), PutMetadata(p.metadata, docs, |p.vectors|, now))
  }

  /** The positions `add_documents(docs)` returns. */
  function AddedPositions(s: IndexState, docs: seq<Document>, outcomes: IndexOutcomes): (ids: seq<int>)
    ensures |ids| == |docs|
  {
    if |docs| == 0 then []
    else
      var start := |Prepared(s, |docs|, outcomes).vectors|;
      seq(|docs|, i requires 0 <= i < |docs| => start + i)
  }

  // -------------------------------------------------------------------
  // Search, as a function of the state and of FAISS's answer
  // -------------------------------------------------------------------

  /** Number of rows before the first `-1`. */
  function ValidRows(hits: seq<FaissHit>): (n: nat)
    ensures n <= |hits|
    ensures forall i :: 0 <= i < n ==> hits[i].position != -1
    ensures n < |hits| ==> hits[n].position == -1
  {
    if |hits| == 0 || hits[0].position == -1 then 0 else 1 + ValidRows(hits[1..])
  }

  /** The result for row `i` of FAISS's answer, with the metadata defaults of `search`. */
  function HitFor(i: nat, hit: FaissHit, metadata: map<string, DocMeta>): SearchHit
  {
    var key := IntToString(hit.position);
    if key in metadata then
      var m := metadata[key];
      SearchHit(i + 1, hit.score, hit.score, hit.position, m.originalId, m.text, m.source, m.timestamp)
    else
      SearchHit(i + 1, hit.score, hit.score, hit.position, "doc_" + IntToString(hit.position), "", "unknown", "")
  }

  /** The results for the first `n` rows. */
  function ResultsUpTo(hits: seq<FaissHit>, metadata: map<string, DocMeta>, n: nat): (r: seq<SearchHit>)
    requires n <= |hits|
    ensures |r| == n
    ensures forall i :: 0 <= i < n ==> r[i] == HitFor(i, hits[i], metadata)
  {
    seq(n, i requires 0 <= i < n => HitFor(i, hits[i], metadata))
  }

  /** What `search` returns when FAISS answers `hits`. */
  function SearchResults(s: IndexState, hits: seq<FaissHit>): seq<SearchHit>
  {
    if |s.vectors| == 0 then [] else ResultsUpTo(hits, s.metadata, ValidRows(hits))
  }

  class FastVectorSearch {
    const modelName: string
    const dimension: nat
    var kind: IndexKind
    var vectors: seq<Vec>
    var metadata: map<string, DocMeta>

    function State(): IndexState
      reads this
    {
      IndexState(kind, vectors, metadata)
    }

    /**
     * `__init__` with `load_index`: a saved index if both files can be read,
     * otherwise an empty flat index (with the metadata emptied when reading
     * raised).
     */
    constructor (modelName: string, dimension: nat, load: LoadOutcome)
      ensures this.modelName == modelName && this.dimension == dimension
      ensures load.Loaded? ==> State() == load.state
      ensures load.Missing? || load.Unreadable? ==> State() == IndexState(Flat, [], map[])
    {
      this.modelName := modelName;
      this.dimension := dimension;
      match load
      case Loaded(s) =>
        kind, vectors, metadata := s.kind, s.vectors, s.metadata;
      case Missing =>
        kind, vectors, metadata := Flat, [], map[];
      case Unreadable =>
        kind, vectors, metadata := Flat, [], map[];
    }

    /** Reads every stored vector back (`index.reconstruct(i)` for each position). */
    method Reconstruct() returns (all: array<Vec>)
      ensures fresh(all) && all[..] == vectors
    {
      all := new Vec[|vectors|](i => []);
      var i := 0;
      while i < |vectors|
        invariant 0 <= i <= |vectors|
        invariant all[..i] == vectors[..i]
        modifies all
      {
        all[i] := vectors[i];
        assert all[..i + 1] == all[..i] + [all[i]];
        assert vectors[..i + 1] == vectors[..i] + [vectors[i]];
        i := i + 1;
      }
    }

    /** `_upgrade_to_ivf_index`. */
    method UpgradeToIvf(ok: bool)
      modifies this
      ensures State() == Upgraded(old(State()), ok)
    {
      if |vectors| == 0 {
        return;
      }
      var all := Reconstruct();
      var clusters := Clusters(all.Length);
      if ok {
        kind := Ivf(clusters, true);
        vectors := all[..];
      }
    }

    /** `_downgrade_to_flat_index`. */
    method DowngradeToFlat(ok: bool)
      modifies this
      ensures State() == Downgraded(old(State()), ok)
    {
      if |vectors| == 0 {
        kind := Flat;
        return;
      }
      var all := Reconstruct();
      if ok {
        kind := Flat;
        vectors := all[..];
      } else {
        kind := Flat;
        vectors := [];
      }
    }

    /** The upgrade, training or downgrade `add_documents` performs before adding `n` vectors. */
    method Prepare(n: nat, outcomes: IndexOutcomes)
      modifies this
      ensures State() == Prepared(old(State()), n, outcomes)
    {
      if UpgradeThreshold <= |vectors| + n && kind.Flat? {
        UpgradeToIvf(outcomes.upgradeOk);
      }
      if !Trained(kind) {
        if outcomes.trainOk {
          kind := kind.(trained := true);
        } else if !kind.Flat? {
          DowngradeToFlat(outcomes.downgradeOk);
        }
      }
    }

    /** The metadata loop of `add_documents`: one entry per document, keyed by its position. */
    method RecordMetadata(docs: seq<Document>, start: nat, now: string) returns (ids: seq<int>)
      modifies this
      ensures kind == old(kind) && vectors == old(vectors)
      ensures metadata == PutMetadata(old(metadata), docs, start, now)
      ensures ids == seq(|docs|, j requires 0 <= j < |docs| => start + j)
    {
      ids := [];
      var i := 0;
      while i < |docs|
        invariant 0 <= i <= |docs|
        invariant kind == old(kind) && vectors == old(vectors)
        invariant metadata == PutMetadata(old(metadata), docs[..i], start, now)
        invariant ids == seq(i, j requires 0 <= j < i => start + j)
      {
        var pos := start + i;
        metadata := metadata[PosKey(pos) := MetaFor(docs[i], pos, now)];
        ids := ids + [pos];
        assert docs[..i + 1][..i] == docs[..i];
        i := i + 1;
      }
      assert docs[..i] == docs;
    }

    /** `add_documents`: encodes the texts, prepares the index, appends the vectors and records their metadata. */
    method AddDocuments(docs: seq<Document>, encode: string -> Vec, outcomes: IndexOutcomes, now: string)
      returns (ids: seq<int>)
      modifies this
      ensures State() == AfterAdd(old(State()), docs, encode, outcomes, now)
      ensures ids == AddedPositions(old(State()), docs, outcomes)
    {
      if |docs| == 0 {
        return [];
      }
      var embeddings := Embed(docs, encode);
      Prepare(|embeddings|, outcomes);
      var start := |vectors|;
      vectors := vectors + embeddings;
      ids := RecordMetadata(docs, start, now);
    }

    /** `search`: the results for FAISS's answer `hits`, up to the first `-1`. */
    method Search(hits: seq<FaissHit>) returns (results: seq<SearchHit>)
      ensures results == SearchResults(State(), hits)
    {
      results := [];
      if |vectors| == 0 {
        return;
      }
      var i := 0;
      while i < |hits|
        invariant 0 <= i <= ValidRows(hits)
        invariant results == ResultsUpTo(hits, metadata, i)
      {
        var hit := hits[i];
        if hit.position == -1 {
          break;
        }
        var key := IntToString(hit.position);
        var result;
        if key in metadata {
          var m := metadata[key];
          result := SearchHit(i + 1, hit.score, hit.score, hit.position, m.originalId, m.text, m.source, m.timestamp);
        } else {
          result := SearchHit(i + 1, hit.score, hit.score, hit.position, "doc_" + IntToString(hit.position), "", "unknown", "");
        }
        results := results + [result];
        i := i + 1;
      }
    }

    /** `get_stats`. */
    function GetStats(): (stats: IndexStats)
      reads this
      ensures stats.totalDocuments == |vectors| && stats.metadataCount == |metadata|
      ensures stats.indexTrained <==> Trained(kind)
      ensures stats.embeddingDimension == dimension && stats.modelName == modelName
    {
      IndexStats(|vectors|, dimension, modelName, Trained(kind), |metadata|)
    }

    /** `clear_index`: `index.reset()` keeps the index kind (and its training) and drops every vector. */
    method ClearIndex()
      modifies this
      ensures State() == IndexState(old(kind), [], map[])
    {
      vectors := [];
      metadata := map[];
    }
  }

  // -------------------------------------------------------------------
  // Properties
  // -------------------------------------------------------------------

  /** Rebuilding the index as IVF or as flat keeps every vector and all metadata, unless the downgrade fails. */
  lemma RebuildKeepsVectors(s: IndexState, ok: bool)
    ensures Upgraded(s, ok).vectors == s.vectors && Upgraded(s, ok).metadata == s.metadata
    ensures Trained(Upgraded(s, ok).kind) <==> Trained(s.kind) || (0 < |s.vectors| && ok)
    ensures Downgraded(s, ok).kind == Flat && Downgraded(s, ok).metadata == s.metadata
    ensures Downgraded(s, ok).vectors == if ok then s.vectors else []
  {
  }

  /** After `add_documents` the index is trained, so FAISS accepts the new vectors. */
  lemma PreparedIsTrained(s: IndexState, n: nat, outcomes: IndexOutcomes)
    ensures Trained(Prepared(s, n, outcomes).kind)
  {
  }

  /** The upgrade happens exactly when a flat index reaches 500 vectors with a non-empty old index. */
  lemma UpgradeCondition(s: IndexState, n: nat, outcomes: IndexOutcomes)
    requires s.kind.Flat? && outcomes.upgradeOk
    ensures Prepared(s, n, outcomes).kind.Ivf? <==> UpgradeThreshold <= |s.vectors| + n && 0 < |s.vectors|
    ensures Prepared(s, n, outcomes).kind.Ivf? ==> Prepared(s, n, outcomes).kind.clusters == Clusters(|s.vectors|)
  {
  }

  /**
   * The metadata recorded for `docs` from position `start` on: each
   * document under its position's key, every other key unchanged.
   */
  lemma PutMetadataEntries(m: map<string, DocMeta>, docs: seq<Document>, start: nat, now: string)
    ensures var r := PutMetadata(m, docs, start, now);
      && r.Keys == m.Keys + PosKeys(start, |docs|)
      && (forall p :: start <= p < start + |docs| ==> r[PosKey(p)] == MetaFor(docs[p - start], p, now))
      && (forall k :: k in m && k !in PosKeys(start, |docs|) ==> r[k] == m[k])
  {
    PutMetadataKeys(m, docs, start, now);
    PutMetadataAt(m, docs, start, now);
    PutMetadataOther(m, docs, start, now);
  }

  lemma {:induction false} PutMetadataKeys(m: map<string, DocMeta>, docs: seq<Document>, start: nat, now: string)
    ensures PutMetadata(m, docs, start, now).Keys == m.Keys + PosKeys(start, |docs|)
    decreases |docs|
  {
    if |docs| != 0 {
      PutMetadataKeys(m, docs[..|docs| - 1], start, now);
      PosKeysSnoc(start, |docs| - 1);
    }
  }

  lemma {:induction false} PutMetadataAt(m: map<string, DocMeta>, docs: seq<Document>, start: nat, now: string)
    ensures forall p :: start <= p < start + |docs| ==>
      var r := PutMetadata(m, docs, start, now);
      PosKey(p) in r && r[PosKey(p)] == MetaFor(docs[p - start], p, now)
    decreases |docs|
  {
    if |docs| != 0 {
      var init := docs[..|docs| - 1];
      var last := start + |docs| - 1;
      PutMetadataAt(m, init, start, now);
      var before := PutMetadata(m, init, start, now);
      var r := PutMetadata(m, docs, start, now);
      assert r == before[PosKey(last) := MetaFor(docs[|docs| - 1], last, now)];
      forall p | start <= p < last
        ensures PosKey(p) in r && r[PosKey(p)] == MetaFor(docs[p - start], p, now)
      {
        if PosKey(p) == PosKey(last) {
          NatToStringInjective(p, last);
        }
        assert init[p - start] == docs[p - start];
        assert PosKey(p) in before && before[PosKey(p)] == MetaFor(init[p - start], p, now);
      }
    }
  }

  lemma {:induction false} PutMetadataOther(m: map<string, DocMeta>, docs: seq<Document>, start: nat, now: string)
    ensures forall k :: k in m && k !in PosKeys(start, |docs|) ==>
      var r := PutMetadata(m, docs, start, now);
      k in r && r[k] == m[k]
    decreases |docs|
  {
    if |docs| != 0 {
      var init := docs[..|docs| - 1];
      PutMetadataOther(m, init, start, now);
      PosKeysSnoc(start, |init|);
    }
  }

  /** The keys up to one more position are those up to it and the new position's key. */
  lemma PosKeysSnoc(start: nat, n: nat)
    ensures PosKeys(start, n + 1) == PosKeys(start, n) + {PosKey(start + n)}
  {
    forall p | start <= p < start + n ensures PosKey(p) in PosKeys(start, n + 1) {
    }
  }

  /**
   * `add_documents` appends one vector per document after the vectors of the
   * prepared index, returns their consecutive positions, records each
   * document's metadata under its position and keeps the other metadata.
   */
  lemma AddDocumentsEffect(s: IndexState, docs: seq<Document>, encode: string -> Vec,
                           outcomes: IndexOutcomes, now: string)
    requires 0 < |docs|
    ensures var p := Prepared(s, |docs|, outcomes);
      var r := AfterAdd(s, docs, encode, outcomes, now);
      var ids := AddedPositions(s, docs, outcomes);
      && |r.vectors| == |p.vectors| + |docs|
      && (p.vectors == s.vectors || (p.vectors == [] && !outcomes.downgradeOk))
      && r.vectors[..|p.vectors|] == p.vectors
      && (forall i :: 0 <= i < |docs| ==> ids[i] == |p.vectors| + i)
      && (forall i :: 0 <= i < |docs| ==> r.vectors[|p.vectors| + i] == encode(docs[i].text))
      && r.metadata.Keys == s.metadata.Keys + PosKeys(|p.vectors|, |docs|)
      && (forall i :: 0 <= i < |docs| ==> r.metadata[PosKey(|p.vectors| + i)] == MetaFor(docs[i], |p.vectors| + i, now))
      && (forall k :: k in s.metadata && k !in PosKeys(|p.vectors|, |docs|) ==> r.metadata[k] == s.metadata[k])
  {
    AddDocumentsVectors(s, docs, encode, outcomes, now);
    AddDocumentsMetadata(s, docs, encode, outcomes, now);
  }

  /** The vector half of `AddDocumentsEffect`. */
  lemma AddDocumentsVectors(s: IndexState, docs: seq<Document>, encode: string -> Vec,
                            outcomes: IndexOutcomes, now: string)
    requires 0 < |docs|
    ensures var p := Prepared(s, |docs|, outcomes);
      var r := AfterAdd(s, docs, encode, outcomes, now);
      var ids := AddedPositions(s, docs, outcomes);
      && |r.vectors| == |p.vectors| + |docs|
      && (p.vectors == s.vectors || (p.vectors == [] && !outcomes.downgradeOk))
      && r.vectors[..|p.vectors|] == p.vectors
      && (forall i :: 0 <= i < |docs| ==> ids[i] == |p.vectors| + i)
      && (forall i :: 0 <= i < |docs| ==> r.vectors[|p.vectors| + i] == encode(docs[i].text))
  {
    var p := Prepared(s, |docs|, outcomes);
    PreparedKeeps(s, |docs|, outcomes);
    AppendVectors(p.vectors, docs, encode);
  }

  /** The metadata half of `AddDocumentsEffect`. */
  lemma AddDocumentsMetadata(s: IndexState, docs: seq<Document>, encode: string -> Vec,
                             outcomes: IndexOutcomes, now: string)
    requires 0 < |docs|
    ensures var p := Prepared(s, |docs|, outcomes);
      var r := AfterAdd(s, docs, encode, outcomes, now);
      && r.metadata.Keys == s.metadata.Keys + PosKeys(|p.vectors|, |docs|)
      && (forall i :: 0 <= i < |docs| ==> r.metadata[PosKey(|p.vectors| + i)] == MetaFor(docs[i], |p.vectors| + i, now))
      && (forall k :: k in s.metadata && k !in PosKeys(|p.vectors|, |docs|) ==> r.metadata[k] == s.metadata[k])
  {
    var p := Prepared(s, |docs|, outcomes);
    var start := |p.vectors|;
    PreparedKeeps(s, |docs|, outcomes);
    var md := PutMetadata(s.metadata, docs, start, now);
    assert AfterAdd(s, docs, encode, outcomes, now).metadata == md;
    PutMetadataEntries(s.metadata, docs, start, now);
    forall i | 0 <= i < |docs| ensures PosKey(start + i) in md && md[PosKey(start + i)] == MetaFor(docs[i], start + i, now) {
      assert start + i - start == i;
    }
  }

  /** Preparing keeps the metadata, and keeps the vectors unless a failed downgrade empties the index. */
  lemma PreparedKeeps(s: IndexState, n: nat, outcomes: IndexOutcomes)
    ensures var p := Prepared(s, n, outcomes);
      && p.metadata == s.metadata
      && (p.vectors == s.vectors || (p.vectors == [] && !outcomes.downgradeOk))
  {
  }

  /** Appending the documents' vectors to those of the prepared index. */
  lemma AppendVectors(vectors: seq<Vec>, docs: seq<Document>, encode: string -> Vec)
    ensures var r := vectors + Embed(docs, encode);
      && |r| == |vectors| + |docs|
      && r[..|vectors|] == vectors
      && (forall i :: 0 <= i < |docs| ==> r[|vectors| + i] == encode(docs[i].text))
  {
    assert (vectors + Embed(docs, encode))[..|vectors|] == vectors;
  }

  /** Positions are distinct, so the search results never list more vectors than the index holds. */
  lemma {:induction false} SearchResultsBound(s: IndexState, hits: seq<FaissHit>)
    requires forall i, j :: 0 <= i < j < |hits| && hits[i].position != -1 ==> hits[i].position != hits[j].position
    requires forall i :: 0 <= i < |hits| && hits[i].position != -1 ==> 0 <= hits[i].position < |s.vectors|
    ensures |SearchResults(s, hits)| <= |hits|
    ensures |SearchResults(s, hits)| <= |s.vectors|
  {
    if |s.vectors| != 0 {
      var n := ValidRows(hits);
      var positions := set i | 0 <= i < n :: hits[i].position;
      DistinctCount(hits[..n]);
      assert positions == set i | 0 <= i < |hits[..n]| :: hits[..n][i].position;
      BoundedSetCount(positions, |s.vectors|);
    }
  }

  /** A sequence of hits with distinct positions has as many positions as rows. */
  lemma {:induction false} DistinctCount(hits: seq<FaissHit>)
    requires forall i, j :: 0 <= i < j < |hits| ==> hits[i].position != hits[j].position
    ensures |set i | 0 <= i < |hits| :: hits[i].position| == |hits|
    decreases |hits|
  {
    if |hits| != 0 {
      var init := hits[..|hits| - 1];
      DistinctCount(init);
      var last := hits[|hits| - 1].position;
      var a := set i | 0 <= i < |init| :: init[i].position;
      var b := set i | 0 <= i < |hits| :: hits[i].position;
      assert b == a + {last};
      assert last !in a;
    }
  }

  /** A set of integers in `[0, n)` has at most `n` elements. */
  lemma {:induction false} BoundedSetCount(xs: set<int>, n: nat)
    requires forall x :: x in xs ==> 0 <= x < n
    ensures |xs| <= n
    decreases n
  {
    if n != 0 {
      var rest := xs - {n - 1};
      BoundedSetCount(rest, n - 1);
      assert xs <= rest + {n - 1};
      assert |xs| <= |rest + {n - 1}|;
    } else {
      forall x | x in xs ensures false { }
      assert xs == {};
    }
  }
}
