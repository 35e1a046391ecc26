/**
 * The local retrieval wrapper (`FastRAGRetrieval`): it cuts a document into
 * chunks of 500 characters overlapping by 100, hands one record per chunk
 * to the vector index, and turns the index's search results into the
 * result shape shared with the Vertex AI path, dropping those below a
 * similarity threshold.
 *
 * FAISS's answer is the parameter `faiss`, a function from the number of
 * neighbours asked for to the rows FAISS returns for the query.
 */
module FastRag {
  import opened Wrappers
  import opened Text
  import Chunker
  import opened VectorSearch

  /** One entry of the list `add_documents_batch` receives; `filename` is `None` when the key is absent. */
  datatype SourceDocument = SourceDocument(fileId: string, text: string, filename: Option<string>)

  /** One result of `search`, in the shape of the Vertex AI path. */
  datatype RagHit = RagHit(id: string, datapointId: string, distance: real, similarity: real, score: real,
                           rank: nat, text: string, source: string, contentPreview: string)

  datatype RagStats = RagStats(totalDocuments: nat, embeddingDimension: nat, modelName: string,
                               indexTrained: bool, cacheDir: string)

  /** The defaults of `__init__`. */
  const DefaultModelName: string := "sentence-transformers/paraphrase-multilingual-MiniLM-L12-v2"
  const DefaultCacheDir: string := "./cache"

  /** Number of characters of `content_preview` before the ellipsis. */
  const PreviewLength: nat := 100

  /** The id of chunk `i` of a file on the local path: `{file_id}_chunk_{i}`. */
  function ChunkId(fileId: string, i: nat): string
  {
    fileId + "_chunk_" + NatToString(i)
  }

  /** `filename or file_id`. */
  function SourceName(fileId: string, filename: Option<string>): (s: string)
    ensures filename.Some? && filename.value != "" ==> s == filename.value
    ensures filename.None? || filename.value == "" ==> s == fileId
  {
    match filename
    case Some(f) => if f != "" then f else fileId
    case None => fileId
  }

  /**
   * `doc.get('filename', file_id)`: the default applies only when the key is
   * absent.  `None` stands for the absent key; a key present with the value
   * `None`, for which `.get` returns `None`, is not modelled.
   */
  function BatchSource(doc: SourceDocument): string
  {
    doc.filename.GetOr(doc.fileId)
  }

  /** The records submitted for the chunks `chunks` of file `fileId`. */
  function ChunkRecords(fileId: string, chunks: seq<string>, source: string): (docs: seq<Document>)
    ensures |docs| == |chunks|
  {
    seq(|chunks|, i requires 0 <= i < |chunks| => Document(Some(ChunkId(fileId, i)), chunks[i], Some(source)))
  }

  /** The chunks of a text as every caller cuts them. */
  function ServiceChunks(text: string): seq<string>
  {
    Chunker.Chunks(text, Chunker.ServiceChunkSize, Chunker.ServiceOverlapSize)
  }

  /** The records `add_document(file_id, text, filename)` submits. */
  function FileRecords(fileId: string, text: string, filename: Option<string>): seq<Document>
  {
    ChunkRecords(fileId, ServiceChunks(text), SourceName(fileId, filename))
  }

  /** The records `add_documents_batch(docs)` submits: every document's records, in document order. */
  function BatchRecords(docs: seq<SourceDocument>): seq<Document>
    decreases |docs|
  {
    if |docs| == 0 then []
    else
      var d := docs[|docs| - 1];
      BatchRecords(docs[..|docs| - 1]) + ChunkRecords(d.fileId, ServiceChunks(d.text), BatchSource(d))
  }

  /** `content_preview`: the first 100 characters and an ellipsis when the text is longer. */
  function Preview(text: string): string
  {
    if |text| > PreviewLength then text[..PreviewLength] + "..." else text
  }

  /** The compatible form of one result of the index. */
  function Compatible(h: SearchHit): RagHit
  {
    RagHit(h.id, h.id, 1.0 - h.similarity, h.similarity, h.score, h.rank, h.text, h.source, Preview(h.text))
  }

  /** The results of `search`: those with `similarity >= min_score`, converted, in order. */
  function KeepAbove(hits: seq<SearchHit>, minScore: real): (r: seq<RagHit>)
    decreases |hits|
  {
    if |hits| == 0 then []
    else
      var h := hits[|hits| - 1];
      KeepAbove(hits[..|hits| - 1], minScore) + (if minScore <= h.similarity then [Compatible(h)] else [])
  }

  class FastRAGRetrieval {
    const cacheDir: string
    const engine: FastVectorSearch

    /** `__init__`: a vector index loaded from (or started empty in) the cache directory. */
    constructor (modelName: string, cacheDir: string, dimension: nat, load: LoadOutcome)
      ensures this.cacheDir == cacheDir && fresh(engine)
      ensures engine.modelName == modelName && engine.dimension == dimension
      ensures load.Loaded? ==> engine.State() == load.state
      ensures !load.Loaded? ==> engine.State() == IndexState(Flat, [], map[])
    {
      this.cacheDir := cacheDir;
      engine := new FastVectorSearch(modelName, dimension, load);
    }

    /** `add_document`: submits one record per chunk and returns how many positions the index added. */
    method AddDocument(fileId: string, text: string, filename: Option<string>,
                       encode: string -> Vec, outcomes: IndexOutcomes, now: string) returns (count: nat)
      modifies engine
      ensures engine.State() == AfterAdd(old(engine.State()), FileRecords(fileId, text, filename), encode, outcomes, now)
      ensures count == |FileRecords(fileId, text, filename)|
    {
      var chunks := Chunker.ChunkText(text, Chunker.ServiceChunkSize, Chunker.ServiceOverlapSize);
      if |chunks| == 0 {
        return 0;
      }
      var source := SourceName(fileId, filename);
      var documents := [];
      var i := 0;
      while i < |chunks|
        invariant 0 <= i <= |chunks|
        invariant documents == ChunkRecords(fileId, chunks, source)[..i]
      {
        documents := documents + [Document(Some(ChunkId(fileId, i)), chunks[i], Some(source))];
        i := i + 1;
      }
      assert documents == FileRecords(fileId, text, filename);
      var ids := engine.AddDocuments(documents, encode, outcomes, now);
      count := |ids|;
    }

    /** `add_documents_batch`: submits the records of every document at once. */
    method AddDocumentsBatch(docs: seq<SourceDocument>, encode: string -> Vec, outcomes: IndexOutcomes, now: string)
      returns (count: nat)
      modifies engine
      ensures engine.State() == AfterAdd(old(engine.State()), BatchRecords(docs), encode, outcomes, now)
      ensures count == |BatchRecords(docs)|
    {
      if |docs| == 0 {
        return 0;
      }
      var allChunks := [];
      var j := 0;
      while j < |docs|
        invariant 0 <= j <= |docs|
        invariant allChunks == BatchRecords(docs[..j])
        invariant unchanged(engine)
      {
        var d := docs[j];
        var chunks := Chunker.ChunkText(d.text, Chunker.ServiceChunkSize, Chunker.ServiceOverlapSize);
        var filename := BatchSource(d);
        var i := 0;
        while i < |chunks|
          invariant 0 <= i <= |chunks|
          invariant allChunks == BatchRecords(docs[..j]) + ChunkRecords(d.fileId, chunks, filename)[..i]
        {
          allChunks := allChunks + [Document(Some(ChunkId(d.fileId, i)), chunks[i], Some(filename))];
          i := i + 1;
        }
        assert docs[..j + 1][..j] == docs[..j];
        j := j + 1;
      }
      assert docs[..j] == docs;
      assert allChunks == BatchRecords(docs);
      if |allChunks| != 0 {
        var ids := engine.AddDocuments(allChunks, encode, outcomes, now);
        return |ids|;
      }
      return 0;
    }

    /** `search`: the index's results for the `k` nearest vectors, filtered and converted. */
    method Search(k: int, minScore: real, faiss: int -> seq<FaissHit>) returns (results: seq<RagHit>)
      ensures results == KeepAbove(SearchResults(engine.State(), faiss(k)), minScore)
    {
      var found := engine.Search(faiss(k));
      results := [];
      var i := 0;
      while i < |found|
        invariant 0 <= i <= |found|
        invariant results == KeepAbove(found[..i], minScore)
      {
        var result := found[i];
        if result.similarity >= minScore {
          var preview := if |result.text| > 100 then result.text[..100] + "..." else result.text;
          results := results + [RagHit(result.id, result.id, 1.0 - result.similarity, result.similarity,
                                       result.score, result.rank, result.text, result.source, preview)];
        }
        assert found[..i + 1][..i] == found[..i];
        i := i + 1;
      }
      assert found[..i] == found;
    }

    /** `get_stats`. */
    function GetStats(): (stats: RagStats)
      reads this, engine
      ensures stats.totalDocuments == |engine.vectors| && stats.embeddingDimension == engine.dimension
      ensures stats.modelName == engine.modelName && stats.cacheDir == cacheDir
      ensures stats.indexTrained <==> Trained(engine.kind)
    {
      var base := engine.GetStats();
      RagStats(base.totalDocuments, base.embeddingDimension, base.modelName, base.indexTrained, cacheDir)
    }

    /** `clear_index`. */
    method ClearIndex()
      modifies engine
      ensures engine.State() == IndexState(old(engine.kind), [], map[])
    {
      engine.ClearIndex();
    }

    /** `rebuild_index`: clears the index, then adds the documents as one batch. */
    method RebuildIndex(docs: seq<SourceDocument>, encode: string -> Vec, outcomes: IndexOutcomes, now: string)
      returns (count: nat)
      modifies engine
      ensures engine.State() == AfterAdd(IndexState(old(engine.kind), [], map[]), BatchRecords(docs), encode, outcomes, now)
      ensures count == |BatchRecords(docs)|
    {
      ClearIndex();
      count := AddDocumentsBatch(docs, encode, outcomes, now);
    }
  }

  /** `retrieve_relevant_chunks_fast`: `search` with `k = num_neighbors` and `min_score = min_similarity`. */
  method RetrieveRelevantChunksFast(retrieval: FastRAGRetrieval, numNeighbors: int, minSimilarity: real,
                                    faiss: int -> seq<FaissHit>) returns (results: seq<RagHit>)
    ensures results == KeepAbove(SearchResults(retrieval.engine.State(), faiss(numNeighbors)), minSimilarity)
  {
    results := retrieval.Search(numNeighbors, minSimilarity, faiss);
  }

  // -------------------------------------------------------------------
  // Properties
  // -------------------------------------------------------------------

  /** A file whose text is empty gives no record, so `add_document` adds nothing and returns 0. */
  lemma FileRecordsEmpty(fileId: string, text: string, filename: Option<string>)
    ensures FileRecords(fileId, text, filename) == [] <==> |text| == 0
  {
    Chunker.ChunksEmpty(text, Chunker.ServiceChunkSize, Chunker.ServiceOverlapSize);
  }

  /**
   * Record `i` of a file is chunk `i`, the window of 500 characters starting
   * at `400 * i`, under the id `{file_id}_chunk_{i}` and the source
   * `filename or file_id`.
   */
  lemma FileRecordWindow(fileId: string, text: string, filename: Option<string>, i: nat)
    requires i < |FileRecords(fileId, text, filename)|
    ensures var r := FileRecords(fileId, text, filename)[i];
      && r.id == Some(ChunkId(fileId, i))
      && r.source == Some(SourceName(fileId, filename))
      && 400 * i < |text|
      && r.text == text[400 * i..Chunker.Min(400 * i + 500, |text|)]
  {
    Chunker.ChunkWindow(text, Chunker.ServiceChunkSize, Chunker.ServiceOverlapSize, i);
  }

  /** The chunk ids of one file are distinct. */
  lemma ChunkIdsDistinct(fileId: string, i: nat, j: nat)
    requires i != j
    ensures ChunkId(fileId, i) != ChunkId(fileId, j)
  {
    var p := fileId + "_chunk_";
    if ChunkId(fileId, i) == ChunkId(fileId, j) {
      assert NatToString(i) == ChunkId(fileId, i)[|p|..];
      assert NatToString(j) == ChunkId(fileId, j)[|p|..];
      NatToStringInjective(i, j);
    }
  }

  /** The batch's records are the concatenation of its parts' records. */
  lemma {:induction false} BatchRecordsAppend(a: seq<SourceDocument>, b: seq<SourceDocument>)
    ensures BatchRecords(a + b) == BatchRecords(a) + BatchRecords(b)
    decreases |b|
  {
    if |b| == 0 {
      assert a + b == a;
    } else {
      var init, d := b[..|b| - 1], b[|b| - 1];
      var last := ChunkRecords(d.fileId, ServiceChunks(d.text), BatchSource(d));
      BatchRecordsAppend(a, init);
      assert (a + b)[..|a + b| - 1] == a + init;
      assert (a + b)[|a + b| - 1] == d;
      assert BatchRecords(a + b) == BatchRecords(a + init) + last;
      assert BatchRecords(b) == BatchRecords(init) + last;
    }
  }

  /**
   * A one-document batch submits what `add_document` does, except that an
   * empty `filename` stays the source in the batch where `add_document`
   * falls back to the file id.
   */
  lemma BatchOfOne(d: SourceDocument)
    ensures d.filename != Some("") ==> BatchRecords([d]) == FileRecords(d.fileId, d.text, d.filename)
    ensures d.filename == Some("") && d.text != "" && d.fileId != "" ==>
      BatchRecords([d]) != FileRecords(d.fileId, d.text, d.filename)
  {
    assert [d][..0] == [];
    if d.filename == Some("") && d.text != "" && d.fileId != "" {
      FileRecordsEmpty(d.fileId, d.text, d.filename);
      assert BatchRecords([d])[0].source == Some("");
      assert FileRecords(d.fileId, d.text, d.filename)[0].source == Some(d.fileId);
    }
  }

  /** Rebuilding leaves exactly the batch's vectors, in order, at positions `0..n-1`. */
  lemma RebuildContents(kind: IndexKind, docs: seq<SourceDocument>, encode: string -> Vec,
                        outcomes: IndexOutcomes, now: string)
    ensures var recs := BatchRecords(docs);
      var r := AfterAdd(IndexState(kind, [], map[]), recs, encode, outcomes, now);
      && r.vectors == Embed(recs, encode)
      && r.metadata.Keys == PosKeys(0, |recs|)
      && (forall p :: 0 <= p < |recs| ==> r.metadata[PosKey(p)] == MetaFor(recs[p], p, now))
  {
    var recs := BatchRecords(docs);
    if |recs| != 0 {
      PreparedEmpty(kind, |recs|, outcomes);
      PutMetadataEntries(map[], recs, 0, now);
    }
  }

  /** Preparing an empty index leaves it empty. */
  lemma PreparedEmpty(kind: IndexKind, n: nat, outcomes: IndexOutcomes)
    ensures Prepared(IndexState(kind, [], map[]), n, outcomes).vectors == []
    ensures Prepared(IndexState(kind, [], map[]), n, outcomes).metadata == map[]
  {
  }

  /** `search` keeps results in order: filtering a concatenation filters each part. */
  lemma {:induction false} KeepAboveAppend(a: seq<SearchHit>, b: seq<SearchHit>, minScore: real)
    ensures KeepAbove(a + b, minScore) == KeepAbove(a, minScore) + KeepAbove(b, minScore)
    decreases |b|
  {
    if |b| == 0 {
      assert a + b == a;
    } else {
      var init := b[..|b| - 1];
      KeepAboveAppend(a, init, minScore);
      assert (a + b)[..|a + b| - 1] == a + init;
    }
  }

  /**
   * `search` keeps exactly the results whose similarity reaches `min_score`:
   * each kept result is the conversion of such a result, with equal id and
   * datapoint id and distance `1 - similarity`, and every such result is kept.
   */
  lemma {:induction false} KeepAboveExactly(hits: seq<SearchHit>, minScore: real)
    ensures var r := KeepAbove(hits, minScore);
      && |r| <= |hits|
      && (forall x :: x in r ==> minScore <= x.similarity && x.id == x.datapointId && x.distance == 1.0 - x.similarity)
      && (forall x :: x in r ==> exists i :: 0 <= i < |hits| && x == Compatible(hits[i]))
      && (forall i :: 0 <= i < |hits| && minScore <= hits[i].similarity ==> Compatible(hits[i]) in r)
    decreases |hits|
  {
    if |hits| != 0 {
      var init := hits[..|hits| - 1];
      KeepAboveExactly(init, minScore);
      var r := KeepAbove(hits, minScore);
      forall x | x in r ensures exists i :: 0 <= i < |hits| && x == Compatible(hits[i]) {
        if x in KeepAbove(init, minScore) {
          var i :| 0 <= i < |init| && x == Compatible(init[i]);
          assert hits[i] == init[i];
        } else {
          assert x == Compatible(hits[|hits| - 1]);
        }
      }
      forall i | 0 <= i < |hits| && minScore <= hits[i].similarity ensures Compatible(hits[i]) in r {
        if i < |init| {
          assert hits[i] == init[i];
        }
      }
    }
  }

  /** The preview is the text when it is short, otherwise its first 100 characters followed by `...`. */
  lemma PreviewShape(text: string)
    ensures |Preview(text)| <= PreviewLength + 3
    ensures |text| <= PreviewLength ==> Preview(text) == text
    ensures StartsWith(Preview(text), Take(text, PreviewLength))
  {
  }
}
