/**
 * The Vertex AI Vector Search manager (`VertexAIVectorSearchManager`):
 * it remembers the index and the endpoint its setup obtained, turns
 * documents and their metadata into datapoints with restricts for
 * upserting, searches through the endpoint, and exports documents as
 * batch-import files through the data writer.
 *
 * The remote calls are parameters: `embed` is the text-embedding model
 * (one vector per text; when the whole call fails, one empty vector per text),
 * `upsert` the datapoint upload, `vertexSearch` the endpoint query
 * (`None` when it raises), and index creation and deployment are given as
 * their outcomes.  An exception caught by a method's handler ends it with
 * its failure value, which the model writes out case by case.
 */
module VertexIntegration {
  import opened Wrappers
  import opened Text
  import opened OrderedDict
  import opened VectorFormat
  import RagRetrieval

  type Vec = seq<real>

  /** A metadata value, by the Python type the restricts mapping tests for. */
  datatype MetaValue = MStr(s: string) | MInt(i: int) | MBool(b: bool) | MFloat(r: real) | MOther

  /**
   * A document dictionary: `id` and `text` may be missing; `metadata` is
   * absent or a dictionary.  A `metadata` key holding `None` is not
   * modelled: adding skips it like an absent one, while the export's
   * `datapoint.update(None)` would raise and make the export fail; no
   * caller passes one.
   */
  datatype Doc = Doc(id: Option<string>, text: Option<string>, metadata: Option<Dict<string, MetaValue>>)

  /** The outcome of a remote call that returns a resource or nothing, or raises. */
  datatype Remote = Gave(resource: Option<string>) | Threw

  /** The embedding as written into a datapoint. */
  function Floats(v: Vec): (ns: seq<Num>)
    ensures |ns| == |v| && forall i :: 0 <= i < |v| ==> ns[i] == Float(v[i])
  {
    seq(|v|, i requires 0 <= i < |v| => Float(v[i]))
  }

  // -------------------------------------------------------------------
  // Metadata as restricts
  // -------------------------------------------------------------------

  /** The allow-restrict a string value becomes. */
  function StrRestrict(key: string, s: string): Restrict
  {
    Restrict(Some(key), Some([s]), None)
  }

  /** The numeric restrict an integer (a `bool` is one) or a float becomes. */
  function NumRestrict(key: string, v: MetaValue): Option<NumericRestrict>
  {
    match v
    case MInt(i) => Some(NumericRestrict(Some(key), Some(Int(i)), None, None))
    case MBool(b) => Some(NumericRestrict(Some(key), Some(Int(if b then 1 else 0)), None, None))
    case MFloat(r) => Some(NumericRestrict(Some(key), None, Some(Float(r)), None))
    case _ => None
  }

  /** The allow-restricts of a metadata dictionary, in its order. */
  function StrRestricts(meta: Dict<string, MetaValue>): seq<Restrict>
    decreases |meta|
  {
    if |meta| == 0 then []
    else
      var (k, v) := meta[|meta| - 1];
      StrRestricts(meta[..|meta| - 1]) + (if v.MStr? then [StrRestrict(k, v.s)] else [])
  }

  /** The numeric restricts of a metadata dictionary, in its order. */
  function NumRestricts(meta: Dict<string, MetaValue>): seq<NumericRestrict>
    decreases |meta|
  {
    if |meta| == 0 then []
    else
      var (k, v) := meta[|meta| - 1];
      NumRestricts(meta[..|meta| - 1]) + (match NumRestrict(k, v) case None => [] case Some(r) => [r])
  }

  /** The loop of `add_documents_to_index` over one document's metadata. */
  method BuildRestricts(meta: Dict<string, MetaValue>) returns (restricts: seq<Restrict>, numeric: seq<NumericRestrict>)
    ensures restricts == StrRestricts(meta)
    ensures numeric == NumRestricts(meta)
  {
    restricts, numeric := [], [];
    var i := 0;
    while i < |meta|
      invariant 0 <= i <= |meta|
      invariant restricts == StrRestricts(meta[..i])
      invariant numeric == NumRestricts(meta[..i])
    {
      var (key, value) := meta[i];
      assert meta[..i + 1][..i] == meta[..i];
      if value.MStr? {
        restricts := restricts + [StrRestrict(key, value.s)];
      } else if value.MInt? || value.MBool? || value.MFloat? {
        numeric := numeric + [NumRestrict(key, value).value];
      }
      i := i + 1;
    }
    assert meta[..i] == meta;
  }

  /** The datapoint of one document; empty restrict lists stand for absent keys. */
  function DatapointFor(id: string, embedding: Vec, meta: Option<Dict<string, MetaValue>>): DataPoint
  {
    var m := meta.GetOr([]);
    DataPoint(Some(id), Floats(embedding), None, StrRestricts(m), NumRestricts(m), None)
  }

  predicate AllIds(docs: seq<Doc>)
  {
    forall i :: 0 <= i < |docs| ==> docs[i].id.Some?
  }

  predicate AllTexts(docs: seq<Doc>)
  {
    forall i :: 0 <= i < |docs| ==> docs[i].text.Some?
  }

  function Texts(docs: seq<Doc>): (ts: seq<string>)
    requires AllTexts(docs)
    ensures |ts| == |docs|
  {
    seq(|docs|, i requires 0 <= i < |docs| => docs[i].text.value)
  }

  /** `not embeddings or len(embeddings) != len(documents)`. */
  predicate EmbeddingsUsable(docs: seq<Doc>, embeddings: seq<Vec>)
  {
    |embeddings| > 0 && |embeddings| == |docs|
  }

  /** The datapoints to upsert, or `None` when a document has no id. */
  function Datapoints(docs: seq<Doc>, embeddings: seq<Vec>): Option<seq<DataPoint>>
    requires |embeddings| == |docs|
  {
    if !AllIds(docs) then None
    else Some(seq(|docs|, i requires 0 <= i < |docs| => DatapointFor(docs[i].id.value, embeddings[i], docs[i].metadata)))
  }

  /** The datapoint loop of `add_documents_to_index`. */
  method BuildDatapoints(docs: seq<Doc>, embeddings: seq<Vec>) returns (points: Option<seq<DataPoint>>)
    requires |embeddings| == |docs|
    ensures points.Some? <==> AllIds(docs)
    ensures points.Some? ==>
      && |points.value| == |docs|
      && forall i :: 0 <= i < |docs| ==> points.value[i] == DatapointFor(docs[i].id.value, embeddings[i], docs[i].metadata)
  {
    var built: seq<DataPoint> := [];
    var i := 0;
    while i < |docs|
      invariant 0 <= i <= |docs|
      invariant forall j :: 0 <= j < i ==> docs[j].id.Some?
      invariant |built| == i
      invariant forall j :: 0 <= j < i ==> built[j] == DatapointFor(docs[j].id.value, embeddings[j], docs[j].metadata)
    {
      if docs[i].id.None? {
        return None;
      }
      var restricts, numeric := BuildRestricts(docs[i].metadata.GetOr([]));
      built := built + [DataPoint(Some(docs[i].id.value), Floats(embeddings[i]), None, restricts, numeric, None)];
      i := i + 1;
    }
    return Some(built);
  }

  /** What `add_documents_to_index` returns, given whether an index is set. */
  function AddOutcome(hasIndex: bool, docs: seq<Doc>, embed: seq<string> -> seq<Vec>,
                      upsert: seq<DataPoint> -> bool): bool
  {
    if !hasIndex || !AllTexts(docs) then false
    else
      var embeddings := embed(Texts(docs));
      if !EmbeddingsUsable(docs, embeddings) then false
      else
        match Datapoints(docs, embeddings)
        case None => false
        case Some(points) => upsert(points)
  }

  // -------------------------------------------------------------------
  // Search and export
  // -------------------------------------------------------------------

  /** `name.split('/')[-1]`. */
  function LastSegment(name: string): (seg: string)
    ensures '/' !in seg
  {
    var parts := Split(name, '/');
    parts[|parts| - 1]
  }

  /** What `search_similar_documents` returns, given the endpoint's resource name if one is set. */
  function SearchOutcome(endpoint: Option<string>, queryText: string, numResults: int,
                         embed: seq<string> -> seq<Vec>,
                         vertexSearch: (string, Vec, int) -> Option<seq<RagRetrieval.Neighbor>>): seq<RagRetrieval.Neighbor>
  {
    if endpoint.None? then []
    else
      var queryEmbeddings := embed([queryText]);
      if |queryEmbeddings| == 0 || |queryEmbeddings[0]| == 0 then []
      else vertexSearch(LastSegment(endpoint.value), queryEmbeddings[0], numResults).GetOr([])
  }

  /** Metadata keys that the merge in the export would lay over the record's own keys. */
  predicate NoReservedKeys(docs: seq<Doc>)
  {
    forall i :: 0 <= i < |docs| && docs[i].metadata.Some? ==>
      !HasKey(docs[i].metadata.value, "id") && !HasKey(docs[i].metadata.value, "embedding")
      && !HasKey(docs[i].metadata.value, "metadata")
  }

  /**
   * The record the export hands to `create_sample_data` as written: the
   * metadata keys are merged into the record itself, where the sample
   * builder, which looks for a nested `metadata`, never reads them.
   */
  function ExportItemAsWritten(doc: Doc, embedding: Vec): SampleItem
    requires doc.id.Some?
  {
    SampleItem(Some(doc.id.value), Some(Floats(embedding)), None)
  }

  /** The record with the metadata nested under `metadata`, as the sample builder reads it. */
  function ExportItem(doc: Doc, embedding: Vec): SampleItem
    requires doc.id.Some?
  {
    var meta := doc.metadata.GetOr([]);
    var fileTypeValue: Option<MetaValue> := Get(meta, "file_type");
    var fileSizeValue: Option<MetaValue> := Get(meta, "file_size");
    var fileType := match fileTypeValue case Some(MStr(s)) => Some(s) case _ => None;
    var fileSize := match fileSizeValue
                    case Some(MInt(i)) => Some(Int(i))
                    case Some(MFloat(r)) => Some(Float(r))
                    case _ => None;
    SampleItem(Some(doc.id.value), Some(Floats(embedding)), if doc.metadata.Some? then Some(SampleMetadata(fileType, fileSize)) else None)
  }

  /** `export_data_for_batch_import` as written. */
  function ExportAsWritten(docs: seq<Doc>, formatType: string, embed: seq<string> -> seq<Vec>,
                           str: Num -> string, writeOk: bool): Saved
    requires NoReservedKeys(docs)
  {
    if !AllTexts(docs) then Saved(false, None)
    else
      var embeddings := embed(Texts(docs));
      if !EmbeddingsUsable(docs, embeddings) || !AllIds(docs) then Saved(false, None)
      else
        var items := seq(|docs|, i requires 0 <= i < |docs| => ExportItemAsWritten(docs[i], embeddings[i]));
        SaveToFile(CreateSampleData(items), formatType, str, writeOk)
  }

  /** The export with the metadata passed on nested, so that it reaches the restricts. */
  function Export(docs: seq<Doc>, formatType: string, embed: seq<string> -> seq<Vec>,
                  str: Num -> string, writeOk: bool): Saved
  {
    if !AllTexts(docs) then Saved(false, None)
    else
      var embeddings := embed(Texts(docs));
      if !EmbeddingsUsable(docs, embeddings) || !AllIds(docs) then Saved(false, None)
      else
        var items := seq(|docs|, i requires 0 <= i < |docs| => ExportItem(docs[i], embeddings[i]));
        SaveToFile(CreateSampleData(items), formatType, str, writeOk)
  }

  // -------------------------------------------------------------------
  // The manager
  // -------------------------------------------------------------------

  class VertexAIVectorSearchManager {
    const projectId: string
    const location: string
    /** The resource names of the index and the endpoint, once set up. */
    var index: Option<string>
    var endpoint: Option<string>

    constructor(projectId: string, location: string)
      ensures this.projectId == projectId && this.location == location
      ensures index.None? && endpoint.None?
    {
      this.projectId := projectId;
      this.location := location;
      index := None;
      endpoint := None;
    }

    /**
     * `setup_vector_search`: the index is replaced by what its creation
     * returned, and only then the endpoint by what its deployment returned;
     * a call that raises leaves its field as it was.
     */
    method SetupVectorSearch(created: Remote, deployed: Remote) returns (ok: bool)
      modifies this
      ensures index == (if created.Gave? then created.resource else old(index))
      ensures endpoint == (if created.Gave? && created.resource.Some? && deployed.Gave? then deployed.resource
                           else old(endpoint))
      ensures ok <==> created.Gave? && created.resource.Some? && deployed.Gave? && deployed.resource.Some?
    {
      if created.Threw? {
        return false;
      }
      index := created.resource;
      if index.None? {
        return false;
      }
      if deployed.Threw? {
        return false;
      }
      endpoint := deployed.resource;
      ok := endpoint.Some?;
    }

    /** `add_documents_to_index`. */
    method AddDocumentsToIndex(docs: seq<Doc>, embed: seq<string> -> seq<Vec>, upsert: seq<DataPoint> -> bool)
      returns (ok: bool)
      ensures ok == AddOutcome(index.Some?, docs, embed, upsert)
    {
      if index.None? {
        return false;
      }
      if exists i :: 0 <= i < |docs| && docs[i].text.None? {
        return false;
      }
      var embeddings := embed(Texts(docs));
      if |embeddings| == 0 || |embeddings| != |docs| {
        return false;
      }
      var points := BuildDatapoints(docs, embeddings);
      if points.None? {
        return false;
      }
      assert AllIds(docs);
      assert Datapoints(docs, embeddings).value == points.value;
      ok := upsert(points.value);
    }

    /** `search_similar_documents`. */
    method SearchSimilarDocuments(queryText: string, numResults: int, embed: seq<string> -> seq<Vec>,
                                  vertexSearch: (string, Vec, int) -> Option<seq<RagRetrieval.Neighbor>>)
      returns (results: seq<RagRetrieval.Neighbor>)
      ensures results == SearchOutcome(endpoint, queryText, numResults, embed, vertexSearch)
    {
      if endpoint.None? {
        return [];
      }
      var endpointId := LastSegment(endpoint.value);
      var queryEmbeddings := embed([queryText]);
      if |queryEmbeddings| == 0 || |queryEmbeddings[0]| == 0 {
        return [];
      }
      results := vertexSearch(endpointId, queryEmbeddings[0], numResults).GetOr([]);
    }

    /** `export_data_for_batch_import` as written. */
    method ExportDataForBatchImport(docs: seq<Doc>, formatType: string, embed: seq<string> -> seq<Vec>,
                                    str: Num -> string, writeOk: bool)
      returns (saved: Saved)
      requires NoReservedKeys(docs)
      ensures saved == ExportAsWritten(docs, formatType, embed, str, writeOk)
    {
      if exists i :: 0 <= i < |docs| && docs[i].text.None? {
        return Saved(false, None);
      }
      var embeddings := embed(Texts(docs));
      if |embeddings| == 0 || |embeddings| != |docs| || exists i :: 0 <= i < |docs| && docs[i].id.None? {
        return Saved(false, None);
      }
      var items := seq(|docs|, i requires 0 <= i < |docs| => ExportItemAsWritten(docs[i], embeddings[i]));
      saved := SaveToFile(CreateSampleData(items), formatType, str, writeOk);
    }
  }

  // -------------------------------------------------------------------
  // Properties
  // -------------------------------------------------------------------

  /**
   * Each string-valued metadata entry gives exactly one allow-restrict
   * `{namespace: key, allow: [value]}`, and nothing else does.
   */
  lemma {:induction false} StrRestrictsExactly(meta: Dict<string, MetaValue>, r: Restrict)
    ensures r in StrRestricts(meta) <==>
      exists j :: 0 <= j < |meta| && meta[j].1.MStr? && r == StrRestrict(meta[j].0, meta[j].1.s)
    decreases |meta|
  {
    if |meta| > 0 {
      var init := meta[..|meta| - 1];
      StrRestrictsExactly(init, r);
      assert forall j :: 0 <= j < |init| ==> init[j] == meta[j];
    }
  }

  /**
   * Each integer (or boolean) entry gives a `value_int` restrict and each
   * float entry a `value_float` one, under the entry's key; other types
   * give nothing.
   */
  lemma {:induction false} NumRestrictsExactly(meta: Dict<string, MetaValue>, r: NumericRestrict)
    ensures r in NumRestricts(meta) <==>
      exists j :: 0 <= j < |meta| && NumRestrict(meta[j].0, meta[j].1) == Some(r)
    decreases |meta|
  {
    if |meta| > 0 {
      var init := meta[..|meta| - 1];
      NumRestrictsExactly(init, r);
      assert forall j :: 0 <= j < |init| ==> init[j] == meta[j];
    }
  }

  /** Every metadata entry lands in at most one list; the others are dropped. */
  lemma {:induction false} RestrictCounts(meta: Dict<string, MetaValue>)
    ensures |StrRestricts(meta)| + |NumRestricts(meta)| <= |meta|
    ensures (forall j :: 0 <= j < |meta| ==> !meta[j].1.MOther?) ==>
      |StrRestricts(meta)| + |NumRestricts(meta)| == |meta|
    decreases |meta|
  {
    if |meta| > 0 {
      var init := meta[..|meta| - 1];
      RestrictCounts(init);
      assert forall j :: 0 <= j < |init| ==> init[j] == meta[j];
    }
  }

  /**
   * `add_documents_to_index` fails without an index, with a document
   * lacking text or id, with no documents, and when the embeddings do not
   * pair up with the documents; otherwise it uploads, in document order,
   * datapoint i with the document's id and embedding i.
   */
  lemma AddGuards(hasIndex: bool, docs: seq<Doc>, embed: seq<string> -> seq<Vec>, upsert: seq<DataPoint> -> bool)
    ensures !hasIndex ==> !AddOutcome(hasIndex, docs, embed, upsert)
    ensures |docs| == 0 ==> !AddOutcome(hasIndex, docs, embed, upsert)
    ensures !AllIds(docs) || !AllTexts(docs) ==> !AddOutcome(hasIndex, docs, embed, upsert)
    ensures AllTexts(docs) && |embed(Texts(docs))| != |docs| ==> !AddOutcome(hasIndex, docs, embed, upsert)
    ensures hasIndex && AllTexts(docs) && AllIds(docs) && EmbeddingsUsable(docs, embed(Texts(docs))) ==>
      var points := Datapoints(docs, embed(Texts(docs)));
      && points.Some? && |points.value| == |docs|
      && (forall i :: 0 <= i < |docs| ==>
            points.value[i].id == docs[i].id && points.value[i].embedding == Floats(embed(Texts(docs))[i]))
      && AddOutcome(hasIndex, docs, embed, upsert) == upsert(points.value)
  {
  }

  /** A resource name's last `/` segment is the id it was built from. */
  lemma LastSegmentOf(prefix: string, id: string)
    requires '/' !in id
    ensures LastSegment(prefix + "/" + id) == id
  {
    assert prefix + "/" + id == prefix + ['/'] + id;
    SplitAround(prefix, '/', id);
    SplitWithout(id, '/');
  }

  /**
   * Search gives nothing without an endpoint or a usable query embedding,
   * and otherwise queries the endpoint id, the name's last segment.
   */
  lemma SearchGuards(endpoint: Option<string>, queryText: string, numResults: int,
                     embed: seq<string> -> seq<Vec>,
                     vertexSearch: (string, Vec, int) -> Option<seq<RagRetrieval.Neighbor>>,
                     prefix: string, id: string)
    requires '/' !in id
    ensures endpoint.None? ==> SearchOutcome(endpoint, queryText, numResults, embed, vertexSearch) == []
    ensures |embed([queryText])| == 0 ==> SearchOutcome(endpoint, queryText, numResults, embed, vertexSearch) == []
    ensures var qe := embed([queryText]);
      |qe| > 0 && |qe[0]| > 0 && vertexSearch(id, qe[0], numResults).Some? ==>
        SearchOutcome(Some(prefix + "/" + id), queryText, numResults, embed, vertexSearch)
        == vertexSearch(id, qe[0], numResults).value
  {
    LastSegmentOf(prefix, id);
  }

  /**
   * As written, the export never writes restricts: every record reaches
   * the sample builder without a nested `metadata`, whatever the
   * documents' metadata holds.
   */
  lemma ExportDropsMetadata(docs: seq<Doc>, embeddings: seq<Vec>)
    requires |embeddings| == |docs| && AllIds(docs)
    ensures var points := CreateSampleData(seq(|docs|, i requires 0 <= i < |docs| => ExportItemAsWritten(docs[i], embeddings[i])));
      forall i :: 0 <= i < |docs| ==> points[i].restricts == [] && points[i].numericRestricts == []
  {
  }

  /** One PDF document with text `t`, for the counterexample. */
  const PdfDocs: seq<Doc> := [Doc(Some("1"), Some("t"), Some([("file_type", MStr("pdf"))]))]

  /** The input that shows it: as written, the PDF's file type does not reach the written point. */
  lemma ExportDropsFileType(embed: seq<string> -> seq<Vec>, str: Num -> string)
    requires embed(["t"]) == [[0.5]]
    ensures ExportAsWritten(PdfDocs, "jsonl", embed, str, true)
            == SaveToFile([DataPoint(Some("1"), [Float(0.5)], None, [], [], None)], "jsonl", str, true)
  {
    assert Texts(PdfDocs) == ["t"];
    assert Floats([0.5]) == [Float(0.5)];
    var e := embed(Texts(PdfDocs));
    assert e == [[0.5]] && EmbeddingsUsable(PdfDocs, e) && AllIds(PdfDocs);
    var items := seq(|PdfDocs|, i requires 0 <= i < |PdfDocs| => ExportItemAsWritten(PdfDocs[i], e[i]));
    assert items == [SampleItem(Some("1"), Some([Float(0.5)]), None)];
    assert CreateSampleData(items) == [DataPoint(Some("1"), [Float(0.5)], None, [], [], None)];
  }

  /** With the metadata nested, the same document is written with its `file_type` restrict. */
  lemma ExportWritesFileType(embed: seq<string> -> seq<Vec>, str: Num -> string)
    requires embed(["t"]) == [[0.5]]
    ensures Export(PdfDocs, "jsonl", embed, str, true)
            == SaveToFile([DataPoint(Some("1"), [Float(0.5)], None, [Restrict(Some("file_type"), Some(["pdf"]), None)], [],
                                     None)], "jsonl", str, true)
  {
    assert Texts(PdfDocs) == ["t"];
    assert Get(PdfDocs[0].metadata.value, "file_type") == Some(MStr("pdf"));
    assert Get(PdfDocs[0].metadata.value, "file_size") == None;
    assert Floats([0.5]) == [Float(0.5)];
    var e := embed(Texts(PdfDocs));
    assert e == [[0.5]] && EmbeddingsUsable(PdfDocs, e) && AllIds(PdfDocs);
    var items := seq(|PdfDocs|, i requires 0 <= i < |PdfDocs| => ExportItem(PdfDocs[i], e[i]));
    assert items == [SampleItem(Some("1"), Some([Float(0.5)]), Some(SampleMetadata(Some("pdf"), None)))];
    assert CreateSampleData(items)
           == [DataPoint(Some("1"), [Float(0.5)], None, [Restrict(Some("file_type"), Some(["pdf"]), None)], [], None)];
  }

  /**
   * With the metadata nested, a document's string `file_type` becomes the
   * `file_type` allow-restrict and its integer `file_size` the `file_size`
   * integer restrict of its exported point.
   */
  lemma ExportKeepsMetadata(docs: seq<Doc>, embeddings: seq<Vec>, i: nat)
    requires |embeddings| == |docs| && AllIds(docs) && i < |docs| && docs[i].metadata.Some?
    ensures var points := CreateSampleData(seq(|docs|, j requires 0 <= j < |docs| => ExportItem(docs[j], embeddings[j])));
      && (forall s :: Get(docs[i].metadata.value, "file_type") == Some(MStr(s)) ==>
            points[i].restricts == [Restrict(Some("file_type"), Some([s]), None)])
      && (forall n :: Get(docs[i].metadata.value, "file_size") == Some(MInt(n)) ==>
            points[i].numericRestricts == [NumericRestrict(Some("file_size"), Some(Int(n)), None, None)])
  {
  }
}
