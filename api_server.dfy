/**
 * The HTTP API server's document pipeline: uploading a file (checked,
 * renamed safely, stored in Cloud Storage, recorded and queued), the
 * background worker that extracts, chunks and indexes one queued file
 * while it reports progress, and the endpoints that list files, report a
 * file's processing status, page through its chunks and delete it; plus
 * how the chat endpoint names the document a retrieved chunk came from.
 *
 * The server's module-level state (`UPLOADED_FILES`, `PROCESSING_STATUS`,
 * `PROCESSING_QUEUE`, `CHUNK_MAP`, `chunk_id_to_text_map`,
 * `CHUNK_EMBEDDINGS`, the storage bucket and the hybrid retriever) is the
 * state of one `Server` object.  Text extraction, the embedding model,
 * the clock and the outcome of each remote call are parameters.
 */
module ApiServer {
  import opened Wrappers
  import opened Text
  import opened OrderedDict
  import opened Sorting
  import Chunker
  import GcsStorage
  import VectorSearch
  import Hybrid

  type Vec = seq<real>

  /** Uploads larger than 10 MB are refused. */
  const MaxUploadSize: nat := 10 * 1024 * 1024
  const AllowedExtensions: set<string> := {".pdf", ".doc", ".docx", ".txt"}
  const DefaultContentType: string := "application/octet-stream"
  /** The file name the chat endpoint reports for a chunk of no known upload. */
  const UnknownDocument: string := "未知文档"
  /** The file name the chat endpoint reports for a chunk of the preloaded knowledge base. */
  const KnowledgeBaseDocument: string := "法律知识问答.docx"

  /** `ProcessingStatus`. */
  datatype State = Pending | Processing | Completed | Error
  {
    /** The enum member's value. */
    function Value(): string
    {
      match this
      case Pending => "pending"
      case Processing => "processing"
      case Completed => "completed"
      case Error => "error"
    }
  }

  /** One entry of `PROCESSING_STATUS`. */
  datatype TaskStatus = TaskStatus(state: State, progress: int, error: Option<string>, chunks: nat)

  /** The status an upload starts with. */
  const Initial: TaskStatus := TaskStatus(Pending, 0, None, 0)

  /** One entry of `UPLOADED_FILES`; `chunks` is 0 until a status query records it. */
  datatype FileRecord = FileRecord(id: string, name: string, size: nat, contentType: string,
                                   uploadedAt: int, chunks: nat, gsUri: string)

  /** One entry of the processing queue. */
  datatype Task = Task(fileId: string, content: seq<bv8>, ext: string, filename: string)

  /** An error response: 400, 404 and 500 with their messages, or a 500 for an exception raised. */
  datatype ApiError =
    | BadRequest(message: string)
    | NotFound(message: string)
    | ServerError(message: string)
    | Raised

  /** The fields of a successful upload's response that the model keeps. */
  datatype Uploaded = Uploaded(fileId: string, fileName: string, gsUri: string)

  /** The text extractors: PDF, Word (for `.doc` and `.docx`) and UTF-8 text. */
  datatype Kind = Pdf | Docx | PlainText

  // -------------------------------------------------------------------
  // Uploading
  // -------------------------------------------------------------------

  /** Position of the last `c` in `s`, or -1 (`str.rfind`). */
  function LastIndex(s: string, c: char): (r: int)
    ensures -1 <= r < |s|
    ensures 0 <= r ==> s[r] == c
    ensures forall j :: r < j < |s| ==> s[j] != c
    decreases |s|
  {
    if |s| == 0 then -1
    else if s[|s| - 1] == c then |s| - 1
    else LastIndex(s[..|s| - 1], c)
  }

  /**
   * `os.path.splitext(name)[1]`: from the last dot of the last path
   * component, unless that component is nothing but dots before it.
   */
  function Extension(name: string): (ext: string)
  {
    var sep := LastIndex(name, '/');
    var dot := LastIndex(name, '.');
    if sep < dot && exists k :: sep < k < dot && name[k] != '.' then name[dot..] else ""
  }

  /** The checks of `upload_file`, in order; the accepted file's lower-cased extension. */
  function CheckUpload(fileName: Option<string>, size: nat): (r: Result<string, ApiError>)
    ensures r.Success? <==>
      && fileName.Some? && fileName.value != ""
      && Lower(Extension(fileName.value)) in AllowedExtensions
      && size <= MaxUploadSize
    ensures r.Success? ==> r.value == Lower(Extension(fileName.value))
  {
    match fileName
    case None => Failure(BadRequest("No file provided"))
    case Some(name) =>
      if name == "" then Failure(BadRequest("No file selected"))
      else
        var ext := Lower(Extension(name));
        if ext !in AllowedExtensions then Failure(BadRequest("Unsupported file type"))
        else if size > MaxUploadSize then Failure(BadRequest("File size exceeds 10MB limit"))
        else Success(ext)
  }

  /** The stored name: `/` and `\` become `_`, then every `..` becomes `_`. */
  function Sanitize(name: string): string
  {
    ReplaceAll(ReplaceChar(ReplaceChar(name, '/', '_'), '\\', '_'), "..", "_")
  }

  /** `file.content_type or 'application/octet-stream'`. */
  function ContentTypeOf(contentType: Option<string>): string
  {
    if contentType.Some? && contentType.value != "" then contentType.value else DefaultContentType
  }

  // -------------------------------------------------------------------
  // Processing
  // -------------------------------------------------------------------

  /** The extractor the worker picks for an extension. */
  function KindOf(ext: string): Option<Kind>
  {
    if ext == ".pdf" then Some(Pdf)
    else if ext == ".doc" || ext == ".docx" then Some(Docx)
    else if ext == ".txt" then Some(PlainText)
    else None
  }

  /** The extracted text, or the text of the exception extraction raised. */
  function Extract(ext: string, content: seq<bv8>, extract: (Kind, seq<bv8>) -> Result<string, string>): Result<string, string>
  {
    match KindOf(ext)
    case None => Failure("Unsupported file type: " + ext)
    case Some(kind) => extract(kind, content)
  }

  /** The chunks the worker makes of an extracted text. */
  function ChunksOf(text: Result<string, string>): seq<string>
  {
    if text.Success? then Chunker.Chunks(text.value, Chunker.ServiceChunkSize, Chunker.ServiceOverlapSize) else []
  }

  /**
   * A file's status once the worker is done with it: completed with its
   * chunk count, or failed with the message, its progress left at 30.
   */
  function Finished(st: TaskStatus, text: Result<string, string>): TaskStatus
  {
    match text
    case Failure(msg) => TaskStatus(Error, 30, Some(msg), st.chunks)
    case Success(_) => TaskStatus(Completed, 100, st.error, |ChunksOf(text)|)
  }

  /** `CHUNK_EMBEDDINGS[file_{id}_chunk_{i}] = embedding` for every embedding, in order. */
  function PutEmbeddings(m: map<string, Vec>, fileId: string, es: seq<Vec>): map<string, Vec>
    decreases |es|
  {
    if |es| == 0 then m
    else PutEmbeddings(m, fileId, es[..|es| - 1])[Hybrid.ChunkMapId(fileId, |es| - 1) := es[|es| - 1]]
  }

  /** The embeddings kept for a file's chunks: none without chunks or when the model raises. */
  function StoredEmbeddings(m: map<string, Vec>, fileId: string, chunks: seq<string>,
                            embed: seq<string> -> Option<seq<Vec>>): map<string, Vec>
  {
    if |chunks| == 0 then m
    else match embed(chunks)
      case None => m
      case Some(es) => PutEmbeddings(m, fileId, es)
  }

  // -------------------------------------------------------------------
  // Status and listing
  // -------------------------------------------------------------------

  /** `calculate_estimated_time`: seconds left at a given progress. */
  function EstimatedTime(progress: int): nat
  {
    if progress >= 100 then 0
    else if progress >= 80 then 5
    else if progress >= 60 then 15
    else if progress >= 30 then 30
    else 60
  }

  /** The response of `get_upload_status`. */
  datatype StatusReport = StatusReport(fileId: string, state: string, progress: int, processed: bool,
                                       chunks: nat, error: Option<string>, estimatedTimeRemaining: nat)

  function Report(fileId: string, st: TaskStatus): StatusReport
  {
    StatusReport(fileId, st.state.Value(), st.progress, st.state == Completed, st.chunks, st.error,
                 EstimatedTime(st.progress))
  }

  /** Position of the first record with the id: `next((f for f in UPLOADED_FILES if f['id'] == id), None)`. */
  function FirstRecord(files: seq<FileRecord>, id: string): (r: Option<nat>)
    ensures r.Some? ==> r.value < |files| && files[r.value].id == id
    ensures r.Some? ==> forall j :: 0 <= j < r.value ==> files[j].id != id
    ensures r.None? ==> forall j :: 0 <= j < |files| ==> files[j].id != id
    decreases |files|
  {
    if |files| == 0 then None
    else if files[0].id == id then Some(0)
    else
      match FirstRecord(files[1..], id)
      case None => None
      case Some(j) => Some(j + 1)
  }

  /** The records after the first one with the id has its chunk count set. */
  function WithChunks(files: seq<FileRecord>, id: string, chunks: nat): seq<FileRecord>
  {
    match FirstRecord(files, id)
    case None => files
    case Some(i) => files[i := files[i].(chunks := chunks)]
  }

  /** One entry of the `get_files` response. */
  datatype FileView = FileView(id: string, name: string, size: nat, contentType: string, uploadedAt: int,
                               chunks: nat, gsUri: string, state: string, progress: int, processed: bool,
                               error: Option<string>)

  /**
   * A record as listed: with its processing status when it has one,
   * otherwise completed exactly when it has chunks.
   */
  function ViewOf(f: FileRecord, statuses: map<string, TaskStatus>): FileView
  {
    if f.id in statuses then
      var st := statuses[f.id];
      FileView(f.id, f.name, f.size, f.contentType, f.uploadedAt, f.chunks, f.gsUri,
               st.state.Value(), st.progress, st.state == Completed, st.error)
    else if f.chunks > 0 then
      FileView(f.id, f.name, f.size, f.contentType, f.uploadedAt, f.chunks, f.gsUri, "completed", 100, true, None)
    else
      FileView(f.id, f.name, f.size, f.contentType, f.uploadedAt, f.chunks, f.gsUri, "pending", 0, false, None)
  }

  function Views(files: seq<FileRecord>, statuses: map<string, TaskStatus>): (vs: seq<FileView>)
    ensures |vs| == |files|
    ensures forall i :: 0 <= i < |files| ==> vs[i] == ViewOf(files[i], statuses)
  {
    seq(|files|, i requires 0 <= i < |files| => ViewOf(files[i], statuses))
  }

  /** The sort key of `sort(key=uploadedAt, reverse=True)`, as an ascending key. */
  function Newest(v: FileView): real
  {
    -(v.uploadedAt as real)
  }

  /** The `files` of the `get_files` response. */
  function FileViews(files: seq<FileRecord>, statuses: map<string, TaskStatus>): seq<FileView>
  {
    SortBy(Views(files, statuses), Newest)
  }

  // -------------------------------------------------------------------
  // Chunks of a file
  // -------------------------------------------------------------------

  /** The key prefix of a file's chunks in the chunk map. */
  function ChunkPrefix(fileId: string): string
  {
    "file_" + fileId + "_chunk_"
  }

  /** `key.startswith(f"file_{file_id}_chunk_")`. */
  function OwnedBy(fileId: string): string -> bool
  {
    k => StartsWith(k, ChunkPrefix(fileId))
  }

  function InKeys(ks: seq<string>): string -> bool
  {
    k => k in ks
  }

  function IsKey(key: string): string -> bool
  {
    k => k == key
  }

  /** `int(chunk_id.split('_')[-1])`, `None` where `int` raises. */
  function ChunkIndexOf(key: string): Option<int>
  {
    var parts := Split(key, '_');
    ParseInt(parts[|parts| - 1])
  }

  /** One entry of the `get_file_chunks` response. */
  datatype ChunkView = ChunkView(id: string, index: int, content: string, length: nat, wordCount: nat)

  /** The views of a file's chunks in the chunk map's order, `None` when an index fails to parse. */
  function CollectChunks(m: Dict<string, string>, fileId: string): Option<seq<ChunkView>>
    decreases |m|
  {
    if |m| == 0 then Some([])
    else
      var rest := CollectChunks(m[..|m| - 1], fileId);
      var (key, text) := m[|m| - 1];
      if !OwnedBy(fileId)(key) then rest
      else match (rest, ChunkIndexOf(key))
        case (Some(vs), Some(index)) => Some(vs + [ChunkView(key, index, text, |text|, |Words(text)|)])
        case _ => None
  }

  function ByIndex(v: ChunkView): real
  {
    v.index as real
  }

  /** `int(request.args.get(name, default))`, `None` where `int` raises. */
  function ArgInt(arg: Option<string>, default: int): Option<int>
  {
    match arg
    case None => Some(default)
    case Some(s) => ParseInt(s)
  }

  /** Python's `a // b`, rounding toward negative infinity. */
  function FloorDiv(a: int, b: int): int
    requires b != 0
  {
    if b > 0 then a / b else (-a) / (-b)
  }

  /** `items[(page - 1) * per_page:(page - 1) * per_page + per_page]`. */
  function PageOf<T>(items: seq<T>, page: int, perPage: int): seq<T>
  {
    var start := (page - 1) * perPage;
    Slice(items, start, start + perPage)
  }

  /** The response of `get_file_chunks`. */
  datatype ChunkPage = ChunkPage(fileId: string, fileName: string, totalChunks: nat, page: int, perPage: int,
                                 totalPages: int, chunks: seq<ChunkView>)

  /** `get_file_chunks`: a 404 for an unknown file, a 500 for an argument or index `int` refuses or `per_page` 0. */
  function ChunkPageOf(files: seq<FileRecord>, m: Dict<string, string>, fileId: string,
                       pageArg: Option<string>, perPageArg: Option<string>): Result<ChunkPage, ApiError>
  {
    match FirstRecord(files, fileId)
    case None => Failure(NotFound("File not found"))
    case Some(i) =>
      match (ArgInt(pageArg, 1), ArgInt(perPageArg, 10), CollectChunks(m, fileId))
      case (Some(page), Some(perPage), Some(views)) =>
        if perPage == 0 then Failure(Raised)
        else
          var sorted := SortBy(views, ByIndex);
          Success(ChunkPage(fileId, files[i].name, |sorted|, page, perPage,
                            FloorDiv(|sorted| + perPage - 1, perPage), PageOf(sorted, page, perPage)))
      case _ => Failure(Raised)
  }

  /** `[f for f in UPLOADED_FILES if f['id'] != file_id]`. */
  function WithoutFile(files: seq<FileRecord>, id: string): (r: seq<FileRecord>)
    ensures forall f :: f in r <==> f in files && f.id != id
    ensures |r| <= |files|
    decreases |files|
  {
    if |files| == 0 then []
    else
      var init := files[..|files| - 1];
      var last := files[|files| - 1];
      assert files == init + [last];
      WithoutFile(init, id) + if last.id == id then [] else [last]
  }

  // -------------------------------------------------------------------
  // Chat sources
  // -------------------------------------------------------------------

  /**
   * The file name the chat endpoint reports for a retrieved chunk: for
   * `file_{id}_chunk_{i}` the name of the first upload with that id, for
   * `chunk_…` the knowledge-base document, otherwise the unknown document.
   */
  function SourceFileName(chunkId: string, files: seq<FileRecord>): string
  {
    if StartsWith(chunkId, "file_") then
      var parts := Split(chunkId, '_');
      if |parts| >= 4 then
        match FirstRecord(files, Join(parts[1..|parts| - 2], '_'))
        case Some(i) => files[i].name
        case None => UnknownDocument
      else UnknownDocument
    else if StartsWith(chunkId, "chunk_") then KnowledgeBaseDocument
    else UnknownDocument
  }

  /** `for key in keys: del d[key]`. */
  method DeleteKeys(d: Dict<string, string>, keys: seq<string>) returns (r: Dict<string, string>)
    ensures r == RemoveWhere(d, InKeys(keys))
  {
    r := d;
    RemoveWhereNothing(d, InKeys([]));
    var i := 0;
    while i < |keys|
      invariant 0 <= i <= |keys|
      invariant r == RemoveWhere(d, InKeys(keys[..i]))
    {
      assert keys[..i + 1] == keys[..i] + [keys[i]];
      RemoveWhereCompose(d, InKeys(keys[..i]), IsKey(keys[i]), InKeys(keys[..i + 1]));
      r := RemoveWhere(r, IsKey(keys[i]));
      i := i + 1;
    }
    assert keys[..i] == keys;
  }

  /** The chunk-map half of `delete_file`: selects the keys under the file's prefix, then deletes them. */
  method DeleteOwned(d: Dict<string, string>, fileId: string) returns (r: Dict<string, string>, count: nat)
    requires DistinctKeys(d)
    ensures r == RemoveWhere(d, OwnedBy(fileId)) && DistinctKeys(r)
    ensures count == |KeysWhere(d, OwnedBy(fileId))|
  {
    var doomed := KeysWhere(d, OwnedBy(fileId));
    r := DeleteKeys(d, doomed);
    DeletedAreOwned(d, fileId);
    count := |doomed|;
  }

  /** Deleting the selected keys one by one removes exactly the file's chunks, keeping the keys distinct. */
  lemma DeletedAreOwned(d: Dict<string, string>, fileId: string)
    requires DistinctKeys(d)
    ensures RemoveWhere(d, InKeys(KeysWhere(d, OwnedBy(fileId)))) == RemoveWhere(d, OwnedBy(fileId))
    ensures DistinctKeys(RemoveWhere(d, OwnedBy(fileId)))
  {
    var doomed := KeysWhere(d, OwnedBy(fileId));
    forall j | 0 <= j < |d|
      ensures InKeys(doomed)(d[j].0) == OwnedBy(fileId)(d[j].0)
    {
      KeysWhereMembers(d, OwnedBy(fileId), d[j].0);
    }
    RemoveWhereCongruent(d, InKeys(doomed), OwnedBy(fileId));
    RemoveWhereDistinct(d, OwnedBy(fileId));
  }

  // -------------------------------------------------------------------
  // The server
  // -------------------------------------------------------------------

  class Server {
    var bucket: GcsStorage.Bucket
    const bucketName: string
    var uploadedFiles: seq<FileRecord>
    var processingStatus: map<string, TaskStatus>
    var queue: seq<Task>
    var chunkMap: Dict<string, string>
    /** `chunk_id_to_text_map`, filled alongside the chunk map. */
    var textMap: Dict<string, string>
    var chunkEmbeddings: map<string, Vec>
    const hybrid: Hybrid.HybridRetrieval?

    /** The hybrid retriever and its local index, when there is one. */
    function HybridParts(): set<object>
    {
      if hybrid == null then {} else {hybrid} + hybrid.FastParts()
    }

    /**
     * Every queued file has a status (the worker's first step indexes it),
     * progress stays within 0..100, and the dicts have one entry per key.
     */
    ghost predicate Valid()
      reads this, HybridParts()
    {
      && (hybrid != null ==> hybrid.Valid())
      && DistinctKeys(chunkMap) && DistinctKeys(textMap)
      && (forall t :: t in queue ==> t.fileId in processingStatus)
      && (forall id :: id in processingStatus ==> 0 <= processingStatus[id].progress <= 100)
    }

    constructor (bucketName: string, hybrid: Hybrid.HybridRetrieval?)
      requires hybrid != null ==> hybrid.Valid()
      ensures Valid()
      ensures this.bucketName == bucketName && this.hybrid == hybrid
      ensures bucket == map[] && uploadedFiles == [] && processingStatus == map[] && queue == []
      ensures chunkMap == [] && textMap == [] && chunkEmbeddings == map[]
    {
      this.bucketName := bucketName;
      this.hybrid := hybrid;
      bucket := map[];
      uploadedFiles := [];
      processingStatus := map[];
      queue := [];
      chunkMap := [];
      textMap := [];
      chunkEmbeddings := map[];
    }

    /**
     * `upload_file`: a refused file changes nothing; an accepted one is
     * stored under its sanitized name, recorded, given the initial status
     * and queued.  `now` and `clock` are the local time and
     * `int(time.time())`.
     */
    method UploadFile(fileName: Option<string>, content: seq<bv8>, contentType: Option<string>,
                      now: GcsStorage.DateTime, clock: int, hash: string -> int, fault: GcsStorage.UploadFault)
      returns (r: Result<Uploaded, ApiError>)
      requires Valid()
      modifies this
      ensures Valid()
      ensures CheckUpload(fileName, |content|).Failure? ==>
        r == Failure(CheckUpload(fileName, |content|).error) && unchanged(this)
      ensures CheckUpload(fileName, |content|).Success? ==>
        var name := Sanitize(fileName.value);
        var ct := ContentTypeOf(contentType);
        var (after, u) := GcsStorage.Upload(old(bucket), bucketName, content, name, ct, now, hash, fault);
        && bucket == after
        && (u.None? ==>
              && r == Failure(Raised)
              && uploadedFiles == old(uploadedFiles) && processingStatus == old(processingStatus)
              && queue == old(queue) && chunkMap == old(chunkMap) && textMap == old(textMap)
              && chunkEmbeddings == old(chunkEmbeddings))
        && (u.Some? ==>
              var info := u.value;
              && r == Success(Uploaded(info.fileId, name, info.gsUri))
              && uploadedFiles == old(uploadedFiles) + [FileRecord(info.fileId, name, |content|, ct, clock, 0, info.gsUri)]
              && processingStatus == old(processingStatus)[info.fileId := Initial]
              && queue == old(queue) + [Task(info.fileId, content, CheckUpload(fileName, |content|).value, name)]
              && chunkMap == old(chunkMap) && textMap == old(textMap)
              && chunkEmbeddings == old(chunkEmbeddings))
    {
      var check := CheckUpload(fileName, |content|);
      if check.Failure? {
        return Failure(check.error);
      }
      var name := Sanitize(fileName.value);
      var ct := ContentTypeOf(contentType);
      var (after, u) := GcsStorage.Upload(bucket, bucketName, content, name, ct, now, hash, fault);
      if u.None? {
        bucket := after;
        return Failure(Raised);
      }
      var info := u.value;
      Register(after, FileRecord(info.fileId, name, |content|, ct, clock, 0, info.gsUri),
               Task(info.fileId, content, check.value, name));
      r := Success(Uploaded(info.fileId, name, info.gsUri));
    }

    /** A stored upload is recorded, given the pending status and queued for the worker. */
    method Register(after: GcsStorage.Bucket, record: FileRecord, task: Task)
      requires Valid() && task.fileId == record.id
      modifies this
      ensures Valid()
      ensures bucket == after
      ensures uploadedFiles == old(uploadedFiles) + [record]
      ensures processingStatus == old(processingStatus)[record.id := Initial]
      ensures queue == old(queue) + [task]
      ensures chunkMap == old(chunkMap) && textMap == old(textMap) && chunkEmbeddings == old(chunkEmbeddings)
    {
      bucket := after;
      uploadedFiles := uploadedFiles + [record];
      processingStatus := processingStatus[record.id := Initial];
      queue := queue + [task];
    }

    /**
     * One round of `background_file_processor`: takes the next queued file
     * (if any), extracts its text, and on success stores its chunks in the
     * chunk and text maps, their embeddings (when the model gives them) and
     * the document in the hybrid retriever, ending completed; a failed
     * extraction ends in the error state and stores nothing.
     */
    method ProcessNext(extract: (Kind, seq<bv8>) -> Result<string, string>, embed: seq<string> -> Option<seq<Vec>>,
                       encode: string -> Vec, outcomes: VectorSearch.IndexOutcomes, now: string)
      requires Valid()
      modifies this, HybridParts()
      ensures Valid()
      ensures old(queue) == [] ==> unchanged(this)
      ensures old(queue) != [] ==>
        var task := old(queue[0]);
        var text := Extract(task.ext, task.content, extract);
        var chunks := ChunksOf(text);
        && queue == old(queue[1..])
        && processingStatus == old(processingStatus)[task.fileId := Finished(old(processingStatus[task.fileId]), text)]
        && chunkMap == Hybrid.PutChunks(old(chunkMap), task.fileId, chunks)
        && textMap == Hybrid.PutChunks(old(textMap), task.fileId, chunks)
        && chunkEmbeddings == StoredEmbeddings(old(chunkEmbeddings), task.fileId, chunks, embed)
        && (hybrid != null && text.Success? ==>
              hybrid.chunkMap == Hybrid.PutChunks(old(hybrid.chunkMap), task.fileId,
                                                  Chunker.Chunks(Join(chunks, '\n'), Chunker.ServiceChunkSize,
                                                                 Chunker.ServiceOverlapSize)))
        && (hybrid != null && text.Failure? ==> hybrid.chunkMap == old(hybrid.chunkMap))
      ensures uploadedFiles == old(uploadedFiles) && bucket == old(bucket)
    {
      if queue == [] {
        return;
      }
      var task := queue[0];
      assert task in queue;
      queue := queue[1..];
      RunTask(task, extract, embed, encode, outcomes, now);
      assert forall t :: t in queue ==> t in old(queue);
    }

    /**
     * The worker's handling of one dequeued file: extraction, then either
     * the error status or the indexing steps.
     */
    method RunTask(task: Task, extract: (Kind, seq<bv8>) -> Result<string, string>,
                   embed: seq<string> -> Option<seq<Vec>>, encode: string -> Vec,
                   outcomes: VectorSearch.IndexOutcomes, now: string)
      requires hybrid != null ==> hybrid.Valid()
      requires DistinctKeys(chunkMap) && DistinctKeys(textMap) && task.fileId in processingStatus
      modifies this, HybridParts()
      ensures hybrid != null ==> hybrid.Valid()
      ensures DistinctKeys(chunkMap) && DistinctKeys(textMap)
      ensures var text := Extract(task.ext, task.content, extract);
        var chunks := ChunksOf(text);
        && processingStatus == old(processingStatus)[task.fileId := Finished(old(processingStatus[task.fileId]), text)]
        && chunkMap == Hybrid.PutChunks(old(chunkMap), task.fileId, chunks)
        && textMap == Hybrid.PutChunks(old(textMap), task.fileId, chunks)
        && chunkEmbeddings == StoredEmbeddings(old(chunkEmbeddings), task.fileId, chunks, embed)
        && (hybrid != null && text.Success? ==>
              hybrid.chunkMap == Hybrid.PutChunks(old(hybrid.chunkMap), task.fileId,
                                                  Chunker.Chunks(Join(chunks, '\n'), Chunker.ServiceChunkSize,
                                                                 Chunker.ServiceOverlapSize)))
        && (hybrid != null && text.Failure? ==> hybrid.chunkMap == old(hybrid.chunkMap))
      ensures queue == old(queue) && uploadedFiles == old(uploadedFiles) && bucket == old(bucket)
    {
      var fileId := task.fileId;
      processingStatus := processingStatus[fileId := processingStatus[fileId].(state := Processing, progress := 10)];
      processingStatus := processingStatus[fileId := processingStatus[fileId].(progress := 30)];
      var text: Result<string, string>;
      var kind := KindOf(task.ext);
      if kind.None? {
        text := Failure("Unsupported file type: " + task.ext);
      } else {
        text := extract(kind.value, task.content);
      }
      assert text == Extract(task.ext, task.content, extract);
      if text.Failure? {
        FailTask(fileId, text.error);
      } else {
        IndexText(fileId, task.filename, text.value, embed, encode, outcomes, now);
      }
    }

    /** A failed extraction: the error state and message, with the progress of 30 it had reached. */
    method FailTask(fileId: string, msg: string)
      requires fileId in processingStatus && processingStatus[fileId].progress == 30
      modifies this
      ensures processingStatus == old(processingStatus)[fileId := old(processingStatus[fileId]).(state := Error, error := Some(msg))]
      ensures chunkMap == old(chunkMap) && textMap == old(textMap) && chunkEmbeddings == old(chunkEmbeddings)
      ensures queue == old(queue) && uploadedFiles == old(uploadedFiles) && bucket == old(bucket)
    {
      processingStatus := processingStatus[fileId := processingStatus[fileId].(state := Error, error := Some(msg))];
    }

    /**
     * The worker's steps after a successful extraction: chunking, the
     * chunk and text maps, the embeddings, the hybrid retriever, and the
     * completed status with the chunk count.
     */
    method IndexText(fileId: string, filename: string, text: string, embed: seq<string> -> Option<seq<Vec>>,
                     encode: string -> Vec, outcomes: VectorSearch.IndexOutcomes, now: string)
      requires hybrid != null ==> hybrid.Valid()
      requires DistinctKeys(chunkMap) && DistinctKeys(textMap) && fileId in processingStatus
      modifies this, HybridParts()
      ensures hybrid != null ==> hybrid.Valid()
      ensures DistinctKeys(chunkMap) && DistinctKeys(textMap)
      ensures var chunks := Chunker.Chunks(text, Chunker.ServiceChunkSize, Chunker.ServiceOverlapSize);
        && processingStatus == old(processingStatus)[fileId := old(processingStatus[fileId]).(
             state := Completed, progress := 100, chunks := |chunks|)]
        && chunkMap == Hybrid.PutChunks(old(chunkMap), fileId, chunks)
        && textMap == Hybrid.PutChunks(old(textMap), fileId, chunks)
        && chunkEmbeddings == StoredEmbeddings(old(chunkEmbeddings), fileId, chunks, embed)
        && (hybrid != null ==>
              hybrid.chunkMap == Hybrid.PutChunks(old(hybrid.chunkMap), fileId,
                                                  Chunker.Chunks(Join(chunks, '\n'), Chunker.ServiceChunkSize,
                                                                 Chunker.ServiceOverlapSize)))
      ensures queue == old(queue) && uploadedFiles == old(uploadedFiles) && bucket == old(bucket)
    {
      ghost var before := processingStatus[fileId];
      var chunks := ChunkForIndex(fileId, text);
      ghost var indexing := processingStatus;
      StoreIndex(fileId, filename, chunks, embed, encode, outcomes, now);
      processingStatus := processingStatus[fileId := processingStatus[fileId].(state := Completed, progress := 100,
                                                                                 chunks := |chunks|)];
      assert processingStatus == indexing[fileId := before.(state := Completed, progress := 100, chunks := |chunks|)];
    }

    /** The progress steps around chunking: 60 before, 80 after. */
    method ChunkForIndex(fileId: string, text: string) returns (chunks: seq<string>)
      requires fileId in processingStatus
      modifies this
      ensures chunks == Chunker.Chunks(text, Chunker.ServiceChunkSize, Chunker.ServiceOverlapSize)
      ensures processingStatus == old(processingStatus)[fileId := old(processingStatus[fileId]).(progress := 80)]
      ensures chunkMap == old(chunkMap) && textMap == old(textMap) && chunkEmbeddings == old(chunkEmbeddings)
      ensures queue == old(queue) && uploadedFiles == old(uploadedFiles) && bucket == old(bucket)
    {
      processingStatus := processingStatus[fileId := processingStatus[fileId].(progress := 60)];
      chunks := Chunker.ChunkText(text, Chunker.ServiceChunkSize, Chunker.ServiceOverlapSize);
      processingStatus := processingStatus[fileId := processingStatus[fileId].(progress := 80)];
    }

    /** The chunk and text maps, the embeddings and the hybrid retriever take in a file's chunks. */
    method StoreIndex(fileId: string, filename: string, chunks: seq<string>, embed: seq<string> -> Option<seq<Vec>>,
                      encode: string -> Vec, outcomes: VectorSearch.IndexOutcomes, now: string)
      requires hybrid != null ==> hybrid.Valid()
      requires DistinctKeys(chunkMap) && DistinctKeys(textMap)
      modifies this, HybridParts()
      ensures hybrid != null ==> hybrid.Valid()
      ensures DistinctKeys(chunkMap) && DistinctKeys(textMap)
      ensures chunkMap == Hybrid.PutChunks(old(chunkMap), fileId, chunks)
      ensures textMap == Hybrid.PutChunks(old(textMap), fileId, chunks)
      ensures chunkEmbeddings == StoredEmbeddings(old(chunkEmbeddings), fileId, chunks, embed)
      ensures hybrid != null ==>
        hybrid.chunkMap == Hybrid.PutChunks(old(hybrid.chunkMap), fileId,
                                            Chunker.Chunks(Join(chunks, '\n'), Chunker.ServiceChunkSize,
                                                           Chunker.ServiceOverlapSize))
      ensures processingStatus == old(processingStatus)
      ensures queue == old(queue) && uploadedFiles == old(uploadedFiles) && bucket == old(bucket)
    {
      StoreLocally(fileId, chunks, embed);
      AddToHybrid(fileId, Join(chunks, '\n'), filename, encode, outcomes, now);
    }

    /** The server's own maps take in a file's chunks and their embeddings. */
    method StoreLocally(fileId: string, chunks: seq<string>, embed: seq<string> -> Option<seq<Vec>>)
      requires DistinctKeys(chunkMap) && DistinctKeys(textMap)
      modifies this
      ensures DistinctKeys(chunkMap) && DistinctKeys(textMap)
      ensures chunkMap == Hybrid.PutChunks(old(chunkMap), fileId, chunks)
      ensures textMap == Hybrid.PutChunks(old(textMap), fileId, chunks)
      ensures chunkEmbeddings == StoredEmbeddings(old(chunkEmbeddings), fileId, chunks, embed)
      ensures processingStatus == old(processingStatus)
      ensures queue == old(queue) && uploadedFiles == old(uploadedFiles) && bucket == old(bucket)
    {
      StoreChunks(fileId, chunks);
      if |chunks| > 0 {
        StoreEmbeddings(fileId, chunks, embed);
      }
    }

    /** `hybrid_retrieval.add_document(file_id, full_text, filename)`, when there is a hybrid retriever. */
    method AddToHybrid(fileId: string, fullText: string, filename: string, encode: string -> Vec,
                       outcomes: VectorSearch.IndexOutcomes, now: string)
      requires hybrid != null ==> hybrid.Valid()
      modifies HybridParts()
      ensures hybrid != null ==> hybrid.Valid()
      ensures hybrid != null ==>
        hybrid.chunkMap == Hybrid.PutChunks(old(hybrid.chunkMap), fileId,
                                            Chunker.Chunks(fullText, Chunker.ServiceChunkSize, Chunker.ServiceOverlapSize))
    {
      if hybrid != null {
        var _ := hybrid.AddDocument(fileId, fullText, Some(filename), encode, outcomes, now);
      }
    }

    /** The two loops that put a file's chunks into the chunk map and the text map. */
    method StoreChunks(fileId: string, chunks: seq<string>)
      requires DistinctKeys(chunkMap) && DistinctKeys(textMap)
      modifies this
      ensures DistinctKeys(chunkMap) && DistinctKeys(textMap)
      ensures chunkMap == Hybrid.PutChunks(old(chunkMap), fileId, chunks)
      ensures textMap == Hybrid.PutChunks(old(textMap), fileId, chunks)
      ensures bucket == old(bucket) && uploadedFiles == old(uploadedFiles) && processingStatus == old(processingStatus)
      ensures queue == old(queue) && chunkEmbeddings == old(chunkEmbeddings)
    {
      chunkMap := Hybrid.PutChunksInto(chunkMap, fileId, chunks);
      textMap := Hybrid.PutChunksInto(textMap, fileId, chunks);
    }

    /**
     * Embeds a file's chunks and keeps each embedding under its chunk's id;
     * an exception from the model leaves the embeddings as they were.
     */
    method StoreEmbeddings(fileId: string, chunks: seq<string>, embed: seq<string> -> Option<seq<Vec>>)
      requires |chunks| > 0
      modifies this
      ensures chunkEmbeddings == StoredEmbeddings(old(chunkEmbeddings), fileId, chunks, embed)
      ensures bucket == old(bucket) && uploadedFiles == old(uploadedFiles) && processingStatus == old(processingStatus)
      ensures queue == old(queue) && chunkMap == old(chunkMap) && textMap == old(textMap)
    {
      var embeddings := embed(chunks);
      if embeddings.None? {
        return;
      }
      var es := embeddings.value;
      var m := chunkEmbeddings;
      var i := 0;
      while i < |es|
        invariant 0 <= i <= |es|
        invariant m == PutEmbeddings(chunkEmbeddings, fileId, es[..i])
        modifies {}
      {
        m := m[Hybrid.ChunkMapId(fileId, i) := es[i]];
        assert es[..i + 1][..i] == es[..i];
        i := i + 1;
      }
      assert es[..|es|] == es;
      chunkEmbeddings := m;
    }

    /** `get_files`: every record with its status, newest upload first. */
    method GetFiles() returns (views: seq<FileView>)
      ensures views == FileViews(uploadedFiles, processingStatus)
    {
      var listed := [];
      var i := 0;
      while i < |uploadedFiles|
        invariant 0 <= i <= |uploadedFiles|
        invariant listed == Views(uploadedFiles[..i], processingStatus)
      {
        listed := listed + [ViewOf(uploadedFiles[i], processingStatus)];
        i := i + 1;
      }
      assert uploadedFiles[..i] == uploadedFiles;
      views := SortBy(listed, Newest);
    }

    /**
     * `get_upload_status`: 404s for an unknown file or a missing status;
     * otherwise the status report, and a completed file with chunks has its
     * chunk count copied into its first record.
     */
    method GetUploadStatus(fileId: string) returns (r: Result<StatusReport, ApiError>)
      requires Valid()
      modifies this
      ensures Valid()
      ensures FirstRecord(old(uploadedFiles), fileId).None? ==>
        r == Failure(NotFound("File not found")) && unchanged(this)
      ensures FirstRecord(old(uploadedFiles), fileId).Some? && fileId !in old(processingStatus) ==>
        r == Failure(NotFound("Processing status not found")) && unchanged(this)
      ensures FirstRecord(old(uploadedFiles), fileId).Some? && fileId in old(processingStatus) ==>
        var st := old(processingStatus[fileId]);
        && r == Success(Report(fileId, st))
        && uploadedFiles == (if st.state == Completed && st.chunks > 0 then WithChunks(old(uploadedFiles), fileId, st.chunks)
                             else old(uploadedFiles))
      ensures bucket == old(bucket) && processingStatus == old(processingStatus) && queue == old(queue)
      ensures chunkMap == old(chunkMap) && textMap == old(textMap) && chunkEmbeddings == old(chunkEmbeddings)
    {
      var found := FirstRecord(uploadedFiles, fileId);
      if found.None? {
        return Failure(NotFound("File not found"));
      }
      if fileId !in processingStatus {
        return Failure(NotFound("Processing status not found"));
      }
      var st := processingStatus[fileId];
      if st.state == Completed && st.chunks > 0 {
        uploadedFiles := uploadedFiles[found.value := uploadedFiles[found.value].(chunks := st.chunks)];
      }
      r := Success(Report(fileId, st));
    }

    /**
     * `delete_file`: a 404 for an unknown file; otherwise the blob is
     * deleted and, when that succeeds, the file's records and every chunk
     * under its prefix go, and the response counts the chunks; a failed
     * deletion is a 500 that leaves the records and chunks alone.
     */
    method DeleteFile(fileId: string, deleteOk: bool) returns (r: Result<nat, ApiError>)
      requires Valid()
      modifies this
      ensures Valid()
      ensures FirstRecord(old(uploadedFiles), fileId).None? ==>
        r == Failure(NotFound("File not found")) && unchanged(this)
      ensures FirstRecord(old(uploadedFiles), fileId).Some? ==>
        var name := old(uploadedFiles)[FirstRecord(old(uploadedFiles), fileId).value].name;
        var (after, ok) := GcsStorage.Delete(old(bucket), fileId, name, deleteOk);
        && bucket == after
        && (ok ==>
              && r == Success(|KeysWhere(old(chunkMap), OwnedBy(fileId))|)
              && uploadedFiles == WithoutFile(old(uploadedFiles), fileId)
              && chunkMap == RemoveWhere(old(chunkMap), OwnedBy(fileId)))
        && (!ok ==>
              && r == Failure(ServerError("Failed to delete file from storage"))
              && uploadedFiles == old(uploadedFiles) && chunkMap == old(chunkMap))
      ensures processingStatus == old(processingStatus) && queue == old(queue)
      ensures textMap == old(textMap) && chunkEmbeddings == old(chunkEmbeddings)
    {
      var found := FirstRecord(uploadedFiles, fileId);
      if found.None? {
        return Failure(NotFound("File not found"));
      }
      var (after, ok) := GcsStorage.Delete(bucket, fileId, uploadedFiles[found.value].name, deleteOk);
      bucket := after;
      if !ok {
        return Failure(ServerError("Failed to delete file from storage"));
      }
      var count := RemoveFile(fileId);
      r := Success(count);
    }

    /** After the blob is gone: the file's records and the chunk-map entries under its prefix go. */
    method RemoveFile(fileId: string) returns (count: nat)
      requires DistinctKeys(chunkMap)
      modifies this
      ensures count == |KeysWhere(old(chunkMap), OwnedBy(fileId))|
      ensures uploadedFiles == WithoutFile(old(uploadedFiles), fileId)
      ensures chunkMap == RemoveWhere(old(chunkMap), OwnedBy(fileId)) && DistinctKeys(chunkMap)
      ensures bucket == old(bucket) && processingStatus == old(processingStatus) && queue == old(queue)
      ensures textMap == old(textMap) && chunkEmbeddings == old(chunkEmbeddings)
    {
      uploadedFiles := WithoutFile(uploadedFiles, fileId);
      chunkMap, count := DeleteOwned(chunkMap, fileId);
    }

    /** `get_file_chunks`: collects the file's chunks from the chunk map, orders them by index and pages them. */
    method GetFileChunks(fileId: string, pageArg: Option<string>, perPageArg: Option<string>)
      returns (r: Result<ChunkPage, ApiError>)
      ensures r == ChunkPageOf(uploadedFiles, chunkMap, fileId, pageArg, perPageArg)
    {
      var found := FirstRecord(uploadedFiles, fileId);
      if found.None? {
        return Failure(NotFound("File not found"));
      }
      var page := ArgInt(pageArg, 1);
      var perPage := ArgInt(perPageArg, 10);
      if page.None? || perPage.None? {
        return Failure(Raised);
      }
      var views: Option<seq<ChunkView>> := Some([]);
      var i := 0;
      while i < |chunkMap|
        invariant 0 <= i <= |chunkMap|
        invariant views == CollectChunks(chunkMap[..i], fileId)
      {
        var (key, text) := chunkMap[i];
        assert chunkMap[..i + 1][..i] == chunkMap[..i];
        if OwnedBy(fileId)(key) {
          var index := ChunkIndexOf(key);
          if views.Some? && index.Some? {
            views := Some(views.value + [ChunkView(key, index.value, text, |text|, |Words(text)|)]);
          } else {
            views := None;
          }
        }
        i := i + 1;
      }
      assert chunkMap[..i] == chunkMap;
      if views.None? || perPage.value == 0 {
        return Failure(Raised);
      }
      var sorted := SortBy(views.value, ByIndex);
      r := Success(ChunkPage(fileId, uploadedFiles[found.value].name, |sorted|, page.value, perPage.value,
                             FloorDiv(|sorted| + perPage.value - 1, perPage.value),
                             PageOf(sorted, page.value, perPage.value)));
    }
  }

  // -------------------------------------------------------------------
  // Properties
  // -------------------------------------------------------------------

  /** `os.path.splitext` gives either nothing or a dot-led suffix of the name with no `/` and no other dot. */
  lemma ExtensionShape(name: string)
    ensures var ext := Extension(name);
      ext == "" || (ext[0] == '.' && '/' !in ext && '.' !in ext[1..] && EndsWith(name, ext))
  {
    var sep := LastIndex(name, '/');
    var dot := LastIndex(name, '.');
    var ext := Extension(name);
    if ext != "" {
      assert ext == name[dot..];
      forall j | 0 <= j < |ext| ensures ext[j] != '/' && (j > 0 ==> ext[j] != '.') {
        assert ext[j] == name[dot + j];
      }
    }
  }

  /** A name that is only a dot-led extension has none: `.txt` is refused, while the case of an extension does not matter. */
  lemma ExtensionExamples()
    ensures Extension(".txt") == ""
    ensures CheckUpload(Some(".txt"), 0) == Failure(BadRequest("Unsupported file type"))
    ensures CheckUpload(Some("Contract.PDF"), 0) == Success(".pdf")
  {
    var short, long := ".txt", "Contract.PDF";
    assert short[0] == '.' && short[1] != '.' && short[2] != '.' && short[3] != '.';
    assert LastIndex(short, '.') == 0;
    assert long[8] == '.' && long[9] != '.' && long[10] != '.' && long[11] != '.';
    assert LastIndex(long, '.') == 8;
    assert Extension("Contract.PDF") == ".PDF" by {
      assert "Contract.PDF"[0] != '.';
    }
    assert Lower(".PDF") == ".pdf";
  }

  /** Every accepted upload has an extractor, so the worker never raises "Unsupported file type" for it. */
  lemma AcceptedUploadsHaveExtractor(fileName: Option<string>, size: nat)
    requires CheckUpload(fileName, size).Success?
    ensures KindOf(CheckUpload(fileName, size).value).Some?
    ensures forall content, extract ::
      (Extract(CheckUpload(fileName, size).value, content, extract) ==
       extract(KindOf(CheckUpload(fileName, size).value).value, content))
  {
  }

  /** The worker has an extractor for exactly the allowed extensions; `.doc` goes to the Word extractor too. */
  lemma ExtractorChoice(ext: string)
    ensures KindOf(ext).Some? <==> ext in AllowedExtensions
    ensures KindOf(".doc") == KindOf(".docx") == Some(Docx)
  {
  }

  /** Replacing `..` keeps a first character that is not a dot. */
  lemma ReplaceDotsHead(s: string)
    requires 1 <= |s| && s[0] != '.'
    ensures var r := ReplaceAll(s, "..", "_"); 1 <= |r| && r[0] == s[0]
  {
    if 2 <= |s| {
      assert s[..2][0] == s[0];
    }
  }

  predicate NoDoubleDot(s: string)
  {
    forall i :: 0 <= i < |s| - 1 ==> !(s[i] == '.' && s[i + 1] == '.')
  }

  /** After every `..` is replaced, no two dots are neighbours. */
  lemma {:induction false} ReplaceDotsLeavesNoPair(s: string)
    ensures NoDoubleDot(ReplaceAll(s, "..", "_"))
    decreases |s|
  {
    var r := ReplaceAll(s, "..", "_");
    if 2 <= |s| {
      if s[..2] == ".." {
        var rest := ReplaceAll(s[2..], "..", "_");
        ReplaceDotsLeavesNoPair(s[2..]);
        assert r == "_" + rest;
        forall i | 0 <= i < |r| - 1 ensures !(r[i] == '.' && r[i + 1] == '.') {
          if 0 < i {
            assert r[i] == rest[i - 1] && r[i + 1] == rest[i];
          }
        }
      } else {
        var rest := ReplaceAll(s[1..], "..", "_");
        ReplaceDotsLeavesNoPair(s[1..]);
        assert r == [s[0]] + rest;
        assert s[..2] == [s[0], s[1]];
        if s[0] == '.' {
          ReplaceDotsHead(s[1..]);
        }
        forall i | 0 <= i < |r| - 1 ensures !(r[i] == '.' && r[i + 1] == '.') {
          if 0 < i {
            assert r[i] == rest[i - 1] && r[i + 1] == rest[i];
          }
        }
      }
    }
  }

  /** A stored file name holds no `/`, no `\` and no `..`, so it stays one path component of the blob name. */
  lemma SanitizeSafe(name: string)
    ensures var r := Sanitize(name);
      '/' !in r && '\\' !in r && !Contains(r, "..")
  {
    var s := ReplaceChar(ReplaceChar(name, '/', '_'), '\\', '_');
    assert forall i :: 0 <= i < |s| ==> s[i] != '/' && s[i] != '\\';
    var r := Sanitize(name);
    forall i | 0 <= i < |r| ensures r[i] != '/' && r[i] != '\\' {
      assert r[i] in s || r[i] in "_";
    }
    ReplaceDotsLeavesNoPair(s);
    forall i | 0 <= i <= |r| - 2 ensures !OccursAt(r, "..", i) {
      assert r[i..i + 2][0] == r[i] && r[i..i + 2][1] == r[i + 1];
    }
  }

  /** The estimate never grows as progress grows, and is 0 exactly at 100% or more. */
  lemma EstimatedTimeFalls(p: int, q: int)
    requires p <= q
    ensures EstimatedTime(q) <= EstimatedTime(p)
    ensures EstimatedTime(p) == 0 <==> p >= 100
  {
  }

  /**
   * The worker ends completed exactly when extraction succeeds, with the
   * chunk count and no time remaining; a failed file keeps the message and
   * its progress of 30, so its estimate stays at 30 seconds.
   */
  lemma FinishedStatus(st: TaskStatus, text: Result<string, string>)
    ensures var f := Finished(st, text);
      && (f.state == Completed <==> text.Success?)
      && (f.state == Error <==> text.Failure?)
      && 0 <= f.progress <= 100
      && (text.Success? ==> f.chunks == |ChunksOf(text)| && EstimatedTime(f.progress) == 0
                            && Report("", f).processed)
      && (text.Failure? ==> f.error == Some(text.error) && f.chunks == st.chunks
                            && EstimatedTime(f.progress) == 30 && !Report("", f).processed)
  {
  }

  /** Between two and three chunks' worth of text, the hybrid retriever gets the 100-character overlap twice. */
  lemma HybridTextRepeatsOverlap(t: string)
    requires 500 < |t| <= 900
    ensures ChunksOf(Success(t)) == [t[..500], t[400..]]
    ensures Join(ChunksOf(Success(t)), '\n') == t[..500] + "\n" + t[400..]
    ensures |Join(ChunksOf(Success(t)), '\n')| == |t| + 101
  {
    assert Chunker.Min(400 + 500, |t|) == |t|;
    assert Chunker.ChunksFrom(t, 400, 500, 400) == [t[400..|t|]];
    assert Chunker.Min(0 + 500, |t|) == 500;
    assert Chunker.ChunksFrom(t, 0, 500, 400) == [t[0..500]] + Chunker.ChunksFrom(t, 400, 500, 400);
    assert ChunksOf(Success(t)) == Chunker.ChunksFrom(t, 0, 500, 400);
    var c := [t[0..500]] + [t[400..|t|]];
    assert |c| == 2 && c[0] == t[..500] && c[1] == t[400..];
  }

  /** A chunk-map id splits on `_` into `file`, the parts of the file id, `chunk` and the index. */
  lemma ChunkMapIdParts(fileId: string, i: nat)
    ensures Split(Hybrid.ChunkMapId(fileId, i), '_') == ["file"] + Split(fileId, '_') + ["chunk", NatToString(i)]
  {
    var d := NatToString(i);
    assert Hybrid.ChunkMapId(fileId, i) == "file" + ['_'] + fileId + ['_'] + "chunk" + ['_'] + d;
    assert forall k :: 0 <= k < |d| ==> IsDigit(d[k]);
    SplitFramed("file", fileId, "chunk", d, '_');
  }

  /** The chunk endpoint reads back the index a chunk was stored under, and files it under its own file. */
  lemma ChunkIndexRoundTrip(fileId: string, i: nat)
    ensures ChunkIndexOf(Hybrid.ChunkMapId(fileId, i)) == Some(i)
    ensures OwnedBy(fileId)(Hybrid.ChunkMapId(fileId, i))
  {
    ChunkMapIdParts(fileId, i);
    ParseIntOfIntToString(i);
    assert Hybrid.ChunkMapId(fileId, i)[..|ChunkPrefix(fileId)|] == ChunkPrefix(fileId);
  }

  /**
   * The chat endpoint names the source of a chunk of an uploaded file by
   * that file's first record, whatever `_` the file id holds.
   */
  lemma SourceOfFileChunk(fileId: string, i: nat, files: seq<FileRecord>)
    ensures SourceFileName(Hybrid.ChunkMapId(fileId, i), files) ==
      match FirstRecord(files, fileId)
      case Some(j) => files[j].name
      case None => UnknownDocument
  {
    var key := Hybrid.ChunkMapId(fileId, i);
    ChunkMapIdParts(fileId, i);
    var parts := Split(key, '_');
    assert parts[1..|parts| - 2] == Split(fileId, '_');
    JoinSplit(fileId, '_');
    assert key[..5] == "file_";
  }

  /** For positive arguments a page is the window `[(page - 1) * per_page, page * per_page)`, cut at the end. */
  lemma PageWindow<T>(items: seq<T>, page: int, perPage: int)
    requires 1 <= page && 1 <= perPage
    ensures var lo := (page - 1) * perPage;
      PageOf(items, page, perPage) ==
        if |items| <= lo then [] else items[lo..Chunker.Min(lo + perPage, |items|)]
    ensures |PageOf(items, page, perPage)| <= perPage
  {
    var lo := (page - 1) * perPage;
    MulNonNegative(page - 1, perPage);
    assert Slice(items, lo, lo + perPage) ==
      if |items| <= lo then [] else items[lo..Chunker.Min(lo + perPage, |items|)];
  }

  lemma MulNonNegative(a: int, b: int)
    requires 0 <= a && 0 <= b
    ensures 0 <= a * b
  {
  }

  lemma PositiveFactor(a: int, b: int)
    requires 0 < b && 0 < a * b
    ensures 0 < a
  {
  }

  /** `totalPages` is the ceiling of the chunk count over the page size. */
  lemma TotalPagesCeiling(n: nat, perPage: int)
    requires 1 <= perPage
    ensures var t := FloorDiv(n + perPage - 1, perPage);
      0 <= t && (t - 1) * perPage < n <= t * perPage
  {
    var t := (n + perPage - 1) / perPage;
    var r := (n + perPage - 1) % perPage;
    assert n + perPage - 1 == t * perPage + r;
    assert (t - 1) * perPage == t * perPage - perPage;
  }

  /** Every item lies on one of the pages 1..totalPages, at its offset within that page. */
  lemma PagesCover<T>(items: seq<T>, perPage: int, k: int)
    requires 1 <= perPage && 0 <= k < |items|
    ensures var page := k / perPage + 1;
      && 1 <= page <= FloorDiv(|items| + perPage - 1, perPage)
      && k - (page - 1) * perPage < |PageOf(items, page, perPage)|
      && PageOf(items, page, perPage)[k - (page - 1) * perPage] == items[k]
  {
    var q := k / perPage;
    var page := q + 1;
    assert k == q * perPage + k % perPage;
    assert (page - 1) * perPage == q * perPage;
    PageWindow(items, page, perPage);
    TotalPagesCeiling(|items|, perPage);
    var t := FloorDiv(|items| + perPage - 1, perPage);
    assert (t - q) * perPage == t * perPage - q * perPage;
    PositiveFactor(t - q, perPage);
  }

  /** Page 0 is empty, and page -1 is the second-to-last window of `per_page` items, counted from the end. */
  lemma NonPositivePages<T>(items: seq<T>, perPage: int)
    requires 1 <= perPage
    ensures PageOf(items, 0, perPage) == []
    ensures 2 * perPage <= |items| ==>
      PageOf(items, -1, perPage) == items[|items| - 2 * perPage..|items| - perPage]
  {
  }

  /** After a successful deletion none of the file's chunks is left. */
  lemma DeleteRemovesFileChunks(m: Dict<string, string>, fileId: string, i: nat)
    ensures Get(RemoveWhere(m, OwnedBy(fileId)), Hybrid.ChunkMapId(fileId, i)) == None
  {
    ChunkIndexRoundTrip(fileId, i);
    GetRemoveWhere(m, OwnedBy(fileId), Hybrid.ChunkMapId(fileId, i));
  }

  /**
   * Deleting a file keeps every chunk of another file whose id has the same
   * length, which holds for all ids made in years 1000 to 9999.
   */
  lemma DeleteSparesOtherFiles(m: Dict<string, string>, fileId: string, other: string, i: nat)
    requires |other| == |fileId| && other != fileId
    ensures Get(RemoveWhere(m, OwnedBy(fileId)), Hybrid.ChunkMapId(other, i)) ==
            Get(m, Hybrid.ChunkMapId(other, i))
  {
    var key, prefix := Hybrid.ChunkMapId(other, i), ChunkPrefix(fileId);
    GetRemoveWhere(m, OwnedBy(fileId), key);
    assert key[..|prefix|][5..5 + |fileId|] == other;
    assert prefix[5..5 + |fileId|] == fileId;
    assert !OwnedBy(fileId)(key);
  }

  /** Two uploads' ids of four-digit years have the same length, so deleting one keeps the other's chunks. */
  lemma DeleteSparesOtherUploads(m: Dict<string, string>, t1: GcsStorage.DateTime, h1: int,
                                 t2: GcsStorage.DateTime, h2: int, i: nat)
    requires GcsStorage.FourDigitYear(t1) && GcsStorage.FourDigitYear(t2)
    requires GcsStorage.FileId(t1, h1) != GcsStorage.FileId(t2, h2)
    ensures var doomed, kept := GcsStorage.FileId(t1, h1), GcsStorage.FileId(t2, h2);
      Get(RemoveWhere(m, OwnedBy(doomed)), Hybrid.ChunkMapId(kept, i)) == Get(m, Hybrid.ChunkMapId(kept, i))
  {
    GcsStorage.FileIdLength(t1, h1);
    GcsStorage.FileIdLength(t2, h2);
    DeleteSparesOtherFiles(m, GcsStorage.FileId(t1, h1), GcsStorage.FileId(t2, h2), i);
  }

  /** Without equal lengths the prefix test reaches further: deleting `a` would take the chunks of `a_chunk_1`. */
  lemma PrefixReachesLongerIds()
    ensures OwnedBy("a")(Hybrid.ChunkMapId("a_chunk_1", 0))
  {
    assert Hybrid.ChunkMapId("a_chunk_1", 0)[..|ChunkPrefix("a")|] == ChunkPrefix("a");
  }

  /** The deletion reports as many chunks as it removes. */
  lemma DeletedCount(m: Dict<string, string>, fileId: string)
    ensures |RemoveWhere(m, OwnedBy(fileId))| + |KeysWhere(m, OwnedBy(fileId))| == |m|
  {
    RemoveWhereCount(m, OwnedBy(fileId));
  }

  /**
   * The file list is newest first, holds every record's view once, and
   * keeps files uploaded in the same second in upload order.
   */
  lemma FileViewsOrder(files: seq<FileRecord>, statuses: map<string, TaskStatus>)
    ensures var vs := FileViews(files, statuses);
      && |vs| == |files|
      && (forall i, j :: 0 <= i < j < |vs| ==> vs[i].uploadedAt >= vs[j].uploadedAt)
      && multiset(vs) == multiset(Views(files, statuses))
      && (forall t :: WithKey(vs, Newest, t) == WithKey(Views(files, statuses), Newest, t))
  {
    var vs := FileViews(files, statuses);
    SortBySorted(Views(files, statuses), Newest);
    SortByPermutation(Views(files, statuses), Newest);
    forall t {
      SortByStable(Views(files, statuses), Newest, t);
    }
    forall i, j | 0 <= i < j < |vs| ensures vs[i].uploadedAt >= vs[j].uploadedAt {
      assert Newest(vs[i]) <= Newest(vs[j]);
    }
  }

  /**
   * A listed file is processed exactly when its status says completed;
   * with a status it shows that status, without one it counts as
   * completed exactly when it has chunks.
   */
  lemma ViewRules(f: FileRecord, statuses: map<string, TaskStatus>)
    ensures var v := ViewOf(f, statuses);
      && v.id == f.id && v.name == f.name && v.uploadedAt == f.uploadedAt
      && (v.processed <==> v.state == "completed")
      && (f.id in statuses ==> v.state == statuses[f.id].state.Value() && v.progress == statuses[f.id].progress
                               && v.error == statuses[f.id].error)
      && (f.id !in statuses ==> (v.processed <==> f.chunks > 0) && v.progress == if f.chunks > 0 then 100 else 0)
  {
  }

  /** A status query changes at most the first record with the id, and only its chunk count. */
  lemma WithChunksEffect(files: seq<FileRecord>, id: string, chunks: nat)
    ensures var r := WithChunks(files, id, chunks);
      && |r| == |files|
      && forall j :: 0 <= j < |files| ==>
           r[j] == if FirstRecord(files, id) == Some(j) then files[j].(chunks := chunks) else files[j]
  {
  }

  /** Each embedding is kept under its chunk's id; every other key keeps its embedding. */
  lemma {:induction false} PutEmbeddingsEffect(m: map<string, Vec>, fileId: string, es: seq<Vec>, k: string)
    ensures forall i :: 0 <= i < |es| ==>
      Hybrid.ChunkMapId(fileId, i) in PutEmbeddings(m, fileId, es) && PutEmbeddings(m, fileId, es)[Hybrid.ChunkMapId(fileId, i)] == es[i]
    ensures (forall i :: 0 <= i < |es| ==> k != Hybrid.ChunkMapId(fileId, i)) ==>
      (k in PutEmbeddings(m, fileId, es) <==> k in m)
      && (k in m ==> PutEmbeddings(m, fileId, es)[k] == m[k])
    decreases |es|
  {
    if |es| != 0 {
      var n := |es| - 1;
      PutEmbeddingsEffect(m, fileId, es[..n], k);
      forall i | 0 <= i < n ensures Hybrid.ChunkMapId(fileId, i) != Hybrid.ChunkMapId(fileId, n) {
        Hybrid.ChunkMapIdsDistinct(fileId, i, n);
      }
    }
  }
}
