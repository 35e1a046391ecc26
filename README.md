# A verified model of the retrieval core of google-vertexai-rag

google-vertexai-rag is a Flask service for question answering over legal
documents. Uploaded files are stored in Cloud Storage. A background worker
extracts their text, cuts it into overlapping 500-character chunks, embeds
the chunks and indexes them. Queries are answered from two retrieval paths:

- a local FAISS index (`FastVectorSearch` and `FastRAGRetrieval`);
- Vertex AI Vector Search, or an in-memory similarity search over
  precomputed embeddings (`rag_retrieval`).

`HybridRetrieval` fuses the two paths by weighted reciprocal-rank fusion,
with keyword and similarity boosts. `generate_answer_with_llm` then chooses
one of three answer modes from the best similarity.

This project models that core in Dafny, one module per source file:

| module | file | what it holds |
|---|---|---|
| `Chunker` | `src/data_preprocessing.py` | `chunk_text` as a loop proved against `Chunks`, and its windows, overlap, coverage and count |
| `Cache` | `src/cache_manager.py` | `CacheManager`, a class over three maps |
| `VectorSearch` | `src/fast_vector_search.py` | `FastVectorSearch`: position and metadata bookkeeping, and the flat/IVF upgrade and downgrade |
| `FastRag` | `src/fast_rag_retrieval.py` | `FastRAGRetrieval`: chunk records, score filtering and result conversion |
| `RagRetrieval` | `src/rag_retrieval.py` | the fallback tree of `retrieve_relevant_chunks`, and the fast and simple similarity searches |
| `Fusion` | `src/hybrid_retrieval.py` | deduplication, keyword boost, reciprocal-rank fusion, weighted fusion and merging |
| `Hybrid` | `src/hybrid_retrieval.py` | the `HybridRetrieval` class: strategies, statistics and the chunk map |
| `RagGeneration` | `src/rag_generation.py` | the answer-mode and confidence choice |
| `VectorFormat` | `src/vector_data_formatter.py` | the JSONL and CSV layouts of Vertex AI Vector Search input data |
| `VertexIntegration` | `src/vertex_ai_integration.py` | datapoints and restricts, and the guards of search and export |
| `GcsStorage` | `src/gcs_storage.py` | blob naming, parsing and listing |
| `ApiServer` | `api_server.py` | the upload/status/worker/list/delete/chunks endpoints over the module-level state |

Four helper modules support them:

- `Wrappers`: `Option` and `Result`.
- `Text`: Python's `str(int)`, `int(str)`, `split`/`join`, slicing, `lower` and `replace`.
- `Sorting`: Python's stable `sort(key=…)`.
- `OrderedDict`: a Python dictionary with its insertion order.

Everything the core calls out to is a parameter of the operation that calls it:

- the embedding model, the sentence encoder, FAISS search and cosine similarity;
- the language model, Cloud Storage, Vertex AI and the text extractors;
- the clock and Python's `hash`.

Code that updates objects in place is modelled as classes with `modifies`
clauses. Loops are modelled as methods proved against specification
functions. Pure code is modelled as functions and lemmas.

## Model

| member | source | states |
|---|---|---|
| Chunker.ChunkText | google-vertexai-rag/src/data_preprocessing.py:24-46 | the loop returns exactly `Chunks(text, chunkSize, overlapSize)`, the windowed specification, for any overlap when the text is no longer than one chunk |
| Chunker.ShortTextOneChunk | google-vertexai-rag/src/data_preprocessing.py:33-39 | a non-empty text no longer than `chunk_size` is one chunk, whatever the overlap, because the loop breaks once the end is reached |
| Chunker.ChunksEmpty | google-vertexai-rag/src/data_preprocessing.py:28-36 | the chunk list is empty exactly when the text is empty |
| Chunker.ChunkWindow | google-vertexai-rag/src/data_preprocessing.py:33-42 | chunk `i` is `text[i*step : min(i*step + chunkSize, len(text))]` with `step = chunkSize - overlapSize`; every chunk but the last is a full window |
| Chunker.ChunksFromWindows | google-vertexai-rag/src/data_preprocessing.py:33-42 | the same window law for the chunks produced from any start position |
| Chunker.ChunkLengths | google-vertexai-rag/src/data_preprocessing.py:34-36 | every chunk is non-empty and at most `chunkSize` long; all but the last are exactly `chunkSize` long |
| Chunker.LastChunkReachesEnd | google-vertexai-rag/src/data_preprocessing.py:34-39 | with a non-negative overlap, the last chunk ends at the end of the text, so every character is covered |
| Chunker.ChunkCount | google-vertexai-rag/src/data_preprocessing.py:32-41 | there is one chunk when the text fits in one window; otherwise `1 + ceil((len - chunkSize) / step)` |
| Chunker.ConsecutiveChunksOverlap | google-vertexai-rag/src/data_preprocessing.py:33-42 | the last `overlapSize` characters of chunk `i` are the first `overlapSize` characters of chunk `i + 1` |
| Chunker.WindowsOverlap | google-vertexai-rag/src/data_preprocessing.py:33-42 | two windows `chunkSize - overlapSize` apart share `overlapSize` characters |
| Chunker.ChunksWithoutOverlapConcat | google-vertexai-rag/src/data_preprocessing.py:33-42 | with overlap 0, the chunks concatenated give back the text |
| Cache.CacheManager.constructor | google-vertexai-rag/src/cache_manager.py:13-25 | a cache that cannot load its files starts with three empty maps |
| Cache.CacheManager.CacheChunks | google-vertexai-rag/src/cache_manager.py:95-107 | the file's entry holds the chunks and `chunk_count = len(chunks)`; the other maps are unchanged; reading back with the same hash gives the chunks |
| Cache.CacheManager.GetCachedChunks | google-vertexai-rag/src/cache_manager.py:110-126 | the chunks are returned exactly when the id is cached and no non-empty hash differs from the stored one |
| Cache.CacheManager.CacheEmbeddings | google-vertexai-rag/src/cache_manager.py:128-132 | the embedding cache becomes the old cache overridden by the new vectors; nothing else changes |
| Cache.CacheManager.GetCachedEmbeddings | google-vertexai-rag/src/cache_manager.py:134-144 | the result holds exactly the requested ids that are cached, each with its stored vector |
| Cache.CacheManager.CacheFileMetadata | google-vertexai-rag/src/cache_manager.py:146-151 | the file's metadata entry is the given fields with the two stamps; nothing else changes |
| Cache.CacheManager.GetCachedFileMetadata | google-vertexai-rag/src/cache_manager.py:153-155 | the stored entry, or none exactly when the id has no metadata |
| Cache.CacheManager.HasCachedData | google-vertexai-rag/src/cache_manager.py:157-159 | true exactly when chunks for the id can be read without a hash |
| Cache.CacheManager.ClearCache | google-vertexai-rag/src/cache_manager.py:161-189 | with a non-empty id: removes its chunk and metadata entries and exactly the embeddings keyed `file_<id>_…`; without one: all three maps become empty |
| Cache.CacheManager.GetCacheStats | google-vertexai-rag/src/cache_manager.py:191-202 | the counts are the map sizes, and `cache_size.chunks` is the total number of cached chunks |
| Cache.TotalChunksRemove | google-vertexai-rag/src/cache_manager.py:198 | the chunk total splits into one file's chunks plus the total of the rest |
| Cache.TotalChunksAfterCaching | google-vertexai-rag/src/cache_manager.py:191-202 | caching a file replaces exactly that file's share of the chunk total |
| Cache.CacheManager.CleanupOldCache | google-vertexai-rag/src/cache_manager.py:204-226 | removes exactly the chunk and metadata entries older than `max_age_days` days (strictly); embeddings are never touched |
| VectorSearch.ISqrt | google-vertexai-rag/src/fast_vector_search.py:264 | `int(np.sqrt(n))` is the integer square root: `s*s <= n < (s+1)*(s+1)` |
| VectorSearch.ISqrtFrom | google-vertexai-rag/src/fast_vector_search.py:264 | the upward search from any `r` with `r*r <= n` ends at the integer square root |
| VectorSearch.Clusters | google-vertexai-rag/src/fast_vector_search.py:264 | the cluster count lies in 10..256 and is the integer square root of the vector count whenever it lies strictly between the bounds |
| VectorSearch.FastVectorSearch.constructor | google-vertexai-rag/src/fast_vector_search.py:17-75 | a loadable saved index is used as is; a missing store gives an empty flat index, and an unreadable one also empties the metadata |
| VectorSearch.FastVectorSearch.Reconstruct | google-vertexai-rag/src/fast_vector_search.py:259-261 | the fresh array holds every stored vector in position order |
| VectorSearch.FastVectorSearch.UpgradeToIvf | google-vertexai-rag/src/fast_vector_search.py:251-282 | the new state is `Upgraded(old state)`: a non-empty index becomes a trained IVF index over the same vectors; on an empty index or a failure nothing changes |
| VectorSearch.FastVectorSearch.DowngradeToFlat | google-vertexai-rag/src/fast_vector_search.py:284-312 | the new state is `Downgraded(old state)`: a flat index over the same vectors, or an empty flat index when rebuilding raises |
| VectorSearch.FastVectorSearch.Prepare | google-vertexai-rag/src/fast_vector_search.py:140-158 | the upgrade, training or downgrade before adding `n` vectors yields `Prepared(old state, n)` |
| VectorSearch.FastVectorSearch.RecordMetadata | google-vertexai-rag/src/fast_vector_search.py:165-174 | the metadata loop stores one entry per document under its decimal position and returns the consecutive positions; the vectors are unchanged |
| VectorSearch.FastVectorSearch.AddDocuments | google-vertexai-rag/src/fast_vector_search.py:117-182 | the new state is `AfterAdd(old state, docs)` and the result is `AddedPositions(old state, docs)`; no documents change nothing and return `[]` |
| VectorSearch.Embed | google-vertexai-rag/src/fast_vector_search.py:134-137 | one vector per document |
| VectorSearch.AddedPositions | google-vertexai-rag/src/fast_vector_search.py:161-174 | one position per document |
| VectorSearch.AddDocumentsEffect | google-vertexai-rag/src/fast_vector_search.py:140-182 | positions are `start..start+n-1`, with `start` the size of the prepared index; each position holds its document's vector; each document's metadata (source defaulting to `unknown`, id to `doc_<pos>`) sits under its position; other metadata is unchanged; old vectors survive unless a downgrade fails |
| VectorSearch.AddDocumentsVectors | google-vertexai-rag/src/fast_vector_search.py:140-182 | the vector half: the old vectors of the prepared index stay in front and document `i` is at position `start + i` |
| VectorSearch.AddDocumentsMetadata | google-vertexai-rag/src/fast_vector_search.py:165-174 | the metadata half: exactly the new positions are added, each with its document's metadata, and other entries keep their values |
| VectorSearch.PreparedKeeps | google-vertexai-rag/src/fast_vector_search.py:140-158 | preparing the index (upgrade, training, downgrade) keeps the metadata, and keeps the vectors unless a failed downgrade empties the index |
| VectorSearch.PutMetadataEntries | google-vertexai-rag/src/fast_vector_search.py:165-174 | the recorded metadata gains exactly the new positions' keys, each with its document's entry, and keeps every other key |
| VectorSearch.PutMetadataKeys | google-vertexai-rag/src/fast_vector_search.py:165-174 | the recorded metadata has exactly the old keys and the new positions' keys |
| VectorSearch.PutMetadataAt | google-vertexai-rag/src/fast_vector_search.py:165-174 | each new position's key holds the entry of the document at that position |
| VectorSearch.PutMetadataOther | google-vertexai-rag/src/fast_vector_search.py:165-174 | a key that is not a new position keeps its old entry |
| VectorSearch.RebuildKeepsVectors | google-vertexai-rag/src/fast_vector_search.py:251-312 | upgrading keeps vectors and metadata and is trained exactly when it succeeded on a non-empty index; downgrading gives a flat index that keeps the vectors only when rebuilding succeeds |
| VectorSearch.PreparedIsTrained | google-vertexai-rag/src/fast_vector_search.py:144-158 | after preparation the index is always trained, so adding vectors is accepted |
| VectorSearch.UpgradeCondition | google-vertexai-rag/src/fast_vector_search.py:144-146 | a flat index becomes IVF exactly when the new total reaches 500 and the old index is non-empty, with `Clusters(old count)` clusters |
| VectorSearch.ValidRows | google-vertexai-rag/src/fast_vector_search.py:210-212 | collection stops at the first `-1` position: every earlier row is valid |
| VectorSearch.ResultsUpTo | google-vertexai-rag/src/fast_vector_search.py:210-225 | result `i` is the row's hit with rank `i + 1` and the metadata defaults of `search` |
| VectorSearch.FastVectorSearch.Search | google-vertexai-rag/src/fast_vector_search.py:184-231 | the loop returns `SearchResults(state, hits)`: `[]` on an empty index, else one result per row up to the first `-1` |
| VectorSearch.SearchResultsBound | google-vertexai-rag/src/fast_vector_search.py:195-225 | with distinct in-range positions, there are no more results than rows and than stored vectors |
| VectorSearch.DistinctCount | google-vertexai-rag/src/fast_vector_search.py:210-225 | rows with distinct positions have as many positions as rows |
| VectorSearch.BoundedSetCount | google-vertexai-rag/src/fast_vector_search.py:195-225 | positions below `n` number at most `n` |
| VectorSearch.FastVectorSearch.GetStats | google-vertexai-rag/src/fast_vector_search.py:233-241 | `total_documents` is the vector count, `metadata_count` the metadata size, `index_trained` the index's training |
| VectorSearch.FastVectorSearch.ClearIndex | google-vertexai-rag/src/fast_vector_search.py:243-249 | no vectors and no metadata remain; the index kind is kept |
| FastRag.SourceName | google-vertexai-rag/src/fast_rag_retrieval.py:76 | `filename or file_id`: the filename unless it is absent or empty |
| FastRag.ChunkRecords | google-vertexai-rag/src/fast_rag_retrieval.py:71-78 | one record per chunk |
| FastRag.FastRAGRetrieval.constructor | google-vertexai-rag/src/fast_rag_retrieval.py:17-47 | a fresh vector index with the model and cache directory, loaded as `FastVectorSearch` loads |
| FastRag.FastRAGRetrieval.AddDocument | google-vertexai-rag/src/fast_rag_retrieval.py:49-84 | the index receives exactly `FileRecords(file, text, filename)` and the count of records is returned (0 and no change for an empty text) |
| FastRag.FileRecordsEmpty | google-vertexai-rag/src/fast_rag_retrieval.py:64-68 | a file gives no record exactly when its text is empty |
| FastRag.FileRecordWindow | google-vertexai-rag/src/fast_rag_retrieval.py:64-78 | record `i` has id `{file_id}_chunk_{i}`, source `filename or file_id`, and text `text[400*i : 400*i + 500]` |
| FastRag.ChunkIdsDistinct | google-vertexai-rag/src/fast_rag_retrieval.py:74 | the chunk ids of one file are pairwise distinct |
| FastRag.FastRAGRetrieval.AddDocumentsBatch | google-vertexai-rag/src/fast_rag_retrieval.py:86-131 | the index receives exactly `BatchRecords(docs)`, the records of every document in document order, and their count is returned; an empty batch changes nothing |
| FastRag.BatchRecordsAppend | google-vertexai-rag/src/fast_rag_retrieval.py:105-121 | the records of a concatenated batch are the concatenation of the records |
| FastRag.BatchOfOne | google-vertexai-rag/src/fast_rag_retrieval.py:76-118 | a one-document batch submits what `add_document` submits, except that an empty filename stays the source in the batch (`doc.get`) where `add_document` falls back to the file id |
| FastRag.FastRAGRetrieval.Search | google-vertexai-rag/src/fast_rag_retrieval.py:133-177 | the loop returns `KeepAbove(index results, min_score)` |
| FastRag.KeepAboveExactly | google-vertexai-rag/src/fast_rag_retrieval.py:152-167 | exactly the results with `similarity >= min_score` are kept, each with `id == datapoint_id` and `distance = 1 - similarity` |
| FastRag.KeepAboveAppend | google-vertexai-rag/src/fast_rag_retrieval.py:152-167 | filtering preserves order: filtering a concatenation concatenates the filtered parts |
| FastRag.PreviewShape | google-vertexai-rag/src/fast_rag_retrieval.py:165 | the preview is the text when it has at most 100 characters, else its first 100 characters and `...` |
| FastRag.FastRAGRetrieval.GetStats | google-vertexai-rag/src/fast_rag_retrieval.py:179-190 | the engine's count, dimension, model and training, with the cache directory |
| FastRag.FastRAGRetrieval.ClearIndex | google-vertexai-rag/src/fast_rag_retrieval.py:192-195 | the index is emptied of vectors and metadata |
| FastRag.FastRAGRetrieval.RebuildIndex | google-vertexai-rag/src/fast_rag_retrieval.py:198-212 | the new state is the batch added to an emptied index, and the batch's count is returned |
| FastRag.RebuildContents | google-vertexai-rag/src/fast_rag_retrieval.py:198-212 | after a rebuild the index holds exactly the batch's vectors at positions `0..n-1`, each with its record's metadata |
| FastRag.PreparedEmpty | google-vertexai-rag/src/fast_rag_retrieval.py:204-207 | preparing an emptied index keeps it empty |
| FastRag.RetrieveRelevantChunksFast | google-vertexai-rag/src/fast_rag_retrieval.py:215-244 | `search` with `k = num_neighbors` and `min_score = min_similarity` |
| RagRetrieval.FastSimilaritySearch | google-vertexai-rag/src/rag_retrieval.py:88-131 | the loop returns `FastSearch(...)`: the sorted top `n` of the candidates, or `[]` when a similarity raises |
| RagRetrieval.FastCandidatesStaysNone | google-vertexai-rag/src/rag_retrieval.py:92-131 | once one similarity raises, the whole fast search has raised |
| RagRetrieval.FastCandidatesExactly | google-vertexai-rag/src/rag_retrieval.py:96-110 | the candidates are exactly the chunk-map entries that have a precomputed embedding, each with `distance = 1 - similarity` |
| RagRetrieval.SimpleSimilaritySearch | google-vertexai-rag/src/rag_retrieval.py:133-173 | the loop returns the sorted top `n` of `SimpleCandidates(...)` |
| RagRetrieval.SimpleCandidatesExactly | google-vertexai-rag/src/rag_retrieval.py:141-160 | the candidates are exactly the chunks whose embedding and similarity succeed (the others are skipped), each with `distance = 1 - similarity` |
| RagRetrieval.TopNIsTop | google-vertexai-rag/src/rag_retrieval.py:112-116 | the result is sorted by ascending distance, drawn from the candidates, `min(n, count)` long, and no left-out candidate is closer than a kept one |
| Sorting.SortByPrefix | google-vertexai-rag/src/rag_retrieval.py:112-116 | the first `m` elements of the stable sort are sorted, drawn from the input, and no element left out ranks before a kept one |
| RagRetrieval.RetrieveRelevantChunks | google-vertexai-rag/src/rag_retrieval.py:7-86 | the branches return `Retrieve(...)` |
| RagRetrieval.FastPathOnly | google-vertexai-rag/src/rag_retrieval.py:38-42 | with a non-empty chunk map and embeddings only the fast search runs; the Vertex AI answer and the chunk embedder do not matter |
| RagRetrieval.LocalResultsFromChunkMap | google-vertexai-rag/src/rag_retrieval.py:38-58 | without a Vertex AI answer, every result names a chunk of the map with `distance = 1 - similarity`, and there are at most `num_neighbors` |
| RagRetrieval.RetrieveFallbacks | google-vertexai-rag/src/rag_retrieval.py:29-79 | an empty query embedding gives `[]`; a failed Vertex AI call without a chunk map gives the two mock results |
| Fusion.Convert | google-vertexai-rag/src/hybrid_retrieval.py:501-528 | one record per result dictionary |
| Fusion.ConvertedResults | google-vertexai-rag/src/hybrid_retrieval.py:501-528 | each record is tagged with its path and has its similarity as confidence; its distance is `1 - similarity` unless the dictionary carried another; a result without id or datapoint id is named `<path>_<i>` |
| Fusion.Ids | google-vertexai-rag/src/hybrid_retrieval.py:392-398 | the ids of the results, position by position |
| Fusion.FirstIndex | google-vertexai-rag/src/hybrid_retrieval.py:392-398 | the position of the first occurrence of an id, or the length when there is none |
| Fusion.FirstIndexSnoc | google-vertexai-rag/src/hybrid_retrieval.py:392-398 | appending an id moves no first occurrence |
| Fusion.DeduplicateResults | google-vertexai-rag/src/hybrid_retrieval.py:390-400 | the loop with its `seen_ids` set returns `Dedup(results)` |
| Fusion.DedupIds | google-vertexai-rag/src/hybrid_retrieval.py:390-400 | the kept ids are distinct and are exactly the input's ids |
| Fusion.DedupFirst | google-vertexai-rag/src/hybrid_retrieval.py:390-400 | each kept result is the first result of the input with its id |
| Fusion.DedupOrder | google-vertexai-rag/src/hybrid_retrieval.py:390-400 | kept results keep their relative input order |
| Fusion.DedupUniq | google-vertexai-rag/src/hybrid_retrieval.py:390-400 | the kept ids are the input's ids without repetitions, in order of first occurrence |
| Fusion.Matched | google-vertexai-rag/src/hybrid_retrieval.py:464-466 | the keywords found are among the query's keywords |
| Fusion.ExactlyMatched | google-vertexai-rag/src/hybrid_retrieval.py:464-470 | a whole-word match is a match, so `exact <= matches` |
| Fusion.KeywordBoost | google-vertexai-rag/src/hybrid_retrieval.py:455-484 | the boost is 0 without keywords or text, and always lies in `[0, 2.3]` |
| Fusion.AllWholeWordsBoost | google-vertexai-rag/src/hybrid_retrieval.py:473-477 | a text in which every keyword occurs as a whole word earns at least 1.4 |
| Fusion.SubsetCard | google-vertexai-rag/src/hybrid_retrieval.py:473-474 | a subset of the keywords is no larger than the keyword set |
| Fusion.Ratio | google-vertexai-rag/src/hybrid_retrieval.py:473-474 | each share of matched keywords lies in `[0, 1]` |
| Fusion.Contributions | google-vertexai-rag/src/hybrid_retrieval.py:416-439 | one (id, contribution) pair per result of a path |
| Fusion.RrfIds | google-vertexai-rag/src/hybrid_retrieval.py:416-439 | the contributions name the FAISS ids, then the Vertex AI ids, in rank order |
| Fusion.AddPathScores | google-vertexai-rag/src/hybrid_retrieval.py:416-439 | the loop over one path leaves `scores` equal to `Accumulate(scores, contributions)`, where each occurrence at 0-based rank `r` adds `w/(rrf_k + r + 1) + keyword boost + 0.3 * similarity` |
| Fusion.AccumulateConcat | google-vertexai-rag/src/hybrid_retrieval.py:416-439 | adding both paths' contributions is adding FAISS's, then Vertex AI's |
| Fusion.AccumulateDistinct | google-vertexai-rag/src/hybrid_retrieval.py:426-439 | the score dictionary has one entry per id |
| Fusion.AccumulateKeys | google-vertexai-rag/src/hybrid_retrieval.py:426-439 | its keys are the ids in order of first appearance |
| Fusion.SumForLast | google-vertexai-rag/src/hybrid_retrieval.py:426-439 | one more contribution adds to its id's sum and no other |
| Fusion.AccumulateSums | google-vertexai-rag/src/hybrid_retrieval.py:426-439 | each entry holds the sum of all contributions to its id |
| Fusion.SumForAbsent | google-vertexai-rag/src/hybrid_retrieval.py:426-439 | an id without contributions sums to 0 |
| Fusion.NegScore | google-vertexai-rag/src/hybrid_retrieval.py:442 | `reverse=True` on the score is ascending on the negated score |
| Fusion.LastWithId | google-vertexai-rag/src/hybrid_retrieval.py:410 | `result_map[id]` is a result with that id, the last one |
| Fusion.LastWithIdDistinct | google-vertexai-rag/src/hybrid_retrieval.py:410 | over de-duplicated results, `result_map` gives each id its only result |
| Fusion.RankResults | google-vertexai-rag/src/hybrid_retrieval.py:444-453 | the ranking loop returns `Ranked(sorted items, results)` |
| Fusion.RankedAll | google-vertexai-rag/src/hybrid_retrieval.py:444-453 | when every sorted id has a result, every entry is ranked, at its sorted position |
| Fusion.PermutationDistinctKeys | google-vertexai-rag/src/hybrid_retrieval.py:442 | sorting the score items keeps their keys distinct |
| Fusion.DistinctKeysOnce | google-vertexai-rag/src/hybrid_retrieval.py:442 | with distinct keys each score item occurs once |
| Fusion.TwoPositions | google-vertexai-rag/src/hybrid_retrieval.py:442 | an item at two positions occurs at least twice |
| Fusion.UniqMembers | google-vertexai-rag/src/hybrid_retrieval.py:392-398 | the ids without repetitions are the ids |
| Fusion.SortedEntry | google-vertexai-rag/src/hybrid_retrieval.py:442 | each sorted item is an entry of the score dictionary |
| Fusion.SortedCovers | google-vertexai-rag/src/hybrid_retrieval.py:442 | each key of the score dictionary is among the sorted items |
| Fusion.SortedScores | google-vertexai-rag/src/hybrid_retrieval.py:426-442 | the sorted scores have one entry per distinct id, in descending order of score, each holding its id's sum |
| Fusion.RankedEntries | google-vertexai-rag/src/hybrid_retrieval.py:444-453 | ranking gives each sorted id its first result, at its sorted position |
| Fusion.RankedIds | google-vertexai-rag/src/hybrid_retrieval.py:444-453 | every distinct id is ranked exactly once |
| Fusion.RankedOrder | google-vertexai-rag/src/hybrid_retrieval.py:444-453 | output `i` is the id's first result with rank `i + 1`, source `hybrid` and confidence `min(0.5 * score, 1)`; scores do not increase along the output |
| Fusion.ReciprocalRankFusion | google-vertexai-rag/src/hybrid_retrieval.py:402-453 | the two scoring loops, the sort and the ranking loop return `Rrf(...)`, or none when `1.0 / (rrf_k + rank + 1)` divides by zero |
| Fusion.RrfFused | google-vertexai-rag/src/hybrid_retrieval.py:402-453 | fusion ranks each distinct id of both paths once, with the sum of its contributions over every occurrence in both lists, in descending order of score |
| Fusion.RrfTieOrder | google-vertexai-rag/src/hybrid_retrieval.py:426-442 | the score dictionary lists ids in order of first appearance, FAISS first; ids with equal score keep that order after sorting |
| Fusion.Weighted | google-vertexai-rag/src/hybrid_retrieval.py:486-499 | one result per input |
| Fusion.WeightedFusion | google-vertexai-rag/src/hybrid_retrieval.py:486-499 | the sort and loop return `Weighted(results)` |
| Fusion.WeightedRanks | google-vertexai-rag/src/hybrid_retrieval.py:486-499 | results are sorted by descending similarity, stably, as a permutation; result `i` gets rank `i + 1` and confidence `similarity * weight of its path` |
| Fusion.WeightedDistinct | google-vertexai-rag/src/hybrid_retrieval.py:486-499 | weighted fusion keeps distinct ids distinct |
| Fusion.DistinctIdsOnce | google-vertexai-rag/src/hybrid_retrieval.py:486-499 | with distinct ids each result occurs once |
| Fusion.MergeResults | google-vertexai-rag/src/hybrid_retrieval.py:366-388 | de-duplication, fusion and truncation return `Merge(...)` |
| Fusion.MergeBounds | google-vertexai-rag/src/hybrid_retrieval.py:366-388 | merging fails only when re-ranking divides by zero; otherwise at most `final_results` results with distinct ids, all from the inputs |
| Fusion.TakeRanked | google-vertexai-rag/src/hybrid_retrieval.py:386 | cutting the ranking to `final_results` keeps at most that many results, with distinct ids drawn from the inputs |
| Fusion.WeightedFromInputs | google-vertexai-rag/src/hybrid_retrieval.py:486-499 | weighted fusion of distinct results keeps the ids distinct, each one of the input's ids |
| Hybrid.HybridRetrieval.constructor | google-vertexai-rag/src/hybrid_retrieval.py:73-117 | the given configuration or the default, zero counters, empty chunk maps, and a local retriever exactly when creating it did not raise |
| Hybrid.HybridRetrieval.AddDocument | google-vertexai-rag/src/hybrid_retrieval.py:119-154 | always reports success; the local retriever (if any) receives the document; the chunk map becomes `PutChunks(old map, file_id, chunk_text(text, 500, 100))`; configuration and counters are unchanged |
| Hybrid.HybridRetrieval.StoreChunks | google-vertexai-rag/src/hybrid_retrieval.py:149-152 | the loop stores chunk `i` under `file_{file_id}_chunk_{i}`, in order, and changes nothing else |
| Hybrid.HybridRetrieval.SafeSearchFaiss | google-vertexai-rag/src/hybrid_retrieval.py:333-347 | nothing without a local retriever or when the FAISS search of a non-empty index raises (the handler answers `[]`), else the FAISS results for `num_candidates` above `min_similarity`, converted |
| Hybrid.HybridRetrieval.SafeSearchVertex | google-vertexai-rag/src/hybrid_retrieval.py:349-364 | the results of `retrieve_relevant_chunks` for `num_candidates` over the chunk maps, converted |
| Hybrid.HybridRetrieval.SearchFastOnly | google-vertexai-rag/src/hybrid_retrieval.py:224-236 | raises without a local retriever, and when the FAISS search of a non-empty index raises, before anything is counted; otherwise the FAISS results for `final_results`, counting a FAISS success whatever they are |
| Hybrid.HybridRetrieval.SearchVertexOnly | google-vertexai-rag/src/hybrid_retrieval.py:238-251 | the Vertex path's results for `final_results`, counting a Vertex success whatever they are |
| Hybrid.HybridRetrieval.SearchHybridParallel | google-vertexai-rag/src/hybrid_retrieval.py:253-293 | both safe paths (a path that times out counts as empty), merged with the last query's keywords; raises when both are empty; counts a hybrid success otherwise |
| Hybrid.HybridRetrieval.SearchAdaptive | google-vertexai-rag/src/hybrid_retrieval.py:295-303 | a query under 10 characters goes to the FAST_ONLY path, raising with it when its FAISS search raises, any other to the parallel hybrid |
| Hybrid.HybridRetrieval.SearchFallback | google-vertexai-rag/src/hybrid_retrieval.py:305-331 | the FAISS results if non-empty, else the Vertex results if non-empty (each counting one fallback), else nothing; never raises |
| Hybrid.HybridRetrieval.Search | google-vertexai-rag/src/hybrid_retrieval.py:156-222 | records the query, counts it, runs the strategy, credits one more success for a non-empty answer and answers `[]` when the strategy raised; the result and counters are `SearchAnswer(...)` |
| Hybrid.HybridRetrieval.RunStrategy | google-vertexai-rag/src/hybrid_retrieval.py:181-194 | the five-way choice runs the chosen strategy, an unknown one falling back to the parallel search, a raising FAISS search making FAST_ONLY and short ADAPTIVE queries raise, with the outcome and counters `StrategyOutcome(...)` describes; config, chunk map and last query are unchanged |
| Hybrid.HybridRetrieval.UpdateConfig | google-vertexai-rag/src/hybrid_retrieval.py:527-531 | every named field is set to its new value; the other fields, the counters and the chunk map are unchanged |
| Hybrid.HybridRetrieval.GetStats | google-vertexai-rag/src/hybrid_retrieval.py:534-553 | the counters, whether a local retriever exists, the two weights, and a success rate in [0, 2] that is 0 exactly when no query ran or nothing succeeded |
| Hybrid.HybridRetrieval.HealthCheck | google-vertexai-rag/src/hybrid_retrieval.py:555-580 | FAISS is available exactly when its index holds a vector; Vertex AI exactly when project and location are both non-empty; hybrid exactly when either is |
| Hybrid.CompatibleAll | google-vertexai-rag/src/hybrid_retrieval.py:601-615 | one compatible record per result |
| Hybrid.HybridSearch | google-vertexai-rag/src/hybrid_retrieval.py:583-617 | `search` with the same counters effect, every result rewritten in the older dictionary shape |
| Hybrid.SearchKeepsBound | google-vertexai-rag/src/hybrid_retrieval.py:172-222 | every search counts exactly one query, at most one fallback, and keeps successes within two per query |
| Hybrid.RaisedSearch | google-vertexai-rag/src/hybrid_retrieval.py:218-222 | a strategy that raised gives `[]` and no success beyond the counted query |
| Hybrid.FastOnlyCountedTwice | google-vertexai-rag/src/hybrid_retrieval.py:200-236 | a FAST_ONLY query whose FAISS search does not raise and finds results counts two FAISS successes: one in `_search_fast_only`, one in `search` |
| Hybrid.VertexOnlyCountedWhenEmpty | google-vertexai-rag/src/hybrid_retrieval.py:238-251 | a VERTEX_ONLY query counts a Vertex success even when it finds nothing |
| Hybrid.FastOnlyRaisingCountsNothing | google-vertexai-rag/src/hybrid_retrieval.py:218-236 | a FAST_ONLY query, or a short ADAPTIVE one, whose FAISS search raises answers `[]` and counts only the query: no FAISS success is credited |
| Hybrid.SuccessRateReachesTwo | google-vertexai-rag/src/hybrid_retrieval.py:536-540 | one successful FAST_ONLY query from fresh counters reports a success rate of 2.0 |
| Hybrid.SuccessRateRange | google-vertexai-rag/src/hybrid_retrieval.py:536-542 | under the bound the success rate lies in [0, 2]; it is 0 exactly when no query ran or nothing succeeded |
| Hybrid.AdaptiveDispatch | google-vertexai-rag/src/hybrid_retrieval.py:295-303 | ADAPTIVE answers FAST_ONLY's results for queries under 10 characters and is HYBRID_PARALLEL otherwise |
| Hybrid.FallbackOrder | google-vertexai-rag/src/hybrid_retrieval.py:305-331 | FALLBACK answers the FAISS results when non-empty, else the Vertex results; it counts a fallback exactly for a non-empty answer |
| Hybrid.HybridAnswer | google-vertexai-rag/src/hybrid_retrieval.py:253-293 | HYBRID_PARALLEL raises exactly when both paths are empty or re-ranking would divide by zero; otherwise at most `final_results` results with distinct ids drawn from the two paths, and one hybrid success |
| Hybrid.VertexResultsBare | google-vertexai-rag/src/hybrid_retrieval.py:501-525 | a Vertex result keeps the neighbour's id and distance, has empty text, source `unknown` and rank by position |
| Hybrid.FaissResultsKept | google-vertexai-rag/src/hybrid_retrieval.py:501-525 | a FAISS result keeps the hit's id, text, source, rank and similarity, and has the similarity as confidence |
| Hybrid.PathIdsNeverCollide | google-vertexai-rag/src/hybrid_retrieval.py:151 | `file_{id}_chunk_{i}` never equals the local index's `{id}_chunk_{j}`, so de-duplication never merges the two paths' copies of a chunk |
| Hybrid.ChunkMapIdsDistinct | google-vertexai-rag/src/hybrid_retrieval.py:151 | different chunk numbers give different chunk-map ids |
| Hybrid.PutChunksDistinct | google-vertexai-rag/src/hybrid_retrieval.py:150-152 | filling the chunk map keeps its keys distinct |
| Hybrid.PutChunksHit | google-vertexai-rag/src/hybrid_retrieval.py:150-152 | after filling, chunk `i` is found under `file_{id}_chunk_{i}` |
| Hybrid.PutChunksMiss | google-vertexai-rag/src/hybrid_retrieval.py:150-152 | after filling, every other key keeps its value |
| Hybrid.CompatibleShape | google-vertexai-rag/src/hybrid_retrieval.py:603-614 | the compatible record repeats the id as `datapoint_id`, and its preview starts with the first 100 characters and has at most 103 |
| RagGeneration.MaxSimilarity | google-vertexai-rag/src/rag_generation.py:27 | the result is at least every source's similarity (0 when the key is absent) and equals one of them |
| RagGeneration.NoSourcesKnowledge | google-vertexai-rag/src/rag_generation.py:25-112 | with no sources the prompt is the knowledge prompt; an answered call reports source `knowledge`, confidence 0.5, neither flag and highest similarity 0 |
| RagGeneration.Tiers | google-vertexai-rag/src/rag_generation.py:31-133 | with retrieved text, a highest similarity of at least 0.85 gives the `rag` prompt, one from the threshold up to 0.85 the `hybrid` prompt, a lower one the knowledge prompt; an answer reports the matching source, the highest similarity as confidence in the first two tiers and 0.5 in the last |
| RagGeneration.NoChunksKnowledge | google-vertexai-rag/src/rag_generation.py:40-112 | without retrieved text the answer comes from knowledge with confidence 0.5, while `use_rag` still reports the tier the similarities chose |
| RagGeneration.ErrorResult | google-vertexai-rag/src/rag_generation.py:117-164 | the source is `error` exactly when the model gave no text; then confidence and highest similarity are 0 and both flags are false |
| RagGeneration.FlagsAgree | google-vertexai-rag/src/rag_generation.py:125-133 | `use_hybrid` implies `use_rag`; `use_rag` without `use_hybrid` means a highest similarity of at least 0.85 |
| RagGeneration.ConfidenceInUnitRange | google-vertexai-rag/src/rag_generation.py:67-133 | when every similarity lies in [0, 1], so does the confidence |
| RagGeneration.JoinParagraphsLength | google-vertexai-rag/src/rag_generation.py:49 | the joined context is the chunks' total length plus two characters between each pair |
| VectorFormat.EscapeChar | google-vertexai-rag/src/vector_data_formatter.py:91 | the JSON escape of a character never holds a raw newline |
| VectorFormat.Escape | google-vertexai-rag/src/vector_data_formatter.py:91 | an escaped string never holds a raw newline |
| VectorFormat.Quote | google-vertexai-rag/src/vector_data_formatter.py:91 | a JSON string literal never holds a raw newline |
| VectorFormat.EmbeddingEntry | google-vertexai-rag/src/vector_data_formatter.py:49-50 | the object gets an `embedding` key exactly when the list is non-empty |
| VectorFormat.SparseEntry | google-vertexai-rag/src/vector_data_formatter.py:53-59 | the object gets a `sparse_embedding` key exactly when the sparse embedding has both `values` and `dimensions` |
| VectorFormat.RestrictsEntry | google-vertexai-rag/src/vector_data_formatter.py:62-71 | the object gets a `restricts` key exactly when the list is non-empty |
| VectorFormat.NumericEntry | google-vertexai-rag/src/vector_data_formatter.py:74-85 | the object gets a `numeric_restricts` key exactly when the list is non-empty |
| VectorFormat.CrowdingEntry | google-vertexai-rag/src/vector_data_formatter.py:88-89 | the object gets a `crowding_tag` key exactly when the tag is truthy |
| VectorFormat.SparseFields | google-vertexai-rag/src/vector_data_formatter.py:113-117 | the `dim:val` pairs are as many as the shorter of the two lists, as `zip` gives them |
| VectorFormat.CreateSampleData | google-vertexai-rag/src/vector_data_formatter.py:149-184 | one data point per item |
| VectorFormat.KeysOf | google-vertexai-rag/src/vector_data_formatter.py:44-89 | the keys of an object, position by position |
| VectorFormat.KeysOfAppend | google-vertexai-rag/src/vector_data_formatter.py:44-89 | the keys of joined entries are the joined keys |
| VectorFormat.JoinWithNoNewline | google-vertexai-rag/src/vector_data_formatter.py:91 | joining newline-free parts with a newline-free separator gives a newline-free string |
| VectorFormat.DumpsNoNewline | google-vertexai-rag/src/vector_data_formatter.py:91 | `json.dumps` output never holds a raw newline |
| VectorFormat.SplitJoinLines | google-vertexai-rag/src/vector_data_formatter.py:93 | splitting newline-joined newline-free lines at newlines gives the lines back |
| VectorFormat.LinesPerPoint | google-vertexai-rag/src/vector_data_formatter.py:38-147 | both writers succeed exactly when every point has an id and every restrict a namespace, and then produce one line per point in input order |
| VectorFormat.JsonlLinesPerPoint | google-vertexai-rag/src/vector_data_formatter.py:38-92 | the JSONL writer succeeds exactly when every point is accepted, and then writes point `i`'s object as line `i` |
| VectorFormat.CsvLinesPerPoint | google-vertexai-rag/src/vector_data_formatter.py:95-147 | the CSV writer succeeds exactly when every point is accepted, and then writes point `i`'s fields as line `i` |
| VectorFormat.FirstFailure | google-vertexai-rag/src/vector_data_formatter.py:38-104 | the first rejected point decides the exception; a point without `id` raises `ValueError` |
| VectorFormat.JsonlOneLinePerPoint | google-vertexai-rag/src/vector_data_formatter.py:20-93 | a JSONL output split at newlines gives back exactly one serialised object per point, in order |
| VectorFormat.PointJsonKeys | google-vertexai-rag/src/vector_data_formatter.py:44-89 | each object starts with the id as a string and carries each optional key exactly under the condition the writer checks |
| VectorFormat.PointKeys | google-vertexai-rag/src/vector_data_formatter.py:44-89 | the object's keys come in the order id, embedding, sparse embedding, restricts, numeric restricts, crowding tag |
| VectorFormat.CsvRecordStart | google-vertexai-rag/src/vector_data_formatter.py:106-110 | a CSV record starts with the id, then the dense values rendered as floats |
| VectorFormat.RestrictFieldRoundTrip | google-vertexai-rag/src/vector_data_formatter.py:124-132 | an allow field `ns=v` and a deny field `ns=!v` read back as their namespace, value and polarity when the namespace holds no `=` and an allowed value does not start with `!` |
| VectorFormat.NumericPrecedence | google-vertexai-rag/src/vector_data_formatter.py:135-143 | a numeric restrict writes `value_int` with suffix `i` if present, else `value_float` with `f`, else `value_double` with `d`, else nothing |
| VectorFormat.SampleDataFormats | google-vertexai-rag/src/vector_data_formatter.py:159-184 | sample points always have an id (default `''`), a `file_type` restrict exactly when the metadata has a file type and a `file_size` integer restrict exactly when it has a size, so both writers accept them |
| VectorFormat.SaveOutcomes | google-vertexai-rag/src/vector_data_formatter.py:186-215 | saving succeeds exactly for `jsonl` or `csv` when formatting and writing succeed, and writes the formatted text; `avro`, though listed as supported, always fails |
| VertexIntegration.Floats | google-vertexai-rag/src/vertex_ai_integration.py:127 | the embedding keeps its length and each value, as a float |
| VertexIntegration.BuildRestricts | google-vertexai-rag/src/vertex_ai_integration.py:131-157 | the loop over the metadata returns exactly `StrRestricts(meta)` and `NumRestricts(meta)` |
| VertexIntegration.Texts | google-vertexai-rag/src/vertex_ai_integration.py:115 | one text per document |
| VertexIntegration.BuildDatapoints | google-vertexai-rag/src/vertex_ai_integration.py:123-159 | datapoints exist exactly when every document has an id; then datapoint `i` has document `i`'s id, embedding `i` and the document's restricts, in order |
| VertexIntegration.LastSegment | google-vertexai-rag/src/vertex_ai_integration.py:203 | the last segment of a name holds no `/` |
| VertexIntegration.VertexAIVectorSearchManager.constructor | google-vertexai-rag/src/vertex_ai_integration.py:25-33 | a manager with the given project and location, and no index or endpoint |
| VertexIntegration.VertexAIVectorSearchManager.SetupVectorSearch | google-vertexai-rag/src/vertex_ai_integration.py:35-92 | the index becomes what creation gave, the endpoint what deployment gave (deployment only after an index); success exactly when both gave a resource |
| VertexIntegration.VertexAIVectorSearchManager.AddDocumentsToIndex | google-vertexai-rag/src/vertex_ai_integration.py:94-180 | the result is `AddOutcome(an index is set, documents, ...)` |
| VertexIntegration.VertexAIVectorSearchManager.SearchSimilarDocuments | google-vertexai-rag/src/vertex_ai_integration.py:182-226 | the result is `SearchOutcome(endpoint, query, ...)` |
| VertexIntegration.VertexAIVectorSearchManager.ExportDataForBatchImport | google-vertexai-rag/src/vertex_ai_integration.py:228-276 | the result is the export as written: the records passed to the sample builder carry no nested metadata |
| VertexIntegration.StrRestrictsExactly | google-vertexai-rag/src/vertex_ai_integration.py:136-141 | a restrict is built exactly for a string-valued metadata entry, as `{namespace: key, allow: [value]}` |
| VertexIntegration.NumRestrictsExactly | google-vertexai-rag/src/vertex_ai_integration.py:142-152 | a numeric restrict is built exactly for an integer or boolean entry (`value_int`) or a float entry (`value_float`), under the entry's key |
| VertexIntegration.RestrictCounts | google-vertexai-rag/src/vertex_ai_integration.py:136-152 | every metadata entry lands in at most one of the two lists, and in exactly one when its type is a string or a number |
| VertexIntegration.AddGuards | google-vertexai-rag/src/vertex_ai_integration.py:107-174 | through `AddOutcome`, adding fails without an index, without documents, for a document without id or text, and when the embeddings do not pair up with the documents; otherwise it uploads datapoint `i` with document `i`'s id and embedding `i` and returns the upload's result |
| VertexIntegration.LastSegmentOf | google-vertexai-rag/src/vertex_ai_integration.py:203 | the last segment of `prefix/id` is `id` when `id` holds no `/` |
| VertexIntegration.SearchGuards | google-vertexai-rag/src/vertex_ai_integration.py:197-220 | through `SearchOutcome`, search gives `[]` without an endpoint or a usable query embedding, and otherwise queries the endpoint id, the name's last segment |
| VertexIntegration.ExportDropsMetadata | google-vertexai-rag/src/vertex_ai_integration.py:253-267 | as written (`ExportAsWritten`), every exported point has no restricts and no numeric restricts, whatever the metadata |
| VertexIntegration.ExportDropsFileType | google-vertexai-rag/src/vertex_ai_integration.py:260-267 | as written, a PDF document's file type does not reach its written point |
| VertexIntegration.ExportWritesFileType | google-vertexai-rag/src/vertex_ai_integration.py:260-267 | with the metadata nested, the same document is written with its `file_type` restrict |
| VertexIntegration.ExportKeepsMetadata | google-vertexai-rag/src/vertex_ai_integration.py:260-267 | with the metadata nested (`Export`), a string `file_type` becomes the `file_type` allow-restrict and an integer `file_size` the `file_size` integer restrict |
| GcsStorage.ListFiles | google-vertexai-rag/src/gcs_storage.py:213-250 | the loop returns `[]` when the listing raises, else `Listing(bucket, names)` |
| GcsStorage.FileIdHasNoSlash | google-vertexai-rag/src/gcs_storage.py:70-71 | a file id as `FileId` builds it holds no `/`, and its hash suffix has exactly four digits |
| GcsStorage.NatToStringShort | google-vertexai-rag/src/gcs_storage.py:71 | `hash % 10000` has at most four decimal digits |
| GcsStorage.ParseBlobNameRoundTrip | google-vertexai-rag/src/gcs_storage.py:229-232 | `ParseBlobName`, parsing `uploads/{file_id}/{file_name}` gives back `(file_id, file_name)` whenever the id holds no `/`, even for a name that holds `/` |
| GcsStorage.ParseNeedsThreeParts | google-vertexai-rag/src/gcs_storage.py:229-230 | a name with at most one `/`, such as `uploads/x`, is skipped by the listing |
| GcsStorage.UploadRoundTrip | google-vertexai-rag/src/gcs_storage.py:54-112 | through `Upload`, the specification of `upload_file`, an upload that does not raise reports the name and size, stores the content where a download with the reported id and name finds it, under a blob name the listing parses back to that id and name, with `gs_uri` naming the bucket; other blobs are unchanged |
| GcsStorage.UploadFaults | google-vertexai-rag/src/gcs_storage.py:70-112 | a raising upload reports nothing; a raise at or before the write leaves the bucket as it was, while a raise while signing the URL leaves the new blob in the bucket, where a download with the computed file id finds it |
| GcsStorage.DeleteEffect | google-vertexai-rag/src/gcs_storage.py:186-211 | through `Delete`, deleting reports true exactly when the blob existed, afterwards it cannot be downloaded, and other blobs are unchanged; a raising call reports false and changes nothing |
| GcsStorage.ListingEntries | google-vertexai-rag/src/gcs_storage.py:226-246 | the listing has at most one record per name, each parsed from its own blob name with `gs_uri` naming the bucket, and exactly one per name when every name has three parts |
| GcsStorage.FileIdLength | google-vertexai-rag/src/gcs_storage.py:70-71 | for a four-digit year every file id has 20 characters |
| GcsStorage.NatToStringFourDigits | google-vertexai-rag/src/gcs_storage.py:70 | a year from 1000 to 9999 has four digits |
| GcsStorage.NatToStringTwoDigits | google-vertexai-rag/src/gcs_storage.py:70 | a number below 100 has at most two digits |
| ApiServer.LastIndex | google-vertexai-rag/api_server.py:1198 | the position of the last occurrence of the character, or -1 when there is none |
| ApiServer.CheckUpload | google-vertexai-rag/api_server.py:1189-1208 | an upload is accepted exactly when a file with a non-empty name is given, its lower-cased extension is allowed and its size is at most 10 MB; the accepted value is that extension; the refusals come with their messages in the order the endpoint checks |
| ApiServer.FirstRecord | google-vertexai-rag/api_server.py:1355 | the position of the first record with the id, or none when no record has it |
| ApiServer.Views | google-vertexai-rag/api_server.py:1288-1334 | one view per record, in order |
| ApiServer.WithoutFile | google-vertexai-rag/api_server.py:1509 | exactly the records whose id differs are kept |
| ApiServer.DeleteKeys | google-vertexai-rag/api_server.py:1513-1514 | the `del` loop removes exactly the listed keys |
| ApiServer.DeletedAreOwned | google-vertexai-rag/api_server.py:1512-1514 | deleting the selected keys one by one removes exactly the keys with the file's prefix, and keeps the keys distinct |
| ApiServer.Server.constructor | google-vertexai-rag/api_server.py:43-47 | empty module-level state: no files, statuses, queue entries, chunks or embeddings |
| ApiServer.Server.UploadFile | google-vertexai-rag/api_server.py:1185-1280 | a refused upload returns its 400 and changes nothing; a storage failure returns a 500 and records nothing, with the bucket as `Upload` leaves it (holding the new blob when signing the URL raised after the write); otherwise the blob is stored, the record appended, the status set to pending with progress 0, and the task queued with the file's extension and sanitized name |
| ApiServer.Server.Register | google-vertexai-rag/api_server.py:1245-1262 | the record is appended, the status of its id set to pending with progress 0 and the task queued; the server invariant is kept and the chunk data is unchanged |
| ApiServer.Server.ProcessNext | google-vertexai-rag/api_server.py:52-192 | with an empty queue nothing changes; otherwise the first task leaves the queue and ends in `Finished(old status, extracted text)`; on success the chunk map, text map, embeddings and hybrid retriever take in the chunks, on failure they are unchanged |
| ApiServer.Server.RunTask | google-vertexai-rag/api_server.py:60-183 | one dequeued file ends in `Finished(old status, extracted text)`; on success the chunk map, text map, embeddings and hybrid retriever take in its chunks, on failure they are unchanged |
| ApiServer.Server.FailTask | google-vertexai-rag/api_server.py:180-183 | a failed extraction sets the error state and message and changes nothing else |
| ApiServer.Server.IndexText | google-vertexai-rag/api_server.py:99-176 | chunks the text, stores it, and ends completed with progress 100 and the chunk count |
| ApiServer.Server.ChunkForIndex | google-vertexai-rag/api_server.py:98-105 | the chunks are the 500/100 windows of the text and the status is left at progress 80; nothing else changes |
| ApiServer.Server.StoreIndex | google-vertexai-rag/api_server.py:108-170 | the chunk and text maps, the embeddings and the hybrid retriever take in the file's chunks; the status, queue and records are unchanged |
| ApiServer.Server.StoreLocally | google-vertexai-rag/api_server.py:108-133 | the chunk and text maps take in the chunks with distinct keys and the embeddings are stored under the chunk ids; the status, queue, records and bucket are unchanged |
| ApiServer.Server.AddToHybrid | google-vertexai-rag/api_server.py:161-165 | the hybrid retriever's chunk map takes in the chunks of the newline-joined text |
| ApiServer.Server.StoreChunks | google-vertexai-rag/api_server.py:108-118 | both loops store chunk `i` under `file_{id}_chunk_{i}` and keep the keys distinct; nothing else changes |
| Hybrid.PutChunksInto | google-vertexai-rag/src/hybrid_retrieval.py:150-152 | the loop leaves the dictionary `PutChunks` describes, chunk `i` under `file_{id}_chunk_{i}`, with one entry per key |
| ApiServer.Server.StoreEmbeddings | google-vertexai-rag/api_server.py:122-133 | every embedding is kept under its chunk's id; an exception from the model leaves the embeddings as they were |
| ApiServer.Server.GetFiles | google-vertexai-rag/api_server.py:1282-1348 | the response is `FileViews(records, statuses)`: each record's view, newest first |
| ApiServer.Server.GetUploadStatus | google-vertexai-rag/api_server.py:1350-1384 | 404 for an unknown file or a missing status; otherwise the report of the status, and a completed status with chunks copies its count into the first record |
| ApiServer.Server.DeleteFile | google-vertexai-rag/api_server.py:1492-1526 | 404 for an unknown file; otherwise the blob deletion decides: on success the records with the id and every chunk under the file's prefix go and the count of removed chunks is returned; on failure a 500 and the records and chunks stay |
| ApiServer.Server.RemoveFile | google-vertexai-rag/api_server.py:1507-1513 | the records with the id go, the chunk map loses exactly the keys under the file's prefix, keeping one entry per key, and the count of removed keys is returned |
| ApiServer.DeleteOwned | google-vertexai-rag/api_server.py:1510-1513 | deleting the selected keys one by one leaves the chunk map without exactly the file's chunks, and counts them |
| ApiServer.Server.GetFileChunks | google-vertexai-rag/api_server.py:1528-1574 | the response is `ChunkPageOf(...)`: 404 for an unknown file, 500 where `int` refuses an argument or chunk index or `per_page` is 0, else the file's chunks ordered by index and paged |
| ApiServer.ExtensionShape | google-vertexai-rag/api_server.py:1198 | the extension is empty or a dot-led suffix of the name with no `/` and no other dot |
| ApiServer.ExtensionExamples | google-vertexai-rag/api_server.py:1198-1200 | `.txt` alone has no extension and is refused; `Contract.PDF` is accepted as `.pdf` |
| ApiServer.AcceptedUploadsHaveExtractor | google-vertexai-rag/api_server.py:88-96 | every accepted upload has an extractor, so the worker never raises "Unsupported file type" for it |
| ApiServer.ExtractorChoice | google-vertexai-rag/api_server.py:88-96 | the worker has an extractor for exactly the allowed extensions; `.doc` and `.docx` both go to the Word extractor |
| ApiServer.ReplaceDotsHead | google-vertexai-rag/api_server.py:1213 | replacing `..` keeps a first character that is not a dot |
| ApiServer.ReplaceDotsLeavesNoPair | google-vertexai-rag/api_server.py:1213 | after every `..` is replaced, no two dots are neighbours |
| ApiServer.SanitizeSafe | google-vertexai-rag/api_server.py:1213 | a stored file name, as `Sanitize` makes it, holds no `/`, no `\` and no `..` |
| ApiServer.EstimatedTimeFalls | google-vertexai-rag/api_server.py:1386-1397 | the estimate `EstimatedTime` never grows as progress grows, and is 0 exactly at progress 100 or more |
| ApiServer.FinishedStatus | google-vertexai-rag/api_server.py:174-192 | through `Finished`, the worker ends completed exactly when extraction succeeds, with the chunk count and no time remaining; a failed file keeps the message and progress 30, so its estimate stays at 30 seconds |
| ApiServer.HybridTextRepeatsOverlap | google-vertexai-rag/api_server.py:164-165 | for texts of 501 to 900 characters the hybrid retriever is handed both chunks joined by a newline, repeating the 100-character overlap: `len(text) + 101` characters |
| ApiServer.ChunkMapIdParts | google-vertexai-rag/api_server.py:1092-1094 | a chunk-map id splits on `_` into `file`, the parts of the file id, `chunk` and the index |
| ApiServer.ChunkIndexRoundTrip | google-vertexai-rag/api_server.py:1544-1545 | the chunk endpoint reads back the index a chunk was stored under and files it under its own file |
| ApiServer.SourceOfFileChunk | google-vertexai-rag/api_server.py:1088-1101 | through `SourceFileName`, the chat endpoint names a file chunk's source by the first record with its file id, whatever `_` the id holds, else the unknown document |
| ApiServer.PageWindow | google-vertexai-rag/api_server.py:1558-1560 | for positive arguments a page is the window `[(page - 1) * per_page, page * per_page)` cut at the end, with at most `per_page` items |
| ApiServer.TotalPagesCeiling | google-vertexai-rag/api_server.py:1568 | `totalPages` is the ceiling of the chunk count over the page size |
| ApiServer.PagesCover | google-vertexai-rag/api_server.py:1558-1568 | every chunk lies on one of the pages 1..`totalPages`, at its offset within that page |
| ApiServer.NonPositivePages | google-vertexai-rag/api_server.py:1558-1560 | page 0 is empty and page -1 is the second-to-last window from the end |
| ApiServer.DeleteRemovesFileChunks | google-vertexai-rag/api_server.py:1512-1514 | after a successful deletion none of the file's chunks is left |
| ApiServer.DeleteSparesOtherFiles | google-vertexai-rag/api_server.py:1512 | deleting a file keeps every chunk of another file whose id has the same length |
| ApiServer.DeleteSparesOtherUploads | google-vertexai-rag/api_server.py:1512 | two upload ids with four-digit years have the same length, so deleting one keeps the other's chunks |
| ApiServer.PrefixReachesLongerIds | google-vertexai-rag/api_server.py:1512 | without equal lengths the prefix test reaches further: deleting `a` takes the chunks of file `a_chunk_1` |
| ApiServer.DeletedCount | google-vertexai-rag/api_server.py:1512-1519 | the deletion reports as many chunks as it removes |
| ApiServer.FileViewsOrder | google-vertexai-rag/api_server.py:1337 | the file list is newest first, a permutation of the records' views, and keeps uploads of the same second in upload order |
| ApiServer.ViewRules | google-vertexai-rag/api_server.py:1306-1332 | through `ViewOf`, a listed file shows its status when it has one, otherwise it is completed with progress 100 exactly when it has chunks; `processed` holds exactly when the state is completed |
| ApiServer.WithChunksEffect | google-vertexai-rag/api_server.py:1365-1370 | a status query changes at most the first record with the id, and only its chunk count |
| ApiServer.PutEmbeddingsEffect | google-vertexai-rag/api_server.py:131-133 | each embedding is kept under its chunk's id, and every other key keeps its embedding |
| Sorting.SortBy | google-vertexai-rag/api_server.py:1337 | sorting keeps the length |
| Sorting.SortBySorted | google-vertexai-rag/api_server.py:1555 | `sort(key=…)` yields a sequence ordered by the key |
| Sorting.SortByPermutation | google-vertexai-rag/api_server.py:1555 | sorting only reorders: the multiset of elements is unchanged |
| Sorting.SortByStable | google-vertexai-rag/api_server.py:1337 | sorting is stable: elements with equal keys keep their relative order |
| Text.ParseInt | google-vertexai-rag/api_server.py:1538-1545 | `int` accepts exactly an optionally signed, non-empty run of decimal digits |
| Text.ParseIntOfIntToString | google-vertexai-rag/api_server.py:1545 | `int(str(n)) == n` for every integer |
| Text.NatToStringInjective | google-vertexai-rag/src/hybrid_retrieval.py:151 | different chunk numbers have different decimal strings |
| Text.JoinSplit | google-vertexai-rag/src/gcs_storage.py:232 | joining the parts of a split with the separator gives the string back |
| Text.SplitWithout | google-vertexai-rag/src/gcs_storage.py:229 | a string without the separator splits into itself alone |
| Text.SplitAround | google-vertexai-rag/src/gcs_storage.py:229-232 | splitting `a + c + b` at `c` splits `a` and `b` separately |
| Text.Lower | google-vertexai-rag/api_server.py:1198 | `lower` keeps the length and lowers each character |
| Text.Slice | google-vertexai-rag/api_server.py:1560 | Python's slice: negative bounds count from the end, bounds are clamped, and a reversed window is empty |
| Text.Words | google-vertexai-rag/api_server.py:1551 | every word of `split()` is a non-empty run without whitespace |
| Text.WordsOfBlank | google-vertexai-rag/api_server.py:1551 | a whitespace-only string has no words |
| Text.ReplaceAll | google-vertexai-rag/api_server.py:1213 | every character of the result comes from the string or the replacement |
| OrderedDict.GetSetSame | google-vertexai-rag/src/hybrid_retrieval.py:152 | after `d[k] = v`, `d[k]` is `v` |
| OrderedDict.GetSetOther | google-vertexai-rag/src/hybrid_retrieval.py:152 | `d[k] = v` leaves every other key's value |
| OrderedDict.SetDistinct | google-vertexai-rag/src/hybrid_retrieval.py:152 | assignment keeps one entry per key |
| OrderedDict.GetRemoveWhere | google-vertexai-rag/api_server.py:1512-1514 | after removing the keys a predicate selects, a selected key is absent and any other keeps its value |
| OrderedDict.KeysWhereMembers | google-vertexai-rag/api_server.py:1512 | the selected keys are exactly the present keys that satisfy the predicate |
| OrderedDict.RemoveWhereCount | google-vertexai-rag/api_server.py:1512-1519 | the entries kept and the keys selected add up to the dictionary's size |
| OrderedDict.RemoveWhereDistinct | google-vertexai-rag/api_server.py:1513-1514 | removal keeps one entry per key and invents no entry |

## Left out

- Embeddings, the sentence encoder, FAISS's nearest-neighbour search, cosine similarity, the language model, the Cloud Storage client, the Vertex AI clients and the PDF/DOCX/TXT extractors are parameters (functions or outcome values); what they compute is not modelled.
- The clock (`time.time()`, `datetime.now()`), Python's `hash` of a file name and the md5 digest of the cache key are parameters, since they are nondeterministic or foreign.
- VectorSearch.FastVectorSearch.Search: the query encoder or `index.search` raising on a non-empty index is not modelled at this layer; the method takes the rows FAISS returned. The hybrid retriever models that raise (`faissRaises` in its services), and so do its fast-only and safe FAISS paths.
- FastRag.FastRAGRetrieval.Search: the same raise passes through `search` and `retrieve_relevant_chunks_fast` unhandled; neither models it.
- Dictionary lookups with a default (`doc.get('filename', file_id)`, `doc.get('source', 'unknown')`, `doc.get('id', ...)`) are modelled with `Option` standing for an absent key. A key present with the value `None`, for which `.get` returns `None`, is not modelled.
- Floating point: similarities, scores and weights are exact `real`s, and `str()` of a float is the parameter `str`; rounding is not modelled.
- The background worker thread and its queue become one `ProcessNext` call per queued file; blocking on the queue, the `None` stop signal and interleaving with request handlers are not modelled.
- The thread pool of the parallel hybrid search becomes the two booleans `faissInTime` and `vertexInTime`; the two paths are evaluated one after the other.
- Startup orchestration (re-processing uploads in batches of five threads, the `PROCESSING_FILES` guard against double processing) and the debug, fix and maintenance endpoints are not modelled (api_server.py:510-957 and 1576-1849); they only re-run the modelled pipeline.
- Persistence is not modelled: the pickle and JSON cache files, FAISS's index read and write, the metadata JSON beside the index, and the temporary files of the worker. Writing an export file is the boolean `writeOk`.
- Timing fields (`processing_time`, `total_time`, `avg_response_time`, `cached_at`, `uploaded_at`) are not modelled beyond being given as parameters.
- Flask routing, request parsing and JSON encoding are not modelled; an endpoint's HTTP error becomes an `ApiError` value with its status code.
- Signed and public URLs, blob sizes and times, blob metadata, `get_file_info` and the `download_file` endpoint are not modelled; they only wrap the storage client.
- `preview_file` is modelled only through the chunk-index parse it shares with `get_file_chunks` (`ChunkIndexOf`); its word count and storage lookups are not.
- The worker's upload of chunk embeddings to Vertex AI Vector Search (its list of datapoints and the remote call) is not modelled; only the local `CHUNK_EMBEDDINGS` store is.
- Exceptions that the source swallows inside the local retriever's `add_document` and inside the worker's hybrid hand-off are not modelled; those calls always succeed in the model.
- The chat endpoint is modelled only through the source naming of retrieved chunks (`SourceOfFileChunk`); its JSON response and conversation handling are not.
- `vector_search_management.py`, `config.py`, `regenerate_embeddings.py`, `prompt_templates.py` and `embedding_generation.py` are not part of this model.
- Prompts are modelled by their mode and the text they carry; their fixed instruction wording is not.
- Hybrid.HybridRetrieval.UpdateConfig: only the typed configuration fields can be patched; a value of another type, which `setattr` would store, is not modelled.
- Text.ParseInt: accepts an optional sign and ASCII decimal digits only; Python's `int()` also accepts surrounding whitespace, `_` between digits and non-ASCII Unicode decimal digits (`int("١٢") == 12`), so a page argument such as `" 2"` is rejected in the model where the source accepts it.
- Text.Lower: lowers `A`-`Z` only. Python lowers every cased Unicode letter, and some letters change length (`'İ'.lower()` is two characters). For the upload check this makes no difference: no non-ASCII letter lowers to a letter of `.pdf`, `.doc`, `.docx` or `.txt`. It does change the keyword fusion, which lowers the query in `Fusion.QueryKeywords` and each result text in `Fusion.KeywordBoost`; see the next line.
- Fusion.KeywordBoost: keywords and texts are lowered with `Text.Lower`, so a non-ASCII keyword that differs from the text only in case gets no boost in the model, where the source's `str.lower()` matches it and adds one. Examples are the query `"Über"` against a text holding `"über"`, and fullwidth `"Ａ"`. Such a query can therefore get different fused scores and a different order of hybrid results. The stated bounds (0 without keywords or text, always within `[0, 2.3]`) hold for any lowering.
- GcsStorage.FileIdLength: holds only for four-digit years; how `strftime("%Y")` pads other years depends on the platform.
- VertexIntegration.NumRestricts: a `bool` metadata value becomes a `value_int` restrict holding 1 or 0; Python keeps `True` or `False` there.
- Chunker.ChunkText: requires `0 < chunk_size`, and `overlap_size < chunk_size` unless the text is no longer than `chunk_size`; every caller passes 500 and 100. On a non-empty text the source's loop never ends when the step `chunk_size - overlap_size` is zero or less and either the text is longer than `chunk_size` or `chunk_size` is not positive. A non-positive `chunk_size` with a positive step ends, but slices with negative bounds.
- Chunker.Chunks: the same requirement as `ChunkText`, for the same reason.
- VertexIntegration.ExportDataForBatchImport: requires that no metadata key is `id`, `embedding` or `metadata`; such a key would overwrite the record's own field through `dict.update`.
- VertexIntegration.BuildDatapoints: requires as many embeddings as documents; `add_documents_to_index` checks this before building and fails otherwise (modelled in `AddDocumentsToIndex`).
- RagGeneration.MaxSimilarity: requires at least one source; the source computes it only when there are sources.
- ApiServer.Server.StoreEmbeddings: requires at least one chunk; the worker calls it only under `if chunk_texts`.
- ApiServer.Server.ProcessNext: requires `Valid()`, which includes a status for every queued file; without one, the worker's status update at api_server.py:68 raises a `KeyError` outside its handler and the thread dies, which the model does not reproduce.
- ApiServer.Server.ProcessNext: the text map and the hybrid retriever's chunk map are kept as two separate dictionaries. The chat handler (api_server.py:1024-1025) rebinds the retriever's `chunk_map` to `chunk_id_to_text_map` and its `chunk_embeddings` to `CHUNK_EMBEDDINGS`, and nothing rebinds them afterwards. So after the first chat the worker's `add_document` rechunks the newline-joined chunks into the text map itself. For a 600-character text `t`, the entry `file_{id}_chunk_1` then ends as `t[400:500] + "\n" + t[400:600]`, not `t[400:]`, and a 900-character text also gains a `file_{id}_chunk_2` entry. The contracts of ProcessNext, RunTask, IndexText, StoreIndex and AddToHybrid state the program's behaviour before any chat has run. `CHUNK_MAP`, the map the chunk and delete endpoints read, is not affected. `HybridTextRepeatsOverlap` proves the joined text's length that causes this.
- Cache.CacheManager.CacheFileMetadata: the source writes `cached_at` and `timestamp` into the caller's own dictionary and stores that dictionary by reference (cache_manager.py:147-149), so later changes by the caller show up in the cache; the model stores a copy. The source's values are of any type; the model's are strings. No server code calls this method.
- Hybrid.HybridRetrieval.Search: requires `Valid()`, which bounds the success counters by twice the query count and keeps one chunk per id.

## Findings

| source | as written | input that shows it | evidently intended | confidence | as-written member | corrected member |
|---|---|---|---|---|---|---|
| google-vertexai-rag/src/vertex_ai_integration.py:253-267 | the export merges each document's metadata into the record itself, but the sample builder reads the metadata from a nested `metadata` field, so no restrict is ever exported | one document with id `"1"`, text `"t"` and metadata `{"file_type": "pdf"}` | the exported datapoint carries the `file_type` allow-restrict `pdf` | not executed | VertexIntegration.ExportDropsFileType | VertexIntegration.ExportWritesFileType |
