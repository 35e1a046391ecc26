/**
 * The cache of document chunks, chunk embeddings and file metadata
 * (`CacheManager`).  The three caches are dictionaries the methods update
 * in place; saving them to and loading them from disk is not modelled, and
 * the clock is a parameter.
 */
module Cache {
  import opened Wrappers
  import opened Text

  type Vec = seq<real>

  /** What `cache_chunks` stores for a file. */
  datatype ChunkEntry = ChunkEntry(chunks: seq<string>, chunkCount: nat, fileHash: Option<string>,
                                   cachedAt: string, timestamp: int)

  /** What `cache_file_metadata` stores: the caller's fields plus the two stamps. */
  datatype MetadataEntry = MetadataEntry(fields: map<string, string>, cachedAt: string, timestamp: int)

  datatype CacheStats = CacheStats(cachedFiles: nat, cachedEmbeddings: nat, cachedMetadata: nat,
                                   chunks: nat, embeddings: nat, metadata: nat)

  const SecondsPerDay: int := 24 * 60 * 60
  const DefaultMaxAgeDays: int := 30

  /** Python truthiness of an optional string: `None` and `""` are false. */
  predicate Truthy(s: Option<string>)
  {
    s.Some? && s.value != ""
  }

  /** The prefix of the embedding keys that belong to a file. */
  function EmbeddingPrefix(fileId: string): string
  {
    "file_" + fileId + "_"
  }

  /** An entry stamped at `timestamp` is too old at `now`. */
  predicate Expired(timestamp: int, now: int, maxAgeDays: int)
  {
    now - timestamp > maxAgeDays * SecondsPerDay
  }

  /** The fields a metadata entry keeps besides its stamps. */
  function StoredFields(fields: map<string, string>): map<string, string>
  {
    fields - {"cached_at", "timestamp"}
  }

  /** Total number of cached chunks over all files. */
  ghost function TotalChunks(m: map<string, ChunkEntry>): nat
    decreases |m.Keys|
  {
    if m == map[] then 0
    else
      var k := PickKey(m);
      |m[k].chunks| + TotalChunks(m - {k})
  }

  ghost function PickKey(m: map<string, ChunkEntry>): (k: string)
    requires m != map[]
    ensures k in m
  {
    assert exists k :: k in m by {
      var k :| k in m.Keys;
    }
    var k :| k in m; k
  }

  /** The total can be taken apart at any file. */
  lemma {:induction false} TotalChunksRemove(m: map<string, ChunkEntry>, k: string)
    requires k in m
    ensures TotalChunks(m) == |m[k].chunks| + TotalChunks(m - {k})
    decreases |m.Keys|
  {
    var p := PickKey(m);
    if p != k {
      TotalChunksRemove(m - {p}, k);
      TotalChunksRemove(m - {k}, p);
      assert m - {p} - {k} == m - {k} - {p};
    }
  }

  /** Caching the chunks of a file replaces its share of the total. */
  lemma TotalChunksAfterCaching(m: map<string, ChunkEntry>, k: string, e: ChunkEntry)
    ensures TotalChunks(m[k := e]) == |e.chunks| + TotalChunks(m - {k})
  {
    TotalChunksRemove(m[k := e], k);
    assert m[k := e] - {k} == m - {k};
  }

  class CacheManager {
    var chunksCache: map<string, ChunkEntry>
    var embeddingsCache: map<string, Vec>
    var fileMetadata: map<string, MetadataEntry>

    /** Every chunk entry counts its own chunks. */
    ghost predicate Valid()
      reads this
    {
      forall id :: id in chunksCache ==> chunksCache[id].chunkCount == |chunksCache[id].chunks|
    }

    /** A cache whose files do not exist or cannot be read starts empty. */
    constructor ()
      ensures Valid()
      ensures chunksCache == map[] && embeddingsCache == map[] && fileMetadata == map[]
    {
      chunksCache := map[];
      embeddingsCache := map[];
      fileMetadata := map[];
    }

    /** `cache_chunks`: stores the chunks of a file under its id, replacing any earlier entry. */
    method CacheChunks(fileId: string, chunks: seq<string>, fileHash: Option<string>, cachedAt: string, now: int)
      requires Valid()
      modifies this
      ensures Valid()
      ensures chunksCache == old(chunksCache)[fileId := ChunkEntry(chunks, |chunks|, fileHash, cachedAt, now)]
      ensures embeddingsCache == old(embeddingsCache) && fileMetadata == old(fileMetadata)
      ensures GetCachedChunks(fileId, fileHash) == Some(chunks)
    {
      chunksCache := chunksCache[fileId := ChunkEntry(chunks, |chunks|, fileHash, cachedAt, now)];
    }

    /**
     * `get_cached_chunks`: the cached chunks of a file, unless a non-empty
     * hash is given and differs from the stored one.
     */
    function GetCachedChunks(fileId: string, fileHash: Option<string>): (r: Option<seq<string>>)
      reads this
      ensures r.Some? <==> fileId in chunksCache &&
                           (!Truthy(fileHash) || chunksCache[fileId].fileHash == fileHash)
      ensures r.Some? ==> r.value == chunksCache[fileId].chunks
    {
      if fileId !in chunksCache then None
      else if Truthy(fileHash) && chunksCache[fileId].fileHash != fileHash then None
      else Some(chunksCache[fileId].chunks)
    }

    /** `cache_embeddings`: `dict.update`, the new vectors win. */
    method CacheEmbeddings(chunkEmbeddings: map<string, Vec>)
      requires Valid()
      modifies this
      ensures Valid()
      ensures embeddingsCache == old(embeddingsCache) + chunkEmbeddings
      ensures chunksCache == old(chunksCache) && fileMetadata == old(fileMetadata)
    {
      embeddingsCache := embeddingsCache + chunkEmbeddings;
    }

    /** `get_cached_embeddings`: the cached vectors of the requested chunks that have one. */
    method GetCachedEmbeddings(chunkIds: seq<string>) returns (r: map<string, Vec>)
      ensures r.Keys == set k | k in chunkIds && k in embeddingsCache
      ensures forall k :: k in r ==> r[k] == embeddingsCache[k]
    {
      r := map[];
      var i := 0;
      while i < |chunkIds|
        invariant 0 <= i <= |chunkIds|
        invariant r.Keys == set k | k in chunkIds[..i] && k in embeddingsCache
        invariant forall k :: k in r ==> r[k] == embeddingsCache[k]
      {
        var id := chunkIds[i];
        if id in embeddingsCache {
          r := r[id := embeddingsCache[id]];
        }
        assert chunkIds[..i + 1] == chunkIds[..i] + [id];
        i := i + 1;
      }
      assert chunkIds[..i] == chunkIds;
    }

    /**
     * `cache_file_metadata`: stores the fields with the two stamps (which
     * replace fields of the same name).
     */
    method CacheFileMetadata(fileId: string, fields: map<string, string>, cachedAt: string, now: int)
      requires Valid()
      modifies this
      ensures Valid()
      ensures fileMetadata == old(fileMetadata)[fileId := MetadataEntry(StoredFields(fields), cachedAt, now)]
      ensures chunksCache == old(chunksCache) && embeddingsCache == old(embeddingsCache)
    {
      fileMetadata := fileMetadata[fileId := MetadataEntry(StoredFields(fields), cachedAt, now)];
    }

    /** `get_cached_file_metadata`. */
    function GetCachedFileMetadata(fileId: string): (r: Option<MetadataEntry>)
      reads this
      ensures r.Some? <==> fileId in fileMetadata
      ensures r.Some? ==> r.value == fileMetadata[fileId]
    {
      if fileId in fileMetadata then Some(fileMetadata[fileId]) else None
    }

    /** `has_cached_data`: the file has cached chunks (whatever their hash). */
    function HasCachedData(fileId: string): (r: bool)
      reads this
      ensures r <==> GetCachedChunks(fileId, None).Some?
    {
      fileId in chunksCache
    }

    /**
     * `clear_cache`: with a non-empty id, forgets that file's chunks and
     * metadata and every embedding whose key starts with `file_<id>_`;
     * without one, empties all three caches.
     */
    method ClearCache(fileId: Option<string>)
      requires Valid()
      modifies this
      ensures Valid()
      ensures Truthy(fileId) ==>
        && chunksCache == old(chunksCache) - {fileId.value}
        && embeddingsCache == (map k | k in old(embeddingsCache) && !StartsWith(k, EmbeddingPrefix(fileId.value))
                                 :: old(embeddingsCache)[k])
        && fileMetadata == old(fileMetadata) - {fileId.value}
      ensures !Truthy(fileId) ==> chunksCache == map[] && embeddingsCache == map[] && fileMetadata == map[]
      ensures Truthy(fileId) ==> !HasCachedData(fileId.value) && GetCachedFileMetadata(fileId.value).None?
    {
      if Truthy(fileId) {
        var id := fileId.value;
        if id in chunksCache {
          chunksCache := chunksCache - {id};
        }
        var prefix := EmbeddingPrefix(id);
        var keysToRemove := set k | k in embeddingsCache && StartsWith(k, prefix);
        var pending := keysToRemove;
        while pending != {}
          invariant pending <= keysToRemove
          invariant embeddingsCache == map k | k in old(embeddingsCache) && (k !in keysToRemove || k in pending)
                                         :: old(embeddingsCache)[k]
          invariant chunksCache == old(chunksCache) - {id}
          invariant fileMetadata == old(fileMetadata)
          decreases pending
        {
          var key :| key in pending;
          embeddingsCache := embeddingsCache - {key};
          pending := pending - {key};
        }
        if id in fileMetadata {
          fileMetadata := fileMetadata - {id};
        }
      } else {
        chunksCache := map[];
        embeddingsCache := map[];
        fileMetadata := map[];
      }
    }

    /** `get_cache_stats`. */
    method GetCacheStats() returns (stats: CacheStats)
      ensures stats.cachedFiles == |chunksCache| && stats.cachedEmbeddings == |embeddingsCache|
      ensures stats.cachedMetadata == |fileMetadata|
      ensures stats.chunks == TotalChunks(chunksCache)
      ensures stats.embeddings == |embeddingsCache| && stats.metadata == |fileMetadata|
    {
      var total := 0;
      var pending := chunksCache.Keys;
      ghost var rest := chunksCache;
      while pending != {}
        invariant rest.Keys == pending
        invariant forall k :: k in rest ==> k in chunksCache && rest[k] == chunksCache[k]
        invariant total + TotalChunks(rest) == TotalChunks(chunksCache)
        decreases pending
      {
        var k :| k in pending;
        TotalChunksRemove(rest, k);
        total := total + |chunksCache[k].chunks|;
        rest := rest - {k};
        pending := pending - {k};
      }
      assert rest == map[];
      stats := CacheStats(|chunksCache|, |embeddingsCache|, |fileMetadata|,
                          total, |embeddingsCache|, |fileMetadata|);
    }

    /**
     * `cleanup_old_cache`: forgets the chunk and metadata entries older than
     * `maxAgeDays` days; embeddings are kept.
     */
    method CleanupOldCache(maxAgeDays: int, now: int)
      requires Valid()
      modifies this
      ensures Valid()
      ensures chunksCache == map k | k in old(chunksCache) && !Expired(old(chunksCache)[k].timestamp, now, maxAgeDays)
                               :: old(chunksCache)[k]
      ensures fileMetadata == map k | k in old(fileMetadata) && !Expired(old(fileMetadata)[k].timestamp, now, maxAgeDays)
                                :: old(fileMetadata)[k]
      ensures embeddingsCache == old(embeddingsCache)
    {
      // collect the expired chunk entries, then delete them
      var expiredChunks: set<string> := {};
      var pending := chunksCache.Keys;
      while pending != {}
        invariant pending <= chunksCache.Keys
        invariant expiredChunks == set k | k in chunksCache && k !in pending &&
                                           Expired(chunksCache[k].timestamp, now, maxAgeDays)
        decreases pending
      {
        var k :| k in pending;
        if Expired(chunksCache[k].timestamp, now, maxAgeDays) {
          expiredChunks := expiredChunks + {k};
        }
        pending := pending - {k};
      }
      chunksCache := chunksCache - expiredChunks;

      var expiredMetadata: set<string> := {};
      pending := fileMetadata.Keys;
      while pending != {}
        invariant pending <= fileMetadata.Keys
        invariant expiredMetadata == set k | k in fileMetadata && k !in pending &&
                                             Expired(fileMetadata[k].timestamp, now, maxAgeDays)
        decreases pending
      {
        var k :| k in pending;
        if Expired(fileMetadata[k].timestamp, now, maxAgeDays) {
          expiredMetadata := expiredMetadata + {k};
        }
        pending := pending - {k};
      }
      fileMetadata := fileMetadata - expiredMetadata;
    }
  }
}
