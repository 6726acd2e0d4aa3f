/** The three backing services of the repository, as abstract state: the
    Redis cache, the Postgres `videos` table and the Minio presigner. Each
    keeps a ghost log of the calls made to it, so that contracts can say which
    store an operation touched. */
module Stores {
  import opened Messages

  /** A cached value and the TTL it was written with (0 means no expiry). */
  datatype CacheEntry = CacheEntry(value: string, ttl: nat)

  /** The outcome of `cache.Get(key).Result()`: a value, the distinguished miss
      (redis.Nil), or any other error. */
  datatype GetResult = Hit(value: string) | Miss | Failed(error: Error)

  /** A Get against the entries, where `faults` are the keys whose Get the
      backend answers with an error instead. */
  function Lookup(entries: map<string, CacheEntry>, faults: map<string, Error>, key: string): GetResult
  {
    if key in faults then Failed(faults[key])
    else if key in entries then Hit(entries[key].value)
    else Miss
  }

  class Cache {
    var entries: map<string, CacheEntry>
    /** Error oracle: a Get of one of these keys fails with the given error. */
    const faults: map<string, Error>
    /** Every key probed, in order. */
    ghost var probes: seq<string>

    constructor (entries: map<string, CacheEntry>, faults: map<string, Error>)
      ensures this.entries == entries && this.faults == faults && probes == []
    {
      this.entries := entries;
      this.faults := faults;
      probes := [];
    }

    method Get(key: string) returns (r: GetResult)
      modifies this`probes
      ensures r == Lookup(entries, faults, key)
      ensures probes == old(probes) + [key]
    {
      r := Lookup(entries, faults, key);
      probes := probes + [key];
    }

    method Set(key: string, value: string, ttl: nat)
      modifies this`entries
      ensures entries == old(entries)[key := CacheEntry(value, ttl)]
    {
      entries := entries[key := CacheEntry(value, ttl)];
    }
  }

  /** A row of the `videos` table, restricted to the columns the repository reads. */
  datatype VideoRecord = VideoRecord(
    title: string,
    description: string,
    dateUploaded: string,
    viewCount: uint64,
    likes: uint64,
    dislikes: uint64,
    filePath: string)

  /** The two queries the repository issues, both `... from videos where id=$1`. */
  datatype Query = SelectVideo(id: string) | SelectFilePath(id: string)

  class Database {
    const videos: map<string, VideoRecord>
    /** Error oracle: each of these queries fails with the given error (a
        connection failure, or a Scan that cannot convert one of its columns). */
    const faults: map<Query, Error>
    /** Every query issued, in order. */
    ghost var queries: seq<Query>

    constructor (videos: map<string, VideoRecord>, faults: map<Query, Error>)
      ensures this.videos == videos && this.faults == faults && queries == []
    {
      this.videos := videos;
      this.faults := faults;
      queries := [];
    }

    /** What the metadata query's Scan yields: the row, ErrNoRows, or another error. */
    function VideoRow(id: string): Result<VideoRecord>
    {
      if SelectVideo(id) in faults then Err(faults[SelectVideo(id)])
      else if id in videos then Ok(videos[id])
      else Err(NoRows)
    }

    /** What the file_path query's Scan yields: the column, ErrNoRows, or another error. */
    function FilePath(id: string): Result<string>
    {
      if SelectFilePath(id) in faults then Err(faults[SelectFilePath(id)])
      else if id in videos then Ok(videos[id].filePath)
      else Err(NoRows)
    }

    /** `select title, description, date_uploaded, view_count, likes, dislikes ...` */
    method QueryVideo(id: string) returns (r: Result<VideoRecord>)
      modifies this`queries
      ensures r == VideoRow(id)
      ensures queries == old(queries) + [SelectVideo(id)]
    {
      r := VideoRow(id);
      queries := queries + [SelectVideo(id)];
    }

    /** `select file_path ...` */
    method QueryFilePath(id: string) returns (r: Result<string>)
      modifies this`queries
      ensures r == FilePath(id)
      ensures queries == old(queries) + [SelectFilePath(id)]
    {
      r := FilePath(id);
      queries := queries + [SelectFilePath(id)];
    }
  }

  /** A `PresignedGetObject(bucket, object, expiry, nil)` call; expiry in seconds. */
  datatype PresignRequest = PresignRequest(bucket: string, objectName: string, expiry: nat)

  class BlobStore {
    /** The presigner as an oracle: the URL it issues for a request, or its error. */
    const presign: PresignRequest -> Result<string>
    /** Every presign request, in order. */
    ghost var requests: seq<PresignRequest>

    constructor (presign: PresignRequest -> Result<string>)
      ensures this.presign == presign && requests == []
    {
      this.presign := presign;
      requests := [];
    }

    method PresignedGetObject(bucket: string, objectName: string, expiry: nat) returns (r: Result<string>)
      modifies this`requests
      ensures r == presign(PresignRequest(bucket, objectName, expiry))
      ensures requests == old(requests) + [PresignRequest(bucket, objectName, expiry)]
    {
      r := presign(PresignRequest(bucket, objectName, expiry));
      requests := requests + [PresignRequest(bucket, objectName, expiry)];
    }
  }
}
