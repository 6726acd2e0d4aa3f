/** The cache-aside data-access layer: HostRepository answers metadata
    lookups from Redis or, on a miss, from Postgres (and fills the cache), and
    resolves playback URLs through two chained cache probes, Postgres and the
    Minio presigner (without filling the cache). */
module Repository {
  import opened Messages
  import opened Stores

  /** TTL passed with the metadata write: 0, which Redis reads as "no expiry". */
  const MetadataTtl: nat := 0
  /** The bucket every presigned URL is scoped to. */
  const VideosBucket: string := "videos"
  /** Validity of a presigned URL, in seconds (24 hours). */
  const UrlValidity: nat := 24 * 60 * 60
  /** The resolution set every metadata response advertises. */
  const DefaultResolutions: set<string> := {"720p"}

  /** The derived thumbnail address `<host>/<id>.jpg`. */
  function ThumbnailUrl(host: string, id: string): (u: string)
    ensures |u| == |host| + |id| + 5
    ensures u[..|host|] == host && u[|host|] == '/' && u[|host| + |id| + 1..] == ".jpg"
    ensures u[|host| + 1..|host| + 1 + |id|] == id
  {
    host + "/" + id + ".jpg"
  }

  /** Distinct videos never share a thumbnail URL. */
  lemma ThumbnailUrlInjective(host: string, a: string, b: string)
    requires ThumbnailUrl(host, a) == ThumbnailUrl(host, b)
    ensures a == b
  {
  }

  /** The response built from a database row on a cache miss: the requested id,
      the row's descriptive fields, the derived thumbnail and the {720p} set. */
  function InfoFromRow(host: string, id: string, row: VideoRecord): (info: VideoInfo)
    ensures Describes(info, id, row)
    ensures info.thumbnailUrl == ThumbnailUrl(host, id) && info.resolutions == {"720p"}
  {
    VideoInfo(id, row.title, row.description, row.dateUploaded,
              row.viewCount, row.likes, row.dislikes,
              ThumbnailUrl(host, id), DefaultResolutions)
  }

  /** The response carries the id it was asked for and the row's descriptive
      fields, unchanged. */
  ghost predicate Describes(info: VideoInfo, id: string, row: VideoRecord)
  {
    && info.id == id
    && info.title == row.title
    && info.description == row.description
    && info.dateCreated == row.dateUploaded
    && info.views == row.viewCount
    && info.likes == row.likes
    && info.dislikes == row.dislikes
  }

  class HostRepository {
    const s3: BlobStore
    const pg: Database
    const cache: Cache
    /** The thumbnail host, read once from the environment. */
    const thumbHost: string
    const codec: Codec

    constructor (s3: BlobStore, pg: Database, cache: Cache, thumbHost: string, codec: Codec)
      ensures this.s3 == s3 && this.pg == pg && this.cache == cache
      ensures this.thumbHost == thumbHost && this.codec == codec
    {
      this.s3 := s3;
      this.pg := pg;
      this.cache := cache;
      this.thumbHost := thumbHost;
      this.codec := codec;
    }

    // ---- GetVideoInfo, as functions of the cache contents before the call ----

    /** The reply of GetVideoInfo(id). */
    function InfoOutcome(entries: map<string, CacheEntry>, id: string): Result<VideoInfo>
    {
      match Lookup(entries, cache.faults, id)
      case Failed(e) => Err(e)
      case Hit(v) => Ok(codec.unmarshalText(v).msg)
      case Miss =>
        match pg.VideoRow(id)
        case Err(e) => Err(e)
        case Ok(row) =>
          var res := InfoFromRow(thumbHost, id, row);
          match codec.marshal(res).err
          case Some(e) => Err(e)
          case None => Ok(res)
    }

    /** The database queries GetVideoInfo(id) issues. */
    function InfoQueries(entries: map<string, CacheEntry>, id: string): seq<Query>
    {
      if Lookup(entries, cache.faults, id).Miss? then [SelectVideo(id)] else []
    }

    /** The cache contents after GetVideoInfo(id). */
    function InfoEntries(entries: map<string, CacheEntry>, id: string): map<string, CacheEntry>
    {
      var out := InfoOutcome(entries, id);
      if Lookup(entries, cache.faults, id).Miss? && out.Ok? then
        entries[id := CacheEntry(codec.marshal(out.value).data, MetadataTtl)]
      else
        entries
    }

    // ---- GetVideo, as functions of the cache contents before the call ----

    /** The file path GetVideo(id, resolution) resolves: the cached value under
        `id + resolution`, or on a miss the row's file_path, whatever the resolution. */
    function FilePathOutcome(entries: map<string, CacheEntry>, id: string, resolution: string): Result<string>
    {
      match Lookup(entries, cache.faults, id + resolution)
      case Hit(path) => Ok(path)
      case Miss => pg.FilePath(id)
      case Failed(e) => Err(e)
    }

    /** The URL GetVideo(id, resolution) returns: the cached value under the file
        path, or on a miss a URL presigned for the file path. */
    function VideoOutcome(entries: map<string, CacheEntry>, id: string, resolution: string): Result<string>
    {
      match FilePathOutcome(entries, id, resolution)
      case Err(e) => Err(e)
      case Ok(path) =>
        match Lookup(entries, cache.faults, path)
        case Hit(url) => Ok(url)
        case Miss => s3.presign(PresignRequest(VideosBucket, path, UrlValidity))
        case Failed(e) => Err(e)
    }

    /** The cache keys GetVideo(id, resolution) probes. */
    function VideoProbes(entries: map<string, CacheEntry>, id: string, resolution: string): seq<string>
    {
      var fp := FilePathOutcome(entries, id, resolution);
      [id + resolution] + (if fp.Ok? then [fp.value] else [])
    }

    /** The database queries GetVideo(id, resolution) issues. */
    function VideoQueries(entries: map<string, CacheEntry>, id: string, resolution: string): seq<Query>
    {
      if Lookup(entries, cache.faults, id + resolution).Miss? then [SelectFilePath(id)] else []
    }

    /** The presign requests GetVideo(id, resolution) issues. */
    function VideoPresigns(entries: map<string, CacheEntry>, id: string, resolution: string): seq<PresignRequest>
    {
      var fp := FilePathOutcome(entries, id, resolution);
      if fp.Ok? && Lookup(entries, cache.faults, fp.value).Miss? then
        [PresignRequest(VideosBucket, fp.value, UrlValidity)]
      else
        []
    }

    // ---- the operations ----

    method GetVideoInfo(id: string) returns (r: Result<VideoInfo>)
      modifies cache, pg`queries
      ensures r == InfoOutcome(old(cache.entries), id)
      ensures cache.entries == InfoEntries(old(cache.entries), id)
      ensures cache.probes == old(cache.probes) + [id]
      ensures pg.queries == old(pg.queries) + InfoQueries(old(cache.entries), id)
    {
      var probe := cache.Get(id);
      if probe.Miss? {
        var row := pg.QueryVideo(id);
        if row.Err? {
          return Err(row.error);
        }
        var res := InfoFromRow(thumbHost, id, row.value);
        var v := codec.marshal(res);
        if v.err.Some? {
          return Err(v.err.value);
        }
        cache.Set(id, v.data, MetadataTtl);
        return Ok(res);
      } else if probe.Failed? {
        return Err(probe.error);
      } else {
        // the decode error is not looked at
        var res := codec.unmarshalText(probe.value);
        return Ok(res.msg);
      }
    }

    method GetVideo(id: string, resolution: string) returns (url: string, err: Option<Error>)
      modifies cache`probes, pg`queries, s3`requests
      ensures cache.entries == old(cache.entries)
      ensures var out := VideoOutcome(cache.entries, id, resolution);
        && (out.Ok? ==> url == out.value && err == None)
        && (out.Err? ==> url == "" && err == Some(out.error))
      ensures cache.probes == old(cache.probes) + VideoProbes(cache.entries, id, resolution)
      ensures pg.queries == old(pg.queries) + VideoQueries(cache.entries, id, resolution)
      ensures s3.requests == old(s3.requests) + VideoPresigns(cache.entries, id, resolution)
    {
      var filepath: string;
      var probe := cache.Get(id + resolution);
      if probe.Miss? {
        var row := pg.QueryFilePath(id);
        if row.Err? {
          return "", Some(row.error);
        }
        filepath := row.value;
      } else if probe.Failed? {
        return "", Some(probe.error);
      } else {
        filepath := probe.value;
      }

      var probe2 := cache.Get(filepath);
      if probe2.Miss? {
        var presigned := s3.PresignedGetObject(VideosBucket, filepath, UrlValidity);
        if presigned.Err? {
          return "", Some(presigned.error);
        }
        url := presigned.value;
      } else if probe2.Failed? {
        return "", Some(probe2.error);
      } else {
        url := probe2.value;
      }
      return url, None;
    }
  }

  // ---- properties of GetVideoInfo ----

  /** A cache error other than a miss aborts with that error: no query, no write. */
  lemma InfoCacheErrorAborts(repo: HostRepository, entries: map<string, CacheEntry>, id: string)
    requires Lookup(entries, repo.cache.faults, id).Failed?
    ensures repo.InfoOutcome(entries, id) == Err(repo.cache.faults[id])
    ensures repo.InfoQueries(entries, id) == []
    ensures repo.InfoEntries(entries, id) == entries
  {
  }

  /** A hit is served from the cache: the text decoding of the cached value is
      returned as a success even when the decoder reports an error, no query is
      made and nothing is written. */
  lemma InfoHitServesCached(repo: HostRepository, entries: map<string, CacheEntry>, id: string)
    requires id !in repo.cache.faults && id in entries
    ensures repo.InfoOutcome(entries, id) == Ok(repo.codec.unmarshalText(entries[id].value).msg)
    ensures repo.InfoQueries(entries, id) == []
    ensures repo.InfoEntries(entries, id) == entries
  {
  }

  /** On a miss, a row that marshals yields a response describing the row, with
      the derived thumbnail and the {720p} resolution set, and exactly the key
      `id` is written, with the marshalled response and TTL 0. */
  lemma InfoMissBuildsFromRow(repo: HostRepository, entries: map<string, CacheEntry>, id: string)
    requires Lookup(entries, repo.cache.faults, id).Miss? && repo.pg.VideoRow(id).Ok?
    requires repo.codec.marshal(InfoFromRow(repo.thumbHost, id, repo.pg.VideoRow(id).value)).err.None?
    ensures var r := repo.InfoOutcome(entries, id);
      && r.Ok?
      && Describes(r.value, id, repo.pg.VideoRow(id).value)
      && r.value.thumbnailUrl == repo.thumbHost + "/" + id + ".jpg"
      && r.value.resolutions == {"720p"}
      && repo.InfoEntries(entries, id).Keys == entries.Keys + {id}
      && repo.InfoEntries(entries, id)[id] == CacheEntry(repo.codec.marshal(r.value).data, 0)
      && (forall k :: k in entries && k != id ==> repo.InfoEntries(entries, id)[k] == entries[k])
    ensures repo.InfoQueries(entries, id) == [SelectVideo(id)]
  {
  }

  /** On a miss, a failed query (no row included) or a failed marshal is
      returned as the error and leaves the cache as it was. */
  lemma InfoMissFailureKeepsCache(repo: HostRepository, entries: map<string, CacheEntry>, id: string)
    requires Lookup(entries, repo.cache.faults, id).Miss?
    requires repo.pg.VideoRow(id).Err? ||
             repo.codec.marshal(InfoFromRow(repo.thumbHost, id, repo.pg.VideoRow(id).value)).err.Some?
    ensures repo.InfoOutcome(entries, id).Err?
    ensures repo.pg.VideoRow(id).Err? ==> repo.InfoOutcome(entries, id) == Err(repo.pg.VideoRow(id).error)
    ensures repo.pg.VideoRow(id).Ok? ==>
      var marshalled := repo.codec.marshal(InfoFromRow(repo.thumbHost, id, repo.pg.VideoRow(id).value));
      repo.InfoOutcome(entries, id) == Err(marshalled.err.value)
    ensures SelectVideo(id) !in repo.pg.faults && id !in repo.pg.videos ==> repo.InfoOutcome(entries, id) == Err(NoRows)
    ensures repo.InfoEntries(entries, id) == entries
  {
  }

  /** After a miss has filled the cache, the next lookup of the same id is a hit:
      it issues no query, writes nothing, and returns the text decoding of the
      bytes written, which is the first response when text decoding reads back
      the binary encoding. */
  lemma InfoSecondCallHits(repo: HostRepository, entries: map<string, CacheEntry>, id: string)
    requires Lookup(entries, repo.cache.faults, id).Miss? && repo.InfoOutcome(entries, id).Ok?
    ensures var first := repo.InfoOutcome(entries, id).value;
      var after := repo.InfoEntries(entries, id);
      && repo.InfoQueries(after, id) == []
      && repo.InfoEntries(after, id) == after
      && repo.InfoOutcome(after, id) == Ok(repo.codec.unmarshalText(repo.codec.marshal(first).data).msg)
      && (TextReadsBinary(repo.codec) ==> repo.InfoOutcome(after, id) == Ok(first))
  {
  }

  // ---- properties of GetVideo ----

  /** A cache error on either probe aborts with that error; an error on the
      first probe is reached before any query, and neither reaches the presigner. */
  lemma VideoCacheErrorAborts(repo: HostRepository, entries: map<string, CacheEntry>, id: string, resolution: string)
    ensures var first := Lookup(entries, repo.cache.faults, id + resolution);
      first.Failed? ==>
        && repo.VideoOutcome(entries, id, resolution) == Err(first.error)
        && repo.VideoQueries(entries, id, resolution) == []
        && repo.VideoPresigns(entries, id, resolution) == []
    ensures var fp := repo.FilePathOutcome(entries, id, resolution);
      fp.Ok? && Lookup(entries, repo.cache.faults, fp.value).Failed? ==>
        && repo.VideoOutcome(entries, id, resolution) == Err(repo.cache.faults[fp.value])
        && repo.VideoPresigns(entries, id, resolution) == []
  {
  }

  /** On a miss under `id + resolution` the file path is the row's file_path for
      `id`, whatever the resolution, and a query error is the call's error. */
  lemma VideoPathFromDatabase(repo: HostRepository, entries: map<string, CacheEntry>, id: string, resolution: string)
    requires Lookup(entries, repo.cache.faults, id + resolution).Miss?
    ensures repo.VideoQueries(entries, id, resolution) == [SelectFilePath(id)]
    ensures repo.FilePathOutcome(entries, id, resolution) == repo.pg.FilePath(id)
    ensures SelectFilePath(id) !in repo.pg.faults && id in repo.pg.videos ==>
      repo.FilePathOutcome(entries, id, resolution) == Ok(repo.pg.videos[id].filePath)
    ensures repo.pg.FilePath(id).Err? ==>
      && repo.VideoOutcome(entries, id, resolution) == Err(repo.pg.FilePath(id).error)
      && repo.VideoPresigns(entries, id, resolution) == []
  {
  }

  /** Once the file path is known, a hit under it is returned unchanged without
      presigning, and a miss is answered by presigning ("videos", path, 24h). */
  lemma VideoUrlLookup(repo: HostRepository, entries: map<string, CacheEntry>, id: string, resolution: string)
    requires repo.FilePathOutcome(entries, id, resolution).Ok?
    ensures var path := repo.FilePathOutcome(entries, id, resolution).value;
      path !in repo.cache.faults && path in entries ==>
        && repo.VideoOutcome(entries, id, resolution) == Ok(entries[path].value)
        && repo.VideoPresigns(entries, id, resolution) == []
    ensures var path := repo.FilePathOutcome(entries, id, resolution).value;
      Lookup(entries, repo.cache.faults, path).Miss? ==>
        && repo.VideoPresigns(entries, id, resolution) == [PresignRequest("videos", path, 86400)]
        && repo.VideoOutcome(entries, id, resolution) == repo.s3.presign(PresignRequest("videos", path, 86400))
  {
  }

  /** Metadata, file-path and URL keys share one keyspace: once a metadata
      lookup for the id `id + resolution` has filled the cache, GetVideo(id,
      resolution) takes the marshalled metadata for its file path. */
  lemma MetadataKeyShadowsPathKey(repo: HostRepository, entries: map<string, CacheEntry>, id: string, resolution: string)
    requires Lookup(entries, repo.cache.faults, id + resolution).Miss?
    requires repo.InfoOutcome(entries, id + resolution).Ok?
    ensures var filled := repo.InfoEntries(entries, id + resolution);
      repo.FilePathOutcome(filled, id, resolution) ==
        Ok(repo.codec.marshal(repo.InfoOutcome(entries, id + resolution).value).data)
    ensures var filled := repo.InfoEntries(entries, id + resolution);
      repo.VideoQueries(filled, id, resolution) == []
  {
  }

  /** Two resolutions of a video that both miss the cache resolve the same file
      and so give the same outcome and the same presign request. */
  lemma ResolutionsShareFile(repo: HostRepository, entries: map<string, CacheEntry>, id: string, r1: string, r2: string)
    requires Lookup(entries, repo.cache.faults, id + r1).Miss?
    requires Lookup(entries, repo.cache.faults, id + r2).Miss?
    ensures repo.VideoOutcome(entries, id, r1) == repo.VideoOutcome(entries, id, r2)
    ensures repo.VideoPresigns(entries, id, r1) == repo.VideoPresigns(entries, id, r2)
  {
  }
}
