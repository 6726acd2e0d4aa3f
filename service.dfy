/** The RPC handlers in front of the repository: GetVideo checks the requested
    resolution against a fixed whitelist before delegating, GetVideoInfo
    delegates and copies the reply into the caller's message. */
module Service {
  import opened Messages
  import opened Repository

  /** The resolution whitelist, a Go map[string]bool. */
  const ValidResolutions: map<string, bool> :=
    map["144p" := true, "240p" := true, "360p" := true, "480p" := true, "720p" := true, "1080p" := true]

  /** `VALID_RESOLUTIONS[r]`: a missing key reads as false. */
  function IsValidResolution(resolution: string): (ok: bool)
    ensures ok <==> resolution in {"144p", "240p", "360p", "480p", "720p", "1080p"}
  {
    resolution in ValidResolutions && ValidResolutions[resolution]
  }

  /** No whitelisted resolution is a proper suffix of another. */
  lemma ResolutionSuffixFree(r1: string, r2: string)
    requires IsValidResolution(r1) && IsValidResolution(r2)
    requires |r1| <= |r2| && r2[|r2| - |r1|..] == r1
    ensures r1 == r2
  {
  }

  /** For whitelisted resolutions the file-path cache key `id + resolution`
      determines both the id and the resolution, so two distinct requests that
      pass the handler never share that key. */
  lemma FilePathKeyInjective(id1: string, r1: string, id2: string, r2: string)
    requires IsValidResolution(r1) && IsValidResolution(r2)
    requires id1 + r1 == id2 + r2
    ensures id1 == id2 && r1 == r2
  {
    var k := id1 + r1;
    assert k[|k| - |r1|..] == r1;
    assert k[|k| - |r2|..] == r2;
    if |r1| <= |r2| {
      assert r2[|r2| - |r1|..] == k[|k| - |r1|..];
      ResolutionSuffixFree(r1, r2);
    } else {
      assert r1[|r1| - |r2|..] == k[|k| - |r2|..];
      ResolutionSuffixFree(r2, r1);
    }
    assert id1 == k[..|k| - |r1|];
    assert id2 == k[..|k| - |r2|];
  }

  datatype GetVideoRequest = GetVideoRequest(id: string, resolution: string)
  datatype GetVideoInfoRequest = GetVideoInfoRequest(id: string)

  /** The caller's GetVideoResponse, filled in place. */
  class GetVideoResponse {
    var presignedUrl: string

    constructor ()
      ensures presignedUrl == ""
    {
      presignedUrl := "";
    }
  }

  /** The caller's GetVideoInfoResponse, overwritten in place by proto.Unmarshal. */
  class GetVideoInfoResponse {
    var message: VideoInfo

    constructor (message: VideoInfo)
      ensures this.message == message
    {
      this.message := message;
    }
  }

  /** The handler object; its repository is the Redis/Postgres/Minio one. */
  class VideoService {
    const repo: HostRepository
    const codec: Codec

    constructor (repo: HostRepository)
      ensures this.repo == repo && codec == repo.codec
    {
      this.repo := repo;
      codec := repo.codec;
    }

    method GetVideo(req: GetVideoRequest, res: GetVideoResponse) returns (err: Option<Error>)
      modifies res, repo.cache`probes, repo.pg`queries, repo.s3`requests
      ensures repo.cache.entries == old(repo.cache.entries)
      // an unlisted resolution is refused before the repository is reached
      ensures !IsValidResolution(req.resolution) ==>
        && err == Some(InvalidResolution)
        && res.presignedUrl == old(res.presignedUrl)
        && repo.cache.probes == old(repo.cache.probes)
        && repo.pg.queries == old(repo.pg.queries)
        && repo.s3.requests == old(repo.s3.requests)
      // a listed one is passed on unchanged, and the repository's answer is relayed
      ensures IsValidResolution(req.resolution) ==>
        var entries := repo.cache.entries;
        var out := repo.VideoOutcome(entries, req.id, req.resolution);
        && (out.Ok? ==> err == None && res.presignedUrl == out.value)
        && (out.Err? ==> err == Some(out.error) && res.presignedUrl == old(res.presignedUrl))
        && repo.cache.probes == old(repo.cache.probes) + repo.VideoProbes(entries, req.id, req.resolution)
        && repo.pg.queries == old(repo.pg.queries) + repo.VideoQueries(entries, req.id, req.resolution)
        && repo.s3.requests == old(repo.s3.requests) + repo.VideoPresigns(entries, req.id, req.resolution)
    {
      if !IsValidResolution(req.resolution) {
        return Some(InvalidResolution);
      }

      var url, e := repo.GetVideo(req.id, req.resolution);
      if e.Some? {
        return e;
      }

      res.presignedUrl := url;
      return None;
    }

    method GetVideoInfo(req: GetVideoInfoRequest, res: GetVideoInfoResponse) returns (err: Option<Error>)
      modifies res, repo.cache, repo.pg`queries
      ensures var entries := old(repo.cache.entries);
        var out := repo.InfoOutcome(entries, req.id);
        && repo.cache.entries == repo.InfoEntries(entries, req.id)
        && repo.cache.probes == old(repo.cache.probes) + [req.id]
        && repo.pg.queries == old(repo.pg.queries) + repo.InfoQueries(entries, req.id)
        // a repository error is returned verbatim and the message is untouched
        && (out.Err? ==> err == Some(out.error) && res.message == old(res.message))
        // otherwise the reply is copied through Marshal then Unmarshal; a marshal
        // error is ignored, an unmarshal error is returned
        && (out.Ok? ==>
              var decoded := codec.unmarshal(codec.marshal(out.value).data);
              res.message == decoded.msg && err == decoded.err)
      ensures BinaryRoundTrip(codec) && repo.InfoOutcome(old(repo.cache.entries), req.id).Ok?
              && codec.marshal(repo.InfoOutcome(old(repo.cache.entries), req.id).value).err.None? ==>
        err == None && res.message == repo.InfoOutcome(old(repo.cache.entries), req.id).value
    {
      var rsp := repo.GetVideoInfo(req.id);
      if rsp.Err? {
        return Some(rsp.error);
      }

      // the marshal error is only logged
      var data := codec.marshal(rsp.value);

      var decoded := codec.unmarshal(data.data);
      res.message := decoded.msg;
      return decoded.err;
    }
  }
}
