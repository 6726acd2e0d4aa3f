# Video hosting: cache-aside repository model

This project models the data-access core of a video-hosting service. The core serves video metadata and
time-limited playback URLs. `HostRepository` sits in front of three shared stores:
- a Redis cache;
- the Postgres `videos` table;
- the Minio object store, which presigns URLs.

The RPC handlers of `service` sit in front of the repository.

The model has four modules:
- `Messages`: the metadata message (`VideoInfo`) and the errors. The protobuf library is an opaque `Codec`: binary marshal, binary unmarshal and text unmarshal as uninterpreted functions. A decoder always yields a possibly partial message plus an optional error.
- `Stores`: the three collaborators as classes.
  - `Cache` holds its entries in a map, each with the TTL it was written with. A constant per-key fault oracle tells a miss (`redis.Nil`) apart from a backend error.
  - `Database` is a constant map from id to row plus a fault oracle keyed by query, so the metadata query and the file_path query of one id can fail independently. A missing row is `NoRows`.
  - `BlobStore` wraps a presign oracle `(bucket, object, expiry) -> url | error`.
  - Each store keeps a ghost log of the calls made to it. Contracts use these logs to say which store an operation read.
- `Repository`: the `HostRepository` class with `GetVideoInfo` and `GetVideo`, written step by step as in the source.
  - Each method is proved against functions of the cache contents before the call. These give the reply, the new cache contents, and the keys probed, queries issued and presign requests made.
  - Lemmas about those functions state the behaviour branch by branch, plus two multi-call facts.
- `Service`: the resolution whitelist and the `VideoService` handlers. The handlers fill the caller's response object in place.

The model follows the code as written. Three points of the code are easy to misread:
- Metadata is cached with TTL 0, meaning no expiry.
- `GetVideo` never writes the cache, neither the file path nor the URL.
- On a metadata hit, the cached bytes are decoded with the *text* decoder. These bytes were written by the *binary* encoder, and the decode error is discarded. `InfoSecondCallHits` shows that the second lookup returns the text decoding of the marshalled response. That equals the first response when the `TextReadsBinary` law holds, which protobuf does not promise.

A database miss is reported as the database's own error (`NoRows`) and is not wrapped in another error.

## Model

| member | source | states |
|---|---|---|
| `Stores.Cache.Get` | repository.go:39 | A probe yields the cached value, the distinguished miss, or the backend's error. It changes no entry and logs the key probed. |
| `Stores.Cache.Set` | repository.go:96 | Exactly the given key is (re)written, with the given value and TTL. |
| `Stores.Database.QueryVideo` | repository.go:54-55 | The metadata query yields the row for the id, `NoRows`, or the backend's error. It logs one `SelectVideo(id)`. |
| `Stores.Database.QueryFilePath` | repository.go:144-145 | The file_path query yields the row's `file_path` for the id or the same errors. It logs one `SelectFilePath(id)`. |
| `Stores.BlobStore.PresignedGetObject` | repository.go:172 | The presigner's answer for (bucket, object, expiry). It logs that request. |
| `Repository.ThumbnailUrl` | repository.go:62 | The thumbnail URL is the host, then `/`, then the id, then `.jpg`. Each part is stated by position, so the contract alone determines the URL. |
| `Repository.InfoFromRow` | repository.go:62-86 | The response built on a miss carries the requested id, the row's title, description, date, views, likes and dislikes (`Describes`), the derived thumbnail URL and exactly `{720p}`. |
| `Repository.ThumbnailUrlInjective` | repository.go:62 | Two different ids never get the same thumbnail URL under one host. |
| `Repository.HostRepository.GetVideoInfo` | repository.go:31-111 | The reply and the new cache are those of the cache-aside decision on the old cache. Exactly the key `id` is probed. The database is queried once on a miss and never otherwise. The presigner is never called. |
| `Repository.InfoCacheErrorAborts` | repository.go:100-102 | A non-miss cache error is returned as is, with no database query and no cache write. |
| `Repository.InfoHitServesCached` | repository.go:103-110 | On a hit, the text decoding of the cached value is returned as a success even if decoding reports an error. There is no query and no write. |
| `Repository.InfoMissBuildsFromRow` | repository.go:54-98 | On a miss with a row that marshals, the reply carries the id and the row's fields, thumbnail `host/id.jpg` and resolutions exactly `{720p}`. Key `id` now maps to the marshalled reply with TTL 0. Every other key is unchanged. |
| `Repository.InfoMissFailureKeepsCache` | repository.go:55-92 | On a miss, the query's own error is returned (a missing row gives `NoRows`). If the query succeeds, the marshal's own error is returned. Either way the cache is unchanged. |
| `Repository.InfoSecondCallHits` | repository.go:39-110 | After a miss filled the cache, the next lookup of that id is a hit. It makes no query and no write. It returns the text decoding of the bytes written, which is the first reply when text decoding reads binary encoding. |
| `Repository.HostRepository.GetVideo` | repository.go:116-191 | The URL, or `""` with the error, is as the two chained lookups decide. The cache is never written. The probed keys, database queries and presign requests are exactly those of the decision. |
| `Repository.VideoCacheErrorAborts` | repository.go:127-184 | A non-miss error on either probe is the call's error. An error on the first probe comes before any query. Neither kind of error reaches the presigner. |
| `Repository.VideoPathFromDatabase` | repository.go:127-151 | A miss under `id + resolution` queries `file_path` for `id` whatever the resolution, and the path is that query's answer. A query error is returned and nothing is presigned. |
| `Repository.VideoUrlLookup` | repository.go:163-189 | Under the file path as key, a hit is returned unchanged without presigning. A miss presigns `("videos", path, 86400 s)` and returns the presigner's answer. |
| `Repository.MetadataKeyShadowsPathKey` | repository.go:39-96 | Metadata keys and file-path keys share one Redis keyspace. Once a metadata lookup for the id `id + resolution` has filled the cache, `GetVideo(id, resolution)` makes no query and takes the marshalled metadata as its file path. |
| `Repository.ResolutionsShareFile` | repository.go:144-145 | Two resolutions of one video that both miss the cache resolve the same file. They give the same outcome and the same presign request. |
| `Service.IsValidResolution` | service.go:18-25 | A resolution passes exactly when it is one of `144p`, `240p`, `360p`, `480p`, `720p`, `1080p`. |
| `Service.ResolutionSuffixFree` | service.go:18-25 | No whitelisted resolution ends another one. |
| `Service.FilePathKeyInjective` | repository.go:127 | For whitelisted resolutions, the cache key `id + resolution` determines both the id and the resolution. |
| `Service.VideoService.GetVideo` | service.go:73-93 | A resolution off the whitelist gives the validation error. No store is touched and the response is untouched. A whitelisted request is passed on unchanged. On success the response's URL is set to the repository's URL. A repository error is returned verbatim and the response is untouched. |
| `Service.VideoService.GetVideoInfo` | service.go:27-71 | A repository error is returned verbatim and the message is untouched. On success the message becomes the binary decoding of the marshalled reply. A marshal error is ignored and an unmarshal error is returned. When marshalling succeeds under the binary round-trip law, the message equals the reply and no error is returned. |

## Left out

- Network I/O, SQL text and connection handling. Redis, Postgres and Minio are abstract state and oracles. The two SQL strings only fix which columns are read.
- Protobuf wire encoding. `proto.Marshal`, `proto.Unmarshal` and `proto.UnmarshalText` are uninterpreted functions in `Codec`. Their behaviour is stated only through the `BinaryRoundTrip` and `TextReadsBinary` laws, and only where a contract assumes one.
- Tracing spans and logging. They have no effect on results.
- Time. The TTL (0) and the presign validity (24 hours) are recorded as passed. Expiry and eviction are not modelled.
- Reading the thumbnail host from the environment. It is a constant field of the repository.
- The result of `cache.Set`. The source ignores it, and the model always performs the write.
- Column conversion failures in `Scan`, such as a NULL column or a counter outside uint64, are not derived from the row. They are entries of the database's per-query fault oracle.
- Transient backend errors. The cache's and the database's fault oracles are fixed for the store's lifetime, so a key that answered once cannot fail on a later call. The multi-call lemmas (`InfoSecondCallHits`, `MetadataKeyShadowsPathKey`) rely on this.
- The resolutions sub-message. It is a set of resolution tags instead of one boolean field per resolution.
- The `Repository` interface. Its only implementation, `HostRepository`, is modelled directly.
- The unreachable `return nil, nil` at the end of `GetVideoInfo`.
- Concurrency. Concurrent misses on one key are not modelled. The source has no request coalescing, no finite metadata TTL and no caching of file paths or URLs, so none of these is modelled either.
