/** Values that cross the repository's boundaries: the video metadata message,
    the errors the layer reports, and the protobuf library, which this model
    treats as an opaque codec. */
module Messages {

  /** Go's uint64: the type the view, like and dislike counters are scanned into. */
  newtype uint64 = x: int | 0 <= x < 0x1_0000_0000_0000_0000

  datatype Option<+T> = None | Some(value: T)

  /** The errors this layer returns. A cache miss (redis.Nil) is not among them:
      it is an outcome of a cache probe, see Stores.Lookup. */
  datatype Error =
    | NoRows               // the database has no row for the id (sql.ErrNoRows)
    | InvalidResolution    // the handler's "not a valid resolution"
    | Failure(msg: string) // any other error reported by a collaborator

  /** A Go pair (value, error) where exactly one side is meaningful. */
  datatype Result<+T> = Ok(value: T) | Err(error: Error)

  /** The GetVideoInfoResponse message. Byte strings (marshalled messages,
      cached values) are modelled as strings, as Redis hands them back. */
  datatype VideoInfo = VideoInfo(
    id: string,
    title: string,
    description: string,
    dateCreated: string,
    views: uint64,
    likes: uint64,
    dislikes: uint64,
    thumbnailUrl: string,
    resolutions: set<string>)

  /** What proto.Marshal gives back: the bytes and an error, which callers may ignore. */
  datatype Encoded = Encoded(data: string, err: Option<Error>)

  /** What proto.Unmarshal and proto.UnmarshalText leave in the target message:
      the (possibly partially) decoded message and an error, which callers may ignore. */
  datatype Decoded = Decoded(msg: VideoInfo, err: Option<Error>)

  /** The protobuf library as three uninterpreted functions: binary encoding,
      binary decoding and text-format decoding. */
  datatype Codec = Codec(
    marshal: VideoInfo -> Encoded,
    unmarshal: string -> Decoded,
    unmarshalText: string -> Decoded)

  /** The binary round-trip law: whatever Marshal encodes without error,
      Unmarshal decodes back to the same message without error. */
  ghost predicate BinaryRoundTrip(c: Codec)
  {
    forall m :: c.marshal(m).err.None? ==> c.unmarshal(c.marshal(m).data) == Decoded(m, None)
  }

  /** The law the cache-hit path would need: text decoding reads back what the
      binary encoder wrote. The protobuf library does not promise it. */
  ghost predicate TextReadsBinary(c: Codec)
  {
    forall m :: c.marshal(m).err.None? ==> c.unmarshalText(c.marshal(m).data) == Decoded(m, None)
  }
}
