/** The decompressor of mqtt.go: `gunzipData`, `gunzlibData` and the dispatch
    in `UnCompress`. The gzip and zlib codecs are library code; each is a
    parameter of type StreamCodec, so every property below holds for every
    codec. An `mqtt.Message` is its payload. */
module Decompress {
  import opened Wrappers
  import opened Sniff

  /** A Go `error` value; `UnCompress` hands on the error it was given. */
  datatype Error = Error(message: string)

  /** What `bytes.Buffer.ReadFrom` leaves behind when it drains a reader into
      an empty buffer: the bytes it appended, and the first error other than
      end-of-stream (None when the reader reached end-of-stream). */
  datatype ReadOutcome = ReadOutcome(data: seq<bv8>, err: Option<Error>)

  /** A streaming decoder, such as `compress/gzip` or `compress/zlib`:
      `newReader` opens a reader over the whole input (and fails on a bad
      header), `readFrom` drains it with `bytes.Buffer.ReadFrom`. */
  datatype StreamCodec<!R> = StreamCodec(
    newReader: seq<bv8> -> Result<R, Error>,
    readFrom: R -> ReadOutcome)

  /** `gunzipData` and `gunzlibData`, which differ only in the codec: open a
      reader, drain it, and return the buffer, or the first error. */
  function Inflate<R>(codec: StreamCodec<R>, data: seq<bv8>): Result<seq<bv8>, Error>
  {
    match codec.newReader(data)
    case Failure(e) => Failure(e)
    case Success(reader) =>
      var out := codec.readFrom(reader);
      if out.err.Some? then Failure(out.err.value) else Success(out.data)
  }

  /** Inflate succeeds exactly when the reader opens and drains to
      end-of-stream, and then returns everything that was read. */
  lemma InflateSucceeds<R>(codec: StreamCodec<R>, data: seq<bv8>, out: seq<bv8>)
    ensures Inflate(codec, data) == Success(out)
        <==> codec.newReader(data).Success?
             && codec.readFrom(codec.newReader(data).value) == ReadOutcome(out, None)
  {
  }

  /** Inflate fails with `e` exactly when opening fails with `e`, or draining
      stops with `e`; whatever was read before the error is dropped. */
  lemma InflateFails<R>(codec: StreamCodec<R>, data: seq<bv8>, e: Error)
    ensures Inflate(codec, data) == Failure(e)
        <==> codec.newReader(data) == Failure(e)
             || (codec.newReader(data).Success?
                 && codec.readFrom(codec.newReader(data).value).err == Some(e))
  {
  }

  /** `UnCompress`: gzip first, then zlib, otherwise the payload unchanged. A
      decoder error is returned as it is, with no payload (Go's `nil, err`). */
  function UnCompress<R, S>(payload: seq<bv8>, gzip: StreamCodec<R>, zlib: StreamCodec<S>)
    : Result<seq<bv8>, Error>
  {
    if IsGzipData(payload) then
      match Inflate(gzip, payload)
      case Failure(e) => Failure(e)
      case Success(data) => Success(data)
    else if IsZlibData(payload) then
      match Inflate(zlib, payload)
      case Failure(e) => Failure(e)
      case Success(data) => Success(data)
    else
      Success(payload)
  }

  /** A payload that is neither gzip nor zlib comes back unchanged, whatever
      the codecs. */
  lemma RawPassesThrough<R, S>(payload: seq<bv8>, gzip: StreamCodec<R>, zlib: StreamCodec<S>)
    requires Classify(payload) == Raw
    ensures UnCompress(payload, gzip, zlib) == Success(payload)
  {
  }

  /** "Hello" is raw and comes back as the same five bytes. */
  lemma HelloPassesThrough<R, S>(gzip: StreamCodec<R>, zlib: StreamCodec<S>)
    ensures Classify([0x48, 0x65, 0x6C, 0x6C, 0x6F]) == Raw
    ensures UnCompress([0x48, 0x65, 0x6C, 0x6C, 0x6F], gzip, zlib) == Success([0x48, 0x65, 0x6C, 0x6C, 0x6F])
  {
  }

  /** The bare gzip ID is too short to be sniffed and is delivered as it is. */
  lemma BareGzipIdPassesThrough<R, S>(gzip: StreamCodec<R>, zlib: StreamCodec<S>)
    ensures Classify(GzipId) == Raw
    ensures UnCompress(GzipId, gzip, zlib) == Success(GzipId)
  {
  }

  /** A gzip payload is decoded by the gzip codec alone: the result is that
      of Inflate with it, and the zlib codec makes no difference. */
  lemma GzipUsesOnlyGzipCodec<R, S>(payload: seq<bv8>, gzip: StreamCodec<R>, zlib: StreamCodec<S>, zlib': StreamCodec<S>)
    requires Classify(payload) == Gzip
    ensures UnCompress(payload, gzip, zlib) == Inflate(gzip, payload)
    ensures UnCompress(payload, gzip, zlib) == UnCompress(payload, gzip, zlib')
  {
  }

  /** A zlib payload is decoded by the zlib codec alone. */
  lemma ZlibUsesOnlyZlibCodec<R, S>(payload: seq<bv8>, gzip: StreamCodec<R>, gzip': StreamCodec<R>, zlib: StreamCodec<S>)
    requires Classify(payload) == Zlib
    ensures UnCompress(payload, gzip, zlib) == Inflate(zlib, payload)
    ensures UnCompress(payload, gzip, zlib) == UnCompress(payload, gzip', zlib)
  {
  }

  /** Every error `UnCompress` reports is the error of the decoder the payload
      was sniffed for, and a sniffed payload whose decoder fails is never
      delivered raw. */
  lemma ErrorComesFromSelectedDecoder<R, S>(payload: seq<bv8>, gzip: StreamCodec<R>, zlib: StreamCodec<S>, e: Error)
    ensures UnCompress(payload, gzip, zlib) == Failure(e)
        <==> (Classify(payload) == Gzip && Inflate(gzip, payload) == Failure(e))
             || (Classify(payload) == Zlib && Inflate(zlib, payload) == Failure(e))
  {
  }

  /** `UnCompress` succeeds with `out` exactly when the payload was sniffed
      as gzip or zlib and that decoder yields `out`, or the payload is raw
      and `out` is the payload itself. */
  lemma SuccessComesFromSelectedDecoder<R, S>(payload: seq<bv8>, gzip: StreamCodec<R>, zlib: StreamCodec<S>, out: seq<bv8>)
    ensures UnCompress(payload, gzip, zlib) == Success(out)
        <==> (Classify(payload) == Gzip && Inflate(gzip, payload) == Success(out))
             || (Classify(payload) == Zlib && Inflate(zlib, payload) == Success(out))
             || (Classify(payload) == Raw && out == payload)
  {
  }
}
