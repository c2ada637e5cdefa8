/** The format sniffer of mqtt.go: `isGzipData`, `isZlibData`, and the order in
    which `UnCompress` consults them, as a classification of a payload. */
module Sniff {

  /** Two identification bytes that open every gzip member: ID1 = 31 and
      ID2 = 139 (section 2.3.1 of RFC 1952). */
  const GzipId: seq<bv8> := [0x1F, 0x8B]

  /** The CMF/FLG pairs the sniffer accepts: CMF 0x78 (deflate, 32K window)
      with FLEVEL 0, 2 or 3 (section 2.2 of RFC 1950). */
  const ZlibHeaders: set<seq<bv8>> := {[0x78, 0x01], [0x78, 0x9C], [0x78, 0xDA]}

  /** `isGzipData`: at least three bytes, the first two being the gzip ID. */
  predicate IsGzipData(data: seq<bv8>)
  {
    |data| > 2 && data[0] == 0x1F && data[1] == 0x8B
  }

  /** `isZlibData`: at least three bytes, CMF 0x78 and one of three FLG bytes. */
  predicate IsZlibData(data: seq<bv8>)
  {
    |data| > 2 && data[0] == 0x78 && (data[1] == 0x01 || data[1] == 0x9C || data[1] == 0xDA)
  }

  datatype PayloadFormat = Gzip | Zlib | Raw

  /** The branch `UnCompress` takes: gzip is tested first, then zlib. */
  function Classify(data: seq<bv8>): PayloadFormat
  {
    if IsGzipData(data) then Gzip
    else if IsZlibData(data) then Zlib
    else Raw
  }

  /** The classification against the header constants of the two RFCs: a
      payload of three or more bytes is gzip exactly when it opens with the
      gzip ID, zlib exactly when it opens with one of the accepted zlib
      headers, and raw otherwise. */
  lemma ClassifyByHeader(data: seq<bv8>)
    ensures Classify(data) == Gzip <==> |data| > 2 && data[..2] == GzipId
    ensures Classify(data) == Zlib <==> |data| > 2 && data[..2] in ZlibHeaders
    ensures Classify(data) == Raw <==> |data| <= 2 || (data[..2] != GzipId && data[..2] !in ZlibHeaders)
  {
    if |data| > 2 {
      assert data[..2] == [data[0], data[1]];
    }
  }

  /** The two predicates never hold together: their first bytes differ. */
  lemma GzipZlibExclusive(data: seq<bv8>)
    ensures !(IsGzipData(data) && IsZlibData(data))
  {
  }

  /** The length test is strict: two bytes are never compressed,
      not even the bare gzip ID or a bare zlib header. */
  lemma ShortPayloadIsRaw(data: seq<bv8>)
    requires |data| <= 2
    ensures !IsGzipData(data) && !IsZlibData(data) && Classify(data) == Raw
  {
  }

  /** A well-formed zlib stream header (section 2.2 of RFC 1950): compression
      method 8, window exponent CINFO at most 7, no preset dictionary, and
      CMF * 256 + FLG a multiple of 31. */
  predicate IsRfc1950Header(cmf: bv8, flg: bv8)
  {
    cmf & 0x0F == 8 && cmf >> 4 <= 7 && flg & 0x20 == 0
    && ((cmf as int) * 256 + flg as int) % 31 == 0
  }

  /** Every header the sniffer takes for zlib is a well-formed RFC 1950 header. */
  lemma ZlibDataHasRfc1950Header(data: seq<bv8>)
    requires IsZlibData(data)
    ensures IsRfc1950Header(data[0], data[1])
  {
  }

  /** The converse fails: 0x78 0x5E (FLEVEL 1) is a well-formed header that the
      sniffer classifies as raw, so such a stream is passed through undecoded. */
  lemma Rfc1950HeaderNotRecognised()
    ensures IsRfc1950Header(0x78, 0x5E)
    ensures Classify([0x78, 0x5E, 0x00]) == Raw
  {
  }
}
