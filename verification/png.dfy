/** The PNG serializer every icon script carries a copy of: signature, length-prefixed
    chunks with a CRC-32 trailer, an IHDR for an 8-bit truecolour image, one IDAT holding
    the zlib stream and an empty IEND (PNG specification, ISO/IEC 15948, sections 5.2,
    5.3, 5.5, 11.2.2). A parser is given beside it as the encoder's partner. */
module Png {
  import opened Bytes
  import opened Wrappers

  /** Section 5.2 of the PNG specification: 137 'P' 'N' 'G' CR LF SUB LF. */
  const SIGNATURE: seq<byte> := [0x89, 0x50, 0x4E, 0x47, 0x0D, 0x0A, 0x1A, 0x0A]
  const IHDR_TAG: seq<byte> := [0x49, 0x48, 0x44, 0x52]
  const IDAT_TAG: seq<byte> := [0x49, 0x44, 0x41, 0x54]
  const IEND_TAG: seq<byte> := [0x49, 0x45, 0x4E, 0x44]

  const BIT_DEPTH: byte := 8
  const TRUECOLOUR: byte := 2

  /** The two zlib routines the scripts call, left uninterpreted: `zlib.crc32` and
      `zlib.compress(raw, 9)`. Every property below holds whatever they compute. */
  datatype Zlib = Zlib(crc32: seq<byte> -> nat, compress: seq<byte> -> seq<byte>)

  /** The exceptions the serializer can raise: `struct.error` when an IHDR field is not an
      unsigned 32-bit value, and `struct.error`/`OverflowError` when a chunk is too long for
      its 32-bit length field. */
  datatype PngError = FieldOutOfRange | ChunkTooLong

  /** `zlib.crc32(tag + data) & 0xffffffff`. */
  function ChunkCrc(z: Zlib, tag: seq<byte>, data: seq<byte>): (c: nat)
    ensures IsU32(c)
  {
    z.crc32(tag + data) % TWO_TO_32
  }

  /** `_png_chunk(tag, data)`: BE32 length, tag, data, BE32 CRC of tag and data. */
  function Chunk(tag: seq<byte>, data: seq<byte>, z: Zlib): (r: Result<seq<byte>, PngError>)
    ensures r.Ok? <==> IsU32(|data|)
    ensures r.Ok? ==> |r.value| == |tag| + |data| + 8
    ensures r.Ok? ==> DecodeBE32(r.value[..4]) == |data|
  {
    if !IsU32(|data|) then Err(ChunkTooLong)
    else Ok(BE32(|data|) + tag + data + BE32(ChunkCrc(z, tag, data)))
  }

  /** A chunk as a decoder sees it. */
  datatype ChunkRecord = ChunkRecord(tag: seq<byte>, data: seq<byte>, crc: nat)

  /** Section 5.5 of the PNG specification: the stored CRC is the CRC-32 of the tag and the data. */
  predicate CrcMatches(c: ChunkRecord, z: Zlib) {
    c.crc == ChunkCrc(z, c.tag, c.data)
  }

  /** Splits one chunk off the front of `s`. */
  function ParseChunk(s: seq<byte>): (r: Option<(ChunkRecord, seq<byte>)>)
    ensures r.Some? ==> |r.value.1| + 12 <= |s|
  {
    if |s| < 12 then None
    else
      var n := DecodeBE32(s[..4]);
      if |s| < 12 + n then None
      else Some((ChunkRecord(s[4..8], s[8..8 + n], DecodeBE32(s[8 + n..12 + n])), s[12 + n..]))
  }

  /** Splits a byte string into consecutive chunks, failing on a truncated one. */
  function ParseChunks(s: seq<byte>): Option<seq<ChunkRecord>>
    decreases |s|
  {
    if s == [] then Some([])
    else
      match ParseChunk(s)
      case None => None
      case Some((c, rest)) =>
        match ParseChunks(rest)
        case None => None
        case Some(cs) => Some([c] + cs)
  }

  /** Checks the signature and splits the rest into chunks. */
  function ParsePng(s: seq<byte>): Option<seq<ChunkRecord>> {
    if |s| < 8 || s[..8] != SIGNATURE then None else ParseChunks(s[8..])
  }

  /** The seven IHDR fields of section 11.2.2 of the PNG specification. */
  datatype Header = Header(width: nat, height: nat, bitDepth: byte, colourType: byte,
                           compression: byte, filter: byte, interlace: byte)

  /** `struct.pack('>IIBBBBB', w, h, 8, 2, 0, 0, 0)`. */
  function IhdrPayload(w: nat, h: nat): (r: seq<byte>)
    requires IsU32(w) && IsU32(h)
    ensures |r| == 13
  {
    BE32(w) + BE32(h) + [BIT_DEPTH, TRUECOLOUR, 0, 0, 0]
  }

  function ParseIhdr(d: seq<byte>): Option<Header> {
    if |d| != 13 then None
    else Some(Header(DecodeBE32(d[..4]), DecodeBE32(d[4..8]), d[8], d[9], d[10], d[11], d[12]))
  }

  /** The header of a PNG: its first chunk, which must be an IHDR. */
  function PngHeader(s: seq<byte>): Option<Header> {
    match ParsePng(s)
    case Some(cs) => if |cs| > 0 && cs[0].tag == IHDR_TAG then ParseIhdr(cs[0].data) else None
    case None => None
  }

  /** `_png_from_raw(w, h, raw)`: signature, IHDR, IDAT holding `zlib.compress(raw)`, empty IEND.
      The struct packing of the IHDR is evaluated first, so an out-of-range width or height
      is reported before the IDAT length is looked at. */
  function PngFromRaw(w: int, h: int, raw: seq<byte>, z: Zlib): (r: Result<seq<byte>, PngError>)
    ensures r.Ok? <==> IsU32(w) && IsU32(h) && IsU32(|z.compress(raw)|)
    ensures !(IsU32(w) && IsU32(h)) ==> r == Err(FieldOutOfRange)
    ensures r.Ok? ==> |r.value| == 57 + |z.compress(raw)| && r.value[..8] == SIGNATURE
  {
    if !(IsU32(w) && IsU32(h)) then Err(FieldOutOfRange)
    else
      var idat := z.compress(raw);
      var ihdr := Chunk(IHDR_TAG, IhdrPayload(w, h), z);
      var data := Chunk(IDAT_TAG, idat, z);
      var end := Chunk(IEND_TAG, [], z);
      if data.Err? then Err(ChunkTooLong)
      else Ok(SIGNATURE + ihdr.value + data.value + end.value)
  }

  /** A chunk built by `Chunk` is read back whole, with whatever follows left over. */
  lemma ParseChunkOfChunk(tag: seq<byte>, data: seq<byte>, z: Zlib, rest: seq<byte>)
    requires |tag| == 4 && IsU32(|data|)
    ensures ParseChunk(Chunk(tag, data, z).value + rest)
         == Some((ChunkRecord(tag, data, ChunkCrc(z, tag, data)), rest))
  {
    var c := Chunk(tag, data, z).value;
    var s := c + rest;
    var n := |data|;
    assert s[..4] == BE32(n);
    assert s[4..8] == tag;
    assert s[8..8 + n] == data;
    assert s[8 + n..12 + n] == BE32(ChunkCrc(z, tag, data));
    assert s[12 + n..] == rest;
  }

  /** The IHDR payload decodes to the width, the height and the constants 8, 2, 0, 0, 0. */
  lemma IhdrRoundTrip(w: nat, h: nat)
    requires IsU32(w) && IsU32(h)
    ensures ParseIhdr(IhdrPayload(w, h)) == Some(Header(w, h, BIT_DEPTH, TRUECOLOUR, 0, 0, 0))
  {
    var d := IhdrPayload(w, h);
    assert d[..4] == BE32(w);
    assert d[4..8] == BE32(h);
  }

  /** A successful `PngFromRaw` parses back to exactly three chunks, IHDR, IDAT and IEND in
      that order, each with a matching CRC, the IHDR carrying the requested size and the IDAT
      carrying the compressed scanlines. */
  lemma PngFromRawParses(w: int, h: int, raw: seq<byte>, z: Zlib)
    requires PngFromRaw(w, h, raw, z).Ok?
    ensures var cs := ParsePng(PngFromRaw(w, h, raw, z).value);
      && cs.Some? && |cs.value| == 3
      && cs.value[0] == ChunkRecord(IHDR_TAG, IhdrPayload(w, h), ChunkCrc(z, IHDR_TAG, IhdrPayload(w, h)))
      && cs.value[1] == ChunkRecord(IDAT_TAG, z.compress(raw), ChunkCrc(z, IDAT_TAG, z.compress(raw)))
      && cs.value[2] == ChunkRecord(IEND_TAG, [], ChunkCrc(z, IEND_TAG, []))
      && forall i :: 0 <= i < 3 ==> CrcMatches(cs.value[i], z)
  {
    PngFromRawLayout(w, h, raw, z);
    ParseThreeChunks(IHDR_TAG, IhdrPayload(w, h), IDAT_TAG, z.compress(raw), IEND_TAG, [], z);
  }

  /** Three built chunks behind the signature parse back to their three records. */
  lemma ParseThreeChunks(t1: seq<byte>, d1: seq<byte>, t2: seq<byte>, d2: seq<byte>,
                         t3: seq<byte>, d3: seq<byte>, z: Zlib)
    requires |t1| == 4 && |t2| == 4 && |t3| == 4
    requires IsU32(|d1|) && IsU32(|d2|) && IsU32(|d3|)
    ensures ParsePng(SIGNATURE + (Chunk(t1, d1, z).value + (Chunk(t2, d2, z).value + Chunk(t3, d3, z).value)))
         == Some([ChunkRecord(t1, d1, ChunkCrc(z, t1, d1)), ChunkRecord(t2, d2, ChunkCrc(z, t2, d2)),
                  ChunkRecord(t3, d3, ChunkCrc(z, t3, d3))])
  {
    var c1, c2, c3 := Chunk(t1, d1, z).value, Chunk(t2, d2, z).value, Chunk(t3, d3, z).value;
    var r1, r2, r3 := ChunkRecord(t1, d1, ChunkCrc(z, t1, d1)), ChunkRecord(t2, d2, ChunkCrc(z, t2, d2)),
                      ChunkRecord(t3, d3, ChunkCrc(z, t3, d3));
    assert ParseChunks([]) == Some([]);
    ParseChunksOfChunk(t3, d3, z, []);
    assert c3 + [] == c3 && [r3] + [] == [r3];
    ParseChunksOfChunk(t2, d2, z, c3);
    assert [r2] + [r3] == [r2, r3];
    ParseChunksOfChunk(t1, d1, z, c2 + c3);
    assert [r1] + [r2, r3] == [r1, r2, r3];
    ParsePngAfterSignature(c1 + (c2 + c3));
  }

  /** The bytes `PngFromRaw` writes: the signature, then the three chunks. */
  lemma PngFromRawLayout(w: int, h: int, raw: seq<byte>, z: Zlib)
    requires PngFromRaw(w, h, raw, z).Ok?
    ensures PngFromRaw(w, h, raw, z).value
         == SIGNATURE + (Chunk(IHDR_TAG, IhdrPayload(w, h), z).value
                         + (Chunk(IDAT_TAG, z.compress(raw), z).value + Chunk(IEND_TAG, [], z).value))
  {
    var a, b, c := Chunk(IHDR_TAG, IhdrPayload(w, h), z).value, Chunk(IDAT_TAG, z.compress(raw), z).value,
                   Chunk(IEND_TAG, [], z).value;
    assert SIGNATURE + a + b + c == SIGNATURE + (a + (b + c));
  }

  lemma ParsePngAfterSignature(rest: seq<byte>)
    ensures ParsePng(SIGNATURE + rest) == ParseChunks(rest)
  {
    assert (SIGNATURE + rest)[..8] == SIGNATURE;
    assert (SIGNATURE + rest)[8..] == rest;
  }

  /** A successful `PngFromRaw` announces the requested width and height, 8-bit truecolour,
      compression 0, filter method 0 and no interlacing. */
  lemma PngFromRawHeader(w: int, h: int, raw: seq<byte>, z: Zlib)
    requires PngFromRaw(w, h, raw, z).Ok?
    ensures PngHeader(PngFromRaw(w, h, raw, z).value) == Some(Header(w, h, BIT_DEPTH, TRUECOLOUR, 0, 0, 0))
  {
    PngFromRawParses(w, h, raw, z);
    IhdrRoundTrip(w, h);
  }

  /** Parsing a built chunk followed by anything yields that chunk's record in front of
      whatever the remainder parses to. */
  lemma ParseChunksOfChunk(tag: seq<byte>, data: seq<byte>, z: Zlib, rest: seq<byte>)
    requires |tag| == 4 && IsU32(|data|)
    ensures var rec := ChunkRecord(tag, data, ChunkCrc(z, tag, data));
      ParseChunks(Chunk(tag, data, z).value + rest)
        == if ParseChunks(rest).Some? then Some([rec] + ParseChunks(rest).value) else None
  {
    ParseChunkOfChunk(tag, data, z, rest);
  }
}
