/** Model of the WAV header reader (wav.h, wav.cpp).

    The reader takes a fixed 44-byte buffer, walks it with a cursor and a
    `remaining` counter, decodes 13 little-endian fields in order, accepts
    only when the three container tags spell "RIFF", "WAVE" and "fmt ", and
    then fills four fields of the output record.

    The pure function ParseHeader is the specification; the method
    ReadWavHeader is the cursor-walking implementation proved against it. */
module Wav {

  /** An unsigned 8-bit value (uint8_t). */
  type Byte = b: int | 0 <= b < 256

  datatype Option<T> = None | Some(value: T)

  /** WAV_HEADER_SIZE: the canonical header is exactly 44 bytes. */
  const HeaderSize: nat := 44

  /** The three tag constants, as the source compares them (little-endian
      reading of the ASCII bytes). */
  const RiffTag: int := 1179011410
  const WaveTag: int := 1163280727
  const FmtTag: int := 544501094

  /** The same tags as the byte sequences found in a file. */
  const RiffBytes: seq<Byte> := [0x52, 0x49, 0x46, 0x46]  // "RIFF"
  const WaveBytes: seq<Byte> := [0x57, 0x41, 0x56, 0x45]  // "WAVE"
  const FmtBytes: seq<Byte> := [0x66, 0x6D, 0x74, 0x20]   // "fmt "

  // ---------------------------------------------------------------------
  // Little-endian integers
  // ---------------------------------------------------------------------

  function Pow256(n: nat): (p: nat)
    ensures p >= 1
  {
    if n == 0 then 1 else 256 * Pow256(n - 1)
  }

  /** The unsigned value of `s` read least-significant byte first: what
      `memcpy` into an unsigned integer yields on a little-endian host. */
  function LeValue(s: seq<Byte>): (v: nat)
    ensures v < Pow256(|s|)
  {
    if s == [] then 0 else s[0] + 256 * LeValue(s[1..])
  }

  /** The `n` little-endian bytes of `v`. */
  function LeBytes(v: nat, n: nat): (s: seq<Byte>)
    requires v < Pow256(n)
    ensures |s| == n
    ensures LeValue(s) == v
  {
    if n == 0 then []
    else
      assert v / 256 < Pow256(n - 1);
      [v % 256] + LeBytes(v / 256, n - 1)
  }

  /** Two byte strings of the same length with the same little-endian value
      are equal: the decoding loses nothing. */
  lemma {:induction false} LeValueInjective(s: seq<Byte>, t: seq<Byte>)
    requires |s| == |t|
    requires LeValue(s) == LeValue(t)
    ensures s == t
  {
    if s != [] {
      var a, b := LeValue(s[1..]), LeValue(t[1..]);
      assert s[0] + 256 * a == t[0] + 256 * b;
      assert s[0] == t[0] && a == b by {
        assert (s[0] + 256 * a) % 256 == s[0];
        assert (t[0] + 256 * b) % 256 == t[0];
      }
      LeValueInjective(s[1..], t[1..]);
      assert s == [s[0]] + s[1..];
      assert t == [t[0]] + t[1..];
    }
  }

  /** What `memcpy` of two or four bytes into an unsigned integer yields on a
      little-endian host: the first byte is the least significant. */
  function Unsigned(s: seq<Byte>): (v: nat)
    requires |s| == 2 || |s| == 4
  {
    var b: seq<int> := s;
    if |b| == 2 then b[0] + 0x100 * b[1]
    else b[0] + 0x100 * b[1] + 0x1_0000 * b[2] + 0x100_0000 * b[3]
  }

  /** The fixed-width reading agrees with the positional value. */
  lemma UnsignedIsLeValue(s: seq<Byte>)
    requires |s| == 2 || |s| == 4
    ensures Unsigned(s) == LeValue(s)
  {
    assert s[1..][0] == s[1];
    assert s[1..][1..] == s[2..];
    if |s| == 4 {
      assert s[2..][0] == s[2] && s[2..][1..] == s[3..];
      assert s[3..][0] == s[3] && s[3..][1..] == [];
    } else {
      assert s[2..] == [];
    }
  }

  // ---------------------------------------------------------------------
  // The fields of the header
  // ---------------------------------------------------------------------

  /** The three instantiations of the template `_wav_read<T>` that the reader
      uses: uint32_t, int32_t and int16_t. */
  datatype FieldType = U32 | I32 | I16

  /** sizeof(T). */
  function Width(t: FieldType): nat
  {
    match t
    case U32 => 4
    case I32 => 4
    case I16 => 2
  }

  /** The values an object of type T can hold. */
  predicate InRange(t: FieldType, v: int)
  {
    match t
    case U32 => 0 <= v < 0x1_0000_0000
    case I32 => -0x8000_0000 <= v < 0x8000_0000
    case I16 => -0x8000 <= v < 0x8000
  }

  /** The value of type T whose object representation is `s` (two's
      complement for the signed types). */
  function Decode(t: FieldType, s: seq<Byte>): (v: int)
    requires |s| == Width(t)
    ensures InRange(t, v)
  {
    var u := Unsigned(s);
    match t
    case U32 => u
    case I32 => if u >= 0x8000_0000 then u - 0x1_0000_0000 else u
    case I16 => if u >= 0x8000 then u - 0x1_0000 else u
  }

  /** The object representation of a value of type T. */
  function Encode(t: FieldType, v: int): (s: seq<Byte>)
    requires InRange(t, v)
    ensures |s| == Width(t)
  {
    match t
    case U32 => LeBytes(v, 4)
    case I32 => LeBytes(if v < 0 then v + 0x1_0000_0000 else v, 4)
    case I16 => LeBytes(if v < 0 then v + 0x1_0000 else v, 2)
  }

  /** Decoding undoes encoding, for every value of the type. */
  lemma DecodeEncode(t: FieldType, v: int)
    requires InRange(t, v)
    ensures Decode(t, Encode(t, v)) == v
  {
    assert Pow256(2) == 0x1_0000 && Pow256(4) == 0x1_0000_0000;
    UnsignedIsLeValue(Encode(t, v));
  }

  /** The value of type T stored at byte offset `off` of `b`. */
  function FieldAt(b: seq<Byte>, t: FieldType, off: nat): (v: int)
    requires off + Width(t) <= |b|
  {
    Decode(t, b[off .. off + Width(t)])
  }

  // ---------------------------------------------------------------------
  // The header record and its specification
  // ---------------------------------------------------------------------

  /** wav_header_data: the four fields the reader fills. The int16 fields of
      the file are sign-extended into the wider members. */
  datatype WavHeader = WavHeader(length: int, channels: int, sampleRate: int, bitsPerSample: int)

  /** The headers a 44-byte buffer can describe. */
  predicate Representable(h: WavHeader)
  {
    InRange(I32, h.length) && InRange(I16, h.channels)
    && InRange(I32, h.sampleRate) && InRange(I16, h.bitsPerSample)
  }

  /** The header read at fixed offsets: None when a container tag does not
      match, otherwise the four fields read_wav_header writes to `output`.
      This is the reference the cursor-walking reader is proved against. */
  function ParseHeader(b: seq<Byte>): (r: Option<WavHeader>)
    requires |b| == HeaderSize
    ensures r.Some? ==> Representable(r.value)
  {
    if FieldAt(b, U32, 0) != RiffTag || FieldAt(b, U32, 8) != WaveTag || FieldAt(b, U32, 12) != FmtTag
    then None
    else Some(WavHeader(FieldAt(b, I32, 40), FieldAt(b, I16, 22), FieldAt(b, I32, 24), FieldAt(b, I16, 34)))
  }

  /** A tag field equals its constant exactly when its four bytes are the
      ASCII letters of the tag. */
  lemma {:induction false} TagMatches(s: seq<Byte>, tag: seq<Byte>, value: int)
    requires |s| == 4 && |tag| == 4 && value == Unsigned(tag)
    ensures Decode(U32, s) == value <==> s == tag
  {
    UnsignedIsLeValue(s);
    UnsignedIsLeValue(tag);
    if Decode(U32, s) == value {
      LeValueInjective(s, tag);
    }
  }

  /** The three tag constants are the little-endian readings of the ASCII
      letters, and parsing fails exactly when one of the tags is wrong. */
  lemma ParseHeaderFails(b: seq<Byte>)
    requires |b| == HeaderSize
    ensures ParseHeader(b).None? <==>
              b[0..4] != RiffBytes || b[8..12] != WaveBytes || b[12..16] != FmtBytes
  {
    TagMatches(b[0..4], RiffBytes, RiffTag);
    TagMatches(b[8..12], WaveBytes, WaveTag);
    TagMatches(b[12..16], FmtBytes, FmtTag);
  }

  /** The chunk length (bytes 4-7), fmt length (16-19), format tag (20-21),
      average bytes per second (28-31), block align (32-33) and "data" tag
      (36-39) play no part in the outcome: two headers that agree on every
      other byte parse to the same result. */
  lemma IgnoredFieldsIrrelevant(b: seq<Byte>, c: seq<Byte>)
    requires |b| == HeaderSize && |c| == HeaderSize
    requires b[0..4] == c[0..4] && b[8..16] == c[8..16] && b[22..28] == c[22..28]
    requires b[34..36] == c[34..36] && b[40..44] == c[40..44]
    ensures ParseHeader(b) == ParseHeader(c)
  {
    assert b[8..12] == b[8..16][0..4] && c[8..12] == c[8..16][0..4];
    assert b[12..16] == b[8..16][4..8] && c[12..16] == c[8..16][4..8];
    assert b[22..24] == b[22..28][0..2] && c[22..24] == c[22..28][0..2];
    assert b[24..28] == b[22..28][2..6] && c[24..28] == c[22..28][2..6];
  }

  // ---------------------------------------------------------------------
  // Writing a header: the inverse of the reader
  // ---------------------------------------------------------------------

  /** The fields read_wav_header reads but neither checks nor returns. */
  datatype Skipped = Skipped(chunkLength: int, fmtLength: int, formatTag: int,
                             avgBytesPerSec: int, blockAlign: int, dataTag: int)

  predicate SkippedInRange(x: Skipped)
  {
    InRange(I32, x.chunkLength) && InRange(I32, x.fmtLength) && InRange(I16, x.formatTag)
    && InRange(I32, x.avgBytesPerSec) && InRange(I16, x.blockAlign) && InRange(U32, x.dataTag)
  }

  /** The 44 bytes of a canonical header with the right tags, the fields of
      `h` and the skipped fields of `x`, in the order read_wav_header reads
      them. */
  function EncodeHeader(h: WavHeader, x: Skipped): (b: seq<Byte>)
    requires Representable(h) && SkippedInRange(x)
    ensures |b| == HeaderSize
  {
    (Encode(U32, RiffTag) + Encode(I32, x.chunkLength) + Encode(U32, WaveTag) + Encode(U32, FmtTag))
    + (Encode(I32, x.fmtLength) + Encode(I16, x.formatTag) + Encode(I16, h.channels)
       + Encode(I32, h.sampleRate))
    + (Encode(I32, x.avgBytesPerSec) + Encode(I16, x.blockAlign) + Encode(I16, h.bitsPerSample)
       + Encode(U32, x.dataTag) + Encode(I32, h.length))
  }

  /** Where thirteen pieces of the header's widths land once concatenated
      in the order EncodeHeader uses. */
  lemma HeaderPieces(f0: seq<Byte>, f1: seq<Byte>, f2: seq<Byte>, f3: seq<Byte>, f4: seq<Byte>,
                     f5: seq<Byte>, f6: seq<Byte>, f7: seq<Byte>, f8: seq<Byte>, f9: seq<Byte>,
                     f10: seq<Byte>, f11: seq<Byte>, f12: seq<Byte>)
    requires |f0| == |f1| == |f2| == |f3| == |f4| == 4
    requires |f5| == |f6| == 2 && |f7| == |f8| == 4 && |f9| == |f10| == 2 && |f11| == |f12| == 4
    ensures var b := (f0 + f1 + f2 + f3) + (f4 + f5 + f6 + f7) + (f8 + f9 + f10 + f11 + f12);
      b[0..4] == f0 && b[8..12] == f2 && b[12..16] == f3 && b[22..24] == f6
      && b[24..28] == f7 && b[34..36] == f10 && b[40..44] == f12
  {
    var p, q, r := f0 + f1 + f2 + f3, f4 + f5 + f6 + f7, f8 + f9 + f10 + f11 + f12;
    var b := p + q + r;
    assert b[0..16] == p && b[16..28] == q && b[28..44] == r;
    assert b[0..4] == p[0..4] && b[8..12] == p[8..12] && b[12..16] == p[12..16];
    assert b[22..24] == q[6..8] && b[24..28] == q[8..12];
    assert b[34..36] == r[6..8] && b[40..44] == r[12..16];
  }

  /** Round trip: whatever the skipped fields hold, reading an encoded header
      gives back exactly the four values written. */
  lemma ParseEncodedHeader(h: WavHeader, x: Skipped)
    requires Representable(h) && SkippedInRange(x)
    ensures ParseHeader(EncodeHeader(h, x)) == Some(h)
  {
    HeaderPieces(Encode(U32, RiffTag), Encode(I32, x.chunkLength), Encode(U32, WaveTag),
                 Encode(U32, FmtTag), Encode(I32, x.fmtLength), Encode(I16, x.formatTag),
                 Encode(I16, h.channels), Encode(I32, h.sampleRate), Encode(I32, x.avgBytesPerSec),
                 Encode(I16, x.blockAlign), Encode(I16, h.bitsPerSample), Encode(U32, x.dataTag),
                 Encode(I32, h.length));
    DecodeEncode(U32, RiffTag);
    DecodeEncode(U32, WaveTag);
    DecodeEncode(U32, FmtTag);
    DecodeEncode(I16, h.channels);
    DecodeEncode(I32, h.sampleRate);
    DecodeEncode(I16, h.bitsPerSample);
    DecodeEncode(I32, h.length);
  }

  // ---------------------------------------------------------------------
  // The imperative reader
  // ---------------------------------------------------------------------

  /** The caller's wav_header_data, written through the `output` pointer. */
  class HeaderRecord {
    var length: int
    var channels: int
    var sampleRate: int
    var bitsPerSample: int

    constructor ()
      ensures length == 0 && channels == 0 && sampleRate == 0 && bitsPerSample == 0
    {
      length, channels, sampleRate, bitsPerSample := 0, 0, 0, 0;
    }

    function Value(): WavHeader
      reads this
    {
      WavHeader(length, channels, sampleRate, bitsPerSample)
    }
  }

  /** _wav_read<T>: copy sizeof(T) bytes at the cursor into a T, then advance
      the cursor and decrease `remaining` by sizeof(T). The cursor and the
      counter are the caller's locals, passed by pointer; here they go in and
      come back out. */
  method WavRead(buffer: array<Byte>, pos: nat, remaining: nat, t: FieldType)
    returns (value: int, pos': nat, remaining': nat)
    requires pos + remaining == buffer.Length && Width(t) <= remaining
    ensures value == FieldAt(buffer[..], t, pos)
    ensures pos' == pos + Width(t) && remaining' == remaining - Width(t)
  {
    value := FieldAt(buffer[..], t, pos);
    pos' := pos + Width(t);
    remaining' := remaining - Width(t);
  }

  /** read_wav_header: thirteen reads through the cursor, the tag check, and
      on success the four writes to `output`; on failure `output` is left
      as it was. */
  method ReadWavHeader(buffer: array<Byte>, output: HeaderRecord) returns (ok: bool)
    requires buffer.Length == HeaderSize
    modifies output
    ensures ok <==> ParseHeader(old(buffer[..])).Some?
    ensures ok ==> output.Value() == ParseHeader(old(buffer[..])).value
    ensures !ok ==> unchanged(output)
  {
    // The proof below needs only which offsets are read, not how a field
    // is decoded.
    hide FieldAt;
    var pos: nat, remaining: nat := 0, HeaderSize;
    var tagRiff, length, tagWave, tagFmt, fmtLength, formatTag, channels: int;
    var sampleRate, avgBytesPerSec, blockAlign, bitsPerSample, tagData, dataLen: int;
    tagRiff, pos, remaining := WavRead(buffer, pos, remaining, U32);
    length, pos, remaining := WavRead(buffer, pos, remaining, I32);
    tagWave, pos, remaining := WavRead(buffer, pos, remaining, U32);
    tagFmt, pos, remaining := WavRead(buffer, pos, remaining, U32);
    fmtLength, pos, remaining := WavRead(buffer, pos, remaining, I32);
    formatTag, pos, remaining := WavRead(buffer, pos, remaining, I16);
    channels, pos, remaining := WavRead(buffer, pos, remaining, I16);
    sampleRate, pos, remaining := WavRead(buffer, pos, remaining, I32);
    avgBytesPerSec, pos, remaining := WavRead(buffer, pos, remaining, I32);
    blockAlign, pos, remaining := WavRead(buffer, pos, remaining, I16);
    bitsPerSample, pos, remaining := WavRead(buffer, pos, remaining, I16);
    tagData, pos, remaining := WavRead(buffer, pos, remaining, U32);
    dataLen, pos, remaining := WavRead(buffer, pos, remaining, I32);
    // The thirteen reads consume the whole header, and none goes past it.
    assert remaining == 0 && pos == HeaderSize;

    if tagRiff != 1179011410 || tagWave != 1163280727 || tagFmt != 544501094 {
      return false;
    }

    output.channels := channels;
    output.length := dataLen;
    output.sampleRate := sampleRate;
    output.bitsPerSample := bitsPerSample;
    return true;
  }
}
