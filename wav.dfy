/**
 * The canonical 44-byte RIFF WAVE header as the audio utilities write and
 * read it (WAVE Form Definition of the Microsoft/IBM Multimedia Programming
 * Interface and Data Specifications 1.0: a RIFF chunk, a `fmt ` chunk, a
 * `data` chunk). Format tag 3 is WAVE_FORMAT_IEEE_FLOAT and tag 1 is PCM
 * (RFC 2361, Appendix A).
 */
module Wav {
  import opened Wrappers
  import Js

  type byte = x: int | 0 <= x < 256

  const TWO15: int := 0x8000
  const TWO16: int := 0x1_0000
  const TWO31: int := 0x8000_0000
  const TWO32: int := 0x1_0000_0000

  /** Offsets and length of the canonical header. */
  const HEADER_SIZE: nat := 44
  const FMT_START: nat := 12
  const DATA_START: nat := 36

  /** The four-character tags, as the big-endian 32-bit words the writer stores. */
  const RIFF_WORD: int := 0x52494646
  const WAVE_WORD: int := 0x57415645
  const FMT_WORD: int := 0x666d7420
  const DATA_WORD: int := 0x64617461

  const WAVE_FORMAT_PCM: int := 1
  const WAVE_FORMAT_IEEE_FLOAT: int := 3

  /** Every sample the editor hands to the writer is a 32-bit float. */
  const SAMPLE_WIDTH: int := 4

  // ---------------------------------------------------------------------------
  // DataView byte encodings

  /** The `n` low-order bytes of `u`, least significant first. */
  function LeBytes(u: nat, n: nat): (r: seq<byte>)
    ensures |r| == n
  {
    if n == 0 then [] else [u % 256] + LeBytes(u / 256, n - 1)
  }

  /** `setUint32`: ToUint32 of the value, then its four bytes in the chosen order. */
  function Uint32Bytes(v: int, littleEndian: bool): (r: seq<byte>)
    ensures |r| == 4
  {
    var le := LeBytes(v % TWO32, 4);
    if littleEndian then le else [le[3], le[2], le[1], le[0]]
  }

  /** `setUint16`: ToUint16 of the value, then its two bytes in the chosen order. */
  function Uint16Bytes(v: int, littleEndian: bool): (r: seq<byte>)
    ensures |r| == 2
  {
    var le := LeBytes(v % TWO16, 2);
    if littleEndian then le else [le[1], le[0]]
  }

  /** `getUint32(off, true)`: the unsigned value of the four little-endian bytes at `off`. */
  function Le32At(b: seq<byte>, off: nat): (r: int)
    requires off + 4 <= |b|
    ensures 0 <= r < TWO32
  {
    b[off] as int + 256 * (b[off + 1] as int + 256 * (b[off + 2] as int + 256 * b[off + 3] as int))
  }

  /** `getUint16(off, true)`: the unsigned value of the two little-endian bytes at `off`. */
  function Le16At(b: seq<byte>, off: nat): (r: int)
    requires off + 2 <= |b|
    ensures 0 <= r < TWO16
  {
    b[off] as int + 256 * b[off + 1] as int
  }

  /** The two's-complement reinterpretations `getInt32` and `getInt16` apply. */
  function ToInt32(v: int): (r: int)
    ensures -TWO31 <= r < TWO31
    ensures (r - v) % TWO32 == 0
    ensures 0 <= v < TWO31 ==> r == v
  {
    var u := v % TWO32;
    if u >= TWO31 then u - TWO32 else u
  }

  function ToInt16(v: int): (r: int)
    ensures -TWO15 <= r < TWO15
    ensures (r - v) % TWO16 == 0
    ensures 0 <= v < TWO15 ==> r == v
  {
    var u := v % TWO16;
    if u >= TWO15 then u - TWO16 else u
  }

  lemma Uint32LittleEndianRoundTrip(v: int)
    ensures Le32At(Uint32Bytes(v, true), 0) == v % TWO32
  {
    var u := v % TWO32;
    var q1 := u / 256;
    var q2 := q1 / 256;
    var q3 := q2 / 256;
    var b := Uint32Bytes(v, true);
    assert b == [u % 256] + LeBytes(q1, 3);
    assert LeBytes(q1, 3) == [q1 % 256] + LeBytes(q2, 2);
    assert LeBytes(q2, 2) == [q2 % 256] + LeBytes(q3, 1);
    assert LeBytes(q3, 1) == [q3 % 256] + LeBytes(q3 / 256, 0);
    assert u == u % 256 + 256 * q1;
    assert q1 == q1 % 256 + 256 * q2;
    assert q2 == q2 % 256 + 256 * q3;
    assert q3 < 256;
  }

  lemma Uint16LittleEndianRoundTrip(v: int)
    ensures Le16At(Uint16Bytes(v, true), 0) == v % TWO16
  {
    var u := v % TWO16;
    var q1 := u / 256;
    var b := Uint16Bytes(v, true);
    assert b == [u % 256] + LeBytes(q1, 1);
    assert LeBytes(q1, 1) == [q1 % 256] + LeBytes(q1 / 256, 0);
    assert u == u % 256 + 256 * q1;
    assert q1 < 256;
  }

  // ---------------------------------------------------------------------------
  // The header the writers produce

  function AudioFormat(intPCM: bool): (r: int)
    ensures r == WAVE_FORMAT_PCM <==> intPCM
    ensures r == WAVE_FORMAT_IEEE_FLOAT <==> !intPCM
  {
    if intPCM then WAVE_FORMAT_PCM else WAVE_FORMAT_IEEE_FLOAT
  }

  /** The RIFF chunk header: tag, size 36 + dataSize, form type WAVE. */
  function RiffChunk(dataSize: nat): (r: seq<byte>)
    ensures |r| == 12
  {
    Uint32Bytes(RIFF_WORD, false) + Uint32Bytes(36 + dataSize, true) + Uint32Bytes(WAVE_WORD, false)
  }

  /**
   * The `fmt ` chunk: tag, size 16, then format tag, channel count, sample
   * rate, byte rate (rate * channels * 4), block alignment (channels * 4) and
   * bits per sample (32).
   */
  function FmtChunk(channels: int, rate: int, intPCM: bool): (r: seq<byte>)
    ensures |r| == 24
  {
    FmtFields(AudioFormat(intPCM), channels, rate, rate * channels * SAMPLE_WIDTH,
              channels * SAMPLE_WIDTH, SAMPLE_WIDTH * 8)
  }

  /** The `fmt ` chunk bytes for given field values, in file order. */
  function FmtFields(format: int, channels: int, rate: int, byterate: int, blockAlign: int, bits: int)
    : (r: seq<byte>)
    ensures |r| == 24
  {
    Uint32Bytes(FMT_WORD, false) + Uint32Bytes(16, true)
    + Uint16Bytes(format, true)
    + Uint16Bytes(channels, true)
    + Uint32Bytes(rate, true)
    + Uint32Bytes(byterate, true)
    + Uint16Bytes(blockAlign, true)
    + Uint16Bytes(bits, true)
  }

  /** The `data` chunk header: tag and size dataSize. */
  function DataChunkHeader(dataSize: nat): (r: seq<byte>)
    ensures |r| == 8
  {
    Uint32Bytes(DATA_WORD, false) + Uint32Bytes(dataSize, true)
  }

  /** The 44 header bytes the writers produce for `dataSize` bytes of frames. */
  function HeaderBytes(dataSize: nat, channels: int, rate: int, intPCM: bool): (r: seq<byte>)
    ensures |r| == HEADER_SIZE
  {
    RiffChunk(dataSize) + FmtChunk(channels, rate, intPCM) + DataChunkHeader(dataSize)
  }

  /** `String.fromCharCode(...bytes)`: one character per byte. */
  function FromCharCode(b: seq<byte>): (r: string)
    ensures |r| == |b|
    ensures forall i :: 0 <= i < |b| ==> r[i] as int == b[i]
  {
    seq(|b|, i requires 0 <= i < |b| => b[i] as char)
  }

  /**
   * The header layout: 44 bytes; the tags RIFF, WAVE, "fmt " and data at
   * offsets 0, 8, 12 and 36; and the little-endian size and format fields
   * holding the values the writer derives from its arguments.
   */
  lemma HeaderLayout(dataSize: nat, channels: int, rate: int, intPCM: bool)
    ensures var h := HeaderBytes(dataSize, channels, rate, intPCM);
      && |h| == 44
      && FromCharCode(h[0..4]) == "RIFF"
      && FromCharCode(h[8..12]) == "WAVE"
      && FromCharCode(h[12..16]) == "fmt "
      && FromCharCode(h[36..40]) == "data"
      && Le32At(h, 4) == (36 + dataSize) % TWO32
      && Le32At(h, 16) == 16
      && Le16At(h, 20) == AudioFormat(intPCM)
      && Le16At(h, 22) == channels % TWO16
      && Le32At(h, 24) == rate % TWO32
      && Le32At(h, 28) == (rate * channels * SAMPLE_WIDTH) % TWO32
      && Le16At(h, 32) == (channels * SAMPLE_WIDTH) % TWO16
      && Le16At(h, 34) == 32
      && Le32At(h, 40) == dataSize % TWO32
  {
    HeaderOfChunks(HeaderBytes(dataSize, channels, rate, intPCM),
                   RiffChunk(dataSize), FmtChunk(channels, rate, intPCM), DataChunkHeader(dataSize));
    RiffLayout(dataSize);
    FmtLayout(channels, rate, intPCM);
    DataLayout(dataSize);
  }

  /** Each tag and field of the three chunks sits at its offset in their concatenation. */
  lemma HeaderOfChunks(h: seq<byte>, riff: seq<byte>, fmt: seq<byte>, data: seq<byte>)
    requires |riff| == 12 && |fmt| == 24 && |data| == 8 && h == riff + fmt + data
    ensures h[0..4] == riff[0..4] && h[8..12] == riff[8..12]
    ensures h[12..16] == fmt[0..4] && h[36..40] == data[0..4]
    ensures Le32At(h, 4) == Le32At(riff, 4)
    ensures Le32At(h, 16) == Le32At(fmt, 4) && Le16At(h, 20) == Le16At(fmt, 8)
    ensures Le16At(h, 22) == Le16At(fmt, 10) && Le32At(h, 24) == Le32At(fmt, 12)
    ensures Le32At(h, 28) == Le32At(fmt, 16) && Le16At(h, 32) == Le16At(fmt, 20)
    ensures Le16At(h, 34) == Le16At(fmt, 22)
    ensures Le32At(h, 40) == Le32At(data, 4)
  {
    ConcatParts(riff, fmt, data);
    TagIn(h, riff, 0, 0);
    TagIn(h, riff, 0, 8);
    TagIn(h, fmt, 12, 0);
    TagIn(h, data, 36, 0);
    Le32In(h, riff, 0, 4);
    Le32In(h, fmt, 12, 4);
    Le16In(h, fmt, 12, 8);
    Le16In(h, fmt, 12, 10);
    Le32In(h, fmt, 12, 12);
    Le32In(h, fmt, 12, 16);
    Le16In(h, fmt, 12, 20);
    Le16In(h, fmt, 12, 22);
    Le32In(h, data, 36, 4);
  }

  /** The RIFF chunk: tags RIFF and WAVE around the little-endian size 36 + dataSize. */
  lemma RiffLayout(dataSize: nat)
    ensures var r := RiffChunk(dataSize);
      && FromCharCode(r[0..4]) == "RIFF"
      && FromCharCode(r[8..12]) == "WAVE"
      && Le32At(r, 4) == (36 + dataSize) % TWO32
  {
    var r := RiffChunk(dataSize);
    var p1, p2, p3 := Uint32Bytes(RIFF_WORD, false), Uint32Bytes(36 + dataSize, true), Uint32Bytes(WAVE_WORD, false);
    assert r[0..4] == p1 && r[8..12] == p3;
    forall i | 0 <= i < 4
      ensures r[4 + i] == p2[i]
    {
    }
    TagBytes();
    Uint32LittleEndianRoundTrip(36 + dataSize);
  }

  /** The `fmt ` chunk: its tag, then every field the writer derives, little-endian. */
  lemma FmtLayout(channels: int, rate: int, intPCM: bool)
    ensures var f := FmtChunk(channels, rate, intPCM);
      && FromCharCode(f[0..4]) == "fmt "
      && FmtFieldsOf(f, channels, rate, intPCM)
  {
    var f := FmtChunk(channels, rate, intPCM);
    FmtTag(AudioFormat(intPCM), channels, rate, rate * channels * SAMPLE_WIDTH,
           channels * SAMPLE_WIDTH, SAMPLE_WIDTH * 8);
    FmtFieldValues(channels, rate, intPCM);
  }

  /** The field values the writer puts in the `fmt ` chunk, read back at their offsets. */
  predicate FmtFieldsOf(f: seq<byte>, channels: int, rate: int, intPCM: bool)
    requires |f| >= 24
  {
      && Le32At(f, 4) == 16
      && Le16At(f, 8) == AudioFormat(intPCM)
      && Le16At(f, 10) == channels % TWO16
      && Le32At(f, 12) == rate % TWO32
      && Le32At(f, 16) == (rate * channels * SAMPLE_WIDTH) % TWO32
      && Le16At(f, 20) == (channels * SAMPLE_WIDTH) % TWO16
      && Le16At(f, 22) == 32
  }

  lemma FmtFieldValues(channels: int, rate: int, intPCM: bool)
    ensures FmtFieldsOf(FmtChunk(channels, rate, intPCM), channels, rate, intPCM)
  {
    var format := AudioFormat(intPCM);
    FmtFieldsReads(format, channels, rate, rate * channels * SAMPLE_WIDTH,
                   channels * SAMPLE_WIDTH, SAMPLE_WIDTH * 8);
    assert format % TWO16 == format && (SAMPLE_WIDTH * 8) % TWO16 == 32;
  }

  lemma FmtTag(format: int, channels: int, rate: int, byterate: int, blockAlign: int, bits: int)
    ensures FromCharCode(FmtFields(format, channels, rate, byterate, blockAlign, bits)[0..4]) == "fmt "
  {
    FmtFieldsReads(format, channels, rate, byterate, blockAlign, bits);
    TagBytes();
  }

  /** The `data` chunk header: tag data and the little-endian size dataSize. */
  lemma DataLayout(dataSize: nat)
    ensures var d := DataChunkHeader(dataSize);
      && FromCharCode(d[0..4]) == "data"
      && Le32At(d, 4) == dataSize % TWO32
  {
    var d := DataChunkHeader(dataSize);
    var p1, p2 := Uint32Bytes(DATA_WORD, false), Uint32Bytes(dataSize, true);
    assert d[0..4] == p1;
    forall i | 0 <= i < 4
      ensures d[4 + i] == p2[i]
    {
    }
    TagBytes();
    Uint32LittleEndianRoundTrip(dataSize);
  }

  /** A four-byte tag of a chunk is the same tag at the chunk's place in the header. */
  lemma TagIn(h: seq<byte>, part: seq<byte>, start: nat, off: nat)
    requires start + |part| <= |h| && h[start..start + |part|] == part && off + 4 <= |part|
    ensures h[start + off..start + off + 4] == part[off..off + 4]
  {
    var window := h[start..start + |part|];
    assert h[start + off] == window[off] && h[start + off + 1] == window[off + 1];
    assert h[start + off + 2] == window[off + 2] && h[start + off + 3] == window[off + 3];
  }

  /** A 32-bit field of a chunk reads the same at the chunk's place in the header. */
  lemma Le32In(h: seq<byte>, part: seq<byte>, start: nat, off: nat)
    requires start + |part| <= |h| && h[start..start + |part|] == part && off + 4 <= |part|
    ensures Le32At(h, start + off) == Le32At(part, off)
  {
    var window := h[start..start + |part|];
    assert h[start + off] == window[off] && h[start + off + 1] == window[off + 1];
    assert h[start + off + 2] == window[off + 2] && h[start + off + 3] == window[off + 3];
  }

  /** A 16-bit field of a chunk reads the same at the chunk's place in the header. */
  lemma Le16In(h: seq<byte>, part: seq<byte>, start: nat, off: nat)
    requires start + |part| <= |h| && h[start..start + |part|] == part && off + 2 <= |part|
    ensures Le16At(h, start + off) == Le16At(part, off)
  {
    var window := h[start..start + |part|];
    assert h[start + off] == window[off] && h[start + off + 1] == window[off + 1];
  }

  /** The big-endian tag words spell the four-character chunk identifiers. */
  lemma TagBytes()
    ensures FromCharCode(Uint32Bytes(RIFF_WORD, false)) == "RIFF"
    ensures FromCharCode(Uint32Bytes(WAVE_WORD, false)) == "WAVE"
    ensures FromCharCode(Uint32Bytes(FMT_WORD, false)) == "fmt "
    ensures FromCharCode(Uint32Bytes(DATA_WORD, false)) == "data"
  {
  }

  // ---------------------------------------------------------------------------
  // The writers: fields set one by one through a DataView into a fresh buffer

  /** `view.setUint32(offset, value, littleEndian)`. */
  method SetUint32(view: array<byte>, offset: nat, value: int, littleEndian: bool)
    requires offset + 4 <= view.Length
    modifies view
    ensures view[..offset + 4] == old(view[..offset]) + Uint32Bytes(value, littleEndian)
    ensures view[offset + 4..] == old(view[offset + 4..])
    ensures forall k :: offset + 4 <= k < view.Length ==> view[k] == old(view[k])
  {
    var b := Uint32Bytes(value, littleEndian);
    view[offset] := b[0];
    view[offset + 1] := b[1];
    view[offset + 2] := b[2];
    view[offset + 3] := b[3];
  }

  /** `view.setUint16(offset, value, littleEndian)`. */
  method SetUint16(view: array<byte>, offset: nat, value: int, littleEndian: bool)
    requires offset + 2 <= view.Length
    modifies view
    ensures view[..offset + 2] == old(view[..offset]) + Uint16Bytes(value, littleEndian)
    ensures view[offset + 2..] == old(view[offset + 2..])
    ensures forall k :: offset + 2 <= k < view.Length ==> view[k] == old(view[k])
  {
    var b := Uint16Bytes(value, littleEndian);
    view[offset] := b[0];
    view[offset + 1] := b[1];
  }

  /** The riff_chunk fields: tag, file size less 8, form type. */
  method WriteRiffChunk(view: array<byte>, dataSize: nat)
    requires view.Length == HEADER_SIZE
    modifies view
    ensures view[..FMT_START] == RiffChunk(dataSize)
    ensures view[FMT_START..] == old(view[FMT_START..])
  {
    SetUint32(view, 0, RIFF_WORD, false);
    SetUint32(view, 4, 36 + dataSize, true);
    SetUint32(view, 8, WAVE_WORD, false);
  }

  /** The fmt_chunk fields, after the riff_chunk. */
  method WriteFmtChunk(view: array<byte>, format: int, channels: int, rate: int, byterate: int,
                       blockAlign: int, bits: int)
    requires view.Length == HEADER_SIZE
    modifies view
    ensures view[..DATA_START] == old(view[..FMT_START]) + FmtFields(format, channels, rate, byterate, blockAlign, bits)
    ensures view[DATA_START..] == old(view[DATA_START..])
  {
    ghost var riff := view[..FMT_START];
    SetUint32(view, 12, FMT_WORD, false);
    SetUint32(view, 16, 16, true);
    assert view[..20] == riff + Uint32Bytes(FMT_WORD, false) + Uint32Bytes(16, true);
    SetUint16(view, 20, format, true);
    SetUint16(view, 22, channels, true);
    SetUint32(view, 24, rate, true);
    assert view[..28] == riff + Uint32Bytes(FMT_WORD, false) + Uint32Bytes(16, true)
      + Uint16Bytes(format, true) + Uint16Bytes(channels, true) + Uint32Bytes(rate, true);
    SetUint32(view, 28, byterate, true);
    SetUint16(view, 32, blockAlign, true);
    SetUint16(view, 34, bits, true);
  }

  /** The data_chunk header fields, after the fmt_chunk. */
  method WriteDataChunk(view: array<byte>, dataSize: nat)
    requires view.Length == HEADER_SIZE
    modifies view
    ensures view[..] == old(view[..DATA_START]) + DataChunkHeader(dataSize)
  {
    SetUint32(view, 36, DATA_WORD, false);
    SetUint32(view, 40, dataSize, true);
    assert view[..] == view[..44];
  }

  /**
   * The header both writers build: a zeroed 44-byte buffer whose fields are
   * set in file order. The result is exactly HeaderBytes of the arguments.
   */
  method WriteHeader(dataSize: nat, channels: int, rate: int, intPCM: bool) returns (header: seq<byte>)
    ensures header == HeaderBytes(dataSize, channels, rate, intPCM)
  {
    var sampleWidth := SAMPLE_WIDTH;
    var audioFormat := if intPCM then WAVE_FORMAT_PCM else WAVE_FORMAT_IEEE_FLOAT;
    var byterate := rate * channels * sampleWidth;
    var blockAlign := channels * sampleWidth;

    var view := new byte[HEADER_SIZE](_ => 0);
    WriteRiffChunk(view, dataSize);
    WriteFmtChunk(view, audioFormat, channels, rate, byterate, blockAlign, sampleWidth * 8);
    WriteDataChunk(view, dataSize);
    assert view[..44] == view[..];
    header := view[..];
  }

  /**
   * `saveWave`: the downloaded file is the header followed by the frame
   * bytes, named after `name` or, when none is given, after the current
   * local time string (a parameter here).
   */
  method SaveWave(framedata: seq<byte>, channels: int, rate: int, name: Option<string>,
                  now: string, intPCM: bool)
    returns (file: seq<byte>, filename: string)
    ensures file == HeaderBytes(|framedata|, channels, rate, intPCM) + framedata
    ensures file[HEADER_SIZE..] == framedata
    ensures filename == (if name.None? then now else name.value) + ".wav"
  {
    var base := if name.None? then now else name.value;
    var header := WriteHeader(|framedata|, channels, rate, intPCM);
    file := header + framedata;
    filename := base + ".wav";
  }

  /** `createWaveBlob`: the same header followed by the frame bytes, returned instead of saved. */
  method CreateWaveBlob(framedata: seq<byte>, channels: int, rate: int, intPCM: bool)
    returns (blob: seq<byte>)
    ensures blob == HeaderBytes(|framedata|, channels, rate, intPCM) + framedata
    ensures blob[HEADER_SIZE..] == framedata
  {
    var header := WriteHeader(|framedata|, channels, rate, intPCM);
    blob := header + framedata;
  }

  // ---------------------------------------------------------------------------
  // parseFMT

  /** What a DataView read past the end of its buffer throws. */
  datatype ViewError = RangeError

  /** The record `parseFMT` fills in. */
  datatype Format = Format(
    fmtChunkSize: int,
    audioFormat: int,
    numChannels: int,
    rate: int,
    byterate: int,
    blockAlign: int,
    sampleWidth: real)

  /** `getInt32(off, true)`: RangeError unless four bytes are there. */
  function GetInt32(b: seq<byte>, off: nat): (r: Result<int, ViewError>)
    ensures r.Success? <==> off + 4 <= |b|
  {
    if off + 4 <= |b| then Success(ToInt32(Le32At(b, off))) else Failure(RangeError)
  }

  /** `getInt16(off, true)`: RangeError unless two bytes are there. */
  function GetInt16(b: seq<byte>, off: nat): (r: Result<int, ViewError>)
    ensures r.Success? <==> off + 2 <= |b|
  {
    if off + 2 <= |b| then Success(ToInt16(Le16At(b, off))) else Failure(RangeError)
  }

  /**
   * `parseFMT`: reads the `fmt ` fields at their fixed offsets inside the
   * chunk (size at 4, format at 8, channels at 10, rate at 12, byte rate at
   * 16, alignment at 20, bits per sample at 22, the last divided by 8). The
   * reads throw exactly when the chunk is shorter than 24 bytes.
   */
  function ParseFmt(chunk: seq<byte>): (r: Result<Format, ViewError>)
    ensures r.Success? <==> |chunk| >= 24
  {
    match GetInt32(chunk, 4)
    case Failure(e) => Failure(e)
    case Success(size) =>
    match GetInt16(chunk, 8)
    case Failure(e) => Failure(e)
    case Success(format) =>
    match GetInt16(chunk, 10)
    case Failure(e) => Failure(e)
    case Success(channels) =>
    match GetInt32(chunk, 12)
    case Failure(e) => Failure(e)
    case Success(rate) =>
    match GetInt32(chunk, 16)
    case Failure(e) => Failure(e)
    case Success(byterate) =>
    match GetInt16(chunk, 20)
    case Failure(e) => Failure(e)
    case Success(align) =>
    match GetInt16(chunk, 22)
    case Failure(e) => Failure(e)
    case Success(bits) =>
    Success(Format(size, format, channels, rate, byterate, align, bits as real / 8.0))
  }

  /**
   * Parsing the chunk the writer produced gives back what was written, up
   * to the wrap-around of the 16- and 32-bit fields and their signed reading.
   */
  lemma ParseFmtOfWritten(channels: int, rate: int, intPCM: bool)
    ensures ParseFmt(FmtChunk(channels, rate, intPCM)) == Success(Format(
      16,
      AudioFormat(intPCM),
      ToInt16(channels),
      ToInt32(rate),
      ToInt32(rate * channels * SAMPLE_WIDTH),
      ToInt16(channels * SAMPLE_WIDTH),
      4.0))
  {
    ParseFmtFields(AudioFormat(intPCM), channels, rate, rate * channels * SAMPLE_WIDTH,
                   channels * SAMPLE_WIDTH, SAMPLE_WIDTH * 8);
  }

  lemma ParseFmtFields(format: int, channels: int, rate: int, byterate: int, blockAlign: int, bits: int)
    ensures ParseFmt(FmtFields(format, channels, rate, byterate, blockAlign, bits)) == Success(Format(
      16, ToInt16(format), ToInt16(channels), ToInt32(rate), ToInt32(byterate),
      ToInt16(blockAlign), ToInt16(bits) as real / 8.0))
  {
    var c := FmtFields(format, channels, rate, byterate, blockAlign, bits);
    FmtFieldsReads(format, channels, rate, byterate, blockAlign, bits);
    ParseFmtReads(c);
    SignedOfUnsigned(format, channels, rate, byterate, blockAlign, bits);
  }

  lemma SignedOfUnsigned(format: int, channels: int, rate: int, byterate: int, blockAlign: int, bits: int)
    ensures ToInt32(16) == 16
    ensures ToInt16(format % TWO16) == ToInt16(format)
    ensures ToInt16(channels % TWO16) == ToInt16(channels)
    ensures ToInt32(rate % TWO32) == ToInt32(rate)
    ensures ToInt32(byterate % TWO32) == ToInt32(byterate)
    ensures ToInt16(blockAlign % TWO16) == ToInt16(blockAlign)
    ensures ToInt16(bits % TWO16) == ToInt16(bits)
  {
  }

  /** On a long enough chunk, `parseFMT` is the signed reading of each field. */
  lemma ParseFmtReads(c: seq<byte>)
    requires |c| >= 24
    ensures ParseFmt(c) == Success(Format(
      ToInt32(Le32At(c, 4)), ToInt16(Le16At(c, 8)), ToInt16(Le16At(c, 10)), ToInt32(Le32At(c, 12)),
      ToInt32(Le32At(c, 16)), ToInt16(Le16At(c, 20)), ToInt16(Le16At(c, 22)) as real / 8.0))
  {
  }

  /** Each little-endian field of the `fmt ` chunk reads back as the value written, modulo its width. */
  lemma FmtFieldsReads(format: int, channels: int, rate: int, byterate: int, blockAlign: int, bits: int)
    ensures var c := FmtFields(format, channels, rate, byterate, blockAlign, bits);
      && c[0..4] == Uint32Bytes(FMT_WORD, false)
      && Le32At(c, 4) == 16
      && Le16At(c, 8) == format % TWO16
      && Le16At(c, 10) == channels % TWO16
      && Le32At(c, 12) == rate % TWO32
      && Le32At(c, 16) == byterate % TWO32
      && Le16At(c, 20) == blockAlign % TWO16
      && Le16At(c, 22) == bits % TWO16
  {
    var p1, p2, p3, p4 := Uint32Bytes(FMT_WORD, false), Uint32Bytes(16, true), Uint16Bytes(format, true), Uint16Bytes(channels, true);
    var p5, p6, p7, p8 := Uint32Bytes(rate, true), Uint32Bytes(byterate, true), Uint16Bytes(blockAlign, true), Uint16Bytes(bits, true);
    var c := FmtFields(format, channels, rate, byterate, blockAlign, bits);
    assert c == p1 + p2 + p3 + p4 + p5 + p6 + p7 + p8;
    forall i | 0 <= i < 4
      ensures c[i] == p1[i] && c[4 + i] == p2[i] && c[12 + i] == p5[i] && c[16 + i] == p6[i]
    {
    }
    assert c[0..4] == p1;
    forall i | 0 <= i < 2
      ensures c[8 + i] == p3[i] && c[10 + i] == p4[i] && c[20 + i] == p7[i] && c[22 + i] == p8[i]
    {
    }
    Uint32LittleEndianRoundTrip(16);
    Uint16LittleEndianRoundTrip(format);
    Uint16LittleEndianRoundTrip(channels);
    Uint32LittleEndianRoundTrip(rate);
    Uint32LittleEndianRoundTrip(byterate);
    Uint16LittleEndianRoundTrip(blockAlign);
    Uint16LittleEndianRoundTrip(bits);
  }

  /** When every value fits its signed field, `parseFMT` returns the written values themselves. */
  lemma ParseFmtRoundTrip(dataSize: nat, channels: nat, rate: nat, intPCM: bool)
    requires channels * SAMPLE_WIDTH < TWO15
    requires rate * channels * SAMPLE_WIDTH < TWO31
    requires rate < TWO31
    ensures var h := HeaderBytes(dataSize, channels, rate, intPCM);
      ParseFmt(h[FMT_START..DATA_START]) == Success(Format(
        16, AudioFormat(intPCM), channels, rate, rate * channels * SAMPLE_WIDTH,
        channels * SAMPLE_WIDTH, SAMPLE_WIDTH as real))
  {
    HeaderChunks(dataSize, channels, rate, intPCM);
    ParseFmtOfWritten(channels, rate, intPCM);
    SmallFieldsExact(channels, rate);
  }

  /** Fields within the positive signed range read back as themselves. */
  lemma SmallFieldsExact(channels: nat, rate: nat)
    requires channels * SAMPLE_WIDTH < TWO15
    requires rate * channels * SAMPLE_WIDTH < TWO31
    requires rate < TWO31
    ensures ToInt16(channels) == channels && ToInt32(rate) == rate
    ensures ToInt32(rate * channels * SAMPLE_WIDTH) == rate * channels * SAMPLE_WIDTH
    ensures ToInt16(channels * SAMPLE_WIDTH) == channels * SAMPLE_WIDTH
  {
    assert channels <= channels * SAMPLE_WIDTH;
  }

  /** The three chunks sit at their canonical offsets of the header. */
  lemma HeaderChunks(dataSize: nat, channels: int, rate: int, intPCM: bool)
    ensures var h := HeaderBytes(dataSize, channels, rate, intPCM);
      && h[..FMT_START] == RiffChunk(dataSize)
      && h[FMT_START..DATA_START] == FmtChunk(channels, rate, intPCM)
      && h[DATA_START..] == DataChunkHeader(dataSize)
  {
    ConcatParts(RiffChunk(dataSize), FmtChunk(channels, rate, intPCM), DataChunkHeader(dataSize));
  }

  lemma ConcatParts<T>(a: seq<T>, b: seq<T>, c: seq<T>)
    ensures var s := a + b + c;
      s[..|a|] == a && s[|a|..|a| + |b|] == b && s[|a| + |b|..] == c
  {
    var s := a + b + c;
    assert s[..|a|] == a;
    assert s[|a|..|a| + |b|] == b;
  }

  // ---------------------------------------------------------------------------
  // readWave

  /** The four buffers `readWave` returns. */
  datatype WaveSections = WaveSections(
    riffChunk: seq<byte>,
    fmtChunk: seq<byte>,
    dataChunk: seq<byte>,
    frames: seq<byte>)

  /** The result for a buffer rejected as not a wave file: four empty buffers. */
  const BLANK: WaveSections := WaveSections([], [], [], [])

  predicate RiffTagMatches(bytes: seq<byte>) {
    FromCharCode(Js.Slice(bytes, 0, 4)) == "RIFF"
  }

  predicate FmtTagMatches(bytes: seq<byte>) {
    FromCharCode(Js.Slice(bytes, 12, 16)) == "fmt "
  }

  predicate DataTagMatches(bytes: seq<byte>) {
    FromCharCode(Js.Slice(bytes, 36, 40)) == "data"
  }

  /** The buffer cut at the canonical offsets 12, 36 and 44; `slice` clamps at the end. */
  function Sections(bytes: seq<byte>): (r: WaveSections)
    ensures |bytes| >= HEADER_SIZE ==>
      && r.riffChunk == bytes[..FMT_START]
      && r.fmtChunk == bytes[FMT_START..DATA_START]
      && r.dataChunk == bytes[DATA_START..HEADER_SIZE]
      && r.frames == bytes[HEADER_SIZE..]
    ensures r.riffChunk + r.fmtChunk + r.dataChunk + r.frames == bytes
  {
    var r := WaveSections(Js.Slice(bytes, 0, 12), Js.Slice(bytes, 12, 36), Js.Slice(bytes, 36, 44), Js.SliceFrom(bytes, 44));
    ConcatSections(bytes);
    r
  }

  lemma ConcatSections(bytes: seq<byte>)
    ensures Js.Slice(bytes, 0, 12) + Js.Slice(bytes, 12, 36) + Js.Slice(bytes, 36, 44) + Js.SliceFrom(bytes, 44) == bytes
  {
    var n := |bytes|;
    if n >= 44 {
      assert bytes == bytes[..12] + bytes[12..36] + bytes[36..44] + bytes[44..];
    } else if n >= 36 {
      assert bytes == bytes[..12] + bytes[12..36] + bytes[36..];
    } else if n >= 12 {
      assert bytes == bytes[..12] + bytes[12..];
    }
  }

  /**
   * `readWave` as written: the buffer is rejected, and all four sections
   * are empty, only when all three tags are missing; one matching tag is
   * enough for the buffer to be cut at the fixed offsets. No chunk walking.
   */
  function ReadWave(bytes: seq<byte>): (r: WaveSections)
    ensures r == BLANK <==> !RiffTagMatches(bytes) && !FmtTagMatches(bytes) && !DataTagMatches(bytes)
    ensures r != BLANK ==> r == Sections(bytes)
  {
    if !RiffTagMatches(bytes) && !FmtTagMatches(bytes) && !DataTagMatches(bytes) then
      BLANK
    else
      NonBlank(bytes);
      Sections(bytes)
  }

  /** A buffer with any of the three tags in place is long enough that its RIFF section is not empty. */
  lemma NonBlank(bytes: seq<byte>)
    requires RiffTagMatches(bytes) || FmtTagMatches(bytes) || DataTagMatches(bytes)
    ensures Sections(bytes) != BLANK
  {
    assert |bytes| >= 4;
  }

  /**
   * `readWave` as its own comment describes it: every section is blank
   * unless the RIFF, `fmt ` and `data` tags are all in place.
   */
  function ReadWaveStrict(bytes: seq<byte>): (r: WaveSections)
    ensures r != BLANK <==> RiffTagMatches(bytes) && FmtTagMatches(bytes) && DataTagMatches(bytes)
    ensures r != BLANK ==> r == Sections(bytes)
  {
    if RiffTagMatches(bytes) && FmtTagMatches(bytes) && DataTagMatches(bytes) then
      NonBlank(bytes);
      Sections(bytes)
    else
      BLANK
  }

  /**
   * The discrepancy: "RIFF" followed by 40 zero bytes has neither a `fmt `
   * nor a `data` tag, yet `readWave` cuts it into sections; the strict
   * reading rejects it.
   */
  lemma ReadWaveAcceptsMissingTags()
    ensures var b := Uint32Bytes(RIFF_WORD, false) + seq(40, _ => 0);
      && ReadWave(b) != BLANK
      && !FmtTagMatches(b) && !DataTagMatches(b)
      && ReadWaveStrict(b) == BLANK
  {
    var b := Uint32Bytes(RIFF_WORD, false) + seq(40, _ => 0);
    TagBytes();
    assert Js.Slice(b, 0, 4) == Uint32Bytes(RIFF_WORD, false);
    assert FromCharCode(Js.Slice(b, 12, 16))[0] as int == 0;
    assert FromCharCode(Js.Slice(b, 36, 40))[0] as int == 0;
  }

  /** Both readers agree on every buffer whose three tags are all in place. */
  lemma ReadersAgreeOnWellFormed(bytes: seq<byte>)
    requires RiffTagMatches(bytes) && FmtTagMatches(bytes) && DataTagMatches(bytes)
    ensures ReadWave(bytes) == ReadWaveStrict(bytes) == Sections(bytes)
  {
  }

  /**
   * Reading back a written file: the RIFF, `fmt ` and `data` sections are
   * the three header chunks and the frames are exactly the bytes after
   * offset 44, for the as-written and the strict reader alike.
   */
  lemma ReadWaveRoundTrip(frames: seq<byte>, channels: int, rate: int, intPCM: bool)
    ensures var file := HeaderBytes(|frames|, channels, rate, intPCM) + frames;
      var expected := WaveSections(RiffChunk(|frames|), FmtChunk(channels, rate, intPCM),
                                   DataChunkHeader(|frames|), frames);
      ReadWave(file) == expected && ReadWaveStrict(file) == expected
  {
    var h := HeaderBytes(|frames|, channels, rate, intPCM);
    HeaderLayout(|frames|, channels, rate, intPCM);
    HeaderChunks(|frames|, channels, rate, intPCM);
    ReadTaggedHeader(h, frames);
  }

  /** Any 44-byte header carrying the three tags is cut back off the frames that follow it. */
  lemma ReadTaggedHeader(h: seq<byte>, frames: seq<byte>)
    requires |h| == HEADER_SIZE
    requires FromCharCode(h[0..4]) == "RIFF"
    requires FromCharCode(h[12..16]) == "fmt "
    requires FromCharCode(h[36..40]) == "data"
    ensures var expected := WaveSections(h[..FMT_START], h[FMT_START..DATA_START], h[DATA_START..], frames);
      ReadWave(h + frames) == expected && ReadWaveStrict(h + frames) == expected
  {
    var file := h + frames;
    assert file[0..4] == h[0..4];
    assert file[12..16] == h[12..16];
    assert file[36..40] == h[36..40];
    assert file[..12] == h[..12];
    assert file[12..36] == h[12..36];
    assert file[36..44] == h[36..];
    assert file[44..] == frames;
  }

  /** The `fmt ` section of a written file parses back to the written format. */
  lemma ReadAndParseRoundTrip(frames: seq<byte>, channels: nat, rate: nat, intPCM: bool)
    requires channels * SAMPLE_WIDTH < TWO15
    requires rate * channels * SAMPLE_WIDTH < TWO31
    requires rate < TWO31
    ensures var file := HeaderBytes(|frames|, channels, rate, intPCM) + frames;
      ParseFmt(ReadWaveStrict(file).fmtChunk) == Success(Format(
        16, AudioFormat(intPCM), channels, rate, rate * channels * SAMPLE_WIDTH,
        channels * SAMPLE_WIDTH, SAMPLE_WIDTH as real))
  {
    ReadWaveRoundTrip(frames, channels, rate, intPCM);
    HeaderChunks(|frames|, channels, rate, intPCM);
    ParseFmtRoundTrip(|frames|, channels, rate, intPCM);
  }

  /** A rejected buffer's empty `fmt ` section makes `parseFMT` throw. */
  lemma ParseFmtOfBlank()
    ensures ParseFmt(BLANK.fmtChunk) == Failure(RangeError)
  {
  }
}
