/** The canonical 44-byte header of a RIFF/WAVE file holding uncompressed PCM
    data (the WAVE form of the Multimedia Programming Interface and Data
    Specifications 1.0: a "RIFF" chunk of form type "WAVE" holding a 16-byte
    "fmt " chunk with WAVE_FORMAT_PCM and then the "data" chunk), followed by
    16-bit little-endian samples. Encoders and decoders for both parts. */
module WaveFormat {
  import opened Outcomes
  import opened LittleEndian

  const HEADER_SIZE: int := 44

  /** The four-character codes, as ASCII bytes. */
  const RIFF_ID: seq<byte> := [0x52, 0x49, 0x46, 0x46]  // "RIFF"
  const WAVE_ID: seq<byte> := [0x57, 0x41, 0x56, 0x45]  // "WAVE"
  const FMT_ID: seq<byte> := [0x66, 0x6D, 0x74, 0x20]   // "fmt "
  const DATA_ID: seq<byte> := [0x64, 0x61, 0x74, 0x61]  // "data"

  /** WAVE_FORMAT_PCM, the format tag of uncompressed linear PCM. */
  const WAVE_FORMAT_PCM: int := 1
  /** Size of the PCM "fmt " chunk body. */
  const PCM_FMT_SIZE: int := 16

  /** The numeric fields of the header, in file order. */
  datatype WaveHeader = WaveHeader(
    riffSize: int,       // offset 4, uint32: bytes after the first 8
    fmtSize: int,        // offset 16, uint32
    audioFormat: int,    // offset 20, uint16
    channels: int,       // offset 22, uint16
    sampleRate: int,     // offset 24, uint32
    byteRate: int,       // offset 28, uint32
    blockAlign: int,     // offset 32, uint16
    bitsPerSample: int,  // offset 34, uint16
    dataSize: int)       // offset 40, uint32: bytes of sample data

  /** Every field fits its on-disk width. */
  predicate FieldsFit(h: WaveHeader)
  {
    && IsUint32(h.riffSize) && IsUint32(h.fmtSize)
    && IsUint16(h.audioFormat) && IsUint16(h.channels)
    && IsUint32(h.sampleRate) && IsUint32(h.byteRate)
    && IsUint16(h.blockAlign) && IsUint16(h.bitsPerSample)
    && IsUint32(h.dataSize)
  }

  /** A header describing PCM data, with the derived fields consistent:
      a sample frame holds one sample per channel, and the byte rate is the
      sample rate times the frame size. */
  predicate IsPcm(h: WaveHeader)
  {
    && h.fmtSize == PCM_FMT_SIZE
    && h.audioFormat == WAVE_FORMAT_PCM
    && h.bitsPerSample % 8 == 0
    && h.blockAlign == h.channels * (h.bitsPerSample / 8)
    && h.byteRate == h.sampleRate * h.blockAlign
  }

  /** The size fields agree with a file of `fileSize` bytes whose data chunk
      runs to the end of the file. */
  predicate SizesMatch(h: WaveHeader, fileSize: int)
  {
    h.riffSize == fileSize - 8 && h.dataSize == fileSize - HEADER_SIZE
  }

  /** Bytes 0..11: the RIFF chunk descriptor with form type "WAVE". */
  function RiffDescriptor(h: WaveHeader): (r: seq<byte>)
    requires FieldsFit(h)
    ensures |r| == 12
  {
    RIFF_ID + LE32(h.riffSize) + WAVE_ID
  }

  /** Bytes 12..35: the whole "fmt " chunk. */
  function FmtChunk(h: WaveHeader): (r: seq<byte>)
    requires FieldsFit(h)
    ensures |r| == 24
  {
    FMT_ID + LE32(h.fmtSize) + LE16(h.audioFormat) + LE16(h.channels)
    + LE32(h.sampleRate) + LE32(h.byteRate) + LE16(h.blockAlign) + LE16(h.bitsPerSample)
  }

  /** Bytes 36..43: the "data" chunk identifier and size. */
  function DataChunkHeader(h: WaveHeader): (r: seq<byte>)
    requires FieldsFit(h)
    ensures |r| == 8
  {
    DATA_ID + LE32(h.dataSize)
  }

  function EncodeHeader(h: WaveHeader): (r: seq<byte>)
    requires FieldsFit(h)
    ensures |r| == HEADER_SIZE
  {
    RiffDescriptor(h) + FmtChunk(h) + DataChunkHeader(h)
  }

  /** Reads the header fields back; rejects input that is too short or whose
      chunk identifiers are not the canonical ones. */
  function DecodeHeader(b: seq<byte>): (r: Option<WaveHeader>)
    ensures r.Some? <==>
      && |b| >= HEADER_SIZE
      && b[0..4] == RIFF_ID && b[8..12] == WAVE_ID
      && b[12..16] == FMT_ID && b[36..40] == DATA_ID
    ensures r.Some? ==> FieldsFit(r.value)
  {
    if |b| < HEADER_SIZE || b[0..4] != RIFF_ID || b[8..12] != WAVE_ID
       || b[12..16] != FMT_ID || b[36..40] != DATA_ID
    then None
    else Some(WaveHeader(
      DecodeLE32(b[4..8]), DecodeLE32(b[16..20]),
      DecodeLE16(b[20..22]), DecodeLE16(b[22..24]),
      DecodeLE32(b[24..28]), DecodeLE32(b[28..32]),
      DecodeLE16(b[32..34]), DecodeLE16(b[34..36]),
      DecodeLE32(b[40..44])))
  }

  /** Where each field of an encoded header sits. */
  lemma EncodeHeaderLayout(h: WaveHeader)
    requires FieldsFit(h)
    ensures EncodeHeader(h)[0..4] == RIFF_ID
    ensures EncodeHeader(h)[4..8] == LE32(h.riffSize)
    ensures EncodeHeader(h)[8..12] == WAVE_ID
    ensures EncodeHeader(h)[12..16] == FMT_ID
    ensures EncodeHeader(h)[16..20] == LE32(h.fmtSize)
    ensures EncodeHeader(h)[20..22] == LE16(h.audioFormat)
    ensures EncodeHeader(h)[22..24] == LE16(h.channels)
    ensures EncodeHeader(h)[24..28] == LE32(h.sampleRate)
    ensures EncodeHeader(h)[28..32] == LE32(h.byteRate)
    ensures EncodeHeader(h)[32..34] == LE16(h.blockAlign)
    ensures EncodeHeader(h)[34..36] == LE16(h.bitsPerSample)
    ensures EncodeHeader(h)[36..40] == DATA_ID
    ensures EncodeHeader(h)[40..44] == LE32(h.dataSize)
  {
  }

  lemma EncodeHeaderRoundTrip(h: WaveHeader)
    requires FieldsFit(h)
    ensures DecodeHeader(EncodeHeader(h)) == Some(h)
  {
    EncodeHeaderLayout(h);
    LE32RoundTrip(h.riffSize);
    LE32RoundTrip(h.fmtSize);
    LE16RoundTrip(h.audioFormat);
    LE16RoundTrip(h.channels);
    LE32RoundTrip(h.sampleRate);
    LE32RoundTrip(h.byteRate);
    LE16RoundTrip(h.blockAlign);
    LE16RoundTrip(h.bitsPerSample);
    LE32RoundTrip(h.dataSize);
  }

  /** A header the decoder accepts is exactly the encoding of what it read. */
  lemma DecodeHeaderRoundTrip(b: seq<byte>)
    requires DecodeHeader(b).Some?
    ensures EncodeHeader(DecodeHeader(b).value) == b[..HEADER_SIZE]
  {
    var h := DecodeHeader(b).value;
    EncodeHeaderLayout(h);
    DecodeLE32RoundTrip(b[4..8]);
    DecodeLE32RoundTrip(b[16..20]);
    DecodeLE16RoundTrip(b[20..22]);
    DecodeLE16RoundTrip(b[22..24]);
    DecodeLE32RoundTrip(b[24..28]);
    DecodeLE32RoundTrip(b[28..32]);
    DecodeLE16RoundTrip(b[32..34]);
    DecodeLE16RoundTrip(b[34..36]);
    DecodeLE32RoundTrip(b[40..44]);
    var e := EncodeHeader(h);
    forall j | 0 <= j < HEADER_SIZE
      ensures e[j] == b[j]
    {
      if j < 4 { assert e[j] == e[0..4][j]; assert b[j] == b[0..4][j]; }
      else if j < 8 { assert e[j] == e[4..8][j - 4]; assert b[j] == b[4..8][j - 4]; }
      else if j < 12 { assert e[j] == e[8..12][j - 8]; assert b[j] == b[8..12][j - 8]; }
      else if j < 16 { assert e[j] == e[12..16][j - 12]; assert b[j] == b[12..16][j - 12]; }
      else if j < 20 { assert e[j] == e[16..20][j - 16]; assert b[j] == b[16..20][j - 16]; }
      else if j < 22 { assert e[j] == e[20..22][j - 20]; assert b[j] == b[20..22][j - 20]; }
      else if j < 24 { assert e[j] == e[22..24][j - 22]; assert b[j] == b[22..24][j - 22]; }
      else if j < 28 { assert e[j] == e[24..28][j - 24]; assert b[j] == b[24..28][j - 24]; }
      else if j < 32 { assert e[j] == e[28..32][j - 28]; assert b[j] == b[28..32][j - 28]; }
      else if j < 34 { assert e[j] == e[32..34][j - 32]; assert b[j] == b[32..34][j - 32]; }
      else if j < 36 { assert e[j] == e[34..36][j - 34]; assert b[j] == b[34..36][j - 34]; }
      else if j < 40 { assert e[j] == e[36..40][j - 36]; assert b[j] == b[36..40][j - 36]; }
      else { assert e[j] == e[40..44][j - 40]; assert b[j] == b[40..44][j - 40]; }
    }
  }

  /* ---------------- sample data ---------------- */

  predicate AllInt16(s: seq<int>)
  {
    forall i :: 0 <= i < |s| ==> IsInt16(s[i])
  }

  /** The data chunk body: every sample as a 16-bit two's-complement
      little-endian integer, in index order. */
  function EncodeSamples(s: seq<int>): (r: seq<byte>)
    requires AllInt16(s)
    ensures |r| == 2 * |s|
  {
    if |s| == 0 then [] else Int16LE(s[0]) + EncodeSamples(s[1..])
  }

  function DecodeSamples(b: seq<byte>): (r: seq<int>)
    requires |b| % 2 == 0
    ensures |r| == |b| / 2
    ensures AllInt16(r)
  {
    if |b| == 0 then [] else [DecodeInt16LE(b[..2])] + DecodeSamples(b[2..])
  }

  /** Sample `i` occupies bytes 2i and 2i+1 of the data chunk body. */
  lemma {:induction false} EncodeSamplesAt(s: seq<int>, i: int)
    requires AllInt16(s) && 0 <= i < |s|
    ensures EncodeSamples(s)[2 * i..2 * i + 2] == Int16LE(s[i])
  {
    if i > 0 {
      EncodeSamplesAt(s[1..], i - 1);
      assert EncodeSamples(s)[2 * i..2 * i + 2] == EncodeSamples(s[1..])[2 * (i - 1)..2 * (i - 1) + 2];
    }
  }

  /** Appending one sample appends its two bytes. */
  lemma {:induction false} EncodeSamplesSnoc(s: seq<int>, v: int)
    requires AllInt16(s) && IsInt16(v)
    ensures EncodeSamples(s + [v]) == EncodeSamples(s) + Int16LE(v)
  {
    if |s| > 0 {
      assert (s + [v])[1..] == s[1..] + [v];
      EncodeSamplesSnoc(s[1..], v);
    } else {
      assert s + [v] == [v];
    }
  }

  lemma {:induction false} EncodeSamplesRoundTrip(s: seq<int>)
    requires AllInt16(s)
    ensures DecodeSamples(EncodeSamples(s)) == s
  {
    if |s| > 0 {
      var e := EncodeSamples(s);
      assert e[..2] == Int16LE(s[0]);
      assert e[2..] == EncodeSamples(s[1..]);
      Int16LERoundTrip(s[0]);
      EncodeSamplesRoundTrip(s[1..]);
    }
  }

  lemma {:induction false} DecodeSamplesRoundTrip(b: seq<byte>)
    requires |b| % 2 == 0
    ensures EncodeSamples(DecodeSamples(b)) == b
  {
    if |b| > 0 {
      var d := DecodeSamples(b);
      assert d[1..] == DecodeSamples(b[2..]);
      DecodeInt16LERoundTrip(b[..2]);
      DecodeSamplesRoundTrip(b[2..]);
      assert b == b[..2] + b[2..];
    }
  }

  /* ---------------- whole file ---------------- */

  /** A complete file: the 44-byte header followed by the data chunk body. */
  function EncodeWav(h: WaveHeader, samples: seq<int>): (r: seq<byte>)
    requires FieldsFit(h) && AllInt16(samples)
    ensures |r| == HEADER_SIZE + 2 * |samples|
  {
    EncodeHeader(h) + EncodeSamples(samples)
  }

  /** Reads a canonical file: a header whose size fields match the file, then
      an even number of sample bytes. */
  function DecodeWav(b: seq<byte>): (r: Option<(WaveHeader, seq<int>)>)
    ensures r.Some? ==> SizesMatch(r.value.0, |b|) && |b| == HEADER_SIZE + 2 * |r.value.1|
  {
    var h :- DecodeHeader(b);
    if !SizesMatch(h, |b|) || (|b| - HEADER_SIZE) % 2 != 0 then None
    else Some((h, DecodeSamples(b[HEADER_SIZE..])))
  }

  /** A file decodes back to its header and samples exactly when its size
      fields describe it. */
  lemma EncodeWavRoundTrip(h: WaveHeader, samples: seq<int>)
    requires FieldsFit(h) && AllInt16(samples)
    ensures DecodeWav(EncodeWav(h, samples)).Some? <==> SizesMatch(h, HEADER_SIZE + 2 * |samples|)
    ensures DecodeWav(EncodeWav(h, samples)).Some? ==> DecodeWav(EncodeWav(h, samples)) == Some((h, samples))
  {
    var b := EncodeWav(h, samples);
    assert b[..HEADER_SIZE] == EncodeHeader(h);
    assert b[HEADER_SIZE..] == EncodeSamples(samples);
    EncodeHeaderLayout(h);
    EncodeHeaderRoundTrip(h);
    assert DecodeHeader(b) == DecodeHeader(b[..HEADER_SIZE]) by {
      assert b[0..4] == b[..HEADER_SIZE][0..4];
      assert b[4..8] == b[..HEADER_SIZE][4..8];
      assert b[8..12] == b[..HEADER_SIZE][8..12];
      assert b[12..16] == b[..HEADER_SIZE][12..16];
      assert b[16..20] == b[..HEADER_SIZE][16..20];
      assert b[20..22] == b[..HEADER_SIZE][20..22];
      assert b[22..24] == b[..HEADER_SIZE][22..24];
      assert b[24..28] == b[..HEADER_SIZE][24..28];
      assert b[28..32] == b[..HEADER_SIZE][28..32];
      assert b[32..34] == b[..HEADER_SIZE][32..34];
      assert b[34..36] == b[..HEADER_SIZE][34..36];
      assert b[36..40] == b[..HEADER_SIZE][36..40];
      assert b[40..44] == b[..HEADER_SIZE][40..44];
    }
    EncodeSamplesRoundTrip(samples);
  }

  /** A file the reader accepts is byte for byte the encoding of the header
      and samples it read. */
  lemma DecodeWavRoundTrip(b: seq<byte>)
    requires DecodeWav(b).Some?
    ensures FieldsFit(DecodeWav(b).value.0) && AllInt16(DecodeWav(b).value.1)
    ensures EncodeWav(DecodeWav(b).value.0, DecodeWav(b).value.1) == b
  {
    DecodeHeaderRoundTrip(b);
    DecodeSamplesRoundTrip(b[HEADER_SIZE..]);
    assert b == b[..HEADER_SIZE] + b[HEADER_SIZE..];
  }
}
