/** The serializer of `generateCannonSound`: a zero-filled buffer of
    44 + 2 * numSamples bytes, the header written field by field through a
    DataView, then one quantized 16-bit sample per index at offsets 44, 46, ...
    The per-sample amplitude is an input: one real number per sample index. */
module CannonSound {
  import opened Outcomes
  import opened LittleEndian
  import opened DataView
  import opened WaveFormat
  import opened Quantization

  /** The fixed parameters of the generated sound. */
  const SAMPLE_RATE: int := 44100
  const NUM_SAMPLES: nat := 13230

  /** The header field values as the DataView stores them: each value passes
      through the setter's integer conversion. */
  function HeaderFor(numSamples: nat, sampleRate: int): (h: WaveHeader)
    ensures FieldsFit(h)
  {
    WaveHeader(
      ToUint32(36 + numSamples * 2), ToUint32(16),
      ToUint16(1), ToUint16(1),
      ToUint32(sampleRate), ToUint32(sampleRate * 2),
      ToUint16(2), ToUint16(16),
      ToUint32(numSamples * 2))
  }

  /** Parameters for which no size or rate field overflows 32 bits. */
  predicate ValidParams(numSamples: nat, sampleRate: int)
  {
    HEADER_SIZE + 2 * numSamples < TWO_32 && 0 <= sampleRate && 2 * sampleRate < TWO_32
  }

  /** Within range no conversion changes a value: the header describes mono
      16-bit PCM at `sampleRate`, and its size fields match a file of
      44 + 2 * numSamples bytes. */
  lemma HeaderForCanonical(numSamples: nat, sampleRate: int)
    requires ValidParams(numSamples, sampleRate)
    ensures IsPcm(HeaderFor(numSamples, sampleRate))
    ensures SizesMatch(HeaderFor(numSamples, sampleRate), HEADER_SIZE + 2 * numSamples)
    ensures HeaderFor(numSamples, sampleRate).channels == 1
    ensures HeaderFor(numSamples, sampleRate).bitsPerSample == 16
    ensures HeaderFor(numSamples, sampleRate).blockAlign == 2
    ensures HeaderFor(numSamples, sampleRate).sampleRate == sampleRate
    ensures HeaderFor(numSamples, sampleRate).byteRate == 2 * sampleRate
  {
  }

  /** The chunk identifiers written by `writeString` are the ASCII
      four-character codes of the format. */
  lemma TagBytes()
    ensures StringBytes("RIFF") == RIFF_ID
    ensures StringBytes("WAVE") == WAVE_ID
    ensures StringBytes("fmt ") == FMT_ID
    ensures StringBytes("data") == DATA_ID
  {
  }

  /** generate_cannon_sound.js:23-25: "RIFF", the RIFF size and "WAVE" at bytes 0..11. */
  function WriteRiff(buf: Buffer, numSamples: nat, sampleRate: int): (r: Result<Buffer>)
    ensures r.Ok? <==> |buf| >= 12
    ensures r.Ok? ==> Spliced(r.value, buf, 0, RiffDescriptor(HeaderFor(numSamples, sampleRate)))
  {
    var h := HeaderFor(numSamples, sampleRate);
    TagBytes();
    var b1 :- WriteString(buf, 0, "RIFF");
    var b2 :- SetUint32(b1, 4, 36 + numSamples * 2);
    SplicedAdjacent(buf, b1, b2, 0, RIFF_ID, LE32(h.riffSize));
    var b3 :- WriteString(b2, 8, "WAVE");
    SplicedAdjacent(buf, b2, b3, 0, RIFF_ID + LE32(h.riffSize), WAVE_ID);
    Ok(b3)
  }

  /** generate_cannon_sound.js:28-35: the fmt chunk at bytes 12..35 (size 16, format tag 1 for
      PCM, one channel, sample rate, byte rate 2 * sampleRate, block align 2,
      16 bits per sample). */
  function WriteFmt(buf: Buffer, numSamples: nat, sampleRate: int): (r: Result<Buffer>)
    ensures r.Ok? <==> |buf| >= 36
    ensures r.Ok? ==> Spliced(r.value, buf, 12, FmtChunk(HeaderFor(numSamples, sampleRate)))
  {
    var h := HeaderFor(numSamples, sampleRate);
    TagBytes();
    var b1 :- WriteString(buf, 12, "fmt ");
    var b2 :- SetUint32(b1, 16, 16);
    var p1 := FMT_ID;
    SplicedAdjacent(buf, b1, b2, 12, p1, LE32(h.fmtSize));
    var b3 :- SetUint16(b2, 20, 1);
    var p2 := p1 + LE32(h.fmtSize);
    SplicedAdjacent(buf, b2, b3, 12, p2, LE16(h.audioFormat));
    var b4 :- SetUint16(b3, 22, 1);
    var p3 := p2 + LE16(h.audioFormat);
    SplicedAdjacent(buf, b3, b4, 12, p3, LE16(h.channels));
    var b5 :- SetUint32(b4, 24, sampleRate);
    var p4 := p3 + LE16(h.channels);
    SplicedAdjacent(buf, b4, b5, 12, p4, LE32(h.sampleRate));
    var b6 :- SetUint32(b5, 28, sampleRate * 2);
    var p5 := p4 + LE32(h.sampleRate);
    SplicedAdjacent(buf, b5, b6, 12, p5, LE32(h.byteRate));
    var b7 :- SetUint16(b6, 32, 2);
    var p6 := p5 + LE32(h.byteRate);
    SplicedAdjacent(buf, b6, b7, 12, p6, LE16(h.blockAlign));
    var b8 :- SetUint16(b7, 34, 16);
    var p7 := p6 + LE16(h.blockAlign);
    SplicedAdjacent(buf, b7, b8, 12, p7, LE16(h.bitsPerSample));
    Ok(b8)
  }

  /** generate_cannon_sound.js:38-39: "data" and the data size at bytes 36..43. */
  function WriteDataHeader(buf: Buffer, numSamples: nat, sampleRate: int): (r: Result<Buffer>)
    ensures r.Ok? <==> |buf| >= HEADER_SIZE
    ensures r.Ok? ==> Spliced(r.value, buf, 36, DataChunkHeader(HeaderFor(numSamples, sampleRate)))
  {
    var h := HeaderFor(numSamples, sampleRate);
    TagBytes();
    var b1 :- WriteString(buf, 36, "data");
    var b2 :- SetUint32(b1, 40, numSamples * 2);
    SplicedAdjacent(buf, b1, b2, 36, DATA_ID, LE32(h.dataSize));
    Ok(b2)
  }

  /** generate_cannon_sound.js:23-39, the header writes in order. They succeed exactly when the buffer holds at
      least 44 bytes; they then leave the encoding of `HeaderFor` in bytes
      0..43 and every later byte unchanged. */
  function WriteHeader(buf: Buffer, numSamples: nat, sampleRate: int): (r: Result<Buffer>)
    ensures r.Ok? <==> |buf| >= HEADER_SIZE
    ensures r.Ok? ==> |r.value| == |buf|
    ensures r.Ok? ==> r.value[..HEADER_SIZE] == EncodeHeader(HeaderFor(numSamples, sampleRate))
    ensures r.Ok? ==> r.value[HEADER_SIZE..] == buf[HEADER_SIZE..]
  {
    var h := HeaderFor(numSamples, sampleRate);
    var b1 :- WriteRiff(buf, numSamples, sampleRate);
    var b2 :- WriteFmt(b1, numSamples, sampleRate);
    SplicedAdjacent(buf, b1, b2, 0, RiffDescriptor(h), FmtChunk(h));
    var b3 :- WriteDataHeader(b2, numSamples, sampleRate);
    SplicedAdjacent(buf, b2, b3, 0, RiffDescriptor(h) + FmtChunk(h), DataChunkHeader(h));
    SplicedBytes(b3, buf, 0, EncodeHeader(h));
    Ok(b3)
  }

  /** The file the generator is meant to produce: the header for
      `|amps|` samples at `sampleRate`, then every amplitude quantized. */
  function CannonWav(sampleRate: int, amps: seq<real>): (b: seq<byte>)
    ensures |b| == HEADER_SIZE + 2 * |amps|
  {
    EncodeWav(HeaderFor(|amps|, sampleRate), QuantizeAll(amps))
  }

  /** Storing the next sample right after the encoded ones extends the
      encoding by that sample and leaves the header alone. */
  lemma StoreSampleExtends(view: Buffer, next: Buffer, off: int, prefix: seq<int>, v: int)
    requires AllInt16(prefix) && IsInt16(v)
    requires HEADER_SIZE <= off && off + 2 <= |view|
    requires view[HEADER_SIZE..off] == EncodeSamples(prefix)
    requires Spliced(next, view, off, Int16LE(v))
    ensures |next| == |view|
    ensures next[..HEADER_SIZE] == view[..HEADER_SIZE]
    ensures next[HEADER_SIZE..off + 2] == EncodeSamples(prefix + [v])
  {
    SplicedBytes(next, view, off, Int16LE(v));
    EncodeSamplesSnoc(prefix, v);
    assert next[HEADER_SIZE..off + 2] == next[HEADER_SIZE..off] + next[off..off + 2];
    assert next[HEADER_SIZE..off] == view[HEADER_SIZE..off];
    assert next[..HEADER_SIZE] == next[..off][..HEADER_SIZE];
  }

  /** generate_cannon_sound.js:42-45 and 71-74, the sample loop: starting at offset 44, store one quantized
      sample per index and advance the offset by 2. Every store is in bounds,
      the header bytes 0..43 are never touched, and sample i ends up at bytes
      44 + 2i and 45 + 2i, in index order. */
  method StoreSamples(buf: Buffer, amps: seq<real>) returns (view: Buffer)
    requires |buf| == HEADER_SIZE + 2 * |amps|
    ensures |view| == |buf|
    ensures view[..HEADER_SIZE] == buf[..HEADER_SIZE]
    ensures view[HEADER_SIZE..] == EncodeSamples(QuantizeAll(amps))
  {
    view := buf;
    ghost var samples := QuantizeAll(amps);
    var offset := HEADER_SIZE;
    for i := 0 to |amps|
      invariant offset == HEADER_SIZE + 2 * i
      invariant |view| == |buf|
      invariant view[..HEADER_SIZE] == buf[..HEADER_SIZE]
      invariant view[HEADER_SIZE..offset] == EncodeSamples(samples[..i])
    {
      var intSample := Quantize(amps[i]);
      var next := SetInt16(view, offset, intSample).value;  // never a RangeError
      StoreSampleExtends(view, next, offset, samples[..i], intSample);
      assert samples[..i + 1] == samples[..i] + [intSample];
      view := next;
      offset := offset + 2;
    }
    assert samples[..|amps|] == samples;
  }

  /** generate_cannon_sound.js:12-13 and 22-75, the whole serializer: allocate the zero-filled buffer of
      44 + 2 * numSamples bytes, write the header, then the samples. No
      write is ever out of bounds, the header depends only on the sample
      count and the rate, and the bytes are those of `CannonWav`. */
  method GenerateCannonSound(sampleRate: int, amps: seq<real>) returns (buffer: Buffer)
    ensures |buffer| == HEADER_SIZE + 2 * |amps|
    ensures buffer[..HEADER_SIZE] == EncodeHeader(HeaderFor(|amps|, sampleRate))
    ensures buffer == CannonWav(sampleRate, amps)
  {
    var numSamples := |amps|;
    var zeros := Zeros(HEADER_SIZE + numSamples * 2);
    var withHeader := WriteHeader(zeros, numSamples, sampleRate).value;  // never a RangeError
    buffer := StoreSamples(withHeader, amps);
    assert buffer == buffer[..HEADER_SIZE] + buffer[HEADER_SIZE..];
  }

  /* ---------------- properties of the produced file ---------------- */

  /** For parameters in range, the header reads back, offset by offset, as
      the canonical mono 16-bit PCM header: the RIFF size is the file length
      minus 8 and the data size is the number of bytes after the header. */
  lemma CannonWavLayout(sampleRate: int, amps: seq<real>)
    requires ValidParams(|amps|, sampleRate)
    ensures var b := CannonWav(sampleRate, amps);
      && b[0..4] == RIFF_ID && b[8..12] == WAVE_ID
      && b[12..16] == FMT_ID && b[36..40] == DATA_ID
      && DecodeLE32(b[4..8]) == 36 + 2 * |amps| == |b| - 8
      && DecodeLE32(b[16..20]) == 16
      && DecodeLE16(b[20..22]) == WAVE_FORMAT_PCM
      && DecodeLE16(b[22..24]) == 1
      && DecodeLE32(b[24..28]) == sampleRate
      && DecodeLE32(b[28..32]) == 2 * sampleRate == sampleRate * DecodeLE16(b[32..34])
      && DecodeLE16(b[32..34]) == 2
      && DecodeLE16(b[34..36]) == 16
      && DecodeLE32(b[40..44]) == 2 * |amps| == |b| - HEADER_SIZE
  {
    var h := HeaderFor(|amps|, sampleRate);
    var b := CannonWav(sampleRate, amps);
    HeaderForCanonical(|amps|, sampleRate);
    EncodeWavRoundTrip(h, QuantizeAll(amps));
    assert DecodeHeader(b) == Some(h);
  }

  /** Sample i sits at bytes 44 + 2i and 45 + 2i and reads back as the
      quantized amplitude of index i. */
  lemma CannonWavSampleAt(sampleRate: int, amps: seq<real>, i: int)
    requires 0 <= i < |amps|
    ensures var b := CannonWav(sampleRate, amps);
      && b[HEADER_SIZE + 2 * i..HEADER_SIZE + 2 * i + 2] == Int16LE(Quantize(amps[i]))
      && DecodeInt16LE(b[HEADER_SIZE + 2 * i..HEADER_SIZE + 2 * i + 2]) == Quantize(amps[i])
  {
    var b := CannonWav(sampleRate, amps);
    var data := EncodeSamples(QuantizeAll(amps));
    assert b[HEADER_SIZE..] == data;
    EncodeSamplesAt(QuantizeAll(amps), i);
    assert b[HEADER_SIZE + 2 * i..HEADER_SIZE + 2 * i + 2] == data[2 * i..2 * i + 2];
    Int16LERoundTrip(Quantize(amps[i]));
  }

  /** The header does not depend on the sample values: two runs with the
      same number of samples agree on bytes 0..43. */
  lemma CannonHeaderIndependentOfSamples(sampleRate: int, amps1: seq<real>, amps2: seq<real>)
    requires |amps1| == |amps2|
    ensures CannonWav(sampleRate, amps1)[..HEADER_SIZE] == CannonWav(sampleRate, amps2)[..HEADER_SIZE]
  {
    assert CannonWav(sampleRate, amps1)[..HEADER_SIZE] == EncodeHeader(HeaderFor(|amps1|, sampleRate));
    assert CannonWav(sampleRate, amps2)[..HEADER_SIZE] == EncodeHeader(HeaderFor(|amps2|, sampleRate));
  }

  /** A reader of canonical files gets back the header and exactly the
      quantized samples. */
  lemma CannonWavDecodes(sampleRate: int, amps: seq<real>)
    requires ValidParams(|amps|, sampleRate)
    ensures DecodeWav(CannonWav(sampleRate, amps)) == Some((HeaderFor(|amps|, sampleRate), QuantizeAll(amps)))
    ensures IsPcm(HeaderFor(|amps|, sampleRate))
  {
    HeaderForCanonical(|amps|, sampleRate);
    EncodeWavRoundTrip(HeaderFor(|amps|, sampleRate), QuantizeAll(amps));
  }

  /** The fixed parameters: 13230 samples at 44100 Hz give a 26504-byte file
      with RIFF size 26496, data size 26460 and byte rate 88200. */
  lemma CannonConstants(amps: seq<real>)
    requires |amps| == NUM_SAMPLES
    ensures ValidParams(NUM_SAMPLES, SAMPLE_RATE)
    ensures |CannonWav(SAMPLE_RATE, amps)| == 26504
    ensures HeaderFor(NUM_SAMPLES, SAMPLE_RATE).riffSize == 26496
    ensures HeaderFor(NUM_SAMPLES, SAMPLE_RATE).dataSize == 26460
    ensures HeaderFor(NUM_SAMPLES, SAMPLE_RATE).byteRate == 88200
  {
  }

  /** Outside the valid range the 32-bit stores wrap: a rate of 2^31 would
      be recorded with a byte rate of 0. */
  lemma HeaderForWraps()
    ensures !ValidParams(0, 0x8000_0000)
    ensures HeaderFor(0, 0x8000_0000).byteRate == 0
  {
  }
}
