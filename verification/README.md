# Cannon-shot WAV writer — a Dafny model

`generate_cannon_sound.js` synthesizes a 0.3-second cannon-shot sound at
44100 Hz and serializes it as a canonical mono 16-bit PCM RIFF/WAVE file: a
zero-filled `ArrayBuffer` of `44 + 2 * numSamples` bytes, a 44-byte header
written field by field through a `DataView` (`"RIFF"`, RIFF size, `"WAVE"`,
the 16-byte `"fmt "` chunk with format tag 1, then `"data"` and the data
size), and one little-endian `int16` per sample at offsets 44, 46, ….
Each sample is the synthesized amplitude clipped to [-1, 1], multiplied by
32767 and rounded down to an integer.

This project models that serializer and the clip-and-scale step:

- `outcomes.dfy` — `Result` (with the `RangeError` a `DataView` access can
  throw) and `Option` (for decoders).
- `little_endian.dfy` — bytes; the ECMAScript conversions ToUint8, ToUint16,
  ToUint32 and ToInt16 that `DataView` setters apply; `LE16`, `LE32`,
  `Int16LE` and their decoders, with round trips in both directions.
- `data_view.dfy` — the buffer as `seq<byte>`; `setUint8`, `setUint16`,
  `setUint32` and `setInt16` with their bounds checks; `writeString`.
- `wave_format.dfy` — the header fields as a datatype; encoder and decoder
  of the 44-byte header, of the sample data and of a whole file.
- `quantize.dfy` — clipping to [-1, 1] and the scaling to an integer,
  over `real` amplitudes.
- `cannon_sound.dfy` — the header writes in source order, the sample loop
  as an imperative method with its offset bookkeeping, the whole generator,
  and the properties of the file it produces.

The synthesized amplitudes are an input: one `real` per sample index
(`amps`), so `numSamples` is `|amps|`. The sample rate is a parameter; the
fixed values 44100 and 13230 are the constants `SAMPLE_RATE` and
`NUM_SAMPLES`. Every write goes through the modelled bounds checks and
integer conversions, so the as-written path needs no precondition. The
lemmas about the header values assume `ValidParams`: the file length
`44 + 2 * numSamples` and the byte rate `2 * sampleRate` fit in 32 bits.
Outside that range the stores wrap modulo 2^32, and `HeaderForWraps` shows
one such case.

`Math.floor` rounds toward negative infinity, not toward zero:
`QuantizeRoundsDown` shows -0.5 becomes -16384, where truncation would give
-16383.

The encoders `LittleEndian.LE16`, `LittleEndian.LE32`,
`LittleEndian.Int16LE`, `WaveFormat.EncodeHeader`, `WaveFormat.EncodeSamples`
and `WaveFormat.EncodeWav`, with their decoders, are the reference layout of
the file. Their own contracts state only lengths and ranges; the round-trip
rows below give them their meaning, and the writer's rows tie the generated
bytes to them.

## Model

| member | source | states |
|---|---|---|
| LittleEndian.ToUint32 | generate_cannon_sound.js:24-39 | the value a 32-bit setter stores lies in [0, 2^32), is congruent to the argument modulo 2^32, and equals the argument when it is already in range |
| LittleEndian.ToUint16 | generate_cannon_sound.js:30-35 | the value a 16-bit unsigned setter stores lies in [0, 2^16), is congruent to the argument modulo 2^16, and equals it when in range |
| LittleEndian.ToInt16 | generate_cannon_sound.js:73 | `setInt16` stores a value in [-2^15, 2^15) congruent to the argument modulo 2^16, equal to it when it is already an int16 |
| LittleEndian.ToUint8 | generate_cannon_sound.js:18 | `setUint8` stores the argument reduced modulo 256, unchanged when it is already a byte |
| LittleEndian.LE16RoundTrip | generate_cannon_sound.js:30-35 | decoding the little-endian bytes of any uint16 gives the value back |
| LittleEndian.DecodeLE16RoundTrip | generate_cannon_sound.js:30-35 | any two bytes are the little-endian encoding of the value they decode to |
| LittleEndian.LE32RoundTrip | generate_cannon_sound.js:24-39 | decoding the little-endian bytes of any uint32 gives the value back |
| LittleEndian.DecodeLE32RoundTrip | generate_cannon_sound.js:24-39 | any four bytes are the little-endian encoding of the value they decode to |
| LittleEndian.Int16LERoundTrip | generate_cannon_sound.js:73 | decoding the two's-complement little-endian bytes of any int16 gives the value back |
| LittleEndian.DecodeInt16LERoundTrip | generate_cannon_sound.js:73 | any two bytes are the two's-complement encoding of the int16 they decode to |
| LittleEndian.Int16LEOfToInt16 | generate_cannon_sound.js:73 | the bytes `setInt16` stores for x are the little-endian bytes of x modulo 2^16 |
| DataView.Zeros | generate_cannon_sound.js:12 | a new buffer has the requested length and every byte is 0 |
| DataView.SetUint8 | generate_cannon_sound.js:18 | the store succeeds exactly when the offset is inside the buffer, and then replaces that one byte by the value modulo 256 |
| DataView.SetUint16 | generate_cannon_sound.js:30-35 | the store succeeds exactly when both bytes are inside the buffer; it then changes only those bytes, which decode to the value modulo 2^16 |
| DataView.SetUint32 | generate_cannon_sound.js:24-39 | the store succeeds exactly when all four bytes are inside the buffer; it then changes only those bytes, which decode to the value modulo 2^32 |
| DataView.SetInt16 | generate_cannon_sound.js:73 | the store succeeds exactly when both bytes are inside the buffer; it then changes only those bytes, which decode to ToInt16 of the value |
| DataView.WriteString | generate_cannon_sound.js:16-20 | `writeString` succeeds exactly when the string is empty or fits at the offset, and then writes exactly `string.length` bytes, the character codes, starting at the offset and no others |
| DataView.SplicedBytes | generate_cannon_sound.js:16-20 | after a write, the buffer has its old length, the covered bytes are the written ones and every other byte is unchanged |
| WaveFormat.EncodeHeaderLayout | generate_cannon_sound.js:22-39 | in an encoded header the four-character codes sit at bytes 0, 8, 12 and 36, and each numeric field sits little-endian at its offset (4, 16, 20, 22, 24, 28, 32, 34, 40) |
| WaveFormat.EncodeHeaderRoundTrip | generate_cannon_sound.js:22-39 | decoding an encoded header gives back every field |
| WaveFormat.DecodeHeaderRoundTrip | generate_cannon_sound.js:22-39 | a header the decoder accepts is byte for byte the encoding of the fields it read |
| WaveFormat.EncodeSamplesAt | generate_cannon_sound.js:73-74 | sample i of the data occupies bytes 2i and 2i+1 of the data chunk body |
| WaveFormat.EncodeSamplesSnoc | generate_cannon_sound.js:73-74 | storing one more sample appends exactly its two bytes to the data written so far |
| WaveFormat.EncodeSamplesRoundTrip | generate_cannon_sound.js:73 | decoding the data chunk body gives back every sample, in order |
| WaveFormat.DecodeSamplesRoundTrip | generate_cannon_sound.js:73 | any even-length byte string is the encoding of the samples it decodes to |
| WaveFormat.EncodeSamples | generate_cannon_sound.js:73-74 | the data chunk body holds exactly two bytes per sample |
| WaveFormat.DecodeSamples | generate_cannon_sound.js:73 | an even-length data body reads as one int16 per two bytes |
| WaveFormat.DecodeWav | generate_cannon_sound.js:12-45 | a file the reader accepts has size fields matching its length and is 44 bytes plus two per sample |
| WaveFormat.DecodeWavRoundTrip | generate_cannon_sound.js:12-45 | a file the reader accepts is byte for byte the encoding of the header and samples it read |
| WaveFormat.EncodeWavRoundTrip | generate_cannon_sound.js:12-45 | a file of header plus samples decodes exactly when its size fields match its length, and then yields that header and those samples |
| Quantization.Clamp | generate_cannon_sound.js:71 | the clipped amplitude lies in [-1, 1], equals the input inside that range and is the nearer bound outside it |
| Quantization.Quantize | generate_cannon_sound.js:72 | the integer sample is the largest integer not above 32767 times the clipped amplitude, and lies in [-32767, 32767], so it is an int16 |
| Quantization.QuantizeAll | generate_cannon_sound.js:71-72 | one quantized int16 per amplitude, index for index |
| Quantization.ClampIdempotent | generate_cannon_sound.js:71 | clipping an already clipped amplitude changes nothing |
| Quantization.ClampMonotone | generate_cannon_sound.js:71 | clipping preserves the order of amplitudes |
| Quantization.QuantizeMonotone | generate_cannon_sound.js:71-72 | a larger amplitude never gives a smaller sample |
| Quantization.QuantizeSign | generate_cannon_sound.js:71-72 | the sample is non-negative exactly when the amplitude is |
| Quantization.QuantizeFullScale | generate_cannon_sound.js:71-72 | the sample is 32767 exactly when the amplitude is at least 1 |
| Quantization.QuantizeNegativeFullScale | generate_cannon_sound.js:71-72 | amplitudes at or below -1 give -32767; -32768 is never produced |
| Quantization.QuantizeRoundsDown | generate_cannon_sound.js:72 | the scaled value is rounded toward negative infinity: -0.5 gives -16384 and 0.5 gives 16383 |
| Quantization.QuantizedStoreExact | generate_cannon_sound.js:72-73 | the 16-bit store never wraps: ToInt16 leaves the quantized sample unchanged and its stored bytes decode back to it |
| CannonSound.HeaderFor | generate_cannon_sound.js:24-39 | every value the header writes store fits the width of its field |
| CannonSound.HeaderForCanonical | generate_cannon_sound.js:24-39 | within range the header describes PCM, mono, 16 bits, block align 2, the given rate, byte rate equal to rate times block align, and size fields equal to the file length minus 8 and minus 44 |
| CannonSound.TagBytes | generate_cannon_sound.js:23-38 | the strings written at offsets 0, 8, 12 and 36 become the ASCII codes of "RIFF", "WAVE", "fmt " and "data" |
| CannonSound.WriteRiff | generate_cannon_sound.js:23-25 | the first three writes succeed exactly when the buffer has 12 bytes and then replace bytes 0..11 by the RIFF chunk descriptor and nothing else |
| CannonSound.WriteFmt | generate_cannon_sound.js:28-35 | the fmt writes succeed exactly when the buffer has 36 bytes and then replace bytes 12..35 by the fmt chunk and nothing else |
| CannonSound.WriteDataHeader | generate_cannon_sound.js:38-39 | the data writes succeed exactly when the buffer has 44 bytes and then replace bytes 36..43 by "data" and the data size and nothing else |
| CannonSound.WriteHeader | generate_cannon_sound.js:22-39 | the header writes succeed exactly when the buffer has 44 bytes; they leave the encoded header in bytes 0..43 and every later byte unchanged |
| CannonSound.StoreSampleExtends | generate_cannon_sound.js:73-74 | storing a sample right after the samples written so far extends their encoding by it and leaves the header alone |
| CannonSound.StoreSamples | generate_cannon_sound.js:42-75 | the sample loop never stores out of bounds, never changes bytes 0..43, and leaves sample i at bytes 44+2i and 45+2i, in index order |
| CannonSound.GenerateCannonSound | generate_cannon_sound.js:12-77 | the returned buffer is 44 + 2 * numSamples bytes long, its header depends only on the sample count and rate, and it equals the reference file `CannonWav` |
| CannonSound.CannonWav | generate_cannon_sound.js:12 | the file is exactly 44 + 2 * numSamples bytes long |
| CannonSound.CannonWavLayout | generate_cannon_sound.js:22-39 | within range the file has "RIFF", "WAVE", "fmt ", "data" at 0, 8, 12, 36; RIFF size 36 + 2n = length - 8; fmt size 16, format 1, 1 channel, the rate, byte rate 2 * rate = rate * block align, block align 2, 16 bits; data size 2n = length - 44 |
| CannonSound.CannonWavSampleAt | generate_cannon_sound.js:73-74 | sample i sits at bytes 44+2i and 45+2i and reads back as the quantized amplitude of index i |
| CannonSound.CannonHeaderIndependentOfSamples | generate_cannon_sound.js:22-45 | two files with the same sample count and rate have identical bytes 0..43, whatever the sample values |
| CannonSound.CannonWavDecodes | generate_cannon_sound.js:12-75 | within range the file is a PCM WAVE that decodes to its header and exactly the quantized samples |
| CannonSound.CannonConstants | generate_cannon_sound.js:7-12 | with 13230 samples at 44100 Hz the file is 26504 bytes, with RIFF size 26496, data size 26460 and byte rate 88200 |
| CannonSound.HeaderForWraps | generate_cannon_sound.js:33 | outside the valid range the 32-bit store wraps: a rate of 2^31 is recorded with byte rate 0 |

## Left out

- Waveform synthesis (generate_cannon_sound.js:43, 46-68): `Math.random`, `Math.sin`, `Math.exp` and the time step `1 / sampleRate` are floating-point numerics and ambient randomness. The amplitude of each sample is an arbitrary `real` input instead.
- `Math.floor(sampleRate * duration)` (generate_cannon_sound.js:9): IEEE-754 arithmetic is not modelled. The sample count is `|amps|`, and `NUM_SAMPLES` holds the value 13230 that the fixed parameters give.
- File output and process plumbing (generate_cannon_sound.js:81-88): `writeFileSync`, `console.log`, `console.error` and `process.exit` are I/O. The model ends at the returned buffer.
- `ArrayBuffer` and `DataView` are modelled as a byte sequence with bounds-checked stores, not as library objects. The implementation limit on `ArrayBuffer` length, which could also throw a RangeError, is not modelled.
- Floating-point amplitudes: amplitudes are mathematical reals, so NaN, infinities and rounding of `sample * 32767` are not modelled.
- Stores made before a RangeError are not modelled: a failed write returns `Err` without a buffer, so the bytes a `writeString` loop stored before an out-of-range character are lost. No store in the generator can fail, since its buffer is always 44 + 2 * numSamples bytes.
- DataView.CharByte: uses the character's code point as its `charCodeAt` code unit. This agrees for characters below U+10000; it is only applied to the four ASCII chunk identifiers.
- LittleEndian.ToUint32: like the other conversions, it takes integers only. ECMAScript's handling of fractional, NaN or infinite Numbers is not modelled, because every value the writer stores is an integer.
