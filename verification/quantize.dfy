/** The last step of every sample: the amplitude is clipped to [-1, 1],
    multiplied by 32767 and rounded toward negative infinity to an integer. */
module Quantization {
  import opened LittleEndian

  /** Full-scale value of a quantized sample. */
  const FULL_SCALE: int := 32767

  function Clamp(x: real): (r: real)
    ensures -1.0 <= r <= 1.0
    ensures -1.0 <= x <= 1.0 ==> r == x
    ensures x > 1.0 ==> r == 1.0
    ensures x < -1.0 ==> r == -1.0
  {
    var upper := if 1.0 < x then 1.0 else x;   // at most 1
    if -1.0 > upper then -1.0 else upper       // then at least -1
  }

  /** The quantized sample is the largest integer not above the scaled,
      clipped amplitude, and it always lies in [-32767, 32767]: inside the
      int16 range, so the 16-bit store that follows never wraps. */
  function Quantize(x: real): (q: int)
    ensures -FULL_SCALE <= q <= FULL_SCALE
    ensures IsInt16(q)
    ensures q as real <= Clamp(x) * FULL_SCALE as real < q as real + 1.0
  {
    (Clamp(x) * FULL_SCALE as real).Floor
  }

  /** Quantizes every amplitude of a sample buffer. */
  function QuantizeAll(amps: seq<real>): (s: seq<int>)
    ensures |s| == |amps|
    ensures forall i :: 0 <= i < |amps| ==> s[i] == Quantize(amps[i])
    ensures forall i :: 0 <= i < |s| ==> IsInt16(s[i])
  {
    seq(|amps|, i requires 0 <= i < |amps| => Quantize(amps[i]))
  }

  lemma ClampIdempotent(x: real)
    ensures Clamp(Clamp(x)) == Clamp(x)
  {
  }

  lemma ClampMonotone(x: real, y: real)
    requires x <= y
    ensures Clamp(x) <= Clamp(y)
  {
  }

  /** A louder amplitude never quantizes to a smaller sample. */
  lemma QuantizeMonotone(x: real, y: real)
    requires x <= y
    ensures Quantize(x) <= Quantize(y)
  {
    ClampMonotone(x, y);
    assert Clamp(x) * FULL_SCALE as real <= Clamp(y) * FULL_SCALE as real;
  }

  /** Quantization keeps the sign of the amplitude. */
  lemma QuantizeSign(x: real)
    ensures Quantize(x) >= 0 <==> x >= 0.0
  {
  }

  /** Only amplitudes at or above full scale reach the largest sample. */
  lemma QuantizeFullScale(x: real)
    ensures Quantize(x) == FULL_SCALE <==> x >= 1.0
  {
  }

  /** The int16 minimum -32768 is never produced: negative full scale maps to
      -32767. */
  lemma QuantizeNegativeFullScale(x: real)
    requires x <= -1.0
    ensures Quantize(x) == -FULL_SCALE
  {
  }

  /** The rounding takes a negative product down, not toward zero: an
      amplitude of -0.5 becomes -16384, where truncation would give -16383. */
  lemma QuantizeRoundsDown()
    ensures Quantize(-0.5) == -16384
    ensures Quantize(0.5) == 16383
  {
    assert Clamp(-0.5) * FULL_SCALE as real == -16383.5;
    assert Clamp(0.5) * FULL_SCALE as real == 16383.5;
  }

  /** `setInt16` stores the quantized sample unchanged: ToInt16 is the
      identity on it, and its bytes decode back to it. */
  lemma QuantizedStoreExact(x: real)
    ensures ToInt16(Quantize(x)) == Quantize(x)
    ensures DecodeInt16LE(Int16LE(ToInt16(Quantize(x)))) == Quantize(x)
  {
    Int16LERoundTrip(Quantize(x));
  }
}
