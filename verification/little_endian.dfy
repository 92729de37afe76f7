/** Bytes, the little-endian encodings a DataView uses when its
    `littleEndian` argument is true, and the ECMAScript integer conversions
    (ToUint8, ToUint16, ToUint32, ToInt16) that DataView setters apply to the
    value before storing it. */
module LittleEndian {

  type byte = b: int | 0 <= b < 256

  const TWO_8: int := 0x100
  const TWO_15: int := 0x8000
  const TWO_16: int := 0x1_0000
  const TWO_32: int := 0x1_0000_0000

  predicate IsUint16(n: int) { 0 <= n < TWO_16 }
  predicate IsUint32(n: int) { 0 <= n < TWO_32 }
  predicate IsInt16(v: int) { -TWO_15 <= v < TWO_15 }

  /* ---------------- ECMAScript integer conversions ---------------- */

  /** ToUint8 of an integral Number: reduction modulo 2^8. */
  function ToUint8(x: int): (r: byte)
    ensures (r - x) % TWO_8 == 0
    ensures 0 <= x < TWO_8 ==> r == x
  {
    x % TWO_8
  }

  /** ToUint16 of an integral Number: reduction modulo 2^16. */
  function ToUint16(x: int): (r: int)
    ensures IsUint16(r)
    ensures (r - x) % TWO_16 == 0
    ensures IsUint16(x) ==> r == x
  {
    x % TWO_16
  }

  /** ToUint32 of an integral Number: reduction modulo 2^32. */
  function ToUint32(x: int): (r: int)
    ensures IsUint32(r)
    ensures (r - x) % TWO_32 == 0
    ensures IsUint32(x) ==> r == x
  {
    x % TWO_32
  }

  /** ToInt16 of an integral Number: reduction modulo 2^16 into [-2^15, 2^15). */
  function ToInt16(x: int): (r: int)
    ensures IsInt16(r)
    ensures (r - x) % TWO_16 == 0
    ensures IsInt16(x) ==> r == x
  {
    var u := x % TWO_16;
    if u >= TWO_15 then u - TWO_16 else u
  }

  /* ---------------- encoders and decoders ---------------- */

  /** Unsigned 16-bit value, least significant byte first. */
  function LE16(n: int): (r: seq<byte>)
    requires IsUint16(n)
    ensures |r| == 2
  {
    [n % TWO_8, n / TWO_8]
  }

  function DecodeLE16(b: seq<byte>): (n: int)
    requires |b| == 2
    ensures IsUint16(n)
  {
    b[0] + TWO_8 * b[1]
  }

  /** Unsigned 32-bit value: the low half, then the high half, each as LE16. */
  function LE32(n: int): (r: seq<byte>)
    requires IsUint32(n)
    ensures |r| == 4
  {
    LE16(n % TWO_16) + LE16(n / TWO_16)
  }

  function DecodeLE32(b: seq<byte>): (n: int)
    requires |b| == 4
    ensures IsUint32(n)
  {
    DecodeLE16(b[..2]) + TWO_16 * DecodeLE16(b[2..])
  }

  /** Signed 16-bit value in two's complement, least significant byte first. */
  function Int16LE(v: int): (r: seq<byte>)
    requires IsInt16(v)
    ensures |r| == 2
  {
    LE16(if v < 0 then v + TWO_16 else v)
  }

  function DecodeInt16LE(b: seq<byte>): (v: int)
    requires |b| == 2
    ensures IsInt16(v)
  {
    var u := DecodeLE16(b);
    if u >= TWO_15 then u - TWO_16 else u
  }

  /* ---------------- round trips, both directions ---------------- */

  lemma LE16RoundTrip(n: int)
    requires IsUint16(n)
    ensures DecodeLE16(LE16(n)) == n
  {
  }

  lemma DecodeLE16RoundTrip(b: seq<byte>)
    requires |b| == 2
    ensures LE16(DecodeLE16(b)) == b
  {
  }

  lemma LE32RoundTrip(n: int)
    requires IsUint32(n)
    ensures DecodeLE32(LE32(n)) == n
  {
    var r := LE32(n);
    assert r[..2] == LE16(n % TWO_16);
    assert r[2..] == LE16(n / TWO_16);
    LE16RoundTrip(n % TWO_16);
    LE16RoundTrip(n / TWO_16);
  }

  lemma DecodeLE32RoundTrip(b: seq<byte>)
    requires |b| == 4
    ensures LE32(DecodeLE32(b)) == b
  {
    var lo, hi := DecodeLE16(b[..2]), DecodeLE16(b[2..]);
    var n := lo + TWO_16 * hi;
    SplitUint32(lo, hi);
    DecodeLE16RoundTrip(b[..2]);
    DecodeLE16RoundTrip(b[2..]);
    assert b == b[..2] + b[2..];
  }

  lemma Int16LERoundTrip(v: int)
    requires IsInt16(v)
    ensures DecodeInt16LE(Int16LE(v)) == v
  {
    LE16RoundTrip(if v < 0 then v + TWO_16 else v);
  }

  lemma DecodeInt16LERoundTrip(b: seq<byte>)
    requires |b| == 2
    ensures Int16LE(DecodeInt16LE(b)) == b
  {
    DecodeLE16RoundTrip(b);
  }

  /** Storing ToInt16(x) as two's complement gives the bytes of x modulo 2^16,
      which is why `setInt16` and `setUint16` agree on the stored bytes. */
  lemma Int16LEOfToInt16(x: int)
    ensures Int16LE(ToInt16(x)) == LE16(ToUint16(x))
  {
  }

  /** Splitting a 32-bit value into 16-bit halves is unique. */
  lemma SplitUint32(lo: int, hi: int)
    requires IsUint16(lo)
    ensures (lo + TWO_16 * hi) / TWO_16 == hi
    ensures (lo + TWO_16 * hi) % TWO_16 == lo
  {
  }
}
