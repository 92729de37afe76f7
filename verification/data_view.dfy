/** An ArrayBuffer seen through a DataView, as a sequence of bytes. Every
    setter checks its byte range first (a negative offset, or one whose field
    would run past the end, throws a RangeError and writes nothing), converts
    the value with the matching ECMAScript integer conversion, and stores the
    result little-endian. */
module DataView {
  import opened Outcomes
  import opened LittleEndian

  type Buffer = seq<byte>

  /** `new ArrayBuffer(len)`: a zero-filled buffer of `len` bytes. */
  function Zeros(len: nat): (r: Buffer)
    ensures |r| == len
    ensures forall j :: 0 <= j < len ==> r[j] == 0
  {
    seq(len, _ => 0)
  }

  /** True when `r` is `buf` with the bytes at [off, off + |bytes|) replaced by
      `bytes`: the range lies inside the buffer and every other byte is kept. */
  ghost predicate Spliced(r: Buffer, buf: Buffer, off: int, bytes: seq<byte>)
  {
    && 0 <= off && off + |bytes| <= |buf|
    && r == buf[..off] + bytes + buf[off + |bytes|..]
  }

  /** The bounds check and store shared by every DataView setter. */
  function Store(buf: Buffer, off: int, bytes: seq<byte>): (r: Result<Buffer>)
    ensures r.Ok? <==> 0 <= off && off + |bytes| <= |buf|
    ensures r.Ok? ==> Spliced(r.value, buf, off, bytes)
  {
    if 0 <= off && off + |bytes| <= |buf| then
      Ok(buf[..off] + bytes + buf[off + |bytes|..])
    else
      Err(RangeError)
  }

  /** `view.setUint8(off, value)`. */
  function SetUint8(buf: Buffer, off: int, value: int): (r: Result<Buffer>)
    ensures r.Ok? <==> 0 <= off < |buf|
    ensures r.Ok? ==> Spliced(r.value, buf, off, [ToUint8(value)])
  {
    Store(buf, off, [ToUint8(value)])
  }

  /** `view.setUint16(off, value, true)`. */
  function SetUint16(buf: Buffer, off: int, value: int): (r: Result<Buffer>)
    ensures r.Ok? <==> 0 <= off && off + 2 <= |buf|
    ensures r.Ok? ==> Spliced(r.value, buf, off, LE16(ToUint16(value)))
    ensures r.Ok? ==> DecodeLE16(r.value[off..off + 2]) == ToUint16(value)
  {
    var r := Store(buf, off, LE16(ToUint16(value)));
    if r.Ok? then
      assert r.value[off..off + 2] == LE16(ToUint16(value));
      LE16RoundTrip(ToUint16(value));
      r
    else
      r
  }

  /** `view.setUint32(off, value, true)`. */
  function SetUint32(buf: Buffer, off: int, value: int): (r: Result<Buffer>)
    ensures r.Ok? <==> 0 <= off && off + 4 <= |buf|
    ensures r.Ok? ==> Spliced(r.value, buf, off, LE32(ToUint32(value)))
    ensures r.Ok? ==> DecodeLE32(r.value[off..off + 4]) == ToUint32(value)
  {
    var r := Store(buf, off, LE32(ToUint32(value)));
    if r.Ok? then
      assert r.value[off..off + 4] == LE32(ToUint32(value));
      LE32RoundTrip(ToUint32(value));
      r
    else
      r
  }

  /** `view.setInt16(off, value, true)`. */
  function SetInt16(buf: Buffer, off: int, value: int): (r: Result<Buffer>)
    ensures r.Ok? <==> 0 <= off && off + 2 <= |buf|
    ensures r.Ok? ==> Spliced(r.value, buf, off, Int16LE(ToInt16(value)))
    ensures r.Ok? ==> DecodeInt16LE(r.value[off..off + 2]) == ToInt16(value)
  {
    var r := Store(buf, off, Int16LE(ToInt16(value)));
    if r.Ok? then
      assert r.value[off..off + 2] == Int16LE(ToInt16(value));
      Int16LERoundTrip(ToInt16(value));
      r
    else
      r
  }

  /** The byte `setUint8` stores for one character of a string: its UTF-16
      code unit reduced modulo 2^8. */
  function CharByte(c: char): byte
  {
    ToUint8(c as int)
  }

  /** The bytes `writeString` stores for a whole string. */
  function StringBytes(s: string): (r: seq<byte>)
    ensures |r| == |s|
    ensures forall k :: 0 <= k < |s| ==> r[k] == CharByte(s[k])
  {
    seq(|s|, k requires 0 <= k < |s| => CharByte(s[k]))
  }

  /** `writeString(offset, string)`: one `setUint8` per character, in index
      order. It throws as soon as a write falls outside the buffer, so it
      succeeds exactly when the string is empty or fits at `off`; it then
      writes exactly `|s|` bytes starting at `off` and no others. */
  function WriteString(buf: Buffer, off: int, s: string): (r: Result<Buffer>)
    ensures r.Ok? <==> |s| == 0 || (0 <= off && off + |s| <= |buf|)
    ensures r.Ok? && |s| == 0 ==> r.value == buf
    ensures r.Ok? && |s| > 0 ==> Spliced(r.value, buf, off, StringBytes(s))
    decreases |s|
  {
    if |s| == 0 then
      Ok(buf)
    else
      var next :- SetUint8(buf, off, s[0] as int);
      var r := WriteString(next, off + 1, s[1..]);
      if r.Ok? && |s| > 1 then
        SplicedAdjacent(buf, next, r.value, off, [CharByte(s[0])], StringBytes(s[1..]));
        assert [CharByte(s[0])] + StringBytes(s[1..]) == StringBytes(s);
        r
      else
        r
  }

  /** Two writes to adjacent ranges amount to one write of the concatenated
      bytes. */
  lemma SplicedAdjacent(b0: Buffer, b1: Buffer, b2: Buffer, off: int, x: seq<byte>, y: seq<byte>)
    requires Spliced(b1, b0, off, x)
    requires Spliced(b2, b1, off + |x|, y)
    ensures Spliced(b2, b0, off, x + y)
  {
    assert b1[..off + |x|] == b0[..off] + x;
    assert b1[off + |x| + |y|..] == b0[off + |x| + |y|..];
  }

  /** A write replaces exactly the bytes it covers: the buffer keeps its
      length, the covered bytes are the written ones and no other byte
      changes. */
  lemma SplicedBytes(r: Buffer, buf: Buffer, off: int, bytes: seq<byte>)
    requires Spliced(r, buf, off, bytes)
    ensures |r| == |buf|
    ensures r[..off] == buf[..off]
    ensures r[off..off + |bytes|] == bytes
    ensures r[off + |bytes|..] == buf[off + |bytes|..]
    ensures forall k :: 0 <= k < |bytes| ==> r[off + k] == bytes[k]
    ensures forall j :: 0 <= j < |buf| && !(off <= j < off + |bytes|) ==> r[j] == buf[j]
  {
  }
}
