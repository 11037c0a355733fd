/**
  Bytes and signed 16-bit samples: the little-endian encodings used by the WAV
  header, and numpy's `int16` `tobytes` / `frombuffer` on a little-endian host.
 */
module Pcm {

  /** One octet of a Python `bytes` value. */
  type byte = x: int | 0 <= x < 256

  /** One numpy `int16` sample. */
  type Sample = x: int | -0x8000 <= x < 0x8000

  /** The unsigned value of the two bytes at `off`, least significant first. */
  function U16(b: seq<byte>, off: nat): int
    requires off + 2 <= |b|
  {
    (b[off] as int) + 256 * (b[off + 1] as int)
  }

  /** The unsigned value of the four bytes at `off`, least significant first. */
  function U32(b: seq<byte>, off: nat): int
    requires off + 4 <= |b|
  {
    var b0, b1, b2, b3: int := b[off], b[off + 1], b[off + 2], b[off + 3];
    b0 + 256 * (b1 + 256 * (b2 + 256 * b3))
  }

  /** `struct.pack('<H', v)`. */
  function LE16(v: int): (r: seq<byte>)
    requires 0 <= v < 0x1_0000
    ensures |r| == 2 && U16(r, 0) == v
  {
    [v % 256, v / 256]
  }

  /** `struct.pack('<L', v)`. */
  function LE32(v: int): (r: seq<byte>)
    requires 0 <= v < 0x1_0000_0000
    ensures |r| == 4 && U32(r, 0) == v
  {
    var q1 := v / 256;
    var q2 := q1 / 256;
    var q3 := q2 / 256;
    [v % 256, q1 % 256, q2 % 256, q3]
  }

  /** The two bytes numpy stores for one `int16` sample (two's complement, little-endian). */
  function SampleBytes(s: Sample): (r: seq<byte>)
    ensures |r| == 2
  {
    LE16(if s < 0 then s + 0x1_0000 else s)
  }

  /** The `int16` sample numpy reads from the two bytes at `off`. */
  function SampleAt(b: seq<byte>, off: nat): Sample
    requires off + 2 <= |b|
  {
    var u := U16(b, off);
    if u >= 0x8000 then u - 0x1_0000 else u
  }

  /** `ndarray.tobytes()` of an `int16` array in C order. */
  function ToBytes(s: seq<Sample>): (r: seq<byte>)
    ensures |r| == 2 * |s|
  {
    if s == [] then [] else SampleBytes(s[0]) + ToBytes(s[1..])
  }

  /** `np.frombuffer(b, dtype=np.int16)`; numpy rejects a buffer of odd length. */
  function FromBytes(b: seq<byte>): (r: seq<Sample>)
    requires |b| % 2 == 0
    ensures |r| == |b| / 2
  {
    if b == [] then [] else [SampleAt(b, 0)] + FromBytes(b[2..])
  }

  lemma SampleRoundTrip(s: Sample)
    ensures SampleAt(SampleBytes(s), 0) == s
  {
  }

  lemma BytesRoundTrip(b: seq<byte>)
    requires |b| == 2
    ensures SampleBytes(SampleAt(b, 0)) == b
  {
  }

  /** Reading back what `tobytes` wrote gives the same samples. */
  lemma {:induction false} FromToBytes(s: seq<Sample>)
    ensures FromBytes(ToBytes(s)) == s
  {
    if s != [] {
      var b := ToBytes(s);
      assert b == SampleBytes(s[0]) + ToBytes(s[1..]);
      assert b[2..] == ToBytes(s[1..]);
      SampleRoundTrip(s[0]);
      assert SampleAt(b, 0) == SampleAt(SampleBytes(s[0]), 0);
      FromToBytes(s[1..]);
    }
  }

  /** Writing back what `frombuffer` read gives the same bytes. */
  lemma {:induction false} ToFromBytes(b: seq<byte>)
    requires |b| % 2 == 0
    ensures ToBytes(FromBytes(b)) == b
  {
    if b != [] {
      var s := FromBytes(b);
      assert s[0] == SampleAt(b, 0) && s[1..] == FromBytes(b[2..]);
      BytesRoundTrip(b[..2]);
      assert SampleAt(b[..2], 0) == SampleAt(b, 0);
      ToFromBytes(b[2..]);
      assert b == b[..2] + b[2..];
    }
  }

  /** `tobytes` of a concatenation (numpy's `concatenate` along axis 0) is the concatenation of the byte strings. */
  lemma {:induction false} ToBytesAppend(a: seq<Sample>, c: seq<Sample>)
    ensures ToBytes(a + c) == ToBytes(a) + ToBytes(c)
  {
    if a == [] {
      assert a + c == c;
    } else {
      assert (a + c)[0] == a[0] && (a + c)[1..] == a[1..] + c;
      ToBytesAppend(a[1..], c);
    }
  }
}
