/**
 * Bounded integer types and the little- and big-endian packings that the
 * client and the recorder perform with Python's `struct` module.
 */
module Bytes {

  type byte = x: int | 0 <= x < 0x100
  type u16 = x: int | 0 <= x < 0x1_0000
  type u32 = x: int | 0 <= x < 0x1_0000_0000

  /** True when every element fits a signed 16-bit sample (array('h')). */
  predicate AllI16(s: seq<int>)
  {
    forall k :: 0 <= k < |s| ==> -0x8000 <= s[k] < 0x8000
  }

  /** struct.unpack('<I', b) */
  function U32LE(b: seq<byte>): u32
    requires |b| == 4
  {
    b[0] as int + 0x100 * b[1] as int + 0x1_0000 * b[2] as int + 0x100_0000 * b[3] as int
  }

  /** struct.pack('<I', x) */
  function PackU32LE(x: u32): (b: seq<byte>)
    ensures |b| == 4
  {
    [x % 0x100, x / 0x100 % 0x100, x / 0x1_0000 % 0x100, x / 0x100_0000]
  }

  lemma U32LEOfPack(x: u32)
    ensures U32LE(PackU32LE(x)) == x
  {
    var q1 := x / 0x100;
    var q2 := x / 0x1_0000;
    var q3 := x / 0x100_0000;
    assert q2 == q1 / 0x100;
    assert q3 == q2 / 0x100;
    assert x == 0x100 * q1 + x % 0x100;
    assert q1 == 0x100 * q2 + q1 % 0x100;
    assert q2 == 0x100 * q3 + q2 % 0x100;
  }

  lemma PackOfU32LE(b: seq<byte>)
    requires |b| == 4
    ensures PackU32LE(U32LE(b)) == b
  {
    var x := U32LE(b);
    var hi2 := b[2] as int + 0x100 * b[3] as int;
    var hi := b[1] as int + 0x100 * hi2;
    assert x == b[0] as int + 0x100 * hi;
    DivModByte(x, hi, b[0]);
    DivModByte(hi, hi2, b[1]);
    DivModByte(hi2, b[3], b[2]);
    assert x / 0x1_0000 == hi / 0x100;
    assert x / 0x100_0000 == hi2 / 0x100;
  }

  /** x = 256q + r with r a byte: x / 256 is q and x % 256 is r. */
  lemma DivModByte(x: int, q: int, r: int)
    requires x == 0x100 * q + r && 0 <= r < 0x100
    ensures x / 0x100 == q && x % 0x100 == r
  {
  }


  /** struct.unpack('>H', b) */
  function U16BE(b: seq<byte>): u16
    requires |b| == 2
  {
    0x100 * b[0] as int + b[1] as int
  }

  /** struct.pack('>H', x) */
  function PackU16BE(x: u16): (b: seq<byte>)
    ensures |b| == 2
  {
    [x / 0x100, x % 0x100]
  }

  lemma U16BEOfPack(x: u16)
    ensures U16BE(PackU16BE(x)) == x
  {
  }

  /** struct.unpack('<H', b) */
  function U16LE(b: seq<byte>): u16
    requires |b| == 2
  {
    b[0] as int + 0x100 * b[1] as int
  }

  /** struct.pack('<H', x) */
  function PackU16LE(x: u16): (b: seq<byte>)
    ensures |b| == 2
  {
    [x % 0x100, x / 0x100]
  }

  lemma U16LEOfPack(x: u16)
    ensures U16LE(PackU16LE(x)) == x
  {
  }

  /** A big-endian signed 16-bit integer (numpy dtype '>h'). */
  function I16BE(b: seq<byte>): (v: int)
    requires |b| == 2
    ensures -0x8000 <= v < 0x8000
    ensures v >= 0 <==> b[0] < 0x80
  {
    var u := U16BE(b);
    if u >= 0x8000 then u - 0x1_0000 else u
  }

  /** Two's complement bit pattern of a signed 16-bit value. */
  function Unsigned16(v: int): u16
    requires -0x8000 <= v < 0x8000
  {
    if v < 0 then v + 0x1_0000 else v
  }

  /** The big-endian encoding of a signed 16-bit value. */
  function PackI16BE(v: int): (b: seq<byte>)
    requires -0x8000 <= v < 0x8000
    ensures |b| == 2
  {
    PackU16BE(Unsigned16(v))
  }

  /** The little-endian encoding of a signed 16-bit value (array('h').tofile on a little-endian host). */
  function PackI16LE(v: int): (b: seq<byte>)
    requires -0x8000 <= v < 0x8000
    ensures |b| == 2
  {
    PackU16LE(Unsigned16(v))
  }

  lemma I16BEOfPack(v: int)
    requires -0x8000 <= v < 0x8000
    ensures I16BE(PackI16BE(v)) == v
  {
    U16BEOfPack(Unsigned16(v));
  }

  /** Concatenated little-endian encodings of a sequence of samples. */
  function SamplesLE(s: seq<int>): (b: seq<byte>)
    requires AllI16(s)
    ensures |b| == 2 * |s|
  {
    if s == [] then [] else PackI16LE(s[0]) + SamplesLE(s[1..])
  }

  lemma {:induction false} SamplesLEAppend(a: seq<int>, b: seq<int>)
    requires AllI16(a) && AllI16(b)
    ensures AllI16(a + b)
    ensures SamplesLE(a + b) == SamplesLE(a) + SamplesLE(b)
  {
    if a == [] {
      assert a + b == b;
    } else {
      assert (a + b)[1..] == a[1..] + b;
      SamplesLEAppend(a[1..], b);
    }
  }

  /** The sample at position k is stored, little-endian, at bytes 2k and 2k+1. */
  lemma {:induction false} SamplesLEAt(s: seq<int>, k: nat)
    requires AllI16(s) && k < |s|
    ensures SamplesLE(s)[2 * k..2 * k + 2] == PackI16LE(s[k])
  {
    if k > 0 {
      SamplesLEAt(s[1..], k - 1);
      assert SamplesLE(s) == PackI16LE(s[0]) + SamplesLE(s[1..]);
    }
  }

  /** A value reduced to 32 bits, as a u32 field holds it. */
  function Wrap32(x: int): u32
  {
    x % 0x1_0000_0000
  }

  /** A value reduced to 16 bits, as a u16 field holds it. */
  function Wrap16(x: int): u16
  {
    x % 0x1_0000
  }
}
