/**
 * The IMA ADPCM decoder (IMA Digital Audio Focus and Technical Working
 * Group, "Recommended Practices for Enhancing Digital Audio Compatibility
 * in Multimedia Systems"): 4-bit codes expanded to 16-bit samples with an
 * adaptive step size. The pure functions specify one nibble and a byte
 * string; the class is the stateful decoder object of the client.
 */
module Adpcm {
  import opened Bytes

  /** The 89 quantizer step sizes, roughly 10% apart. */
  const StepSizeTable: seq<nat> := [
    7, 8, 9, 10, 11, 12, 13, 14, 16, 17, 19, 21, 23, 25, 28, 31, 34,
    37, 41, 45, 50, 55, 60, 66, 73, 80, 88, 97, 107, 118, 130, 143,
    157, 173, 190, 209, 230, 253, 279, 307, 337, 371, 408, 449, 494,
    544, 598, 658, 724, 796, 876, 963, 1060, 1166, 1282, 1411, 1552,
    1707, 1878, 2066, 2272, 2499, 2749, 3024, 3327, 3660, 4026,
    4428, 4871, 5358, 5894, 6484, 7132, 7845, 8630, 9493, 10442,
    11487, 12635, 13899, 15289, 16818, 18500, 20350, 22385, 24623,
    27086, 29794, 32767]

  /** How each code moves the step index: small magnitudes step down, large ones up. */
  const IndexAdjustTable: seq<int> := [
    -1, -1, -1, -1, 2, 4, 6, 8,
    -1, -1, -1, -1, 2, 4, 6, 8]

  /** The largest step index, len(stepSizeTable) - 1. */
  const MaxIndex: int := 88

  lemma TablesShape()
    ensures |StepSizeTable| == MaxIndex + 1 && |IndexAdjustTable| == 16
    ensures StepSizeTable[MaxIndex] == 32767
  {
  }

  /** clamp(x, xmin, xmax): the point of [lo, hi] nearest to x. */
  function Clamp(x: int, lo: int, hi: int): (r: int)
    requires lo <= hi
    ensures lo <= r <= hi
    ensures r == x || (x < lo && r == lo) || (hi < x && r == hi)
  {
    if x < lo then lo else if x > hi then hi else x
  }

  /**
   * The signed difference a code stands for: step>>3, plus step>>2 for
   * bit 0, step>>1 for bit 1 and step for bit 2, negated when bit 3 is set.
   */
  function Difference(step: nat, code: int): int
    requires 0 <= code < 16
  {
    var d0 := step / 8;
    var d1 := if code % 2 == 1 then d0 + step / 4 else d0;
    var d2 := if code / 2 % 2 == 1 then d1 + step / 2 else d1;
    var d3 := if code / 4 % 2 == 1 then d2 + step else d2;
    if code >= 8 then -d3 else d3
  }

  /** The magnitude (|Difference|) of a code. */
  function Magnitude(step: nat, code: int): int
    requires 0 <= code < 16
  {
    if code >= 8 then -Difference(step, code) else Difference(step, code)
  }

  /** For the magnitude bits alone (codes 0-7) the shifts undershoot (2m+1)*step/8 by at most 17/8. */
  lemma MagnitudeApproximatesStep(step: nat, m: int)
    requires 0 <= m < 8
    ensures 0 <= Difference(step, m)
    ensures 8 * Difference(step, m) <= (2 * m + 1) * step <= 8 * Difference(step, m) + 17
  {
    var q, r := step / 8, step % 8;
    assert step == 8 * q + r;
    assert step / 4 == 2 * q + r / 4;
    assert step / 2 == 4 * q + r / 2;
    if m == 0 {
    } else if m == 1 {
    } else if m == 2 {
    } else if m == 3 {
    } else if m == 4 {
    } else if m == 5 {
    } else if m == 6 {
    } else {
    }
  }

  /** Bit 3 only negates: a code's difference is that of its magnitude bits, negated when bit 3 is set. */
  lemma SignBitOnly(step: nat, code: int)
    requires 0 <= code < 16
    ensures Magnitude(step, code) == Difference(step, code % 8)
    ensures Difference(step, code) == if code >= 8 then -Difference(step, code % 8) else Difference(step, code % 8)
  {
    var m := code % 8;
    assert code % 2 == m % 2 && code / 2 % 2 == m / 2 % 2 && code / 4 % 2 == m / 4 % 2;
  }

  /**
   * The shifts approximate the exact quantizer value (2m+1)*step/8 of the
   * magnitude bits m from below, by at most 17/8: bit 3 is a sign bit
   * and bits 0-2 an unsigned magnitude.
   */
  lemma DifferenceApproximatesStep(step: nat, code: int)
    requires 0 <= code < 16
    ensures code < 8 ==> Difference(step, code) >= 0
    ensures code >= 8 ==> Difference(step, code) <= 0
    ensures Magnitude(step, code) >= 0
    ensures 8 * Magnitude(step, code) <= (2 * (code % 8) + 1) * step <= 8 * Magnitude(step, code) + 17
  {
    MagnitudeApproximatesStep(step, code % 8);
    SignBitOnly(step, code);
  }

  /** A position in the step table. */
  type StepIndex = i: int | 0 <= i <= 88

  /** A 4-bit code: bit 3 is the sign, bits 0-2 the magnitude. */
  type Nibble = c: int | 0 <= c < 16

  /** The decoder state: the step index and the previous (predicted) sample. */
  datatype Codec = Codec(index: StepIndex, prev: int)

  predicate ValidCodec(c: Codec)
  {
    -0x8000 <= c.prev < 0x8000
  }

  /** The state of a freshly constructed (or re-initialised) decoder. */
  const Initial: Codec := Codec(0, 0)

  /**
   * _decode_sample: the step is taken at the old index, the index moves by
   * the adjust table, and the new sample, clamped to 16 bits, becomes prev.
   */
  function DecodeNibble(c: Codec, code: Nibble): (r: (Codec, int))
    ensures ValidCodec(r.0)
    ensures r.1 == r.0.prev
  {
    var step := StepSizeTable[c.index];
    var index := Clamp(c.index + IndexAdjustTable[code], 0, MaxIndex);
    var sample := Clamp(c.prev + Difference(step, code), -0x8000, 0x7FFF);
    (Codec(index, sample), sample)
  }

  /** The adjust table in closed form, one code at a time. */
  lemma AdjustClosedForm(code: Nibble)
    ensures IndexAdjustTable[code] == if code % 8 < 4 then -1 else 2 * (code % 8 - 3)
  {
    if code == 0 {
    } else if code == 1 {
    } else if code == 2 {
    } else if code == 3 {
    } else if code == 4 {
    } else if code == 5 {
    } else if code == 6 {
    } else if code == 7 {
    } else if code == 8 {
    } else if code == 9 {
    } else if code == 10 {
    } else if code == 11 {
    } else if code == 12 {
    } else if code == 13 {
    } else if code == 14 {
    } else {
    }
  }

  /** The adjust table in closed form: down one for magnitudes 0-3, up 2(m-3) for 4-7, within [0, 88]. */
  lemma NibbleIndexStep(c: Codec, code: Nibble)
    ensures code % 8 < 4 ==> DecodeNibble(c, code).0.index == if c.index == 0 then 0 else c.index - 1
    ensures code % 8 >= 4 ==>
      DecodeNibble(c, code).0.index == if c.index + 2 * (code % 8 - 3) > MaxIndex then MaxIndex else c.index + 2 * (code % 8 - 3)
  {
    AdjustClosedForm(code);
  }

  /**
   * The new sample moves away from prev in the direction of the sign bit,
   * by at most the quantizer value of the step at the OLD index, and by
   * the full difference unless that would leave the 16-bit range.
   */
  lemma NibbleSampleStep(c: Codec, code: Nibble)
    requires ValidCodec(c)
    ensures var s := DecodeNibble(c, code).1;
            var step := StepSizeTable[c.index];
            && (code < 8 ==> s >= c.prev)
            && (code >= 8 ==> s <= c.prev)
            && 8 * (if s >= c.prev then s - c.prev else c.prev - s) <= (2 * (code % 8) + 1) * step
            && (-0x8000 <= c.prev + Difference(step, code) < 0x8000 ==> s - c.prev == Difference(step, code))
  {
    DifferenceApproximatesStep(StepSizeTable[c.index], code);
  }

  /** One byte: its low nibble decoded first, then its high nibble from the state that leaves. */
  function DecodeByte(c: Codec, b: byte): (r: (Codec, seq<int>))
    ensures ValidCodec(r.0) && |r.1| == 2 && AllI16(r.1)
  {
    var lo := DecodeNibble(c, b % 16);
    var hi := DecodeNibble(lo.0, b / 16);
    (hi.0, [lo.1, hi.1])
  }

  /** A left-to-right pass that threads a state through a per-byte step and concatenates the outputs. */
  function Scan(step: (Codec, byte) -> (Codec, seq<int>), c: Codec, data: seq<byte>): (r: (Codec, seq<int>))
    decreases |data|
  {
    if data == [] then (c, [])
    else
      var head := step(c, data[0]);
      var rest := Scan(step, head.0, data[1..]);
      (rest.0, head.1 + rest.1)
  }

  lemma {:induction false} ScanAppend(step: (Codec, byte) -> (Codec, seq<int>), c: Codec, a: seq<byte>, b: seq<byte>)
    ensures Scan(step, c, a + b).0 == Scan(step, Scan(step, c, a).0, b).0
    ensures Scan(step, c, a + b).1 == Scan(step, c, a).1 + Scan(step, Scan(step, c, a).0, b).1
    decreases |a|
  {
    if a == [] {
      assert a + b == b;
    } else {
      assert (a + b)[0] == a[0] && (a + b)[1..] == a[1..] + b;
      ScanAppend(step, step(c, a[0]).0, a[1..], b);
    }
  }

  lemma ScanSingle(step: (Codec, byte) -> (Codec, seq<int>), c: Codec, x: byte)
    ensures Scan(step, c, [x]) == step(c, x)
  {
    assert [x][1..] == [];
    assert step(c, x).1 + [] == step(c, x).1;
  }

  /** Two 16-bit samples per byte, and once anything is decoded the state is a valid one. */
  lemma {:induction false} ScanDecodeShape(c: Codec, data: seq<byte>)
    ensures |Scan(DecodeByte, c, data).1| == 2 * |data|
    ensures AllI16(Scan(DecodeByte, c, data).1)
    ensures data == [] ==> Scan(DecodeByte, c, data).0 == c
    ensures data != [] ==> ValidCodec(Scan(DecodeByte, c, data).0)
    decreases |data|
  {
    if data != [] {
      var head := DecodeByte(c, data[0]);
      ScanDecodeShape(head.0, data[1..]);
      var rest := Scan(DecodeByte, head.0, data[1..]);
      assert Scan(DecodeByte, c, data).1 == head.1 + rest.1;
      assert forall k :: 0 <= k < 2 + |rest.1| ==> (head.1 + rest.1)[k] == if k < 2 then head.1[k] else rest.1[k - 2];
    }
  }

  /**
   * decode: each byte yields two samples, its low nibble first and then
   * its high nibble, with the state carried from one nibble to the next.
   */
  function DecodeBytes(c: Codec, data: seq<byte>): (r: (Codec, seq<int>))
    ensures |r.1| == 2 * |data| && AllI16(r.1)
    ensures data == [] ==> r.0 == c
    ensures data != [] ==> ValidCodec(r.0)
  {
    ScanDecodeShape(c, data);
    Scan(DecodeByte, c, data)
  }

  /** Decoding a concatenation is decoding the second part from the state the first part leaves. */
  lemma DecodeAppend(c: Codec, a: seq<byte>, b: seq<byte>)
    ensures DecodeBytes(c, a + b).0 == DecodeBytes(DecodeBytes(c, a).0, b).0
    ensures DecodeBytes(c, a + b).1 == DecodeBytes(c, a).1 + DecodeBytes(DecodeBytes(c, a).0, b).1
  {
    ScanAppend(DecodeByte, c, a, b);
  }

  /**
   * Output 2i is the low nibble of byte i and output 2i+1 its high nibble,
   * each decoded from the state left by everything before it.
   */
  lemma DecodeAt(c: Codec, data: seq<byte>, i: nat)
    requires i < |data|
    ensures var before := DecodeBytes(c, data[..i]).0;
            var lo := DecodeNibble(before, data[i] % 16);
            var hi := DecodeNibble(lo.0, data[i] / 16);
            && DecodeBytes(c, data).1[2 * i] == lo.1
            && DecodeBytes(c, data).1[2 * i + 1] == hi.1
  {
    assert data == data[..i] + data[i..];
    DecodeAppend(c, data[..i], data[i..]);
    var before := DecodeBytes(c, data[..i]).0;
    assert DecodeBytes(before, data[i..]).1 == DecodeByte(before, data[i]).1 + DecodeBytes(DecodeByte(before, data[i]).0, data[i + 1..]).1;
  }

  /** The decoder object: index and prev, updated by every decoded nibble. */
  class ImaAdpcmDecoder {
    var index: StepIndex
    var prev: int

    ghost predicate Valid()
      reads this
    {
      ValidCodec(State())
    }

    function State(): Codec
      reads this
    {
      Codec(index, prev)
    }

    constructor ()
      ensures State() == Initial && Valid()
    {
      index, prev := 0, 0;
    }

    /** Re-running __init__ on the same object: back to the initial state. */
    method Reset()
      modifies this
      ensures State() == Initial && Valid()
    {
      index, prev := 0, 0;
    }

    method DecodeSample(code: Nibble) returns (sample: int)
      requires Valid()
      modifies this
      ensures Valid()
      ensures (State(), sample) == DecodeNibble(old(State()), code)
    {
      var step := StepSizeTable[index];
      index := Clamp(index + IndexAdjustTable[code], 0, MaxIndex);
      var difference: int := step / 8;
      if code % 2 == 1 {
        difference := difference + step / 4;
      }
      if code / 2 % 2 == 1 {
        difference := difference + step / 2;
      }
      if code / 4 % 2 == 1 {
        difference := difference + step;
      }
      if code >= 8 {
        difference := -difference;
      }
      assert difference == Difference(step, code);
      sample := Clamp(prev + difference, -0x8000, 0x7FFF);
      prev := sample;
    }

    method Decode(data: seq<byte>) returns (samples: seq<int>)
      requires Valid()
      modifies this
      ensures Valid()
      ensures (State(), samples) == DecodeBytes(old(State()), data)
    {
      ghost var c0 := State();
      samples := [];
      var i := 0;
      while i < |data|
        invariant 0 <= i <= |data|
        invariant Valid()
        invariant (State(), samples) == DecodeBytes(c0, data[..i])
      {
        ghost var before := State();
        var sample0 := DecodeSample(data[i] % 16);
        var sample1 := DecodeSample(data[i] / 16);
        samples := samples + [sample0, sample1];
        DecodeAppend(c0, data[..i], [data[i]]);
        assert data[..i + 1] == data[..i] + [data[i]];
        ScanSingle(DecodeByte, before, data[i]);
        i := i + 1;
      }
      assert data[..i] == data;
    }
  }
}
