/**
 * The recorder's WAV output as bytes: the canonical RIFF/WAVE PCM header,
 * the per-block appends (with the optional `kiwi` GPS chunk), and the
 * header rewritten over the front of the file after every append.
 */
module Wav {
  import opened Bytes
  import opened Wrappers
  import opened Protocol

  const RiffTag: seq<byte> := [0x52, 0x49, 0x46, 0x46]   // "RIFF"
  const WaveTag: seq<byte> := [0x57, 0x41, 0x56, 0x45]   // "WAVE"
  const FmtTag: seq<byte> := [0x66, 0x6D, 0x74, 0x20]    // "fmt "
  const DataTag: seq<byte> := [0x64, 0x61, 0x74, 0x61]   // "data"
  const KiwiTag: seq<byte> := [0x6B, 0x69, 0x77, 0x69]   // "kiwi"

  /** The file size written into the header of a freshly created file. */
  const PlaceholderSize: int := 100

  function HeaderSize(kiwiWav: bool): nat
  {
    if kiwiWav then 36 else 44
  }

  /**
   * _write_wav_header: RIFF size filesize-8, a 16-byte PCM fmt chunk of
   * 16-bit samples, and (unless kiwi-wav) a data sub-header of size
   * filesize-44. Fields the source packs with `struct` are reduced to
   * their width here.
   */
  function WavHeader(filesize: int, sampleRate: int, channels: int, kiwiWav: bool): (h: seq<byte>)
    ensures |h| == HeaderSize(kiwiWav)
  {
    RiffChunkHeader(filesize) + FmtChunk(sampleRate, channels, sampleRate * channels * 2, channels * 2)
    + (if kiwiWav then [] else DataHeader(filesize - 44))
  }

  /** "RIFF", the RIFF size filesize-8, "WAVE". */
  function RiffChunkHeader(filesize: int): (b: seq<byte>)
    ensures |b| == 12
  {
    RiffTag + PackU32LE(Wrap32(filesize - 8)) + WaveTag
  }

  /** The 24-byte fmt chunk: size 16, PCM, channels, rate, byte rate, block align, 16 bits. */
  function FmtChunk(sampleRate: int, channels: int, byteRate: int, blockAlign: int): (b: seq<byte>)
    ensures |b| == 24
  {
    FmtTag + PackU32LE(16) + PackU16LE(1) + PackU16LE(Wrap16(channels))
    + PackU32LE(Wrap32(sampleRate)) + PackU32LE(Wrap32(byteRate))
    + PackU16LE(Wrap16(blockAlign)) + PackU16LE(16)
  }

  /** A `data` sub-header announcing size bytes. */
  function DataHeader(size: int): (b: seq<byte>)
    ensures |b| == 8
  {
    DataTag + PackU32LE(Wrap32(size))
  }

  /** The fields of a canonical header as a reader of the file sees them. */
  datatype HeaderFields = HeaderFields(
    riffSize: u32, fmtSize: u32, format: u16, channels: u16, sampleRate: u32,
    byteRate: u32, blockAlign: u16, bitsPerSample: u16, dataSize: Option<u32>)

  /** Reads back a header: the four tags must be in place; `data` is optional. */
  function ParseWavHeader(h: seq<byte>): Option<HeaderFields>
  {
    if |h| < 36 || h[0..4] != RiffTag || h[8..12] != WaveTag || h[12..16] != FmtTag then None
    else
      var dataSize := if |h| >= 44 && h[36..40] == DataTag then Some(U32LE(h[40..44])) else None;
      Some(HeaderFields(U32LE(h[4..8]), U32LE(h[16..20]), U16LE(h[20..22]), U16LE(h[22..24]),
                        U32LE(h[24..28]), U32LE(h[28..32]), U16LE(h[32..34]), U16LE(h[34..36]), dataSize))
  }

  /**
   * The header reads back as RIFF size filesize-8, fmt size 16, format 1,
   * the channel count, the sample rate, byte rate sr·ch·2, block align
   * ch·2, 16 bits per sample and, unless kiwi-wav, data size filesize-44.
   */
  lemma ParseWavHeaderOf(filesize: int, sampleRate: int, channels: int, kiwiWav: bool)
    requires 44 <= filesize < 0x1_0000_0000
    requires 0 <= sampleRate && 1 <= channels && sampleRate * channels * 2 < 0x1_0000_0000 && channels * 2 < 0x1_0000
    ensures ParseWavHeader(WavHeader(filesize, sampleRate, channels, kiwiWav)) ==
      Some(HeaderFields(filesize - 8, 16, 1, channels, sampleRate, sampleRate * channels * 2, channels * 2, 16,
                        if kiwiWav then None else Some(filesize - 44)))
  {
    ParseChunks(filesize, sampleRate, channels, sampleRate * channels * 2, channels * 2, kiwiWav);
  }

  /** The same with the derived fields as plain values. */
  lemma ParseChunks(filesize: int, sampleRate: u32, channels: u16, byteRate: u32, blockAlign: u16, kiwiWav: bool)
    requires 44 <= filesize < 0x1_0000_0000
    ensures ParseWavHeader(RiffChunkHeader(filesize) + FmtChunk(sampleRate, channels, byteRate, blockAlign)
                           + (if kiwiWav then [] else DataHeader(filesize - 44))) ==
      Some(HeaderFields(filesize - 8, 16, 1, channels, sampleRate, byteRate, blockAlign, 16,
                        if kiwiWav then None else Some(filesize - 44)))
  {
    var prefix := RiffChunkHeader(filesize) + FmtChunk(sampleRate, channels, byteRate, blockAlign);
    PrefixFields(filesize, sampleRate, channels, byteRate, blockAlign);
    var fields := HeaderFields(filesize - 8, 16, 1, channels, sampleRate, byteRate, blockAlign, 16, None);
    assert ParseWavHeader(prefix) == Some(fields);
    if !kiwiWav {
      ParseWithData(prefix, filesize - 44);
    } else {
      assert prefix + [] == prefix;
    }
  }

  /** A `data` sub-header after the prefix is read as the data size. */
  lemma ParseWithData(prefix: seq<byte>, size: u32)
    requires |prefix| == 36 && ParseWavHeader(prefix).Some?
    ensures ParseWavHeader(prefix + DataHeader(size)) == Some(ParseWavHeader(prefix).value.(dataSize := Some(size)))
  {
    var d := DataHeader(size);
    var h := prefix + d;
    assert Wrap32(size) == size;
    assert d[0..4] == DataTag && d[4..8] == PackU32LE(size);
    ParseExtended(prefix, d);
    assert h[36..40] == d[0..4] && h[40..44] == d[4..8];
    U32LEOfPack(size);
  }

  /** Bytes after the 36-byte prefix only affect the data size. */
  lemma ParseExtended(prefix: seq<byte>, tail: seq<byte>)
    requires |prefix| == 36 && ParseWavHeader(prefix).Some?
    ensures ParseWavHeader(prefix + tail).Some?
    ensures ParseWavHeader(prefix + tail).value.(dataSize := None) == ParseWavHeader(prefix).value
  {
    var h := prefix + tail;
    assert h[..36] == prefix;
    assert h[0..4] == prefix[0..4] && h[4..8] == prefix[4..8] && h[8..12] == prefix[8..12];
    assert h[12..16] == prefix[12..16] && h[16..20] == prefix[16..20] && h[20..22] == prefix[20..22];
    assert h[22..24] == prefix[22..24] && h[24..28] == prefix[24..28] && h[28..32] == prefix[28..32];
    assert h[32..34] == prefix[32..34] && h[34..36] == prefix[34..36];
  }

  /** The 36 bytes both header kinds share, field by field. */
  lemma PrefixFields(filesize: int, sampleRate: u32, channels: u16, byteRate: u32, blockAlign: u16)
    requires 8 <= filesize < 0x1_0000_0008
    ensures var h := RiffChunkHeader(filesize) + FmtChunk(sampleRate, channels, byteRate, blockAlign);
            && h[0..4] == RiffTag && U32LE(h[4..8]) == filesize - 8 && h[8..12] == WaveTag
            && h[12..16] == FmtTag && U32LE(h[16..20]) == 16 && U16LE(h[20..22]) == 1
            && U16LE(h[22..24]) == channels && U32LE(h[24..28]) == sampleRate
            && U32LE(h[28..32]) == byteRate && U16LE(h[32..34]) == blockAlign && U16LE(h[34..36]) == 16
  {
    var riff := RiffChunkHeader(filesize);
    var fmt := FmtChunk(sampleRate, channels, byteRate, blockAlign);
    var h := riff + fmt;
    RiffChunkFields(filesize);
    FmtChunkFields(sampleRate, channels, byteRate, blockAlign);
    assert h[0..4] == riff[0..4] && h[4..8] == riff[4..8] && h[8..12] == riff[8..12];
    assert h[12..16] == fmt[0..4] && h[16..20] == fmt[4..8] && h[20..22] == fmt[8..10];
    assert h[22..24] == fmt[10..12] && h[24..28] == fmt[12..16] && h[28..32] == fmt[16..20];
    assert h[32..34] == fmt[20..22] && h[34..36] == fmt[22..24];
  }

  lemma RiffChunkFields(filesize: int)
    requires 8 <= filesize < 0x1_0000_0008
    ensures var b := RiffChunkHeader(filesize);
            b[0..4] == RiffTag && U32LE(b[4..8]) == filesize - 8 && b[8..12] == WaveTag
  {
    var b := RiffChunkHeader(filesize);
    assert Wrap32(filesize - 8) == filesize - 8;
    assert b[4..8] == PackU32LE(filesize - 8);
    U32LEOfPack(filesize - 8);
  }

  lemma FmtChunkFields(sampleRate: u32, channels: u16, byteRate: u32, blockAlign: u16)
    ensures var b := FmtChunk(sampleRate, channels, byteRate, blockAlign);
            && b[0..4] == FmtTag && U32LE(b[4..8]) == 16 && U16LE(b[8..10]) == 1
            && U16LE(b[10..12]) == channels && U32LE(b[12..16]) == sampleRate
            && U32LE(b[16..20]) == byteRate && U16LE(b[20..22]) == blockAlign && U16LE(b[22..24]) == 16
  {
    FmtChunkLayout(sampleRate, channels, byteRate, blockAlign);
    assert Wrap16(channels) == channels && Wrap16(blockAlign) == blockAlign;
    assert Wrap32(sampleRate) == sampleRate && Wrap32(byteRate) == byteRate;
    U32LEOfPack(16);
    U16LEOfPack(1);
    U16LEOfPack(channels);
    U32LEOfPack(sampleRate);
    U32LEOfPack(byteRate);
    U16LEOfPack(blockAlign);
    U16LEOfPack(16);
  }

  /** Where each packed field of the fmt chunk sits. */
  lemma FmtChunkLayout(sampleRate: int, channels: int, byteRate: int, blockAlign: int)
    ensures var b := FmtChunk(sampleRate, channels, byteRate, blockAlign);
            && b[0..4] == FmtTag && b[4..8] == PackU32LE(16) && b[8..10] == PackU16LE(1)
            && b[10..12] == PackU16LE(Wrap16(channels)) && b[12..16] == PackU32LE(Wrap32(sampleRate))
            && b[16..20] == PackU32LE(Wrap32(byteRate)) && b[20..22] == PackU16LE(Wrap16(blockAlign))
            && b[22..24] == PackU16LE(16)
  {
    var b := FmtChunk(sampleRate, channels, byteRate, blockAlign);
    assert b[22..24] == b[22..];
  }

  /** The 18-byte `kiwi` chunk: size 10, the GPS solution, a zero byte and the GPS time. */
  function KiwiChunk(g: Gps): (b: seq<byte>)
    ensures |b| == 18
  {
    KiwiTag + PackU32LE(10) + [g.solution, 0] + PackU32LE(g.gpssec) + PackU32LE(g.gpsnsec)
  }

  /** One block as _write_samples appends it: in kiwi-wav mode a `kiwi` chunk and a `data` sub-header first. */
  function Block(samples: seq<int>, gps: Gps, kiwiWav: bool): (b: seq<byte>)
    requires AllI16(samples)
    ensures |b| == (if kiwiWav then 26 else 0) + 2 * |samples|
    ensures kiwiWav ==> b[..18] == KiwiChunk(gps) && b[18..22] == DataTag
                        && U32LE(b[22..26]) == Wrap32(2 * |samples|) && b[26..] == SamplesLE(samples)
    ensures !kiwiWav ==> b == SamplesLE(samples)
  {
    var b := (if kiwiWav then KiwiChunk(gps) + DataTag + PackU32LE(Wrap32(2 * |samples|)) else [])
             + SamplesLE(samples);
    U32LEOfPack(Wrap32(2 * |samples|));
    assert kiwiWav ==> b[22..26] == PackU32LE(Wrap32(2 * |samples|));
    b
  }

  /**
   * _update_wav_header: the header for the current length written over the
   * start of the file. A file shorter than the header grows to its size.
   */
  function UpdateHeader(file: seq<byte>, sampleRate: int, channels: int, kiwiWav: bool): (r: seq<byte>)
    ensures |r| == if |file| >= HeaderSize(kiwiWav) then |file| else HeaderSize(kiwiWav)
    ensures r[..HeaderSize(kiwiWav)] == WavHeader(|file|, sampleRate, channels, kiwiWav)
    ensures |file| >= HeaderSize(kiwiWav) ==> r[HeaderSize(kiwiWav)..] == file[HeaderSize(kiwiWav)..]
  {
    var h := WavHeader(|file|, sampleRate, channels, kiwiWav);
    h + (if |file| >= |h| then file[|h|..] else [])
  }

  /** A new file: the header with the placeholder size. */
  function NewFile(sampleRate: int, channels: int, kiwiWav: bool): (f: seq<byte>)
    ensures |f| == HeaderSize(kiwiWav)
  {
    WavHeader(PlaceholderSize, sampleRate, channels, kiwiWav)
  }

  /** One _write_samples that needs no new file: append the block, then rewrite the header. */
  function AppendBlock(file: seq<byte>, samples: seq<int>, gps: Gps, sampleRate: int, channels: int, kiwiWav: bool): seq<byte>
    requires AllI16(samples)
  {
    UpdateHeader(file + Block(samples, gps, kiwiWav), sampleRate, channels, kiwiWav)
  }

  predicate AllBlocksI16(blocks: seq<seq<int>>)
  {
    forall k :: 0 <= k < |blocks| ==> AllI16(blocks[k])
  }

  /** The samples of several blocks in order. */
  function Concat(blocks: seq<seq<int>>): seq<int>
  {
    if blocks == [] then [] else Concat(blocks[..|blocks| - 1]) + blocks[|blocks| - 1]
  }

  lemma {:induction false} ConcatI16(blocks: seq<seq<int>>)
    requires AllBlocksI16(blocks)
    ensures AllI16(Concat(blocks))
  {
    if blocks != [] {
      ConcatI16(blocks[..|blocks| - 1]);
      SamplesLEAppend(Concat(blocks[..|blocks| - 1]), blocks[|blocks| - 1]);
    }
  }

  /** A plain-mode file after creating it and appending the blocks in order. */
  function PlainFile(blocks: seq<seq<int>>, sampleRate: int, channels: int): seq<byte>
    requires AllBlocksI16(blocks)
  {
    if blocks == [] then NewFile(sampleRate, channels, false)
    else AppendBlock(PlainFile(blocks[..|blocks| - 1], sampleRate, channels), blocks[|blocks| - 1], NoGps, sampleRate, channels, false)
  }

  /**
   * After any non-empty run of plain-mode appends the file is the 44-byte
   * header for its length followed by every sample appended since it was
   * created, little-endian.
   */
  lemma {:induction false} PlainFileContents(blocks: seq<seq<int>>, sampleRate: int, channels: int)
    requires AllBlocksI16(blocks) && |blocks| >= 1
    ensures AllI16(Concat(blocks))
    ensures var f := PlainFile(blocks, sampleRate, channels);
            && |f| == 44 + 2 * |Concat(blocks)|
            && f[..44] == WavHeader(|f|, sampleRate, channels, false)
            && f[44..] == SamplesLE(Concat(blocks))
  {
    ConcatI16(blocks);
    var init := blocks[..|blocks| - 1];
    var last := blocks[|blocks| - 1];
    ConcatI16(init);
    SamplesLEAppend(Concat(init), last);
    assert Concat(blocks) == Concat(init) + last;
    var f0 := PlainFile(init, sampleRate, channels);
    if |init| >= 1 {
      PlainFileContents(init, sampleRate, channels);
    } else {
      assert Concat(init) == [];
    }
    PlainAppendShape(f0, last, sampleRate, channels);
  }

  /** One plain-mode append keeps the payload after the header and adds the block's bytes. */
  lemma PlainAppendShape(f0: seq<byte>, last: seq<int>, sampleRate: int, channels: int)
    requires AllI16(last) && |f0| >= 44
    ensures var f := AppendBlock(f0, last, NoGps, sampleRate, channels, false);
            && |f| == |f0| + 2 * |last|
            && f[..44] == WavHeader(|f|, sampleRate, channels, false)
            && f[44..] == f0[44..] + SamplesLE(last)
  {
    var g := f0 + Block(last, NoGps, false);
    assert g[44..] == f0[44..] + SamplesLE(last);
  }

  /**
   * So the header's data size is exactly the byte count of the samples and
   * its RIFF size is 8 less than the file, for files under 4 GiB.
   */
  lemma PlainFileHeader(blocks: seq<seq<int>>, sampleRate: int, channels: int)
    requires AllBlocksI16(blocks) && |blocks| >= 1
    requires 44 + 2 * |Concat(blocks)| < 0x1_0000_0000
    requires 0 <= sampleRate && 1 <= channels && sampleRate * channels * 2 < 0x1_0000_0000 && channels * 2 < 0x1_0000
    ensures var f := PlainFile(blocks, sampleRate, channels);
            var fields := ParseWavHeader(f[..44]);
            && fields.Some?
            && fields.value.dataSize == Some(2 * |Concat(blocks)|) && fields.value.dataSize == Some(|f| - 44)
            && fields.value.riffSize == |f| - 8
  {
    PlainFileContents(blocks, sampleRate, channels);
    ParseWavHeaderOf(44 + 2 * |Concat(blocks)|, sampleRate, channels, false);
  }

  /** Rewriting the header again changes nothing: the length and the payload stay, and the header is already current. */
  lemma UpdateHeaderIdempotent(file: seq<byte>, sampleRate: int, channels: int, kiwiWav: bool)
    requires |file| >= HeaderSize(kiwiWav)
    ensures var once := UpdateHeader(file, sampleRate, channels, kiwiWav);
            UpdateHeader(once, sampleRate, channels, kiwiWav) == once
  {
    var once := UpdateHeader(file, sampleRate, channels, kiwiWav);
    var n := HeaderSize(kiwiWav);
    assert once == once[..n] + once[n..];
  }
}
