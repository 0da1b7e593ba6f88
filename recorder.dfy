/**
 * The recorders built on the stream: the sound recorder, which squelches
 * audio blocks and writes them to WAV files that rotate with time, and the
 * waterfall recorder, which scans each waterfall row for its extremes.
 * The clock is a parameter: each write gets the current time as a
 * `Timestamp`, and the files live in a map from name to contents.
 */
module Recorder {
  import opened Wrappers
  import opened Bytes
  import opened Text
  import opened Adpcm
  import opened Protocol
  import opened Wav
  import opened SquelchLogic
  import opened RecorderOptions

  /** A UTC time as the recorder uses it: seconds since midnight and its `%Y%m%dT%H%M%SZ` text. */
  datatype Timestamp = Timestamp(secOfDay: int, text: string)

  /** Python's `//`: rounds toward negative infinity. */
  function FloorDiv(a: int, b: int): (q: int)
    requires b != 0
  {
    if b > 0 then a / b else (-a) / (-b)
  }

  /** FloorDiv is the floor of the quotient for either sign of the divisor. */
  lemma FloorDivIsFloor(a: int, b: int)
    requires b != 0
    ensures b > 0 ==> b * FloorDiv(a, b) <= a < b * FloorDiv(a, b) + b
    ensures b < 0 ==> b * FloorDiv(a, b) + b < a <= b * FloorDiv(a, b)
  {
    if b < 0 {
      var q := (-a) / (-b);
      assert (-b) * q <= -a < (-b) * q + (-b);
    }
  }

  lemma {:induction false} MulMonotone(d: nat, x: int, y: int)
    requires x <= y
    ensures d * x <= d * y
    decreases y - x
  {
    if x < y {
      MulMonotone(d, x + 1, y);
      assert d * (x + 1) == d * x + d;
    }
  }

  lemma DivOfBounds(a: int, d: int, k: int)
    requires d > 0 && k * d <= a < k * d + d
    ensures a / d == k
  {
    var q := a / d;
    assert a == d * q + a % d && 0 <= a % d < d;
    if q < k {
      MulMonotone(d, q + 1, k);
    } else if q > k {
      MulMonotone(d, k + 1, q);
    }
  }

  /**
   * Whether _write_samples starts a new file, with the interval comparison
   * in floor division: no file yet, or a generated name and second-of-day
   * now in a different `dt`-second interval than the file's start.
   */
  predicate NeedsNewFile(startTs: Option<Timestamp>, filename: string, dt: int, now: Timestamp)
  {
    startTs.None? ||
    (filename == "" && dt != 0 && FloorDiv(now.secOfDay, dt) != FloorDiv(startTs.value.secOfDay, dt))
  }

  /** The same test as written: Python 3's `/` is true division. */
  predicate NeedsNewFileAsWritten(startTs: Option<Timestamp>, filename: string, dt: int, now: Timestamp)
  {
    startTs.None? ||
    (filename == "" && dt != 0 && (now.secOfDay as real) / (dt as real) != (startTs.value.secOfDay as real) / (dt as real))
  }

  /** As written, any change of second rotates the file, whatever `dt` is. */
  lemma RotationAsWrittenEverySecond(start: Timestamp, now: Timestamp, dt: int)
    requires dt != 0
    ensures NeedsNewFileAsWritten(Some(start), "", dt, now) <==> now.secOfDay != start.secOfDay
  {
    var a := now.secOfDay as real;
    var b := start.secOfDay as real;
    var d := dt as real;
    if a / d == b / d {
      assert a == (a / d) * d && b == (b / d) * d;
    }
  }

  /** With dt = 60, one second after a file started at midnight it rotates as written but not as intended. */
  lemma RotationAsWrittenDiffers()
    ensures NeedsNewFileAsWritten(Some(Timestamp(0, "")), "", 60, Timestamp(1, ""))
    ensures !NeedsNewFile(Some(Timestamp(0, "")), "", 60, Timestamp(1, ""))
  {
  }

  /** As intended, a file started in interval k of length dt rotates exactly when now leaves that interval. */
  lemma RotationByInterval(start: Timestamp, now: Timestamp, dt: int, k: int)
    requires dt > 0 && k * dt <= start.secOfDay < k * dt + dt
    ensures NeedsNewFile(Some(start), "", dt, now) <==> !(k * dt <= now.secOfDay < k * dt + dt)
  {
    DivOfBounds(start.secOfDay, dt, k);
    if k * dt <= now.secOfDay < k * dt + dt {
      DivOfBounds(now.secOfDay, dt, k);
    } else {
      FloorDivIsFloor(now.secOfDay, dt);
    }
  }

  /** A fixed file name, or dt = 0, never rotates once a file exists. */
  lemma NoRotationWithoutInterval(start: Timestamp, now: Timestamp, filename: string, dt: int)
    requires filename != "" || dt == 0
    ensures !NeedsNewFile(Some(start), filename, dt, now)
    ensures !NeedsNewFileAsWritten(Some(start), filename, dt, now)
  {
  }

  function StationSuffix(station: Option<string>): string
  {
    if station.None? then "" else "_" + station.value
  }

  /**
   * _get_output_filename: the fixed name, or the start time, frequency in
   * Hz and modulation; then the station suffix, ".wav" and the directory.
   */
  function OutputFilename(o: Options, start: Timestamp): string
    requires Single(o)
  {
    var station := StationSuffix(o.station.value);
    var base := if o.filename.value != "" then o.filename.value + station + ".wav"
                else start.text + ("_" + IntToDecimal(o.frequency.value) + station + "_" + o.modulation + ".wav");
    if o.dir.None? then base else o.dir.value + "/" + base
  }

  /** With a fixed name the file name does not depend on the time, and it is that name with the suffixes. */
  lemma FixedFilename(o: Options, t1: Timestamp, t2: Timestamp)
    requires Single(o) && o.filename.value != "" && o.dir.None?
    ensures OutputFilename(o, t1) == OutputFilename(o, t2)
    ensures OutputFilename(o, t1)[..|o.filename.value|] == o.filename.value
    ensures OutputFilename(o, t1)[|OutputFilename(o, t1)| - 4..] == ".wav"
  {
  }

  /** The middle of a three-part concatenation, cut off by the lengths of the outer parts. */
  lemma MiddleOfConcat(pre: string, mid: string, rest: string)
    ensures var a := pre + mid + rest; a[|pre|..|a| - |rest|] == mid
  {
  }

  /** Generated names differ when the start texts do: each rotation gets its own file. */
  lemma GeneratedFilenamesDistinct(o: Options, t1: Timestamp, t2: Timestamp)
    requires Single(o) && o.filename.value == ""
    requires t1.text != t2.text
    ensures OutputFilename(o, t1) != OutputFilename(o, t2)
  {
    var pre, rest := GeneratedParts(o, t1);
    var _, _ := GeneratedParts(o, t2);
    MiddleOfConcat(pre, t1.text, rest);
    MiddleOfConcat(pre, t2.text, rest);
  }

  /** A generated name is a prefix and a suffix that depend only on the options, around the timestamp. */
  lemma GeneratedParts(o: Options, t: Timestamp) returns (pre: string, rest: string)
    requires Single(o) && o.filename.value == ""
    ensures OutputFilename(o, t) == pre + t.text + rest
    ensures pre == if o.dir.None? then "" else o.dir.value + "/"
    ensures rest == "_" + IntToDecimal(o.frequency.value) + StationSuffix(o.station.value) + "_" + o.modulation + ".wav"
  {
    pre := if o.dir.None? then "" else o.dir.value + "/";
    rest := "_" + IntToDecimal(o.frequency.value) + StationSuffix(o.station.value) + "_" + o.modulation + ".wav";
    if o.dir.None? {
      assert "" + t.text + rest == t.text + rest;
    }
  }


  /** The IQ samples flattened as (re, im) pairs in order. */
  function Interleave(iq: seq<Complex>): (r: seq<int>)
    ensures |r| == 2 * |iq|
    ensures ComplexI16(iq) ==> AllI16(r)
  {
    if iq == [] then [] else Interleave(iq[..|iq| - 1]) + [iq[|iq| - 1].re, iq[|iq| - 1].im]
  }

  lemma {:induction false} InterleaveAt(iq: seq<Complex>, k: nat)
    requires k < |iq|
    ensures Interleave(iq)[2 * k] == iq[k].re && Interleave(iq)[2 * k + 1] == iq[k].im
  {
    if k < |iq| - 1 {
      InterleaveAt(iq[..|iq| - 1], k);
    }
  }

  /** Pairing a flat sequence back up. */
  function Deinterleave(s: seq<int>): (r: seq<Complex>)
    requires |s| % 2 == 0
    ensures |r| == |s| / 2
  {
    seq(|s| / 2, k requires 0 <= k < |s| / 2 => Complex(s[2 * k], s[2 * k + 1]))
  }

  /** Flattening loses nothing: pairing the result up again gives the IQ samples back. */
  lemma DeinterleaveOfInterleave(iq: seq<Complex>)
    ensures Deinterleave(Interleave(iq)) == iq
  {
    forall k | 0 <= k < |iq|
      ensures Deinterleave(Interleave(iq))[k] == iq[k]
    {
      InterleaveAt(iq, k);
    }
  }

  /** The recorder state one write touches, and the exception it raised. */
  datatype Written = Written(startTs: Option<Timestamp>, disk: map<string, seq<byte>>, error: Option<Raised>)

  function FileOr(disk: map<string, seq<byte>>, name: string): seq<byte>
  {
    if name in disk then disk[name] else []
  }

  /**
   * _write_samples and _update_wav_header. A new file (opened 'wb') gets a
   * placeholder header, and `int(None)` raises before anything is written
   * when no sample rate is known yet. The block is then appended ('ab'
   * creates the file); in kiwi-wav mode a missing GPS record raises
   * KeyError before anything is appended. Finally the header is rewritten
   * for the new length, which again needs the sample rate.
   */
  function WriteStep(o: Options, channels: int, rate: Option<int>, startTs: Option<Timestamp>,
                     disk: map<string, seq<byte>>, samples: seq<int>, gps: Option<Gps>, now: Timestamp): Written
    requires Single(o) && AllI16(samples)
  {
    var rotate := NeedsNewFile(startTs, o.filename.value, o.dt, now);
    var start := if rotate then now else startTs.value;
    var name := OutputFilename(o, start);
    if rotate && rate.None? then Written(Some(start), disk[name := []], Some(TypeError))
    else
      var disk1 := if rotate then disk[name := NewFile(rate.value, channels, o.kiwiWav)] else disk;
      var current := FileOr(disk1, name);
      if o.kiwiWav && gps.None? then Written(Some(start), disk1[name := current], Some(KeyError))
      else
        var disk2 := disk1[name := current + Block(samples, if gps.Some? then gps.value else NoGps, o.kiwiWav)];
        if rate.None? then Written(Some(start), disk2, Some(TypeError))
        else Written(Some(start), disk2[name := UpdateHeader(disk2[name], rate.value, channels, o.kiwiWav)], None)
  }

  /** The name of the file a write goes to: the current one, or the one named for now when it rotates. */
  function TargetName(o: Options, startTs: Option<Timestamp>, now: Timestamp): string
    requires Single(o)
  {
    OutputFilename(o, if NeedsNewFile(startTs, o.filename.value, o.dt, now) then now else startTs.value)
  }

  /** A write only ever touches the one file it targets, and leaves a file start time behind. */
  lemma WriteTouchesOneFile(o: Options, channels: int, rate: Option<int>, startTs: Option<Timestamp>,
                            disk: map<string, seq<byte>>, samples: seq<int>, gps: Option<Gps>, now: Timestamp)
    requires Single(o) && AllI16(samples)
    ensures var r := WriteStep(o, channels, rate, startTs, disk, samples, gps, now);
            && r.startTs.Some?
            && TargetName(o, startTs, now) in r.disk
            && r.disk.Keys == disk.Keys + {TargetName(o, startTs, now)}
            && forall n :: n in disk && n != TargetName(o, startTs, now) ==> r.disk[n] == disk[n]
  {
    var name := TargetName(o, startTs, now);
    var r := WriteStep(o, channels, rate, startTs, disk, samples, gps, now);
    if NeedsNewFile(startTs, o.filename.value, o.dt, now) {
      assert name == OutputFilename(o, now);
    } else {
      assert name == OutputFilename(o, startTs.value);
    }
  }

  /**
   * Without a sample rate every write raises; one that starts a new file
   * leaves it empty, since the header is never written.
   */
  lemma WriteWithoutRate(o: Options, channels: int, startTs: Option<Timestamp>,
                         disk: map<string, seq<byte>>, samples: seq<int>, gps: Option<Gps>, now: Timestamp)
    requires Single(o) && AllI16(samples)
    ensures var r := WriteStep(o, channels, None, startTs, disk, samples, gps, now);
            && r.error.Some?
            && (NeedsNewFile(startTs, o.filename.value, o.dt, now) ==> r.disk[TargetName(o, startTs, now)] == [])
  {
  }

  /** In kiwi-wav mode a block without a GPS record raises KeyError and appends nothing. */
  lemma KiwiWavNeedsGps(o: Options, channels: int, rate: int, startTs: Option<Timestamp>,
                        disk: map<string, seq<byte>>, samples: seq<int>, now: Timestamp)
    requires Single(o) && AllI16(samples) && o.kiwiWav
    ensures var r := WriteStep(o, channels, Some(rate), startTs, disk, samples, None, now);
            var name := TargetName(o, startTs, now);
            && r.error == Some(KeyError)
            && r.disk[name] == if NeedsNewFile(startTs, o.filename.value, o.dt, now)
                               then NewFile(rate, channels, true) else FileOr(disk, name)
  {
  }

  /**
   * In plain mode, with the sample rate known, a write that starts a file
   * makes it the one-block plain file, and one that continues a plain file
   * extends it by the block: by PlainFileContents the file is always the
   * header for its length followed by all samples since it was started.
   */
  lemma PlainWritesBuildPlainFile(o: Options, channels: int, rate: int, startTs: Option<Timestamp>,
                                  disk: map<string, seq<byte>>, blocks: seq<seq<int>>,
                                  samples: seq<int>, gps: Option<Gps>, now: Timestamp)
    requires Single(o) && AllI16(samples) && !o.kiwiWav && AllBlocksI16(blocks)
    requires !NeedsNewFile(startTs, o.filename.value, o.dt, now) ==>
               OutputFilename(o, startTs.value) in disk && disk[OutputFilename(o, startTs.value)] == PlainFile(blocks, rate, channels)
    ensures AllBlocksI16(blocks + [samples])
    ensures var r := WriteStep(o, channels, Some(rate), startTs, disk, samples, gps, now);
            && r.error.None?
            && r.disk[TargetName(o, startTs, now)] ==
               if NeedsNewFile(startTs, o.filename.value, o.dt, now) then PlainFile([samples], rate, channels)
               else PlainFile(blocks + [samples], rate, channels)
  {
    var g := if gps.Some? then gps.value else NoGps;
    assert Block(samples, g, false) == Block(samples, NoGps, false);
    assert (blocks + [samples])[..|blocks|] == blocks;
    assert [samples][..0] == [];
  }

  /** After the squelch closes (no start time) the next write starts a new file named for its own time. */
  lemma WriteAfterCloseStartsFile(o: Options, channels: int, rate: int, disk: map<string, seq<byte>>,
                                  samples: seq<int>, gps: Gps, now: Timestamp)
    requires Single(o) && AllI16(samples)
    ensures var r := WriteStep(o, channels, Some(rate), None, disk, samples, Some(gps), now);
            && r.startTs == Some(now)
            && r.error.None?
            && r.disk[OutputFilename(o, now)] == UpdateHeader(NewFile(rate, channels, o.kiwiWav) + Block(samples, gps, o.kiwiWav), rate, channels, o.kiwiWav)
  {
  }

  /** The sound stream's receiver setup from the recorder options. */
  function SoundRx(o: Options): RxSetup
    requires Single(o)
  {
    SoundSetup(o.modulation, o.lpCut, o.hpCut, o.frequency.value, o.agcGain.value, o.compression, o.user.value)
  }

  /** KiwiSoundRecorder: the stream, its squelch window and the recording state. */
  class KiwiSoundRecorder {
    const options: Options
    const stream: KiwiSDRStream
    const numChannels: int
    const nfArray: array<int>
    var nfIndex: nat
    var nfSamples: nat
    var squelchOnSeq: Option<int>
    var startTs: Option<Timestamp>
    var lastGps: Gps
    var status: int
    var disk: map<string, seq<byte>>

    ghost predicate Valid()
      reads this, stream, stream.decoder, nfArray
    {
      && stream.Valid() && Single(options) && stream.rx == SoundRx(options)
      && nfArray.Length == WindowSize && nfIndex < WindowSize && nfSamples <= WindowSize
      && numChannels == (if options.modulation == "iq" then 2 else 1)
    }

    function Squelch(): SquelchState
      reads this, nfArray
    {
      SquelchState(nfArray[..], nfIndex, nfSamples, squelchOnSeq)
    }

    constructor (o: Options, disk0: map<string, seq<byte>>)
      requires Single(o)
      ensures Valid() && fresh(stream) && fresh(stream.decoder) && fresh(nfArray)
      ensures options == o && disk == disk0 && status == o.status
      ensures Squelch() == InitialSquelch && startTs.None? && lastGps == NoGps
      ensures stream.State() == InitialSession && stream.decoder.State() == Initial
    {
      options := o;
      stream := new KiwiSDRStream(SoundRx(o));
      numChannels := if o.modulation == "iq" then 2 else 1;
      nfArray := new int[WindowSize](_ => 0);
      nfIndex, nfSamples, squelchOnSeq := 0, 0, None;
      startTs, lastGps, status, disk := None, NoGps, o.status, disk0;
      new;
      assert nfArray[..] == seq(WindowSize, _ => 0);
    }

    /** _update_wav_header: rewrite the header of the current file for its length. */
    method UpdateWavHeader() returns (error: Option<Raised>)
      requires Single(options) && startTs.Some? && OutputFilename(options, startTs.value) in disk
      modifies this`disk
      ensures var name := OutputFilename(options, startTs.value);
              if stream.sampleRate.None? then error == Some(TypeError) && disk == old(disk)
              else error.None? && disk == old(disk)[name := UpdateHeader(old(disk)[name], stream.sampleRate.value, numChannels, options.kiwiWav)]
    {
      var name := OutputFilename(options, startTs.value);
      if stream.sampleRate.None? {
        return Some(TypeError);
      }
      disk := disk[name := UpdateHeader(disk[name], stream.sampleRate.value, numChannels, options.kiwiWav)];
      error := None;
    }

    /** _write_samples. */
    method WriteSamples(samples: seq<int>, gps: Option<Gps>, now: Timestamp) returns (error: Option<Raised>)
      requires Single(options) && AllI16(samples)
      modifies this`startTs, this`disk
      ensures Written(startTs, disk, error) == WriteStep(options, numChannels, stream.sampleRate, old(startTs), old(disk), samples, gps, now)
    {
      var rotate := NeedsNewFile(startTs, options.filename.value, options.dt, now);
      if rotate {
        startTs := Some(now);
        var name := OutputFilename(options, now);
        if stream.sampleRate.None? {
          disk := disk[name := []];
          return Some(TypeError);
        }
        disk := disk[name := NewFile(stream.sampleRate.value, numChannels, options.kiwiWav)];
      }
      var name := OutputFilename(options, startTs.value);
      assert name == TargetName(options, old(startTs), now);
      var file := FileOr(disk, name);
      if options.kiwiWav {
        if gps.None? {
          disk := disk[name := file];
          return Some(KeyError);
        }
        file := file + KiwiChunk(gps.value) + DataHeader(2 * |samples|);
      }
      file := file + SamplesLE(samples);
      assert file == FileOr(disk, name) + Block(samples, if gps.Some? then gps.value else NoGps, options.kiwiWav);
      disk := disk[name := file];
      error := UpdateWavHeader();
    }

    /**
     * The squelch part of _process_audio_samples: record the RSSI while
     * warming up or closed, then compare it with the noise-floor threshold.
     */
    method UpdateSquelch(seqNo: int, rssi: int) returns (gate: Gate)
      requires Valid()
      modifies nfArray, this`nfIndex, this`nfSamples, this`squelchOnSeq
      ensures Valid()
      ensures (Squelch(), gate) == SquelchStep(old(Squelch()), options.thresh, seqNo, rssi)
    {
      if options.thresh.None? {
        return Write;
      }
      ghost var st0 := Squelch();
      if nfSamples < WindowSize || squelchOnSeq.None? {
        nfArray[nfIndex] := rssi;
        nfIndex := nfIndex + 1;
        if nfIndex == WindowSize {
          nfIndex := 0;
        }
        assert Squelch() == Record(st0, rssi);
      }
      if nfSamples < WindowSize {
        nfSamples := nfSamples + 1;
        return Drop;
      }
      gate := OpenOrClose(seqNo, rssi);
    }

    /** The squelch decision once the noise-floor window is full. */
    method OpenOrClose(seqNo: int, rssi: int) returns (gate: Gate)
      requires Valid() && options.thresh.Some?
      modifies this`squelchOnSeq
      ensures Valid()
      ensures (Squelch(), gate) == Decide(old(Squelch()), options.thresh.value, seqNo, rssi)
    {
      ghost var st1 := Squelch();
      var medianNf := Sort(nfArray[..])[FloorRank];
      var rssiThresh := medianNf + options.thresh.value;
      var isOpen := squelchOnSeq.Some?;
      if isOpen {
        rssiThresh := rssiThresh - Hysteresis;
      }
      assert rssiThresh == Threshold(st1.window, options.thresh.value, st1.onSeq.Some?);
      if rssi >= rssiThresh {
        squelchOnSeq := Some(seqNo);
        isOpen := true;
      }
      if !isOpen {
        return Drop;
      }
      if seqNo > squelchOnSeq.value + CloseAfter {
        squelchOnSeq := None;
        return Close;
      }
      gate := Write;
    }

    /** _process_audio_samples: the squelch decides, then the block is written or dropped; closing clears the start time. */
    method ProcessAudioSamples(seqNo: int, samples: seq<int>, rssi: int, now: Timestamp) returns (error: Option<Raised>)
      requires Valid() && AllI16(samples)
      modifies nfArray, this`nfIndex, this`nfSamples, this`squelchOnSeq, this`startTs, this`disk
      ensures Valid()
      ensures var (sq, gate) := SquelchStep(old(Squelch()), options.thresh, seqNo, rssi);
              && Squelch() == sq
              && (gate == Write ==> Written(startTs, disk, error)
                                    == WriteStep(options, numChannels, stream.sampleRate, old(startTs), old(disk), samples, None, now))
              && (gate == Drop ==> startTs == old(startTs) && disk == old(disk) && error.None?)
              && (gate == Close ==> startTs.None? && disk == old(disk) && error.None?)
    {
      var gate := UpdateSquelch(seqNo, rssi);
      error := None;
      if gate == Close {
        startTs := None;
      } else if gate == Write {
        error := WriteSamples(samples, None, now);
      }
    }

    /** _process_iq_samples: flatten the IQ pairs, write them with the GPS record, then flag a stale GPS fix. */
    method ProcessIqSamples(seqNo: int, iq: seq<Complex>, rssi: int, gps: Gps, now: Timestamp) returns (error: Option<Raised>)
      requires Valid() && ComplexI16(iq)
      modifies this`lastGps, this`status, this`startTs, this`disk
      ensures lastGps == gps
      ensures Written(startTs, disk, error)
              == WriteStep(options, numChannels, stream.sampleRate, old(startTs), old(disk), Interleave(iq), Some(gps), now)
      ensures status == if error.None? && gps.solution in {254, 255} then 3 else old(status)
    {
      lastGps := gps;
      var s: seq<int> := [];
      var i := 0;
      while i < |iq|
        invariant 0 <= i <= |iq|
        invariant s == Interleave(iq[..i])
      {
        assert iq[..i + 1][..i] == iq[..i];
        s := s + [iq[i].re, iq[i].im];
        i := i + 1;
      }
      assert iq[..i] == iq;
      error := WriteSamples(s, Some(gps), now);
      if error.Some? {
        return;
      }
      if gps.solution == 255 || gps.solution == 254 {
        status := 3;
      }
    }

    /**
     * The recorder's hooks for one delivered frame: audio and IQ blocks go
     * through the squelch and the writer, and the exception they raise is
     * returned as `caught` (the stream's receive loop catches it); waterfall
     * rows are ignored by this recorder.
     */
    method Deliver(r: Received, now: Timestamp) returns (caught: Option<Raised>)
      requires Valid()
      requires r.Audio? ==> AllI16(r.samples)
      requires r.IqAudio? ==> ComplexI16(r.iq)
      modifies nfArray, this`nfIndex, this`nfSamples, this`squelchOnSeq, this`startTs, this`disk, this`lastGps, this`status
      ensures Valid()
      ensures r.Audio? ==>
                var (sq, gate) := SquelchStep(old(Squelch()), options.thresh, r.seqNo, r.rssi);
                && Squelch() == sq && lastGps == old(lastGps) && status == old(status)
                && (gate == Write ==> Written(startTs, disk, caught)
                                      == WriteStep(options, numChannels, stream.sampleRate, old(startTs), old(disk), r.samples, None, now))
                && (gate == Drop ==> startTs == old(startTs) && disk == old(disk) && caught.None?)
                && (gate == Close ==> startTs.None? && disk == old(disk) && caught.None?)
      ensures r.IqAudio? ==>
                && Squelch() == old(Squelch()) && lastGps == r.gps
                && Written(startTs, disk, caught)
                   == WriteStep(options, numChannels, stream.sampleRate, old(startTs), old(disk), Interleave(r.iq), Some(r.gps), now)
                && status == if caught.None? && r.gps.solution in {254, 255} then 3 else old(status)
      ensures !r.Audio? && !r.IqAudio? ==>
                && caught.None? && Squelch() == old(Squelch()) && disk == old(disk) && startTs == old(startTs)
                && lastGps == old(lastGps) && status == old(status)
    {
      match r
      case Audio(seqNo, samples, rssi) =>
        caught := ProcessAudioSamples(seqNo, samples, rssi, now);
      case IqAudio(seqNo, iq, rssi, gps) =>
        caught := ProcessIqSamples(seqNo, iq, rssi, gps, now);
      case _ =>
        caught := None;
    }

    /**
     * One received message. Exceptions raised while handling audio are
     * caught and a keepalive follows every audio frame; a waterfall frame
     * that fails to parse raises and sends nothing; this recorder does
     * nothing with waterfall rows.
     */
    method OnMessage(message: seq<byte>, now: Timestamp) returns (error: Option<Raised>)
      requires Valid()
      modifies this, nfArray, stream, stream.decoder
      ensures Valid()
      ensures var (tag, body) := SplitMessage(message);
              && (tag == "MSG" ==> Step(stream.State(), error) == HandleMsg(old(stream.State()), stream.rx, body)
                                   && Squelch() == old(Squelch()) && disk == old(disk) && startTs == old(startTs)
                                   && lastGps == old(lastGps) && status == old(status))
              && (tag == "SND" ==>
                    var f := AudioFrame(old(stream.State()), old(stream.decoder.State()), body);
                    && error.None?
                    && stream.State() == old(stream.State()).(sent := old(stream.sent) + [Keepalive])
                    && stream.decoder.State() == f.1
                    && (f.0.Audio? ==>
                          var (sq, gate) := SquelchStep(old(Squelch()), options.thresh, f.0.seqNo, f.0.rssi);
                          && Squelch() == sq && lastGps == old(lastGps) && status == old(status)
                          && (gate == Write ==>
                                var w := WriteStep(options, numChannels, stream.sampleRate, old(startTs), old(disk), f.0.samples, None, now);
                                startTs == w.startTs && disk == w.disk)
                          && (gate == Drop ==> startTs == old(startTs) && disk == old(disk))
                          && (gate == Close ==> startTs.None? && disk == old(disk)))
                    && (f.0.IqAudio? ==>
                          var w := WriteStep(options, numChannels, stream.sampleRate, old(startTs), old(disk), Interleave(f.0.iq), Some(f.0.gps), now);
                          && Squelch() == old(Squelch()) && lastGps == f.0.gps
                          && startTs == w.startTs && disk == w.disk
                          && status == if w.error.None? && f.0.gps.solution in {254, 255} then 3 else old(status))
                    && (f.0.AudioFailed? ==> Squelch() == old(Squelch()) && disk == old(disk) && startTs == old(startTs)
                                             && lastGps == old(lastGps) && status == old(status)))
              && (tag == "W/F" ==>
                    var f := WaterfallFrame(old(stream.State()), old(stream.decoder.State()), body).0;
                    && disk == old(disk) && Squelch() == old(Squelch()) && startTs == old(startTs)
                    && lastGps == old(lastGps) && status == old(status)
                    && (f.WaterfallFailed? ==> error == Some(f.failure) && stream.State() == old(stream.State()))
                    && (f.Waterfall? ==> error.None? && stream.State() == old(stream.State()).(sent := old(stream.sent) + [Keepalive])))
              && (tag !in {"MSG", "SND", "W/F"} ==>
                    && error.None? && stream.State() == old(stream.State()) && disk == old(disk) && startTs == old(startTs)
                    && Squelch() == old(Squelch()) && lastGps == old(lastGps) && status == old(status))
    {
      TagsDistinct();
      var r := stream.Receive(message);
      AudioFrameSamplesI16(old(stream.State()), old(stream.decoder.State()), SplitMessage(message).1);
      error := None;
      if r.Control? {
        error := r.error;
      } else if r.WaterfallFailed? {
        error := Some(r.failure);
      } else if !r.UnknownTag? {
        var _ := Deliver(r, now);
        stream.SetKeepalive();
      }
    }
  }

  /** The statistics the waterfall recorder computes for one row. */
  datatype RowScan = RowScan(max: int, bmax: nat, min: int, bmin: nat)

  /**
   * KiwiWaterfallRecorder: the waterfall stream; each row is scanned for
   * its maximum and minimum and their first bins.
   */
  class KiwiWaterfallRecorder {
    const options: Options
    const stream: KiwiSDRStream

    ghost predicate Valid()
      reads this, stream, stream.decoder
    {
      stream.Valid() && Single(options) && stream.rx == WaterfallSetup(options.user.value)
    }

    constructor (o: Options)
      requires Single(o)
      ensures Valid() && fresh(stream) && fresh(stream.decoder) && options == o
      ensures stream.State() == InitialSession && stream.decoder.State() == Initial
    {
      options := o;
      stream := new KiwiSDRStream(WaterfallSetup(o.user.value));
    }

    /**
     * The scan of _process_waterfall_samples, starting from max -1 and min
     * 256 with strict comparisons: on a row of byte values the result holds
     * the first bin of the maximum and the first bin of the minimum.
     */
    static method ScanBins(samples: seq<int>) returns (r: RowScan)
      ensures |samples| == 0 ==> r == RowScan(-1, 0, 256, 0)
      ensures forall k :: 0 <= k < |samples| && -1 < samples[k] ==> samples[k] <= r.max
      ensures forall k :: 0 <= k < |samples| && samples[k] < 256 ==> r.min <= samples[k]
      ensures r.max == -1 || (r.bmax < |samples| && samples[r.bmax] == r.max
                              && forall k :: 0 <= k < r.bmax ==> samples[k] < r.max)
      ensures r.min == 256 || (r.bmin < |samples| && samples[r.bmin] == r.min
                               && forall k :: 0 <= k < r.bmin ==> samples[k] > r.min)
    {
      r := RowScan(-1, 0, 256, 0);
      var i := 0;
      while i < |samples|
        invariant 0 <= i <= |samples|
        invariant forall k :: 0 <= k < i && -1 < samples[k] ==> samples[k] <= r.max
        invariant forall k :: 0 <= k < i && samples[k] < 256 ==> r.min <= samples[k]
        invariant r.max == -1 || (r.bmax < i && samples[r.bmax] == r.max && forall k :: 0 <= k < r.bmax ==> samples[k] < r.max)
        invariant r.min == 256 || (r.bmin < i && samples[r.bmin] == r.min && forall k :: 0 <= k < r.bmin ==> samples[k] > r.min)
        invariant r.max >= -1 && r.min <= 256
        invariant r.max == -1 ==> r.bmax == 0
        invariant r.min == 256 ==> r.bmin == 0
      {
        var s := samples[i];
        if s > r.max {
          r := r.(max := s, bmax := i);
        }
        if s < r.min {
          r := r.(min := s, bmin := i);
        }
        i := i + 1;
      }
    }

    /** _process_waterfall_samples: the scan, then the bin width 30000/(n-1), which fails for a one-bin row. */
    method ProcessWaterfallSamples(seqNo: int, samples: seq<int>) returns (error: Option<Raised>)
      ensures error == if |samples| == 1 then Some(ZeroDivisionError) else None
    {
      var scan := ScanBins(samples);
      if |samples| - 1 == 0 {
        return Some(ZeroDivisionError);
      }
      error := None;
    }

    /**
     * One received message: a waterfall row is scanned and, unless that
     * raised, a keepalive follows; audio frames are ignored by this
     * recorder but still followed by a keepalive.
     */
    method OnMessage(message: seq<byte>) returns (error: Option<Raised>)
      requires Valid()
      modifies stream, stream.decoder
      ensures Valid()
      ensures var (tag, body) := SplitMessage(message);
              && (tag == "MSG" ==> Step(stream.State(), error) == HandleMsg(old(stream.State()), stream.rx, body))
              && (tag == "SND" ==> error.None? && stream.State() == old(stream.State()).(sent := old(stream.sent) + [Keepalive]))
              && (tag == "W/F" ==>
                    var f := WaterfallFrame(old(stream.State()), old(stream.decoder.State()), body).0;
                    && (f.WaterfallFailed? ==> error == Some(f.failure) && stream.State() == old(stream.State()))
                    && (f.Waterfall? ==>
                          && (error.None? <==> |f.samples| != 1)
                          && (error.None? ==> stream.State() == old(stream.State()).(sent := old(stream.sent) + [Keepalive]))
                          && (error.Some? ==> error == Some(ZeroDivisionError) && stream.State() == old(stream.State()))))
              && (tag !in {"MSG", "SND", "W/F"} ==> error.None? && stream.State() == old(stream.State()))
    {
      TagsDistinct();
      var r := stream.Receive(message);
      error := None;
      match r
      case Control(e) =>
        error := e;
      case Waterfall(seqNo, samples) =>
        error := ProcessWaterfallSamples(seqNo, samples);
        if error.None? {
          stream.SetKeepalive();
        }
      case WaterfallFailed(e) =>
        error := Some(e);
      case UnknownTag =>
      case _ =>
        stream.SetKeepalive();
    }
  }
}
