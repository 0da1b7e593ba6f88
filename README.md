# kiwiclient core, modelled in Dafny

This project models the logic of the KiwiSDR recording client that sits
under its socket, thread and command-line plumbing. It covers three parts.

- **IMA ADPCM decoder** (module `Adpcm`). It has the 89-entry step table
  and the 16-entry index-adjust table. Its state is `index` and `prev`,
  and each nibble is decoded with clamping. Each byte yields two samples,
  low nibble first. The pure function `DecodeBytes` specifies the
  decoder. The class `ImaAdpcmDecoder` is the stateful object, and its
  loop is proved against that function.
- **KiwiSDR stream message handling** (module `Protocol`). A WebSocket
  message is split into tag and body, then dispatched on `MSG`, `SND` or
  `W/F`. Control messages are tokenized on spaces. Each
  `name[=value]` parameter is handled with its three fatal errors, its
  session-field updates and its reply command sequences. Audio and
  waterfall frames have binary headers and decoding rules. The `SET ...`
  commands are not built as strings. Each one is a `Command` value
  appended to the stream's sent log.
- **Recorder logic** (modules `SquelchLogic`, `Wav`, `Recorder` and
  `RecorderOptions`):
  - the squelch / noise-floor estimator;
  - the canonical 44-byte RIFF/WAVE PCM header (36 bytes in kiwi-wav
    mode);
  - the output file as a byte buffer: placeholder header, appends,
    optional `kiwi` GPS chunks, header rewritten in place;
  - file rotation and output file names;
  - the IQ path;
  - both recorders' receiver setup;
  - the waterfall minimum/maximum scan;
  - per-host option selection.

Supporting modules:
- `Bytes` holds the `struct` packings.
- `Text` holds the byte/text views: `split`, `%d`, `int()`, `float()`.
- `Wrappers` holds `Option`, which stands for Python's `None`.

## Design of the model

- **State.**
  - The stream's fields are `_sample_rate`, `_version_major`,
    `_version_minor`, `_modulation`, `_compression` and the sent log.
    They are fields of the class `Protocol.KiwiSDRStream`.
  - The pure `Protocol.Session` value and the functions `HandleParam`,
    `HandleMsg`, `AudioFrame` and `WaterfallFrame` specify what its
    methods do. Every method's `ensures` ties the new state to those
    functions.
  - The recorder's noise-floor window is an `array<int>` of 65 slots,
    updated in place. `SquelchLogic.SquelchStep` specifies it.
- **Subclassing.** In Python, `KiwiSoundRecorder` and
  `KiwiWaterfallRecorder` are subclasses of `KiwiSDRStream`.
  - Here each recorder holds a stream, and the stream carries an
    `RxSetup` value (the stream kind). The kind selects which
    `_setup_rx_params` override runs.
  - `KiwiSDRStream.Receive` returns what the overridden processing hook
    would be handed. The recorder's `OnMessage` then runs that hook and
    sends the keepalive. It keeps `_process_message`'s ordering and
    exception rules:
    - a keepalive always follows an audio frame;
    - a keepalive follows a waterfall frame only when no exception was
      raised;
    - an unknown tag sends nothing.
- **Exceptions.** Python exceptions are a `Raised` value returned
  beside the state. The model includes the three Kiwi errors and the
  Python errors the parsing can raise. An exception raised by a
  parameter ends the control message and keeps what the earlier tokens
  did.
- **Clock and disk.**
  - Each write is given the current time as a `Recorder.Timestamp`
    (seconds of day and the `%Y%m%dT%H%M%SZ` text).
  - The disk is a map from file name to bytes.
  - The file name's `int(freq*1000)` is the frequency in Hz, given as an
    integer.

Behaviour at the edges, as the code has it:
- Squelch warm-up blocks are dropped (kiwirecorder.py:65-67).
- An unknown tag is only printed (kiwiclient.py:271-273).
- A W/F frame shorter than 12 bytes raises out of `_process_message`
  without a keepalive (kiwiclient.py:267-270, 306-309). An SND frame's
  error is caught (kiwiclient.py:261-266).
- The stream keeps no connection state (kiwiclient.py:163-170), so none
  is modelled.

## Model

| member | source | states |
|---|---|---|
| Adpcm.TablesShape | kiwiclient.py:25-40 | The step table has 89 entries, ending at 32767, and the index-adjust table has 16. |
| Adpcm.Clamp | kiwiclient.py:43-48 | The result lies in [lo, hi] and is x, or the bound that x passed. |
| Adpcm.DifferenceApproximatesStep | kiwiclient.py:58-66 | The sign of the difference follows bit 3. Its magnitude undershoots the exact quantizer value (2m+1)·step/8 of magnitude bits m by at most 17/8. |
| Adpcm.SignBitOnly | kiwiclient.py:58-66 | Bit 3 only negates: a code's difference is that of its low three bits, negated when bit 3 is set. |
| Adpcm.DecodeNibble | kiwiclient.py:55-69 | After one nibble the state is valid: index in [0, 88] and prev in [-32768, 32767]. The returned sample equals the new prev. |
| Adpcm.NibbleIndexStep | kiwiclient.py:56-57 | Magnitudes 0-3 move the index down one, to no less than 0. Magnitudes 4-7 move it up 2(m-3), to no more than 88. |
| Adpcm.NibbleSampleStep | kiwiclient.py:55-69 | The sample moves from prev in the direction of the sign bit, by at most the quantizer value of the step at the OLD index. The move is the exact difference unless clamping intervened. |
| Adpcm.DecodeBytes | kiwiclient.py:71-79 | Decoding yields 2·len(data) 16-bit samples, and a non-empty input leaves a valid state. |
| Adpcm.DecodeAppend | kiwiclient.py:71-79 | Decoding a concatenation decodes the second part from the state the first part leaves: state is carried forward. |
| Adpcm.DecodeAt | kiwiclient.py:74-78 | Output 2i is byte i's low nibble and output 2i+1 its high nibble, each decoded from the state left by everything before it. |
| Adpcm.ImaAdpcmDecoder.constructor | kiwiclient.py:51-53 | A new decoder has index 0 and prev 0. |
| Adpcm.ImaAdpcmDecoder.Reset | kiwiclient.py:313 | Re-running `__init__` returns the decoder to index 0, prev 0. |
| Adpcm.ImaAdpcmDecoder.DecodeSample | kiwiclient.py:55-69 | The in-place update of index and prev, and the returned sample, are DecodeNibble's. |
| Adpcm.ImaAdpcmDecoder.Decode | kiwiclient.py:71-79 | The per-byte loop returns DecodeBytes' samples and leaves its state (loop invariant over the prefix decoded). |
| Bytes.U32LEOfPack | kiwiclient.py:285 | Reading `<I` back from its packing gives the value. |
| Bytes.PackOfU32LE | kiwiclient.py:307-309 | Every 4 bytes are the packing of the `<I` value read from them. |
| Bytes.I16BEOfPack | kiwiclient.py:303 | Reading `>h` back from its packing gives the signed value. |
| Bytes.SamplesLEAt | kiwirecorder.py:146 | `tofile` on a little-endian host stores sample k at bytes 2k and 2k+1, low byte first. |
| Text.JoinSplit | kiwiclient.py:276 | `split(b' ')` loses nothing: rejoining the pieces gives the body back. |
| Text.SplitJoin | kiwiclient.py:276 | Splitting space-joined, space-free tokens gives exactly those tokens. |
| Text.SplitFirst | kiwiclient.py:278 | `split(b'=', 1)` gives a name free of '=' and the rest, with name + '=' + rest equal to the token. |
| Text.ParseIntOfDecimal | kiwiclient.py:231 | `int()` reads back every decimal integer. |
| Text.ParseDecimalOfDecimal | kiwiclient.py:233 | `int(float())` of "n" or "n.ddd" is n. |
| Text.Lower | kiwiclient.py:176 | On ASCII text, `lower()` shifts exactly the capitals by 32 and keeps every other character. |
| Protocol.AgcCommand | kiwirecorder.py:46-49 | With a gain, AGC is off at that gain; without one, AGC is on at gain 50. Both use thresh -100, slope 6, decay 1000 and no hang. |
| Protocol.RxCommandsShape | kiwirecorder.py:38-53 | Both setups end with inactivity timeout 0 and the user name. Sound starts with the lower-cased mode (low cut -hp for "am") and disables compression iff the option says so. Waterfall always sends `wf_comp=0`. |
| Protocol.SetupRx | kiwirecorder.py:188-195 | `_setup_rx_params` appends the kind's commands and records the modulation and compression it sets. Nothing else changes. |
| Protocol.FatalParams | kiwiclient.py:222-228 | `too_busy` with any value raises TooBusy, and `down` raises Down. `badp` raises BadPassword iff the value is "1". A raising parameter changes no state. |
| Protocol.ParamEffects | kiwiclient.py:229-255 | Only `sample_rate` changes the rate, and `version_maj`/`version_min` change only their own field. Only `audio_rate`, `sample_rate` and `wf_setup` send anything, and only by appending. |
| Protocol.ParamSends | kiwiclient.py:229-247 | The sent log only grows, and only the three reply-producing names extend it. |
| Protocol.ParamFields | kiwiclient.py:248-255 | The two version fields are stored independently, each exactly under its own name. |
| Protocol.QuietParam | kiwiclient.py:229-255 | Any other name, or an unparsable sample rate, sends nothing. |
| Protocol.SampleRateReply | kiwiclient.py:232-242 | `sample_rate=v` stores the rate, then sends squelch 0 0, lms_autonotch 0, genattn 0, gen 0 mix -1, the rx commands and a keepalive, in that order. |
| Protocol.SetupReplies | kiwiclient.py:230-247 | `wf_setup` sends the rx commands then a keepalive. `audio_rate=v` answers AR OK in=v out=44100. A malformed value raises ValueError and a missing one TypeError. |
| Protocol.TokenSplitsAtFirstEquals | kiwiclient.py:277-279 | A token splits at its first '=', so the value may itself contain '='. |
| Protocol.SingleTokenMessage | kiwiclient.py:280-282 | A body without spaces is one token; without '=' it is a flag with no value. |
| Protocol.ErrorAbortsRest | kiwiclient.py:275-282 | Once a token raises, the remaining tokens of the message have no effect. |
| Protocol.TokensFrontToBack | kiwiclient.py:275-282 | Tokens are handled in order: the first one, then the rest from the state it leaves, unless it raised. |
| Protocol.NextToken | kiwiclient.py:275-282 | While nothing has raised, the last token is handled from the state the earlier ones leave. |
| Protocol.ErrorStays | kiwiclient.py:275-282 | Once an earlier token has raised, the last token is not handled. |
| Protocol.MessageIsItsTokens | kiwiclient.py:275-282 | A body of space-joined tokens is handled exactly as that token list. |
| Protocol.OneParamMessage | kiwiclient.py:275-279 | An ASCII `name=value` body is handled as the one parameter (name, value). |
| Protocol.SampleRateScenario | kiwiclient.py:232-242 | `MSG sample_rate=12000.000` stores 12000 and sends the preamble, the rx commands and a keepalive. |
| Protocol.TooBusyScenario | kiwiclient.py:223-224 | `MSG too_busy=4` raises TooBusy with value "4" and sends nothing. |
| Protocol.BadPasswordNeverRaisedAsWritten | kiwiclient.py:223-231 | As written, `badp=1` falls through to the data items: no exception, nothing sent, no field changed. The intended test raises BadPassword for the same token. |
| Protocol.SplitMessageOf | kiwiclient.py:154-157 | The tag is bytes 0..2, byte 3 is skipped, and the body starts at byte 4. |
| Protocol.ParseSndOfEncode | kiwiclient.py:285-287 | The SND header reads back seq as `<I` at 0..3 and the S-meter as `>H` at 4..5. The payload starts at byte 6. |
| Protocol.Rssi | kiwiclient.py:288 | rssi = (smeter & 0x0FFF) div 10 - 127, which always lies in [-127, 282]. |
| Protocol.ParseIq | kiwiclient.py:289-296 | An IQ payload gives (len-10) div 4 complex samples of 16-bit parts. An odd count of at least 3 raises. |
| Protocol.ParseIqOfEncode | kiwiclient.py:289-296 | The 10-byte `<BBII` GPS header and big-endian re/im int16 pairs read back as the record and samples they encode. |
| Protocol.IqScenario | kiwiclient.py:289-297 | A 10-byte GPS header and 8 sample bytes deliver 2 complex samples and exactly that GPS record. |
| Protocol.PcmBE | kiwiclient.py:301-303 | Raw audio gives len div 2 samples, all 16-bit. |
| Protocol.PcmBEOfEncode | kiwiclient.py:301-303 | Raw audio reads back the big-endian int16 samples it encodes. |
| Protocol.ParseWfOfEncode | kiwiclient.py:307-310 | The W/F header reads back x_bin, flags and seq as `<I` at 0, 4 and 8. The payload starts at 12. |
| Protocol.ByteSamples | kiwiclient.py:316-320 | Uncompressed waterfall data gives one sample per byte, equal to the byte. |
| Protocol.DropTail | kiwiclient.py:315 | Dropping the tail keeps a prefix of max(0, len-10) samples. |
| Protocol.WaterfallIgnoresDecoderState | kiwiclient.py:312-320 | A waterfall frame does not depend on the decoder state it finds. A compressed one yields max(0, 2·len(payload)-10) samples; an uncompressed one yields the bytes. |
| Protocol.DropTailAsWrittenDiffers | kiwiclient.py:315 | The slice as written agrees with dropping 10 except for 6 to 9 samples, where it keeps 2·len-10. |
| Protocol.AudioFramesContinue | kiwiclient.py:299-300 | Audio frames never reset the decoder: two compressed frames decode as one stream. |
| Protocol.AudioFrameSamplesI16 | kiwiclient.py:284-304 | Every delivered audio or IQ sample is a 16-bit value. |
| Protocol.KiwiSDRStream.constructor | kiwiclient.py:163-170 | A new stream has no rate, versions or modulation, compression on, an empty log and a fresh decoder. |
| Protocol.KiwiSDRStream.SendMessage | kiwiclient.py:134-137 | Appends the command to the sent log. |
| Protocol.KiwiSDRStream.Open | kiwiclient.py:347-348 | Sends auth with client type "kiwi" and the password. |
| Protocol.KiwiSDRStream.SetAuth | kiwiclient.py:139-140 | Sends `auth t= p=`. |
| Protocol.KiwiSDRStream.SetName | kiwiclient.py:142-143 | Sends `ident_user`. |
| Protocol.KiwiSDRStream.SetGeo | kiwiclient.py:145-146 | Sends `geo`. |
| Protocol.KiwiSDRStream.SetInactivityTimeout | kiwiclient.py:148-149 | Sends `OVERRIDE inactivity_timeout`. |
| Protocol.KiwiSDRStream.SetKeepalive | kiwiclient.py:151-152 | Sends `keepalive`. |
| Protocol.KiwiSDRStream.SetMod | kiwiclient.py:175-178 | Lower-cases the mode, stores it as the modulation and sends it. |
| Protocol.KiwiSDRStream.SetAgc | kiwiclient.py:180-181 | Sends the AGC settings. |
| Protocol.KiwiSDRStream.SetSquelch | kiwiclient.py:183-184 | Sends `squelch max`. |
| Protocol.KiwiSDRStream.SetAutonotch | kiwiclient.py:186-187 | Sends `lms_autonotch`. |
| Protocol.KiwiSDRStream.SetArOk | kiwiclient.py:189-190 | Sends `AR OK in out`. |
| Protocol.KiwiSDRStream.SetGen | kiwiclient.py:192-194 | Sends genattn, then gen with mix -1. |
| Protocol.KiwiSDRStream.SetZoomStart | kiwiclient.py:196-197 | Sends `zoom start`. |
| Protocol.KiwiSDRStream.SetMaxDbMinDb | kiwiclient.py:199-200 | Sends `maxdb mindb`. |
| Protocol.KiwiSDRStream.SetSndComp | kiwiclient.py:202-204 | Records the compression flag and sends `compression`. |
| Protocol.KiwiSDRStream.SetWfComp | kiwiclient.py:206-208 | Records the compression flag and sends `wf_comp`. |
| Protocol.KiwiSDRStream.SetWfSpeed | kiwiclient.py:210-211 | Sends `wf_speed`. |
| Protocol.KiwiSDRStream.SetupRxParams | kiwirecorder.py:38-53 | Dispatches on the stream kind. The new state is SetupRx of the old one. |
| Protocol.KiwiSDRStream.SetupSoundRxParams | kiwirecorder.py:38-53 | The sound recorder's setup sends RxCommands of the sound kind. |
| Protocol.KiwiSDRStream.SetGainAndCompression | kiwirecorder.py:46-51 | Sends AGC off at the given gain or on, then disables compression only when the option says so. |
| Protocol.KiwiSDRStream.SetupWaterfallRxParams | kiwirecorder.py:188-195 | Sends zoom 0 start 0, maxdb -10 mindb -110, wf_comp 0, wf_speed 1, timeout 0 and the name. |
| Protocol.KiwiSDRStream.ApplySampleRate | kiwiclient.py:232-242 | Stores the rate, then sends the preamble, the rx commands and a keepalive. |
| Protocol.KiwiSDRStream.ProcessMsgParam | kiwiclient.py:213-255 | Its new state and exception are HandleParam's: fatal names first, then the data items. |
| Protocol.KiwiSDRStream.ProcessMsg | kiwiclient.py:275-282 | Its loop over the space-split tokens stops at the first exception. The result is HandleMsg. |
| Protocol.KiwiSDRStream.ProcessAud | kiwiclient.py:284-304 | Delivers AudioFrame's result and decoder state: IQ, ADPCM or raw PCM. |
| Protocol.KiwiSDRStream.ProcessWf | kiwiclient.py:306-321 | Resets the decoder for compressed frames, then delivers WaterfallFrame's result. |
| Protocol.KiwiSDRStream.Receive | kiwiclient.py:257-273 | Splits the tag and dispatches. MSG changes only the session, as HandleMsg does. SND and W/F change only the decoder. An unknown tag changes nothing. |
| SquelchLogic.Sort | kiwirecorder.py:69 | `sorted()` keeps the length and the multiset of readings. |
| SquelchLogic.SortSorted | kiwirecorder.py:69 | `sorted()` gives ascending order. |
| SquelchLogic.RankByCounts | kiwirecorder.py:69 | The element of rank k of the sorted window is v iff fewer than k+1 readings lie below v and more than k are at most v. |
| SquelchLogic.Record | kiwirecorder.py:61-64 | The window update keeps 65 slots and the index in range; it wraps from 65 to 0. |
| SquelchLogic.SquelchStep | kiwirecorder.py:59-87 | One block's squelch step keeps the window at 65 slots and the counters in range. |
| SquelchLogic.Decide | kiwirecorder.py:69-87 | After warm-up the decision changes only `_squelch_on_seq`, not the window or counters. |
| SquelchLogic.NoThresholdWritesAll | kiwirecorder.py:59 | Without a threshold every block is written and no squelch state changes. |
| SquelchLogic.AfterWarmUp | kiwirecorder.py:60-87 | Threshold = sorted(window)[21] + thresh, minus 6 while open. Reaching it opens with `_squelch_on_seq` = seq and writes. Closed drops. More than 45 past the opening seq closes and drops. The window changes only while closed. |
| SquelchLogic.WrittenOnlyWhenOpen | kiwirecorder.py:59-88 | A block is written only without a threshold, or after warm-up with the squelch open within 45 of its opening seq. |
| SquelchLogic.WarmUp | kiwirecorder.py:59-67 | From the initial state, the first 65 blocks fill the window in arrival order and are all dropped. The index wraps to 0 after the 65th. |
| SquelchLogic.FillWindow | kiwirecorder.py:59-67 | The same from any window contents: slots not yet reached keep their values. |
| SquelchLogic.RunSnoc | kiwirecorder.py:55-88 | A run over blocks is the run over all but the last, then one step. |
| Wav.WavHeader | kiwirecorder.py:10-17 | The header is 44 bytes, or 36 in kiwi-wav mode. |
| Wav.ParseWavHeaderOf | kiwirecorder.py:10-17 | The header reads back as: RIFF size filesize-8, fmt size 16, format 1, the channels, the rate, byte rate sr·ch·2, block align ch·2, 16 bits, and (unless kiwi-wav) data size filesize-44. |
| Wav.ParseChunks | kiwirecorder.py:11-17 | The RIFF, fmt and optional data chunks read back field by field. |
| Wav.RiffChunkFields | kiwirecorder.py:11 | "RIFF", size filesize-8, "WAVE". |
| Wav.FmtChunkFields | kiwirecorder.py:15 | The fmt chunk's eight fields read back as packed. |
| Wav.KiwiChunk | kiwirecorder.py:142 | The `kiwi` chunk is 18 bytes. |
| Wav.Block | kiwirecorder.py:139-146 | In kiwi-wav mode an append is the `kiwi` chunk (size 10: solution, 0, gpssec, gpsnsec), a `data` header of size 2·len(samples), then the samples. Otherwise it is just the samples. |
| Wav.UpdateHeader | kiwirecorder.py:115-120 | Rewriting the header keeps the file length and every byte after the header. The header is the one for the current length. |
| Wav.NewFile | kiwirecorder.py:132-133 | A new file is the header with placeholder size 100. |
| Wav.PlainFileContents | kiwirecorder.py:122-147 | In plain mode, after every append the file is the 44-byte header for its length followed by all samples appended since it was created. |
| Wav.PlainAppendShape | kiwirecorder.py:138-147 | One plain append keeps the payload and adds the block's bytes. |
| Wav.PlainFileHeader | kiwirecorder.py:115-147 | The header's data size equals the byte count of the samples, and its RIFF size is 8 less than the file. |
| Wav.UpdateHeaderIdempotent | kiwirecorder.py:115-120 | Rewriting the header again changes nothing. |
| Recorder.FloorDivIsFloor | kiwirecorder.py:128 | The division is the floor of the quotient. |
| Recorder.RotationByInterval | kiwirecorder.py:124-128 | With no fixed name, a file started in dt-interval k rotates iff now leaves that interval. |
| Recorder.NoRotationWithoutInterval | kiwirecorder.py:126-128 | A fixed name, or dt = 0, never rotates an open file. |
| Recorder.RotationAsWrittenEverySecond | kiwirecorder.py:128 | As written, true division rotates whenever the second of day changes. |
| Recorder.RotationAsWrittenDiffers | kiwirecorder.py:128 | With dt = 60, one second after midnight rotates as written but not as intended. |
| Recorder.FixedFilename | kiwirecorder.py:104-113 | A fixed name ignores the time: it is the name, then the station suffix, then ".wav". |
| Recorder.GeneratedParts | kiwirecorder.py:108-112 | A generated name is dir/, the timestamp, then _Hz, the station suffix, _mode and ".wav". |
| Recorder.GeneratedFilenamesDistinct | kiwirecorder.py:108-110 | Different start texts give different generated names. |
| Recorder.Interleave | kiwirecorder.py:94-96 | Flattening gives 2n values, all 16-bit. |
| Recorder.InterleaveAt | kiwirecorder.py:94-96 | Position 2k is re of sample k and 2k+1 its im. |
| Recorder.DeinterleaveOfInterleave | kiwirecorder.py:94-96 | Flattening loses nothing. |
| Recorder.WriteTouchesOneFile | kiwirecorder.py:122-147 | A write changes only the file it targets and leaves a start time set. |
| Recorder.WriteWithoutRate | kiwirecorder.py:132-133 | Without a sample rate a write raises, and a newly opened file stays empty. |
| Recorder.KiwiWavNeedsGps | kiwirecorder.py:139-141 | In kiwi-wav mode a block without GPS raises KeyError after opening and before appending. |
| Recorder.PlainWritesBuildPlainFile | kiwirecorder.py:122-147 | In plain mode a write that starts a file gives the one-block file, and one that continues a file extends it. |
| Recorder.WriteAfterCloseStartsFile | kiwirecorder.py:126-133 | After the squelch closes, the next write starts a new file named for its own time. |
| Recorder.KiwiSoundRecorder.constructor | kiwirecorder.py:20-36 | 65 zero slots, index and count 0, squelch closed, no start time, last GPS all zero. |
| Recorder.KiwiSoundRecorder.UpdateWavHeader | kiwirecorder.py:115-120 | Rewrites the current file's header, or raises TypeError without a rate. |
| Recorder.KiwiSoundRecorder.WriteSamples | kiwirecorder.py:122-147 | The new start time, disk and exception are WriteStep's. |
| Recorder.KiwiSoundRecorder.UpdateSquelch | kiwirecorder.py:59-67 | The in-place window update and gate are SquelchStep's. |
| Recorder.KiwiSoundRecorder.OpenOrClose | kiwirecorder.py:69-87 | The decision after warm-up is Decide's. |
| Recorder.KiwiSoundRecorder.ProcessAudioSamples | kiwirecorder.py:55-88 | Applies the squelch. It writes when the gate is open, drops otherwise, and on auto-close clears the start time. |
| Recorder.KiwiSoundRecorder.ProcessIqSamples | kiwirecorder.py:90-102 | Records `_last_gps` and writes re0, im0, re1, im1, ... with the GPS record. It sets status 3 for solution 254 or 255, and never resets it. |
| Recorder.KiwiSoundRecorder.Deliver | kiwirecorder.py:55-102 | Audio goes through the squelch: the file and start time change as WriteStep says when the gate writes, stay when it drops, and the start time is cleared when it closes. IQ bypasses the squelch, records its GPS, writes the interleaved pairs with GPS through WriteStep, and sets status 3 for solution 254/255. The exception raised is returned. |
| Recorder.KiwiSoundRecorder.OnMessage | kiwiclient.py:257-273 | An SND frame's decoded samples reach the file through the squelch and WriteStep, and exactly one keepalive follows, even when handling raised. A W/F frame gets one only when it did not raise. MSG exceptions propagate. MSG, W/F and unknown tags leave the file, start time, GPS and status alone. |
| Recorder.KiwiWaterfallRecorder.constructor | kiwirecorder.py:169-176 | A waterfall stream with the user's setup. |
| Recorder.KiwiWaterfallRecorder.ScanBins | kiwirecorder.py:197-211 | Max and min of the row, seeded at -1 and 256, with the FIRST bin of each (strict comparisons). |
| Recorder.KiwiWaterfallRecorder.ProcessWaterfallSamples | kiwirecorder.py:197-214 | A one-bin row raises ZeroDivisionError in the bin-width computation. |
| Recorder.KiwiWaterfallRecorder.OnMessage | kiwiclient.py:267-270 | A row is scanned, then a keepalive is sent unless that raised. |
| RecorderOptions.CrossProductSelects | kiwirecorder.py:216-230 | One single-host option set per host, each with status 0. List fields take element min(i, len-1), and every other field is copied. |
| RecorderOptions.ScalarOptionsCopied | kiwirecorder.py:218-220 | With only scalars, each set is the input with the host and status 0. |
| RecorderOptions.DefaultHostAsWritten | kiwirecorder.py:223 | As written, the scalar default host 'localhost' yields 9 one-character hosts. As intended it yields one. |
| RecorderOptions.ListHostsAgree | kiwirecorder.py:223 | For a host list, the code as written and as intended agree. |

## Left out

- The WebSocket transport is not modelled: `_prepare_stream`, `connect`,
  `close`, and `run`'s receive and time limit. It is I/O over libraries
  that are not part of this model. A received message is a parameter.
- Threads and orchestration are not modelled: `KiwiWorker` (not part of
  this model), `join_threads`, the run event, `main`'s polling loop, the
  one-second stagger between connections to the same host, and the
  final status print.
- The `optparse` definitions and `get_comma_separated_args` are not
  modelled. Options arrive as the `Options` value, with list-valued
  fields already split.
- `load_cfg` is not modelled: URL-decoding, JSON, the GPS float parse,
  and `_on_gnss_position`'s file writing. A `load_cfg` parameter falls
  through to the data items and changes nothing.
- Floating point is not modelled.
  - `lp_cut`, `hp_cut`, `thresh` and the AGC gain are integers.
  - The frequency is integer Hz, both in the `Mod` command (where the
    source sends kHz with `%.3f`) and in the file name.
  - The sample rate is `int(float(v))`, and `samplerate+0.5` is the same
    integer.
  - IQ samples are int16 pairs, because int16 to float32 to `int()` is
    exact.
  - The waterfall kHz print is omitted.
- Wall-clock time is an input. `time.gmtime`, `strftime` and
  `time.time` become a `Timestamp` (seconds of day and its text) given
  to each write. `_start_time` is not kept apart from `_start_ts`.
- Standard output, logging and the `is_kiwi_tdoa` print are not
  modelled.
- The base `KiwiSDRStream._setup_rx_params` (kiwiclient.py:338-345) is
  dead code and is not modelled: both recorders override it.
- Text decoding is simplified. `bytes.decode()` of a tag or name is
  read byte-for-character, which is the same for ASCII; non-UTF-8 input
  raises in Python. `int()`/`float()` accept an optional sign and
  digits, with an optional fraction for `float()`. Whitespace,
  underscores, exponents and inf/nan are not accepted.
- `struct.pack` range errors in the WAV header are not modelled.
  Out-of-range fields are reduced to their width, so the header lemmas
  assume a file under 4 GiB.
- `_on_sample_rate_change` is not modelled. It is a hook that does
  nothing in both recorders.
- Text.Lower: only ASCII capitals are folded. Python's `str.lower()`
  also folds non-ASCII letters and can change the length of the text.
  Modulation names are ASCII, so the model relies on that.
- Bytes.SamplesLE: a little-endian host is assumed. `array.tofile` and
  numpy's `tofile` write in the host's native byte order.
- Recorder.KiwiWaterfallRecorder.OnMessage: for SND frames it states the
  keepalive, but not the decoder state that the ignored audio frame
  leaves.

## Findings

| source | as written | input that shows it | evidently intended | confidence | as-written member | corrected member |
|---|---|---|---|---|---|---|
| kiwiclient.py:225 | `value == '1'` compares bytes with str, which is never equal in Python 3 | `MSG badp=1` | raise BadPassword when the value is "1" | high, not executed | Protocol.BadPasswordNeverRaisedAsWritten | Protocol.FatalParams |
| kiwirecorder.py:128 | `/` is true division in Python 3, so the intervals never coincide unless the second is the same | dt=60, file started at 00:00:00, write at 00:00:01 | floor division: rotate when the dt-second interval changes | high, not executed | Recorder.RotationAsWrittenDiffers | Recorder.RotationByInterval |
| kiwiclient.py:315 | `samples[:len(samples)-10]` has a negative end for fewer than 10 samples | compressed W/F payload of 4 bytes (8 samples) keeps 6 | drop the 10-sample tail, leaving nothing when shorter | medium, not executed | Protocol.DropTailAsWrittenDiffers | Protocol.WaterfallIgnoresDecoderState |
| kiwirecorder.py:223 | `enumerate(options.server_host)` on the scalar default 'localhost' iterates its characters | no `-s` option | one option set for host 'localhost' | medium, not executed | RecorderOptions.DefaultHostAsWritten | RecorderOptions.CrossProductSelects |
