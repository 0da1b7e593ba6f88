/**
 * The KiwiSDR stream client: the commands it sends, the control-message
 * tokenizer and parameter handling (as functions over a session value),
 * the binary headers of audio and waterfall frames, and the stream object
 * whose methods update the session fields and append to the sent log.
 */
module Protocol {
  import opened Wrappers
  import opened Bytes
  import opened Text
  import opened Adpcm

  /** One `SET ...` message; the text formatting of each is not modelled. */
  datatype Command =
    | Auth(clientType: string, password: string)
    | Mod(mode: string, lowCut: int, highCut: int, freqHz: int)
    | Agc(on: bool, hang: bool, thresh: int, slope: int, decay: int, gain: int)
    | Squelch(sq: int, max: int)
    | Autonotch(value: int)
    | GenAttn(attn: int)
    | Gen(freq: int, mix: int)
    | ArOk(arIn: int, arOut: int)
    | Compression(on: bool)
    | WfComp(on: bool)
    | ZoomStart(zoom: int, start: int)
    | MaxMinDb(maxDb: int, minDb: int)
    | WfSpeed(speed: int)
    | InactivityTimeout(timeout: int)
    | IdentUser(name: string)
    | Geo(geo: string)
    | Keepalive

  /** The exceptions that leave a handler: the three Kiwi errors and the Python ones the parsing can raise. */
  datatype Raised =
    | TooBusy(slots: Option<seq<byte>>)
    | BadPassword
    | Down
    | ValueError      // int()/float() of a malformed value
    | StructError     // struct.unpack of a header that is too short
    | BroadcastError  // numpy assignment of mismatched IQ halves
    | ZeroDivisionError
    | TypeError
    | KeyError

  /** The stream kind: which `_setup_rx_params` override the session runs. */
  datatype RxSetup =
    | SoundSetup(modulation: string, lpCut: int, hpCut: int, freqHz: int,
                 agcGain: Option<int>, compression: bool, user: string)
    | WaterfallSetup(user: string)

  /** The stream's fields that control messages and setup update, and everything sent so far. */
  datatype Session = Session(
    sampleRate: Option<int>,
    versionMajor: Option<seq<byte>>,
    versionMinor: Option<seq<byte>>,
    modulation: Option<string>,
    compression: bool,
    sent: seq<Command>)

  const InitialSession: Session := Session(None, None, None, None, true, [])

  /** The session after one parameter or message, and the exception that ended it, if any. */
  datatype Step = Step(session: Session, error: Option<Raised>)

  /** The fixed AGC settings of set_agc apart from on/off and gain. */
  function AgcCommand(gain: Option<int>): (c: Command)
    ensures c.Agc? && c.on == gain.None? && c.thresh == -100 && c.slope == 6 && c.decay == 1000 && !c.hang
    ensures c.gain == if gain.Some? then gain.value else 50
  {
    if gain.Some? then Agc(false, false, -100, 6, 1000, gain.value) else Agc(true, false, -100, 6, 1000, 50)
  }

  /** The low cutoff actually requested: for "am" the low-pass option is ignored and -hp is used. */
  function LowCut(modulation: string, lpCut: int, hpCut: int): int
  {
    if modulation == "am" then -hpCut else lpCut
  }

  /** The commands each stream kind's `_setup_rx_params` sends, in order. */
  function RxCommands(rx: RxSetup): seq<Command>
  {
    match rx
    case SoundSetup(mode, lp, hp, freq, gain, comp, user) =>
      [Mod(Lower(mode), LowCut(mode, lp, hp), hp, freq), AgcCommand(gain)]
      + (if comp then [] else [Compression(false)])
      + [InactivityTimeout(0), IdentUser(user)]
    case WaterfallSetup(user) =>
      [ZoomStart(0, 0), MaxMinDb(-10, -110), WfComp(false), WfSpeed(1), InactivityTimeout(0), IdentUser(user)]
  }

  /**
   * Both kinds end with the inactivity timeout switched off and the user
   * name; the sound kind starts with the lower-cased mode and disables
   * compression exactly when the option says so; the waterfall kind always
   * disables waterfall compression.
   */
  lemma RxCommandsShape(rx: RxSetup)
    ensures var cmds := RxCommands(rx);
            && |cmds| >= 2 && cmds[|cmds| - 2..] == [InactivityTimeout(0), IdentUser(rx.user)]
            && (rx.SoundSetup? ==> cmds[0] == Mod(Lower(rx.modulation), LowCut(rx.modulation, rx.lpCut, rx.hpCut), rx.hpCut, rx.freqHz))
            && (rx.SoundSetup? ==> (Compression(false) in cmds <==> !rx.compression))
            && (rx.WaterfallSetup? ==> WfComp(false) in cmds && Compression(false) !in cmds)
  {
    var cmds := RxCommands(rx);
    if rx.SoundSetup? && rx.compression {
      assert cmds == [cmds[0], cmds[1], InactivityTimeout(0), IdentUser(rx.user)];
    }
  }

  /** `_setup_rx_params`: sends RxCommands and records the modulation and compression it sets. */
  function SetupRx(s: Session, rx: RxSetup): (r: Session)
    ensures r.sent == s.sent + RxCommands(rx)
    ensures r.sampleRate == s.sampleRate && r.versionMajor == s.versionMajor && r.versionMinor == s.versionMinor
    ensures rx.WaterfallSetup? ==> !r.compression && r.modulation == s.modulation
    ensures rx.SoundSetup? ==> r.modulation == Some(Lower(rx.modulation))
    ensures rx.SoundSetup? ==> r.compression == (s.compression && rx.compression)
  {
    match rx
    case SoundSetup(mode, _, _, _, _, comp, _) =>
      s.(modulation := Some(Lower(mode)), compression := if comp then s.compression else false,
         sent := s.sent + RxCommands(rx))
    case WaterfallSetup(_) =>
      s.(compression := false, sent := s.sent + RxCommands(rx))
  }

  /** int(value): None for a missing or malformed value (Python's `int()` accepts bytes). */
  function IntValue(value: Option<seq<byte>>): Option<int>
  {
    if value.None? then None else ParseInt(Latin1(value.value))
  }

  /** int(float(value)), the sample rate as the recorder uses it. */
  function SampleRateValue(value: Option<seq<byte>>): Option<int>
  {
    if value.None? then None else ParseDecimalTruncated(Latin1(value.value))
  }

  /** The commands sent on `sample_rate` before the rx parameters. */
  const SampleRatePreamble: seq<Command> := [Squelch(0, 0), Autonotch(0), GenAttn(0), Gen(0, -1)]

  /**
   * _process_msg_param with the intended `badp` check (value equal to "1"):
   * the three fatal names are checked first, then the data items.
   */
  function HandleParam(s: Session, rx: RxSetup, name: string, value: Option<seq<byte>>): Step
  {
    if name == "too_busy" then Step(s, Some(TooBusy(value)))
    else if IsBadPassword(name, value) then Step(s, Some(BadPassword))
    else if name == "down" then Step(s, Some(Down))
    else DataItem(s, rx, name, value)
  }

  /** The data items of _process_msg_param, once no fatal name matched. */
  function DataItem(s: Session, rx: RxSetup, name: string, value: Option<seq<byte>>): Step
  {
    if name == "audio_rate" then
      match IntValue(value)
      case None => Step(s, Some(ParseFailure(value)))
      case Some(v) => Step(s.(sent := s.sent + [ArOk(v, 44100)]), None)
    else if name == "sample_rate" then
      match SampleRateValue(value)
      case None => Step(s, Some(ParseFailure(value)))
      case Some(v) => Step(NewSampleRate(s, rx, v), None)
    else if name == "wf_setup" then Step(RxSetupAndKeepalive(s, rx), None)
    else if name == "version_maj" then Step(s.(versionMajor := value), None)
    else if name == "version_min" then Step(s.(versionMinor := value), None)
    else Step(s, None)
  }

  /** What int()/float() raise: TypeError for a bare flag (None), ValueError for malformed text. */
  function ParseFailure(value: Option<seq<byte>>): Raised
  {
    if value.None? then TypeError else ValueError
  }

  /** The rx parameters followed by a keepalive. */
  function RxSetupAndKeepalive(s: Session, rx: RxSetup): Session
  {
    var s1 := SetupRx(s, rx);
    s1.(sent := s1.sent + [Keepalive])
  }

  /** `sample_rate`: the rate is stored, then the preamble, the rx parameters and a keepalive are sent. */
  function NewSampleRate(s: Session, rx: RxSetup, rate: int): Session
  {
    RxSetupAndKeepalive(s.(sampleRate := Some(rate), sent := s.sent + SampleRatePreamble), rx)
  }

  /** The intended bad-password test: the name is `badp` and the value is exactly "1". */
  predicate IsBadPassword(name: string, value: Option<seq<byte>>)
  {
    name == "badp" && value == Some(AsciiBytes("1"))
  }

  /**
   * The test as written compares the bytes value with the str '1'; bytes and
   * str are never equal in Python 3, so the test holds for no name and no value.
   */
  predicate IsBadPasswordAsWritten(name: string, value: Option<seq<byte>>)
  {
    false
  }

  /** _process_msg_param as written: the `badp` test can never fire. */
  function HandleParamAsWritten(s: Session, rx: RxSetup, name: string, value: Option<seq<byte>>): Step
  {
    if name == "too_busy" then Step(s, Some(TooBusy(value)))
    else if IsBadPasswordAsWritten(name, value) then Step(s, Some(BadPassword))
    else if name == "down" then Step(s, Some(Down))
    else DataItem(s, rx, name, value)
  }

  /**
   * As written, `badp=1` falls through to the data items, which ignore it:
   * no exception, nothing sent, no field changed. The intended test raises
   * BadPassword for the same input.
   */
  lemma BadPasswordNeverRaisedAsWritten(s: Session, rx: RxSetup)
    ensures !IsBadPasswordAsWritten("badp", Some(AsciiBytes("1")))
    ensures HandleParamAsWritten(s, rx, "badp", Some(AsciiBytes("1"))) == Step(s, None)
    ensures HandleParam(s, rx, "badp", Some(AsciiBytes("1"))) == Step(s, Some(BadPassword))
  {
  }

  /** One token of a control message: `name=value` split at the first '=', or a bare flag. */
  function HandleToken(s: Session, rx: RxSetup, token: seq<byte>): Step
  {
    if Equals in token then
      var (name, value) := SplitFirst(token, Equals);
      HandleParam(s, rx, Latin1(name), Some(value))
    else HandleParam(s, rx, Latin1(token), None)
  }

  const Space: byte := 0x20
  const Equals: byte := 0x3D

  /** The tokens handled in order; an exception ends the message and keeps what earlier tokens did. */
  function HandleTokens(s: Session, rx: RxSetup, tokens: seq<seq<byte>>): Step
    decreases |tokens|
  {
    if tokens == [] then Step(s, None)
    else
      var before := HandleTokens(s, rx, tokens[..|tokens| - 1]);
      if before.error.Some? then before else HandleToken(before.session, rx, tokens[|tokens| - 1])
  }

  /** _process_msg: the body split on single spaces, one parameter per token. */
  function HandleMsg(s: Session, rx: RxSetup, body: seq<byte>): Step
  {
    HandleTokens(s, rx, Split(body, Space))
  }

  /** The fatal names raise before any data item is looked at, and change nothing. */
  lemma FatalParams(s: Session, rx: RxSetup, name: string, value: Option<seq<byte>>)
    ensures name == "too_busy" ==> HandleParam(s, rx, name, value) == Step(s, Some(TooBusy(value)))
    ensures name == "down" ==> HandleParam(s, rx, name, value) == Step(s, Some(Down))
    ensures name == "badp" ==>
      (HandleParam(s, rx, name, value).error == Some(BadPassword) <==> value == Some(AsciiBytes("1")))
    ensures HandleParam(s, rx, name, value).error.Some? ==> HandleParam(s, rx, name, value).session == s
  {
  }

  /**
   * What each data item does to the session: only `sample_rate` sets the
   * rate, only the version names set the versions, and only the three
   * reply-producing names send anything, always appending to the log.
   */
  lemma ParamEffects(s: Session, rx: RxSetup, name: string, value: Option<seq<byte>>)
    ensures var r := HandleParam(s, rx, name, value).session;
            && s.sent <= r.sent
            && (r.sampleRate != s.sampleRate ==> name == "sample_rate")
            && (r.versionMajor != s.versionMajor ==> name == "version_maj")
            && (r.versionMinor != s.versionMinor ==> name == "version_min")
            && (r.sent != s.sent ==> name == "audio_rate" || name == "sample_rate" || name == "wf_setup")
            && (name == "version_maj" ==> r == s.(versionMajor := value))
            && (name == "version_min" ==> r == s.(versionMinor := value))
  {
    ParamSends(s, rx, name, value);
    ParamFields(s, rx, name, value);
  }

  /** Only audio_rate, sample_rate and wf_setup send anything, and only by appending. */
  lemma ParamSends(s: Session, rx: RxSetup, name: string, value: Option<seq<byte>>)
    ensures var r := HandleParam(s, rx, name, value).session;
            && s.sent <= r.sent
            && (r.sent != s.sent ==> name == "audio_rate" || name == "sample_rate" || name == "wf_setup")
  {
    ParamNamesDistinct();
    var r := HandleParam(s, rx, name, value).session;
    if name == "audio_rate" || name == "wf_setup" {
      SetupReplies(s, rx, value);
    } else if name == "sample_rate" && SampleRateValue(value).Some? {
      SampleRateReply(s, rx, value);
    } else {
      QuietParam(s, rx, name, value);
    }
  }

  /** Every other parameter, and a sample_rate that does not parse, sends nothing. */
  lemma QuietParam(s: Session, rx: RxSetup, name: string, value: Option<seq<byte>>)
    requires name != "audio_rate" && name != "wf_setup"
    requires name == "sample_rate" ==> SampleRateValue(value).None?
    ensures HandleParam(s, rx, name, value).session.sent == s.sent
  {
  }


  /** Each stored field changes only under its own parameter name. */
  lemma ParamFields(s: Session, rx: RxSetup, name: string, value: Option<seq<byte>>)
    ensures var r := HandleParam(s, rx, name, value).session;
            && (r.sampleRate != s.sampleRate ==> name == "sample_rate")
            && (r.versionMajor != s.versionMajor ==> name == "version_maj")
            && (r.versionMinor != s.versionMinor ==> name == "version_min")
            && (name == "version_maj" ==> r == s.(versionMajor := value))
            && (name == "version_min" ==> r == s.(versionMinor := value))
  {
    ParamNamesDistinct();
  }

  /** The parameter names of equal length differ in a character. */
  lemma ParamNamesDistinct()
    ensures "too_busy" != "wf_setup" && "badp" != "down"
    ensures "sample_rate" != "version_maj" && "sample_rate" != "version_min" && "version_maj" != "version_min"
  {
    assert "too_busy"[0] != "wf_setup"[0];
    assert "badp"[0] != "down"[0];
    assert "sample_rate"[0] != "version_maj"[0];
    assert "sample_rate"[0] != "version_min"[0];
    assert "version_maj"[10] != "version_min"[10];
  }



  /**
   * `sample_rate=v` stores the rate and sends squelch, autonotch, genattn,
   * gen, the rx parameters and a keepalive, in that order.
   */
  lemma SampleRateReply(s: Session, rx: RxSetup, value: Option<seq<byte>>)
    requires SampleRateValue(value).Some?
    ensures var r := HandleParam(s, rx, "sample_rate", value);
            && r.error.None?
            && r.session.sampleRate == SampleRateValue(value)
            && r.session.sent == s.sent + [Squelch(0, 0), Autonotch(0), GenAttn(0), Gen(0, -1)] + RxCommands(rx) + [Keepalive]
  {
  }

  /** `wf_setup` sends the rx parameters and then a keepalive; `audio_rate=v` answers AR OK in=v out=44100. */
  lemma SetupReplies(s: Session, rx: RxSetup, value: Option<seq<byte>>)
    ensures HandleParam(s, rx, "wf_setup", value).session.sent == s.sent + RxCommands(rx) + [Keepalive]
    ensures IntValue(value).Some? ==>
      HandleParam(s, rx, "audio_rate", value) == Step(s.(sent := s.sent + [ArOk(IntValue(value).value, 44100)]), None)
    ensures IntValue(value).None? ==> HandleParam(s, rx, "audio_rate", value) == Step(s, Some(ParseFailure(value)))
    ensures value.None? ==> HandleParam(s, rx, "audio_rate", value).error == Some(TypeError)
  {
  }

  /** A token's value is everything after the first '=', so it may itself contain '='. */
  lemma TokenSplitsAtFirstEquals(s: Session, rx: RxSetup, name: seq<byte>, value: seq<byte>)
    requires Equals !in name
    ensures HandleToken(s, rx, name + [Equals] + value) == HandleParam(s, rx, Latin1(name), Some(value))
  {
    var token := name + [Equals] + value;
    assert token[|name|] == Equals;
    var (n, v) := SplitFirst(token, Equals);
    assert |n| == |name|;
    assert n == token[..|n|] == name;
    assert v == token[|n| + 1..] == value;
  }

  /** A raised exception aborts the message: later tokens have no effect. */
  lemma {:induction false} ErrorAbortsRest(s: Session, rx: RxSetup, a: seq<seq<byte>>, b: seq<seq<byte>>)
    requires HandleTokens(s, rx, a).error.Some?
    ensures HandleTokens(s, rx, a + b) == HandleTokens(s, rx, a)
    decreases |b|
  {
    if b == [] {
      assert a + b == a;
    } else {
      var ab := a + b;
      assert ab[..|ab| - 1] == a + b[..|b| - 1];
      ErrorAbortsRest(s, rx, a, b[..|b| - 1]);
      ErrorStays(s, rx, ab);
    }
  }

  /** While nothing has raised, the last token is handled from where the others left off. */
  lemma NextToken(s: Session, rx: RxSetup, tokens: seq<seq<byte>>)
    requires tokens != [] && HandleTokens(s, rx, tokens[..|tokens| - 1]).error.None?
    ensures HandleTokens(s, rx, tokens) == HandleToken(HandleTokens(s, rx, tokens[..|tokens| - 1]).session, rx, tokens[|tokens| - 1])
  {
  }

  /** Once the tokens before the last one raised, the last one is not handled. */
  lemma ErrorStays(s: Session, rx: RxSetup, tokens: seq<seq<byte>>)
    requires tokens != [] && HandleTokens(s, rx, tokens[..|tokens| - 1]).error.Some?
    ensures HandleTokens(s, rx, tokens) == HandleTokens(s, rx, tokens[..|tokens| - 1])
  {
  }

  /** Tokens are handled front to back: the first token's step, then the rest from where it leaves off. */
  lemma {:induction false} TokensFrontToBack(s: Session, rx: RxSetup, t: seq<byte>, rest: seq<seq<byte>>)
    ensures var first := HandleToken(s, rx, t);
            HandleTokens(s, rx, [t] + rest) == if first.error.Some? then first else HandleTokens(first.session, rx, rest)
    decreases |rest|
  {
    var first := HandleToken(s, rx, t);
    if rest == [] {
      assert [t] + rest == [t];
      assert [t][..0] == [];
    } else {
      var all := [t] + rest;
      assert all[..|all| - 1] == [t] + rest[..|rest| - 1];
      assert all[|all| - 1] == rest[|rest| - 1];
      TokensFrontToBack(s, rx, t, rest[..|rest| - 1]);
      if first.error.Some? {
        ErrorAbortsRest(s, rx, [t], rest);
      }
    }
  }

  /** A message built by joining space-free tokens is handled token by token, in order. */
  lemma MessageIsItsTokens(s: Session, rx: RxSetup, tokens: seq<seq<byte>>)
    requires |tokens| >= 1
    requires forall k :: 0 <= k < |tokens| ==> Space !in tokens[k]
    ensures HandleMsg(s, rx, Join(tokens, Space)) == HandleTokens(s, rx, tokens)
  {
    SplitJoin(tokens, Space);
  }

  /** A message without spaces is a single token. */
  lemma SingleTokenMessage(s: Session, rx: RxSetup, body: seq<byte>)
    requires Space !in body
    ensures HandleMsg(s, rx, body) == HandleToken(s, rx, body)
  {
    var one: seq<seq<byte>> := [body];
    assert Split(body, Space) == one;
    assert one[..0] == [];
    assert HandleTokens(s, rx, one[..0]) == Step(s, None);
    assert HandleTokens(s, rx, one) == HandleToken(s, rx, body);
  }

  /** A `name=value` message of one token, written as ASCII text, is handled as that one parameter. */
  lemma OneParamMessage(s: Session, rx: RxSetup, name: string, value: string)
    requires forall k :: 0 <= k < |name| ==> name[k] as int < 0x100 && name[k] != ' ' && name[k] != '='
    requires forall k :: 0 <= k < |value| ==> value[k] as int < 0x100 && value[k] != ' '
    ensures HandleMsg(s, rx, AsciiBytes(name + "=" + value)) == HandleParam(s, rx, name, Some(AsciiBytes(value)))
  {
    var n := AsciiBytes(name);
    var v := AsciiBytes(value);
    AsciiParamBytes(name, value);
    SingleTokenMessage(s, rx, n + [Equals] + v);
    TokenSplitsAtFirstEquals(s, rx, n, v);
    Latin1OfAscii(name);
  }

  /** The bytes of `name=value`: one token with a single '=' right after the name. */
  lemma AsciiParamBytes(name: string, value: string)
    requires forall k :: 0 <= k < |name| ==> name[k] as int < 0x100 && name[k] != ' ' && name[k] != '='
    requires forall k :: 0 <= k < |value| ==> value[k] as int < 0x100 && value[k] != ' '
    ensures var n, v := AsciiBytes(name), AsciiBytes(value);
            && AsciiBytes(name + "=" + value) == n + [Equals] + v
            && Space !in n + [Equals] + v && Equals !in n
  {
    AsciiAppend(name, "=");
    AsciiAppend(name + "=", value);
    assert AsciiBytes("=") == [Equals];
    AsciiAvoids(name, ' ', Space);
    AsciiAvoids(value, ' ', Space);
    AsciiAvoids(name, '=', Equals);
  }

  /** A character missing from an ASCII string has its byte missing from the string's bytes. */
  lemma AsciiAvoids(s: string, c: char, b: byte)
    requires forall k :: 0 <= k < |s| ==> s[k] as int < 0x100 && s[k] != c
    requires b == c as int
    ensures b !in AsciiBytes(s)
  {
    var a := AsciiBytes(s);
    forall k | 0 <= k < |a|
      ensures a[k] != b
    {
      assert a[k] == s[k] as int;
    }
  }



  /** `MSG sample_rate=12000.000`: the rate is stored and the negotiation sequence ends with a keepalive. */
  lemma SampleRateScenario(rx: RxSetup, name: string, value: string)
    requires name == "sample_rate" && value == "12000.000"
    ensures var r := HandleMsg(InitialSession, rx, AsciiBytes(name + "=" + value));
            && r.error.None?
            && r.session.sampleRate == Some(12000)
            && r.session.sent == SampleRatePreamble + RxCommands(rx) + [Keepalive]
  {
    OneParamMessage(InitialSession, rx, name, value);
    SampleRateText();
    SampleRateReply(InitialSession, rx, Some(AsciiBytes(value)));
    assert [] + SampleRatePreamble == SampleRatePreamble;
  }

  lemma SampleRateText()
    ensures SampleRateValue(Some(AsciiBytes("12000.000"))) == Some(12000)
  {
    Latin1OfAscii("12000.000");
    RateText12000();
    ParseDecimalOfDecimal(12000, "000");
  }

  lemma RateText12000()
    ensures "12000.000" == IntToDecimal(12000) + "." + "000"
  {
    assert NatToDecimal(12) == "12";
    assert NatToDecimal(1200) == "1200";
    assert NatToDecimal(12000) == "12000";
  }

  /** `MSG too_busy=4`: the session fails with TooBusy and nothing is sent. */
  lemma TooBusyScenario(s: Session, rx: RxSetup, name: string, value: string)
    requires name == "too_busy" && value == "4"
    ensures HandleMsg(s, rx, AsciiBytes(name + "=" + value)) == Step(s, Some(TooBusy(Some(AsciiBytes(value)))))
  {
    OneParamMessage(s, rx, name, value);
  }

  /** The three message tags differ from one another. */
  lemma TagsDistinct()
    ensures "MSG" != "SND" && "MSG" != "W/F" && "SND" != "W/F"
  {
    assert "MSG"[0] != "SND"[0] && "MSG"[0] != "W/F"[0] && "SND"[0] != "W/F"[0];
  }

  /** _process_ws_message: the tag is bytes 0..2, byte 3 is skipped, the body starts at byte 4. */
  function SplitMessage(message: seq<byte>): (r: (string, seq<byte>))
  {
    (Latin1(message[..if |message| < 3 then |message| else 3]), if |message| < 4 then [] else message[4..])
  }

  lemma SplitMessageOf(tag: seq<byte>, sep: byte, body: seq<byte>)
    requires |tag| == 3
    ensures SplitMessage(tag + [sep] + body) == (Latin1(tag), body)
  {
    var m := tag + [sep] + body;
    assert m[..3] == tag;
    assert m[4..] == body;
  }

  /** The fixed part of an audio frame: sequence number, S-meter and payload. */
  datatype SndHeader = SndHeader(seqNo: u32, smeter: u16, data: seq<byte>)

  /** `<I` at 0..3 and `>H` at 4..5; a shorter body is a struct.error. */
  function ParseSnd(body: seq<byte>): Option<SndHeader>
  {
    if |body| < 6 then None else Some(SndHeader(U32LE(body[0..4]), U16BE(body[4..6]), body[6..]))
  }

  function EncodeSnd(h: SndHeader): seq<byte>
  {
    PackU32LE(h.seqNo) + PackU16BE(h.smeter) + h.data
  }

  lemma ParseSndOfEncode(h: SndHeader)
    ensures ParseSnd(EncodeSnd(h)) == Some(h)
  {
    var b := EncodeSnd(h);
    assert b[0..4] == PackU32LE(h.seqNo);
    assert b[4..6] == PackU16BE(h.smeter);
    assert b[6..] == h.data;
    U32LEOfPack(h.seqNo);
    U16BEOfPack(h.smeter);
  }

  /** The RSSI estimate in dB from the low 12 bits of the S-meter reading. */
  function Rssi(smeter: u16): (r: int)
    ensures -127 <= r <= 282
    ensures r == (smeter % 0x1000) / 10 - 127
  {
    (smeter % 0x1000) / 10 - 127
  }

  /** The GPS sub-header of an IQ payload. */
  datatype Gps = Gps(solution: byte, dummy: byte, gpssec: u32, gpsnsec: u32)

  const NoGps: Gps := Gps(0, 0, 0, 0)

  datatype Complex = Complex(re: int, im: int)

  datatype IqPayload = IqPayload(gps: Gps, samples: seq<Complex>)

  /**
   * The IQ payload: `<BBII` GPS header, then big-endian int16 values paired
   * as (even, odd). With an odd count of at least 3 numpy cannot fit the
   * ceil(count/2) real parts into count//2 slots and raises.
   */
  function ParseIq(data: seq<byte>): (r: Option<IqPayload>)
    ensures r.Some? ==> |r.value.samples| == (|data| - 10) / 4 && ComplexI16(r.value.samples)
  {
    if |data| < 10 then None
    else
      var gps := Gps(data[0], data[1], U32LE(data[2..6]), U32LE(data[6..10]));
      var rest := data[10..];
      var count := |rest| / 2;
      if count % 2 == 1 && count > 1 then None
      else
        Some(IqPayload(gps, seq(count / 2, k requires 0 <= k < count / 2 =>
          Complex(I16BE(rest[4 * k..4 * k + 2]), I16BE(rest[4 * k + 2..4 * k + 4])))))
  }

  function EncodeGps(g: Gps): (b: seq<byte>)
    ensures |b| == 10
  {
    [g.solution, g.dummy] + PackU32LE(g.gpssec) + PackU32LE(g.gpsnsec)
  }

  predicate ComplexI16(s: seq<Complex>)
  {
    forall k :: 0 <= k < |s| ==> -0x8000 <= s[k].re < 0x8000 && -0x8000 <= s[k].im < 0x8000
  }

  function EncodeComplexBE(s: seq<Complex>): (b: seq<byte>)
    requires ComplexI16(s)
    ensures |b| == 4 * |s|
  {
    if s == [] then [] else PackI16BE(s[0].re) + PackI16BE(s[0].im) + EncodeComplexBE(s[1..])
  }

  lemma {:induction false} EncodeComplexBEAt(s: seq<Complex>, k: nat)
    requires ComplexI16(s) && k < |s|
    ensures EncodeComplexBE(s)[4 * k..4 * k + 2] == PackI16BE(s[k].re)
    ensures EncodeComplexBE(s)[4 * k + 2..4 * k + 4] == PackI16BE(s[k].im)
  {
    var re, im := PackI16BE(s[0].re), PackI16BE(s[0].im);
    var t := EncodeComplexBE(s[1..]);
    assert EncodeComplexBE(s) == re + im + t;
    if k == 0 {
      FirstGroup(re, im, t);
    } else {
      EncodeComplexBEAt(s[1..], k - 1);
      assert s[1..][k - 1] == s[k];
      LaterGroup(re + im, t, k - 1, PackI16BE(s[k].re), PackI16BE(s[k].im));
    }
  }

  lemma FirstGroup(re: seq<byte>, im: seq<byte>, t: seq<byte>)
    requires |re| == 2 && |im| == 2
    ensures (re + im + t)[0..2] == re && (re + im + t)[2..4] == im
  {
    assert (re + im + t)[0..2] == re;
    assert (re + im + t)[2..4] == im;
  }

  lemma LaterGroup(head: seq<byte>, t: seq<byte>, j: nat, a: seq<byte>, b: seq<byte>)
    requires |head| == 4 && 4 * j + 4 <= |t|
    requires t[4 * j..4 * j + 2] == a && t[4 * j + 2..4 * j + 4] == b
    ensures (head + t)[4 * (j + 1)..4 * (j + 1) + 2] == a
    ensures (head + t)[4 * (j + 1) + 2..4 * (j + 1) + 4] == b
  {
    assert (head + t)[4 * (j + 1)..4 * (j + 1) + 2] == t[4 * j..4 * j + 2];
    assert (head + t)[4 * (j + 1) + 2..4 * (j + 1) + 4] == t[4 * j + 2..4 * j + 4];
  }



  /** An IQ payload reads back the GPS record and the complex samples it was built from. */
  lemma ParseIqOfEncode(g: Gps, s: seq<Complex>)
    requires ComplexI16(s)
    ensures ParseIq(EncodeGps(g) + EncodeComplexBE(s)) == Some(IqPayload(g, s))
  {
    var data := EncodeGps(g) + EncodeComplexBE(s);
    GpsOfEncode(g, EncodeComplexBE(s));
    IqSamplesOfEncode(s);
    var r := ParseIq(data);
    assert r.Some?;
    assert r.value.samples == s;
  }

  /** The ten GPS bytes read back as the record they encode, and the payload follows them. */
  lemma GpsOfEncode(g: Gps, rest: seq<byte>)
    ensures var data := EncodeGps(g) + rest;
            && data[0] == g.solution && data[1] == g.dummy
            && U32LE(data[2..6]) == g.gpssec && U32LE(data[6..10]) == g.gpsnsec
            && data[10..] == rest
  {
    var data := EncodeGps(g) + rest;
    assert data[2..6] == PackU32LE(g.gpssec);
    assert data[6..10] == PackU32LE(g.gpsnsec);
    U32LEOfPack(g.gpssec);
    U32LEOfPack(g.gpsnsec);
  }

  /** Each 4-byte group of the encoded samples reads back as its complex sample. */
  lemma IqSamplesOfEncode(s: seq<Complex>)
    requires ComplexI16(s)
    ensures var rest := EncodeComplexBE(s);
            && |rest| / 2 % 2 == 0 && |rest| / 2 / 2 == |s|
            && forall k :: 0 <= k < |s| ==>
              Complex(I16BE(rest[4 * k..4 * k + 2]), I16BE(rest[4 * k + 2..4 * k + 4])) == s[k]
  {
    var rest := EncodeComplexBE(s);
    assert |rest| / 2 == 2 * |s|;
    forall k | 0 <= k < |s|
      ensures Complex(I16BE(rest[4 * k..4 * k + 2]), I16BE(rest[4 * k + 2..4 * k + 4])) == s[k]
    {
      EncodeComplexBEAt(s, k);
      I16BEOfPack(s[k].re);
      I16BEOfPack(s[k].im);
    }
  }

  /** Raw audio: count = len//2 big-endian int16 samples, an odd trailing byte ignored. */
  function PcmBE(data: seq<byte>): (r: seq<int>)
    ensures |r| == |data| / 2 && AllI16(r)
  {
    seq(|data| / 2, k requires 0 <= k < |data| / 2 => I16BE(data[2 * k..2 * k + 2]))
  }

  function EncodePcmBE(s: seq<int>): (b: seq<byte>)
    requires AllI16(s)
    ensures |b| == 2 * |s|
  {
    if s == [] then [] else PackI16BE(s[0]) + EncodePcmBE(s[1..])
  }

  lemma {:induction false} PcmBEOfEncode(s: seq<int>)
    requires AllI16(s)
    ensures PcmBE(EncodePcmBE(s)) == s
  {
    var b := EncodePcmBE(s);
    forall k | 0 <= k < |s|
      ensures PcmBE(b)[k] == s[k]
    {
      EncodePcmBEAt(s, k);
      I16BEOfPack(s[k]);
    }
  }

  lemma {:induction false} EncodePcmBEAt(s: seq<int>, k: nat)
    requires AllI16(s) && k < |s|
    ensures EncodePcmBE(s)[2 * k..2 * k + 2] == PackI16BE(s[k])
  {
    if k > 0 {
      EncodePcmBEAt(s[1..], k - 1);
    }
  }

  /** The fixed part of a waterfall frame. */
  datatype WfHeader = WfHeader(xBin: u32, flags: u32, seqNo: u32, data: seq<byte>)

  /** Three `<I` fields at 0, 4 and 8, the payload from 12; shorter is a struct.error. */
  function ParseWf(body: seq<byte>): Option<WfHeader>
  {
    if |body| < 12 then None
    else Some(WfHeader(U32LE(body[0..4]), U32LE(body[4..8]), U32LE(body[8..12]), body[12..]))
  }

  function EncodeWf(h: WfHeader): seq<byte>
  {
    PackU32LE(h.xBin) + PackU32LE(h.flags) + PackU32LE(h.seqNo) + h.data
  }

  lemma ParseWfOfEncode(h: WfHeader)
    ensures ParseWf(EncodeWf(h)) == Some(h)
  {
    var b := EncodeWf(h);
    assert b[0..4] == PackU32LE(h.xBin);
    assert b[4..8] == PackU32LE(h.flags);
    assert b[8..12] == PackU32LE(h.seqNo);
    assert b[12..] == h.data;
    U32LEOfPack(h.xBin);
    U32LEOfPack(h.flags);
    U32LEOfPack(h.seqNo);
  }

  /** Uncompressed waterfall data: one sample per byte, equal to the byte. */
  function ByteSamples(data: seq<byte>): (r: seq<int>)
    ensures |r| == |data|
    ensures forall k :: 0 <= k < |data| ==> r[k] == data[k]
  {
    seq(|data|, k requires 0 <= k < |data| => data[k] as int)
  }

  /** The decompression tail removed: all but the last n samples, nothing when there are fewer. */
  function DropTail(s: seq<int>, n: nat): (r: seq<int>)
    ensures |r| == if |s| >= n then |s| - n else 0
    ensures r <= s
  {
    if |s| >= n then s[..|s| - n] else []
  }

  /** Python's s[:end], where a negative end counts from the back. */
  function SliceTo(s: seq<int>, end: int): (r: seq<int>)
    ensures r <= s
  {
    if end >= 0 then s[..if end <= |s| then end else |s|]
    else if |s| + end >= 0 then s[..|s| + end]
    else []
  }

  /** `samples[:len(samples)-10]` as written. */
  function DropTailAsWritten(s: seq<int>): seq<int>
  {
    SliceTo(s, |s| - 10)
  }

  /**
   * The two agree except on 6 to 9 samples, where the negative slice end
   * keeps 2·len-10 samples; a 4-byte compressed frame decodes to 8 samples
   * and keeps 6 of them instead of none.
   */
  lemma DropTailAsWrittenDiffers(s: seq<int>)
    ensures (|s| >= 10 || |s| <= 5) ==> DropTailAsWritten(s) == DropTail(s, 10)
    ensures 6 <= |s| < 10 ==> |DropTailAsWritten(s)| == 2 * |s| - 10 && |DropTail(s, 10)| == 0
    ensures |DropTailAsWritten([0, 0, 0, 0, 0, 0, 0, 0])| == 6
  {
  }

  /** What a stream handler hands on to the recorder (its overridden processing hook). */
  datatype Received =
    | Control(error: Option<Raised>)
    | Audio(seqNo: u32, samples: seq<int>, rssi: int)
    | IqAudio(seqNo: u32, iq: seq<Complex>, rssi: int, gps: Gps)
    | AudioFailed(failure: Raised)
    | Waterfall(seqNo: u32, samples: seq<int>)
    | WaterfallFailed(failure: Raised)
    | UnknownTag

  /**
   * _process_aud: header, then IQ, ADPCM or raw PCM by the session's
   * modulation and compression; returns what is delivered and the decoder
   * state after it. The decoder is never reset here.
   */
  function AudioFrame(s: Session, c: Codec, body: seq<byte>): (r: (Received, Codec))
  {
    match ParseSnd(body)
    case None => (AudioFailed(StructError), c)
    case Some(h) =>
      var rssi := Rssi(h.smeter);
      if s.modulation == Some("iq") then
        if |h.data| < 10 then (AudioFailed(StructError), c)
        else match ParseIq(h.data)
          case None => (AudioFailed(BroadcastError), c)
          case Some(iq) => (IqAudio(h.seqNo, iq.samples, rssi, iq.gps), c)
      else if s.compression then
        var d := DecodeBytes(c, h.data);
        (Audio(h.seqNo, d.1, rssi), d.0)
      else (Audio(h.seqNo, PcmBE(h.data), rssi), c)
  }

  /**
   * _process_wf: header, then for compressed frames a decoder reset, a
   * decode and the tail dropped; otherwise one sample per byte.
   */
  function WaterfallFrame(s: Session, c: Codec, body: seq<byte>): (r: (Received, Codec))
  {
    match ParseWf(body)
    case None => (WaterfallFailed(StructError), c)
    case Some(h) =>
      if s.compression then
        var d := DecodeBytes(Initial, h.data);
        (Waterfall(h.seqNo, DropTail(d.1, 10)), d.0)
      else (Waterfall(h.seqNo, ByteSamples(h.data)), c)
  }

  /**
   * Waterfall frames do not depend on the decoder state they find, and a
   * compressed one yields max(0, 2·len(payload) − 10) samples.
   */
  lemma WaterfallIgnoresDecoderState(s: Session, c1: Codec, c2: Codec, body: seq<byte>)
    ensures WaterfallFrame(s, c1, body).0 == WaterfallFrame(s, c2, body).0
    ensures s.compression && ParseWf(body).Some? ==>
      var n := 2 * |ParseWf(body).value.data| - 10;
      WaterfallFrame(s, c1, body).0.Waterfall? &&
      |WaterfallFrame(s, c1, body).0.samples| == if n > 0 then n else 0
    ensures !s.compression && ParseWf(body).Some? ==>
      WaterfallFrame(s, c1, body).0 == Waterfall(ParseWf(body).value.seqNo, ByteSamples(ParseWf(body).value.data))
  {
  }

  /**
   * Compressed audio frames carry the decoder state on: the samples of two
   * consecutive frames are those of their payloads decoded as one stream.
   */
  lemma AudioFramesContinue(s: Session, c: Codec, h1: SndHeader, h2: SndHeader)
    requires s.modulation != Some("iq") && s.compression
    ensures var (r1, c1) := AudioFrame(s, c, EncodeSnd(h1));
            var (r2, c2) := AudioFrame(s, c1, EncodeSnd(h2));
            r1.Audio? && r2.Audio? &&
            r1.samples + r2.samples == DecodeBytes(c, h1.data + h2.data).1 &&
            c2 == DecodeBytes(c, h1.data + h2.data).0
  {
    ParseSndOfEncode(h1);
    ParseSndOfEncode(h2);
    DecodeAppend(c, h1.data, h2.data);
  }

  /** An IQ frame of a 10-byte GPS header and 8 payload bytes delivers 2 complex samples and that GPS record. */
  lemma IqScenario(seqNo: u32, smeter: u16, g: Gps, a: Complex, b: Complex, s: Session, c: Codec)
    requires s.modulation == Some("iq")
    requires ComplexI16([a, b])
    ensures var data := EncodeGps(g) + EncodeComplexBE([a, b]);
            |data| == 18 &&
            AudioFrame(s, c, EncodeSnd(SndHeader(seqNo, smeter, data))).0 == IqAudio(seqNo, [a, b], Rssi(smeter), g)
  {
    var data := EncodeGps(g) + EncodeComplexBE([a, b]);
    ParseSndOfEncode(SndHeader(seqNo, smeter, data));
    ParseIqOfEncode(g, [a, b]);
  }

  /** Every sample an audio frame delivers is a 16-bit value, whichever path decoded it. */
  lemma AudioFrameSamplesI16(s: Session, c: Codec, body: seq<byte>)
    ensures var r := AudioFrame(s, c, body).0;
            && (r.Audio? ==> AllI16(r.samples))
            && (r.IqAudio? ==> ComplexI16(r.iq))
  {
  }

  /** The stream object: session fields, the sent log and its ADPCM decoder. */
  class KiwiSDRStream {
    var sampleRate: Option<int>
    var versionMajor: Option<seq<byte>>
    var versionMinor: Option<seq<byte>>
    var modulation: Option<string>
    var compression: bool
    var sent: seq<Command>
    const decoder: ImaAdpcmDecoder
    const rx: RxSetup

    function State(): Session
      reads this
    {
      Session(sampleRate, versionMajor, versionMinor, modulation, compression, sent)
    }

    ghost predicate Valid()
      reads this, decoder
    {
      decoder.Valid()
    }

    constructor (rx: RxSetup)
      ensures Valid() && fresh(decoder)
      ensures State() == InitialSession && this.rx == rx && decoder.State() == Initial
    {
      sampleRate, versionMajor, versionMinor, modulation := None, None, None, None;
      compression := true;
      sent := [];
      decoder := new ImaAdpcmDecoder();
      this.rx := rx;
    }

    /** _send_message: the command goes to the transport, modelled as the sent log. */
    method SendMessage(c: Command)
      modifies this`sent
      ensures sent == old(sent) + [c]
    {
      sent := sent + [c];
    }

    /** open: authenticate as client type "kiwi". */
    method Open(password: string)
      modifies this`sent
      ensures sent == old(sent) + [Auth("kiwi", password)]
    {
      SetAuth("kiwi", password);
    }

    method SetAuth(clientType: string, password: string)
      modifies this`sent
      ensures sent == old(sent) + [Auth(clientType, password)]
    {
      SendMessage(Auth(clientType, password));
    }

    method SetName(name: string)
      modifies this`sent
      ensures sent == old(sent) + [IdentUser(name)]
    {
      SendMessage(IdentUser(name));
    }

    method SetGeo(geo: string)
      modifies this`sent
      ensures sent == old(sent) + [Geo(geo)]
    {
      SendMessage(Geo(geo));
    }

    method SetInactivityTimeout(timeout: int)
      modifies this`sent
      ensures sent == old(sent) + [InactivityTimeout(timeout)]
    {
      SendMessage(InactivityTimeout(timeout));
    }

    method SetKeepalive()
      modifies this`sent
      ensures sent == old(sent) + [Keepalive]
    {
      SendMessage(Keepalive);
    }

    /** set_mod: lower-cases the mode, remembers it as the modulation, and sends it. */
    method SetMod(mode: string, lowCut: int, highCut: int, freqHz: int)
      modifies this`sent, this`modulation
      ensures modulation == Some(Lower(mode))
      ensures sent == old(sent) + [Mod(Lower(mode), lowCut, highCut, freqHz)]
    {
      var m := Lower(mode);
      modulation := Some(m);
      SendMessage(Mod(m, lowCut, highCut, freqHz));
    }

    method SetAgc(on: bool, hang: bool, thresh: int, slope: int, decay: int, gain: int)
      modifies this`sent
      ensures sent == old(sent) + [Agc(on, hang, thresh, slope, decay, gain)]
    {
      SendMessage(Agc(on, hang, thresh, slope, decay, gain));
    }

    method SetSquelch(sq: int, thresh: int)
      modifies this`sent
      ensures sent == old(sent) + [Squelch(sq, thresh)]
    {
      SendMessage(Squelch(sq, thresh));
    }

    method SetAutonotch(value: int)
      modifies this`sent
      ensures sent == old(sent) + [Autonotch(value)]
    {
      SendMessage(Autonotch(value));
    }

    method SetArOk(arIn: int, arOut: int)
      modifies this`sent
      ensures sent == old(sent) + [ArOk(arIn, arOut)]
    {
      SendMessage(ArOk(arIn, arOut));
    }

    /** _set_gen: the attenuation first, then the generator frequency with mix -1. */
    method SetGen(freq: int, attn: int)
      modifies this`sent
      ensures sent == old(sent) + [GenAttn(attn), Gen(freq, -1)]
    {
      SendMessage(GenAttn(attn));
      SendMessage(Gen(freq, -1));
    }

    method SetZoomStart(zoom: int, start: int)
      modifies this`sent
      ensures sent == old(sent) + [ZoomStart(zoom, start)]
    {
      SendMessage(ZoomStart(zoom, start));
    }

    method SetMaxDbMinDb(maxDb: int, minDb: int)
      modifies this`sent
      ensures sent == old(sent) + [MaxMinDb(maxDb, minDb)]
    {
      SendMessage(MaxMinDb(maxDb, minDb));
    }

    /** _set_snd_comp: records the compression flag and sends it. */
    method SetSndComp(comp: bool)
      modifies this`sent, this`compression
      ensures compression == comp && sent == old(sent) + [Compression(comp)]
    {
      compression := comp;
      SendMessage(Compression(comp));
    }

    /** _set_wf_comp: records the compression flag and sends it. */
    method SetWfComp(comp: bool)
      modifies this`sent, this`compression
      ensures compression == comp && sent == old(sent) + [WfComp(comp)]
    {
      compression := comp;
      SendMessage(WfComp(comp));
    }

    method SetWfSpeed(speed: int)
      modifies this`sent
      ensures sent == old(sent) + [WfSpeed(speed)]
    {
      SendMessage(WfSpeed(speed));
    }

    /** _setup_rx_params, dispatched on the stream kind. */
    method SetupRxParams()
      modifies this`sent, this`compression, this`modulation
      ensures State() == SetupRx(old(State()), rx)
    {
      if rx.SoundSetup? {
        SetupSoundRxParams();
      } else {
        SetupWaterfallRxParams();
      }
    }

    /** The sound stream's _setup_rx_params: mode, AGC, optionally no compression, timeout and name. */
    method SetupSoundRxParams()
      requires rx.SoundSetup?
      modifies this`sent, this`compression, this`modulation
      ensures State() == SetupRx(old(State()), rx)
    {
      var lowCut := rx.lpCut;
      if rx.modulation == "am" {
        lowCut := -rx.hpCut;
      }
      SetMod(rx.modulation, lowCut, rx.hpCut, rx.freqHz);
      SetGainAndCompression();
      SetInactivityTimeout(0);
      SetName(rx.user);
      assert sent == old(sent) + RxCommands(rx);
    }

    /** The sound setup's AGC command and, when the option turns it off, the compression command. */
    method SetGainAndCompression()
      requires rx.SoundSetup?
      modifies this`sent, this`compression
      ensures sent == old(sent) + [AgcCommand(rx.agcGain)] + (if rx.compression then [] else [Compression(false)])
      ensures compression == (old(compression) && rx.compression)
    {
      if rx.agcGain.Some? {
        SetAgc(false, false, -100, 6, 1000, rx.agcGain.value);
      } else {
        SetAgc(true, false, -100, 6, 1000, 50);
      }
      if !rx.compression {
        SetSndComp(false);
      }
    }

    /** The waterfall stream's _setup_rx_params: zoom, dB range, no compression, speed, timeout and name. */
    method SetupWaterfallRxParams()
      requires rx.WaterfallSetup?
      modifies this`sent, this`compression, this`modulation
      ensures State() == SetupRx(old(State()), rx)
    {
      SetZoomStart(0, 0);
      SetMaxDbMinDb(-10, -110);
      SetWfComp(false);
      SetWfSpeed(1);
      SetInactivityTimeout(0);
      SetName(rx.user);
    }

    /** The `sample_rate` parameter: store the rate, reset squelch, notch and generator, set up the receiver. */
    method ApplySampleRate(rate: int)
      modifies this`sent, this`compression, this`modulation, this`sampleRate
      ensures State() == NewSampleRate(old(State()), rx, rate)
    {
      ghost var s0 := State();
      sampleRate := Some(rate);
      SetSquelch(0, 0);
      SetAutonotch(0);
      SetGen(0, 0);
      assert State() == s0.(sampleRate := Some(rate), sent := s0.sent + SampleRatePreamble);
      SetupRxParams();
      SetKeepalive();
    }

    /** _process_msg_param. */
    method ProcessMsgParam(name: string, value: Option<seq<byte>>) returns (error: Option<Raised>)
      modifies this`sent, this`compression, this`modulation, this`sampleRate, this`versionMajor, this`versionMinor
      ensures Step(State(), error) == HandleParam(old(State()), rx, name, value)
    {
      error := None;
      if name == "too_busy" {
        return Some(TooBusy(value));
      }
      if name == "badp" && value == Some(AsciiBytes("1")) {
        return Some(BadPassword);
      }
      if name == "down" {
        return Some(Down);
      }
      ghost var s0 := State();
      assert HandleParam(s0, rx, name, value) == DataItem(s0, rx, name, value);
      if name == "audio_rate" {
        var v := IntValue(value);
        if v.None? {
          return Some(ParseFailure(value));
        }
        SetArOk(v.value, 44100);
      } else if name == "sample_rate" {
        var v := SampleRateValue(value);
        if v.None? {
          return Some(ParseFailure(value));
        }
        ApplySampleRate(v.value);
      } else if name == "wf_setup" {
        SetupRxParams();
        SetKeepalive();
        assert State() == RxSetupAndKeepalive(s0, rx);
      } else if name == "version_maj" {
        versionMajor := value;
      } else if name == "version_min" {
        versionMinor := value;
      }
    }

    /** _process_msg: one parameter per space-separated token, stopping at the first exception. */
    method ProcessMsg(body: seq<byte>) returns (error: Option<Raised>)
      modifies this`sent, this`compression, this`modulation, this`sampleRate, this`versionMajor, this`versionMinor
      ensures Step(State(), error) == HandleMsg(old(State()), rx, body)
    {
      var pairs := Split(body, Space);
      var i := 0;
      error := None;
      while i < |pairs|
        invariant 0 <= i <= |pairs|
        invariant error.None?
        invariant Step(State(), None) == HandleTokens(old(State()), rx, pairs[..i])
      {
        var pair := pairs[i];
        ghost var before := State();
        if Equals in pair {
          var (name, value) := SplitFirst(pair, Equals);
          error := ProcessMsgParam(Latin1(name), Some(value));
        } else {
          error := ProcessMsgParam(Latin1(pair), None);
        }
        assert Step(State(), error) == HandleToken(before, rx, pair);
        assert pairs[..i + 1][..i] == pairs[..i];
        NextToken(old(State()), rx, pairs[..i + 1]);
        if error.Some? {
          ErrorAbortsRest(old(State()), rx, pairs[..i + 1], pairs[i + 1..]);
          assert pairs[..i + 1] + pairs[i + 1..] == pairs;
          return;
        }
        i := i + 1;
      }
      assert pairs[..i] == pairs;
    }

    /** _process_aud up to the recorder hook. */
    method ProcessAud(body: seq<byte>) returns (r: Received)
      requires Valid()
      modifies decoder
      ensures Valid()
      ensures (r, decoder.State()) == AudioFrame(State(), old(decoder.State()), body)
    {
      var h := ParseSnd(body);
      if h.None? {
        return AudioFailed(StructError);
      }
      var seqNo, smeter, data := h.value.seqNo, h.value.smeter, h.value.data;
      var rssi := Rssi(smeter);
      if modulation == Some("iq") {
        if |data| < 10 {
          return AudioFailed(StructError);
        }
        var iq := ParseIq(data);
        if iq.None? {
          return AudioFailed(BroadcastError);
        }
        r := IqAudio(seqNo, iq.value.samples, rssi, iq.value.gps);
      } else {
        var samples;
        if compression {
          samples := decoder.Decode(data);
        } else {
          samples := PcmBE(data);
        }
        r := Audio(seqNo, samples, rssi);
      }
    }

    /** _process_wf up to the recorder hook. */
    method ProcessWf(body: seq<byte>) returns (r: Received)
      requires Valid()
      modifies decoder
      ensures Valid()
      ensures (r, decoder.State()) == WaterfallFrame(State(), old(decoder.State()), body)
    {
      var h := ParseWf(body);
      if h.None? {
        return WaterfallFailed(StructError);
      }
      var samples;
      if compression {
        decoder.Reset();
        samples := decoder.Decode(h.value.data);
        samples := DropTail(samples, 10);
      } else {
        samples := ByteSamples(h.value.data);
      }
      r := Waterfall(h.value.seqNo, samples);
    }

    /** _process_ws_message and _process_message's dispatch by tag, up to the recorder hooks. */
    method Receive(message: seq<byte>) returns (r: Received)
      requires Valid()
      modifies this`sent, this`compression, this`modulation, this`sampleRate, this`versionMajor, this`versionMinor, decoder
      ensures Valid()
      ensures var (tag, body) := SplitMessage(message);
              && (tag == "MSG" ==> r.Control? && Step(State(), r.error) == HandleMsg(old(State()), rx, body)
                                   && decoder.State() == old(decoder.State()))
              && (tag == "SND" ==> State() == old(State()) && (r, decoder.State()) == AudioFrame(State(), old(decoder.State()), body))
              && (tag == "W/F" ==> State() == old(State()) && (r, decoder.State()) == WaterfallFrame(State(), old(decoder.State()), body))
              && (tag !in {"MSG", "SND", "W/F"} ==> r == UnknownTag && State() == old(State()) && decoder.State() == old(decoder.State()))
    {
      TagsDistinct();
      var (tag, body) := SplitMessage(message);
      if tag == "MSG" {
        var error := ProcessMsg(body);
        r := Control(error);
      } else if tag == "SND" {
        r := ProcessAud(body);
      } else if tag == "W/F" {
        r := ProcessWf(body);
      } else {
        r := UnknownTag;
      }
    }
  }
}
