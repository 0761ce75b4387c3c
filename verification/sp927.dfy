/** The University of Basel SP927 low-noise DAC: eight channels, each
    driven by a 24-bit code `round((V + 10) * 838848)` written in
    upper-case hexadecimal and read back as hexadecimal. */
module SP927 {
  import opened Base

  /** DAC codes per volt. */
  const CodesPerVolt: int := 838848

  /** The DAC has channels 1..8. */
  const NumChannels: int := 8

  const DefaultMin: real := -10.0
  const DefaultMax: real := 10.0

  /** Half of one code step, in volts: the worst error of a set/read round trip. */
  const HalfStep: real := 1.0 / (2.0 * CodesPerVolt as real)

  /** One DAC channel: its number and the voltage range it accepts. */
  datatype Channel = Channel(number: int, minVal: real, maxVal: real)

  /** The instrument: its channel list, in the order `set_all` walks it. */
  datatype Dac = Dac(channels: seq<Channel>)

  /** Creating a channel validates the number against 1..8 and then asserts
      that the range is not empty. */
  function NewChannel(number: int, minVal: real, maxVal: real): (r: Result<Channel>)
    ensures r.Ok? <==> 1 <= number <= NumChannels && minVal < maxVal
    ensures r.Ok? ==> r.value.number == number && r.value.minVal == minVal && r.value.maxVal == maxVal
    ensures !(1 <= number <= NumChannels) ==> r == Err(ValueError)
    ensures 1 <= number <= NumChannels && minVal >= maxVal ==> r == Err(AssertionError)
  {
    if !(1 <= number <= NumChannels) then Err(ValueError)
    else if !(minVal < maxVal) then Err(AssertionError)
    else Ok(Channel(number, minVal, maxVal))
  }

  /** The exact (unrounded) code a voltage corresponds to. */
  function IdealCode(volt: real): real {
    (volt + 10.0) * CodesPerVolt as real
  }

  /** Voltage to DAC code. The range check excludes `maxVal` itself. */
  function VoltToCode(ch: Channel, volt: real): (r: Result<int>)
    ensures r.Ok? <==> ch.minVal <= volt < ch.maxVal
    ensures r.Err? ==> r.error == ValueError
    ensures r.Ok? ==> -1.0 / 2.0 <= r.value as real - IdealCode(volt) <= 1.0 / 2.0
  {
    if volt < ch.minVal || volt >= ch.maxVal then Err(ValueError)
    else Ok(Round(IdealCode(volt)))
  }

  /** The reply cleaner: surrounding whitespace removed. */
  function DacParse(resp: string): (r: string)
    ensures |r| <= |resp|
    ensures |r| == 0 || (!IsSpace(r[0]) && !IsSpace(r[|r| - 1]))
  {
    Strip(resp)
  }

  /** The voltage a code stands for: `code / 838848 - 10`. */
  function CodeVolts(code: int): real {
    code as real / CodesPerVolt as real - 10.0
  }

  /** DAC code reply to voltage: strip, read as hexadecimal, scale. */
  function CodeToVolt(reply: string): Result<real> {
    match ParseInt(DacParse(reply), 16)
    case Err(e) => Err(e)
    case Ok(code) => Ok(CodeVolts(code))
  }

  /** The command that sets channel `chan` to `code`. */
  function SetVoltageCommand(chan: int, code: int): string {
    Decimal(chan) + " " + HexUpper(code)
  }

  /** The command that queries channel `chan`. */
  function ReadVoltageCommand(chan: int): string {
    Decimal(chan) + " V?"
  }

  /** How the instrument reads a set command: a decimal channel number, one
      blank, a hexadecimal code. */
  function ParseSetCommand(cmd: string): Option<(int, int)> {
    match SplitFirst(cmd, ' ')
    case None => None
    case Some(p) =>
      match (ParseInt(p.0, 10), ParseInt(p.1, 16))
      case (Ok(chan), Ok(code)) => Some((chan, code))
      case _ => None
  }

  /** Setting the `volt` parameter of a channel: the parameter validator
      admits `[minVal, maxVal]`, then the set parser converts to a code
      (rejecting `maxVal`), then one command is written. */
  function SetVolt(ch: Channel, volt: real): (r: Result<string>)
    ensures r.Ok? <==> ch.minVal <= volt < ch.maxVal
    ensures r.Err? ==> r.error == ValueError
    ensures r.Ok? ==> match ParseSetCommand(r.value)
      case Some(p) => p.0 == ch.number && -1.0 / 2.0 <= p.1 as real - IdealCode(volt) <= 1.0 / 2.0
      case None => false
  {
    if volt < ch.minVal || volt > ch.maxVal then Err(ValueError)
    else match VoltToCode(ch, volt)
      case Err(e) => Err(e)
      case Ok(code) =>
        SetCommandParses(ch.number, code);
        Ok(SetVoltageCommand(ch.number, code))
  }

  /** Reading the `volt` parameter: one query is written, and the reply is
      stripped, read as hexadecimal and converted back to volts. */
  function ReadVolt(ch: Channel, reply: string): (r: (string, Result<real>))
    ensures |r.0| > 3 && ParseInt(r.0[..|r.0| - 3], 10) == Ok(ch.number) && r.0[|r.0| - 3..] == " V?"
    ensures r.1.Ok? <==> ParseInt(Strip(reply), 16).Ok?
    ensures r.1.Ok? ==> r.1.value == CodeVolts(ParseInt(Strip(reply), 16).value)
    ensures r.1.Err? ==> r.1.error == ValueError
  {
    var cmd := ReadVoltageCommand(ch.number);
    assert cmd[..|cmd| - 3] == Decimal(ch.number);
    ParseFormatIntBare(ch.number, 10);
    (cmd, CodeToVolt(reply))
  }

  /** A set command parses back into the channel and code it was built from. */
  lemma SetCommandParses(chan: int, code: int)
    ensures ParseSetCommand(SetVoltageCommand(chan, code)) == Some((chan, code))
  {
    var a, b := Decimal(chan), HexUpper(code);
    FormatIntSeparators(chan, 10);
    SplitFirstJoin(a, ' ', b);
    assert SetVoltageCommand(chan, code) == a + [' '] + b;
    ParseFormatIntBare(chan, 10);
    ParseFormatIntBare(code, 16);
  }

  /** Reading a code reply, with any whitespace around it, gives `code / 838848 - 10`. */
  lemma CodeToVoltReadsHex(code: int, w1: string, w2: string)
    requires AllSpace(w1) && AllSpace(w2)
    ensures CodeToVolt(w1 + HexUpper(code) + w2) == Ok(CodeVolts(code))
  {
    var s := HexUpper(code);
    FormatIntSeparators(code, 16);
    StripPadded(w1, s, w2);
    assert DacParse(w1 + s + w2) == s;
    ParseFormatIntBare(code, 16);
    assert ParseInt(DacParse(w1 + s + w2), 16) == Ok(code);
  }

  /** The reply is stripped before `int()` sees it, so a trailing separator
      such as \x1c, which `int()` alone rejects, still reads as a code. */
  lemma StripBeforeInt(code: int, sep: char)
    requires sep in StrSpace && sep !in IntSpace
    ensures ParseInt(HexUpper(code) + [sep], 16) == Err(ValueError)
    ensures CodeToVolt(HexUpper(code) + [sep]) == Ok(CodeVolts(code))
  {
    SpaceNotDigit(sep);
    IntRejectsSeparator(code, sep);
    SeparatorStripped(code, sep);
  }

  lemma SpaceNotDigit(c: char)
    requires c in StrSpace
    ensures !IsDigitIn(c, 16)
  {}

  lemma SeparatorStripped(code: int, sep: char)
    requires sep in StrSpace
    ensures CodeToVolt(HexUpper(code) + [sep]) == Ok(CodeVolts(code))
  {
    var h, w := HexUpper(code), [sep];
    var e: string := [];
    assert e + h + w == h + [sep];
    assert AllSpace(w);
    CodeToVoltReadsHex(code, e, w);
  }

  lemma IntRejectsSeparator(code: int, sep: char)
    requires sep !in IntSpace && !IsDigitIn(sep, 16)
    ensures ParseInt(HexUpper(code) + [sep], 16) == Err(ValueError)
  {
    var h := HexUpper(code);
    var s := h + [sep];
    var e: string := [];
    FormatIntSeparators(code, 16);
    assert s[0] == h[0];
    TrimPadded(e, s, e, IntSpace);
    assert e + s + e == s;
    TrailingNonDigit(s, sep);
  }

  /** Text ending in a non-digit is not an integer. */
  lemma TrailingNonDigit(s: string, c: char)
    requires |s| > 0 && s[|s| - 1] == c && !IsDigitIn(c, 16)
    ensures ParseSigned(s, 16) == Err(ValueError)
  {
    var body := if s[0] == '-' || s[0] == '+' then s[1..] else s;
    assert |body| > 0 ==> body[|body| - 1] == c;
    var t := if |body| >= 2 && body[0] == '0' && (body[1] == 'x' || body[1] == 'X') then body[2..] else body;
    assert |t| > 0 ==> t[|t| - 1] == c;
  }

  /** A code within half a step of the ideal code converts back to within
      `HalfStep` volts of the voltage. */
  lemma CodeErrorBound(volt: real, code: int)
    requires -1.0 / 2.0 <= code as real - IdealCode(volt) <= 1.0 / 2.0
    ensures -HalfStep <= CodeVolts(code) - volt <= HalfStep
  {
    var S := CodesPerVolt as real;
    var e := code as real - IdealCode(volt);
    assert code as real / S - 10.0 - volt == e / S;
  }

  /** Round trip: the command written for an accepted voltage carries the
      channel and a code that reads back exactly, and that code converts back
      to within half a code step of the requested voltage. */
  lemma SetReadRoundTrip(ch: Channel, volt: real, w1: string, w2: string)
    requires ch.minVal <= volt < ch.maxVal
    requires AllSpace(w1) && AllSpace(w2)
    ensures var code := VoltToCode(ch, volt).value;
      && SetVolt(ch, volt) == Ok(SetVoltageCommand(ch.number, code))
      && ParseSetCommand(SetVolt(ch, volt).value) == Some((ch.number, code))
      && CodeToVolt(w1 + HexUpper(code) + w2).Ok?
      && -HalfStep <= CodeToVolt(w1 + HexUpper(code) + w2).value - volt <= HalfStep
  {
    var code := VoltToCode(ch, volt).value;
    SetCommandParses(ch.number, code);
    CodeToVoltReadsHex(code, w1, w2);
    CodeErrorBound(volt, code);
  }

  /** The validator admits `maxVal`, but the conversion rejects it. */
  lemma MaxValRejected(ch: Channel)
    requires ch.minVal < ch.maxVal
    ensures VoltToCode(ch, ch.maxVal) == Err(ValueError)
    ensures SetVolt(ch, ch.maxVal) == Err(ValueError)
    ensures SetVolt(ch, ch.minVal).Ok?
  {}

  /** With the default range every code lies in 0..20 * 838848. */
  lemma DefaultCodeRange(number: int, volt: real)
    requires DefaultMin <= volt < DefaultMax
    ensures var r := VoltToCode(Channel(number, DefaultMin, DefaultMax), volt);
      r.Ok? && 0 <= r.value <= 20 * CodesPerVolt
  {
    var r := VoltToCode(Channel(number, DefaultMin, DefaultMax), volt);
    assert 0.0 <= IdealCode(volt) < 20.0 * CodesPerVolt as real;
    assert r.value as real <= IdealCode(volt) + 1.0 / 2.0;
  }

  /** The conversion is monotone in the voltage. */
  lemma VoltToCodeMonotone(ch: Channel, v1: real, v2: real)
    requires ch.minVal <= v1 <= v2 < ch.maxVal
    ensures VoltToCode(ch, v1).value <= VoltToCode(ch, v2).value
  {
    assert IdealCode(v1) <= IdealCode(v2);
    RoundMonotone(IdealCode(v1), IdealCode(v2));
  }

  /** The channels the constructor creates: numbers 1..8, each with the
      default range. The constructor's own `minVal`/`maxVal` arguments are
      not passed on. */
  function NewSP927(minVal: real, maxVal: real): (d: Dac)
    ensures |d.channels| == NumChannels
    ensures forall i :: 0 <= i < |d.channels| ==>
      NewChannel(i + 1, DefaultMin, DefaultMax) == Ok(d.channels[i])
  {
    Dac(seq(NumChannels, i => Channel(i + 1, DefaultMin, DefaultMax)))
  }

  /** The constructor's range is ignored: a DAC built for -5..5 V still
      accepts 7 V on channel 1. */
  lemma NewSP927IgnoresRange()
    ensures SetVolt(NewSP927(-5.0, 5.0).channels[0], 7.0).Ok?
  {}

  /** Corrected constructor: every channel gets the range the caller gave. */
  function NewSP927Ranged(minVal: real, maxVal: real): (r: Result<Dac>)
    ensures r.Ok? <==> minVal < maxVal
    ensures r.Ok? ==> |r.value.channels| == NumChannels
    ensures r.Ok? ==> forall i :: 0 <= i < NumChannels ==>
      NewChannel(i + 1, minVal, maxVal) == Ok(r.value.channels[i])
  {
    if !(minVal < maxVal) then Err(AssertionError)
    else Ok(Dac(seq(NumChannels, i => Channel(i + 1, minVal, maxVal))))
  }

  /** With the corrected constructor every channel accepts exactly the
      voltages in `[minVal, maxVal)`. */
  lemma NewSP927RangedHonoursRange(minVal: real, maxVal: real, i: int, volt: real)
    requires minVal < maxVal && 0 <= i < NumChannels
    ensures SetVolt(NewSP927Ranged(minVal, maxVal).value.channels[i], volt).Ok? <==> minVal <= volt < maxVal
  {
    assert NewSP927Ranged(minVal, maxVal).value.channels[i] == Channel(i + 1, minVal, maxVal);
  }

  /** `set_all`: set every channel in list order; the first rejection stops
      the walk. The result is the commands written and the error, if any. */
  function SetAll(chs: seq<Channel>, volt: real): (r: (seq<string>, Option<Error>))
    ensures |r.0| <= |chs|
    ensures forall j :: 0 <= j < |r.0| ==> SetVolt(chs[j], volt) == Ok(r.0[j])
    ensures r.1.None? <==> |r.0| == |chs|
    ensures r.1.Some? ==> SetVolt(chs[|r.0|], volt) == Err(r.1.value)
  {
    var r := RunAll(seq(|chs|, j requires 0 <= j < |chs| => SetVolt(chs[j], volt)));
    r
  }

  /** `set_all` over channels 1..8 that share one range either writes one
      command per channel, in order, all with the same code, or rejects the
      voltage before writing anything. */
  lemma SetAllUniform(chs: seq<Channel>, minVal: real, maxVal: real, volt: real)
    requires |chs| == NumChannels
    requires forall j :: 0 <= j < NumChannels ==> chs[j] == Channel(j + 1, minVal, maxVal)
    ensures var r := SetAll(chs, volt);
      if minVal <= volt < maxVal then
        && r.1 == None
        && |r.0| == NumChannels
        && forall j :: 0 <= j < NumChannels ==>
             r.0[j] == SetVoltageCommand(j + 1, Round(IdealCode(volt)))
      else r == ([], Some(ValueError))
  {
    var r := SetAll(chs, volt);
    if minVal <= volt < maxVal {
      forall j | 0 <= j < NumChannels
        ensures r.0[j] == SetVoltageCommand(j + 1, Round(IdealCode(volt)))
      {
        assert SetVolt(chs[j], volt) == Ok(r.0[j]);
      }
    } else {
      assert SetVolt(chs[0], volt).Err?;
    }
  }

  /** On the DAC as constructed, `set_all` either writes one command per
      channel, in order 1..8, all with the same code, or rejects the voltage
      before writing anything; the range is always -10..10. */
  lemma SetAllAllOrNothing(minVal: real, maxVal: real, volt: real)
    ensures var r := SetAll(NewSP927(minVal, maxVal).channels, volt);
      if DefaultMin <= volt < DefaultMax then
        && r.1 == None
        && |r.0| == NumChannels
        && forall j :: 0 <= j < NumChannels ==>
             r.0[j] == SetVoltageCommand(j + 1, Round(IdealCode(volt)))
      else r == ([], Some(ValueError))
  {
    SetAllUniform(NewSP927(minVal, maxVal).channels, DefaultMin, DefaultMax, volt);
  }

  /** With the corrected constructor, `set_all` is all-or-nothing over the
      caller's range. */
  lemma SetAllRangedAllOrNothing(minVal: real, maxVal: real, volt: real)
    requires minVal < maxVal
    ensures var r := SetAll(NewSP927Ranged(minVal, maxVal).value.channels, volt);
      if minVal <= volt < maxVal then
        && r.1 == None
        && |r.0| == NumChannels
        && forall j :: 0 <= j < NumChannels ==>
             r.0[j] == SetVoltageCommand(j + 1, Round(IdealCode(volt)))
      else r == ([], Some(ValueError))
  {
    SetAllUniform(NewSP927Ranged(minVal, maxVal).value.channels, minVal, maxVal, volt);
  }
}
