/** The Cryomagnetics 4G superconducting magnet supply: every command is
    preceded by `CHAN n` selecting the axis; field readings arrive as
    `<number><unit>` in kG while the driver's field parameter is in T. */
module Cryomagnetics {
  import opened Base

  /** The supply, as the driver sees it: axis names by position; axis `i`
      is channel `i + 1`. Names are stored as given, not upper-cased. */
  datatype Magnet = Magnet(axes: seq<string>)

  const DefaultAxes: seq<string> := ["Z", "Y"]

  /** The sweep modes `set_sweep` accepts (after upper-casing). */
  const SweepModes: seq<string> := ["UP", "UP FAST", "DOWN", "DOWN FAST", "PAUSE", "ZERO"]

  /** The commands the driver writes. Limits are in kG and are printed with
      `%f`, which is left to the `fmt` argument of `Text`. */
  datatype Command =
    | Chan(channel: int)
    | FieldQuery
    | Sweep(mode: string)
    | LowLim(lowKg: real)
    | UpLim(upKg: real)

  /** The text put on the wire for a command. */
  function Text(c: Command, fmt: real -> string): string {
    match c
    case Chan(n) => "CHAN " + Decimal(n)
    case FieldQuery => "IMAG?"
    case Sweep(mode) => "SWEEP " + mode
    case LowLim(v) => "LLIM " + fmt(v)
    case UpLim(v) => "ULIM " + fmt(v)
  }

  /** How the instrument reads a channel selection. */
  function ParseChanText(text: string): Option<int> {
    if |text| >= 5 && text[..5] == "CHAN " then
      match ParseInt(text[5..], 10)
      case Ok(n) => Some(n)
      case Err(_) => None
    else None
  }

  /** The channel selection text carries the channel number in decimal. */
  lemma ChanTextParses(n: int, fmt: real -> string)
    ensures ParseChanText(Text(Chan(n), fmt)) == Some(n)
  {
    assert Text(Chan(n), fmt)[5..] == Decimal(n);
    ParseFormatIntBare(n, 10);
  }

  /** Position of the first axis named `name`. */
  function FirstIndex(axes: seq<string>, name: string): (r: Option<nat>)
    ensures r.None? <==> name !in axes
    ensures r.Some? ==> r.value < |axes| && axes[r.value] == name && name !in axes[..r.value]
  {
    if |axes| == 0 then None
    else if axes[0] == name then Some(0)
    else match FirstIndex(axes[1..], name)
      case None => None
      case Some(i) =>
        assert axes[..i + 1] == [axes[0]] + axes[1..][..i];
        Some(i + 1)
  }

  /** `_select_channel`: upper-case the name, find the first axis equal to
      it, write `CHAN <index + 1>`; an unknown name raises ValueError and
      writes nothing. */
  function SelectChannel(m: Magnet, channel: string): (r: Result<Command>)
    ensures r.Ok? <==> Upper(channel) in m.axes
    ensures r.Err? ==> r.error == ValueError
    ensures r.Ok? ==> r.value.Chan? && 1 <= r.value.channel <= |m.axes|
    ensures r.Ok? ==> m.axes[r.value.channel - 1] == Upper(channel)
    ensures r.Ok? ==> Upper(channel) !in m.axes[..r.value.channel - 1]
  {
    match FirstIndex(m.axes, Upper(channel))
    case None => Err(ValueError)
    case Some(i) => Ok(Chan(i + 1))
  }

  /** The field parameter registered for an axis. */
  function FieldParameterName(axis: string): string {
    Lower(axis) + "_field"
  }

  /** The field parameter of axis `i` drives channel `i + 1`, provided the
      stored name has no lower-case letters and no earlier axis has the same
      name. */
  lemma FieldParameterSelectsAxis(m: Magnet, i: int)
    requires 0 <= i < |m.axes|
    requires NoLowerCase(m.axes[i]) && m.axes[i] !in m.axes[..i]
    ensures SelectChannel(m, Lower(m.axes[i])) == Ok(Chan(i + 1))
  {
    UpperLowerInverse(m.axes[i]);
  }

  /** An axis stored with a lower-case letter can never be selected, under
      any name: selection compares with the upper-cased name, which has no
      lower-case letters. */
  lemma LowerCaseAxisUnreachable(m: Magnet, i: int, name: string)
    requires 0 <= i < |m.axes| && !NoLowerCase(m.axes[i])
    ensures SelectChannel(m, name) != Ok(Chan(i + 1))
  {
    UpperHasNoLowerCase(name);
  }

  /** `set_sweep`: select the channel, upper-case the mode; an unknown mode
      returns False (`Some(false)`) after the selection was written; a known
      one writes `SWEEP <mode>` and returns None. */
  function SetSweep(m: Magnet, channel: string, mode: string): (r: Exchange<Command, Option<bool>>)
    ensures r.result.Ok? <==> Upper(channel) in m.axes
    ensures r.result.Err? ==> r.result.error == ValueError && r.written == []
    ensures r.result.Ok? ==> |r.written| >= 1 && Ok(r.written[0]) == SelectChannel(m, channel)
    ensures r.result == Ok(None) <==> Upper(channel) in m.axes && Upper(mode) in SweepModes
    ensures r.result == Ok(None) ==> r.written[1..] == [Sweep(Upper(mode))]
    ensures r.result.Ok? && Upper(mode) !in SweepModes ==> r.result == Ok(Some(false)) && |r.written| == 1
  {
    match SelectChannel(m, channel)
    case Err(e) => Exchange([], Err(e))
    case Ok(chan) =>
      var cmd := Upper(mode);
      if cmd !in SweepModes then Exchange([chan], Ok(Some(false)))
      else Exchange([chan, Sweep(cmd)], Ok(None))
  }

  /** The modes `sweep_up` and `sweep_down` build are upper case and known
      to the magnet. */
  lemma DirectionMode(i: nat)
    requires i < 4
    ensures Upper(SweepModes[i]) == SweepModes[i]
  {
    var mode := SweepModes[i];
    assert NoLowerCase(mode);
    UpperFixedPoints(mode);
  }

  /** `sweep_up`: builds a mode `set_sweep` always accepts. */
  function SweepUp(m: Magnet, channel: string, fast: bool): (r: Exchange<Command, Option<bool>>)
    ensures r.result.Ok? <==> Upper(channel) in m.axes
    ensures r.result.Ok? ==>
      r.result.value.None? && r.written == [SelectChannel(m, channel).value, Sweep(if fast then "UP FAST" else "UP")]
  {
    var mode := SweepModes[if fast then 1 else 0];
    DirectionMode(if fast then 1 else 0);
    SetSweep(m, channel, mode)
  }

  /** `sweep_down`: builds a mode `set_sweep` always accepts. */
  function SweepDown(m: Magnet, channel: string, fast: bool): (r: Exchange<Command, Option<bool>>)
    ensures r.result.Ok? <==> Upper(channel) in m.axes
    ensures r.result.Ok? ==>
      r.result.value.None? && r.written == [SelectChannel(m, channel).value, Sweep(if fast then "DOWN FAST" else "DOWN")]
  {
    var mode := SweepModes[if fast then 3 else 2];
    DirectionMode(if fast then 3 else 2);
    SetSweep(m, channel, mode)
  }

  /** `set_lowlim`: select, then `LLIM <val>`. */
  function SetLowLim(m: Magnet, channel: string, val: real): (r: Exchange<Command, ()>)
    ensures r.result.Ok? <==> Upper(channel) in m.axes
    ensures r.result.Ok? ==> r.written == [SelectChannel(m, channel).value, LowLim(val)]
    ensures r.result.Err? ==> r.written == []
  {
    match SelectChannel(m, channel)
    case Err(e) => Exchange([], Err(e))
    case Ok(chan) => Exchange([chan, LowLim(val)], Ok(()))
  }

  /** `set_uplim`: select, then `ULIM <val>`. */
  function SetUpLim(m: Magnet, channel: string, val: real): (r: Exchange<Command, ()>)
    ensures r.result.Ok? <==> Upper(channel) in m.axes
    ensures r.result.Ok? ==> r.written == [SelectChannel(m, channel).value, UpLim(val)]
    ensures r.result.Err? ==> r.written == []
  {
    match SelectChannel(m, channel)
    case Err(e) => Exchange([], Err(e))
    case Ok(chan) => Exchange([chan, UpLim(val)], Ok(()))
  }

  // ---------------------------------------------------------------------------
  // The field reply `(-?\d*\.?\d*)([a-zA-Z]+)`, matched at the start.

  /** Position of the first ASCII letter. */
  function FirstLetter(s: string): (r: Option<nat>)
    ensures r.None? <==> forall i :: 0 <= i < |s| ==> !IsLetter(s[i])
    ensures r.Some? ==> r.value < |s| && IsLetter(s[r.value]) && forall i :: 0 <= i < r.value ==> !IsLetter(s[i])
  {
    if |s| == 0 then None
    else if IsLetter(s[0]) then Some(0)
    else match FirstLetter(s[1..])
      case None => None
      case Some(i) => Some(i + 1)
  }

  /** Number of leading decimal digits. */
  function LeadingDigits(s: string): (n: nat)
    ensures n <= |s|
    ensures forall i :: 0 <= i < n ==> IsDecDigit(s[i])
    ensures n == |s| || !IsDecDigit(s[n])
  {
    if |s| > 0 && IsDecDigit(s[0]) then 1 + LeadingDigits(s[1..]) else 0
  }

  predicate AllDecDigits(s: string) {
    forall i :: 0 <= i < |s| ==> IsDecDigit(s[i])
  }

  /** The numeric group taken greedily: sign, integer digits, dot, fraction
      digits, and whatever is left over. */
  datatype NumberParts = NumberParts(negative: bool, whole: string, dot: bool, fraction: string, rest: string)

  function SplitNumber(t: string): (p: NumberParts)
    ensures AllDecDigits(p.whole) && AllDecDigits(p.fraction)
  {
    var neg := |t| > 0 && t[0] == '-';
    var a := if neg then t[1..] else t;
    var k := LeadingDigits(a);
    var b := a[k..];
    var dot := |b| > 0 && b[0] == '.';
    var c := if dot then b[1..] else b;
    var j := LeadingDigits(c);
    NumberParts(neg, a[..k], dot, c[..j], c[j..])
  }

  function Pow10(n: nat): (r: nat)
    ensures r > 0
  {
    if n == 0 then 1 else 10 * Pow10(n - 1)
  }

  function DecValue(s: string): nat
    requires AllDecDigits(s)
  {
    assert AllDigitsIn(s, 10);
    ValueOf(s, 10)
  }

  /** Python `float()` of the numeric group: needs at least one digit. */
  function NumberValue(p: NumberParts): Option<real>
    requires AllDecDigits(p.whole) && AllDecDigits(p.fraction)
  {
    if |p.whole| + |p.fraction| == 0 then None
    else
      var mag := DecValue(p.whole) as real + DecValue(p.fraction) as real / Pow10(|p.fraction|) as real;
      Some(if p.negative then -mag else mag)
  }

  /** `RE_ANS.match(ans)` then `float(val)`: no match raises (the source
      calls `.groups` on None); a numeric group without digits becomes None. */
  function ParseFieldReply(ans: string): Result<Option<real>> {
    match FirstLetter(ans)
    case None => Err(AttributeError)
    case Some(p) =>
      var parts := SplitNumber(ans[..p]);
      if parts.rest != [] then Err(AttributeError)
      else Ok(NumberValue(parts))
  }

  /** Leading digits of digits followed by a non-digit. */
  lemma {:induction false} LeadingDigitsOf(d: string, s: string)
    requires AllDecDigits(d)
    requires |s| == 0 || !IsDecDigit(s[0])
    ensures LeadingDigits(d + s) == |d|
    decreases |d|
  {
    if |d| == 0 {
      assert d + s == s;
    } else {
      assert (d + s)[0] == d[0];
      assert (d + s)[1..] == d[1..] + s;
      LeadingDigitsOf(d[1..], s);
    }
  }

  /** The first letter of letter-free text followed by a letter is right after it. */
  lemma {:induction false} FirstLetterAfter(num: string, rest: string)
    requires forall i :: 0 <= i < |num| ==> !IsLetter(num[i])
    requires |rest| > 0 && IsLetter(rest[0])
    ensures FirstLetter(num + rest) == Some(|num|)
    decreases |num|
  {
    if |num| == 0 {
      assert num + rest == rest;
    } else {
      assert (num + rest)[0] == num[0];
      assert (num + rest)[1..] == num[1..] + rest;
      FirstLetterAfter(num[1..], rest);
    }
  }

  /** The text of a number: optional `-`, digits, optional `.`, digits. */
  function NumberText(neg: bool, whole: string, dot: bool, fraction: string): string {
    (if neg then "-" else "") + whole + (if dot then "." else "") + fraction
  }

  /** A leading minus sign is recorded and the rest is split as without it. */
  lemma SplitNumberMinus(a: string)
    requires !SplitNumber(a).negative
    ensures SplitNumber("-" + a) == SplitNumber(a).(negative := true)
  {
    assert ("-" + a)[1..] == a;
  }

  /** Splitting unsigned number text recovers its parts. */
  lemma SplitUnsignedText(whole: string, dot: bool, fraction: string)
    requires AllDecDigits(whole) && AllDecDigits(fraction)
    requires !dot ==> fraction == []
    ensures SplitNumber(NumberText(false, whole, dot, fraction)) == NumberParts(false, whole, dot, fraction, [])
  {
    var dotText: string := if dot then "." else "";
    var a := whole + dotText + fraction;
    assert NumberText(false, whole, dot, fraction) == a;
    assert a == whole + (dotText + fraction);
    LeadingDigitsOf(whole, dotText + fraction);
    assert a[..|whole|] == whole;
    assert a[|whole|..] == dotText + fraction;
    assert (if dot then (dotText + fraction)[1..] else dotText + fraction) == fraction;
    LeadingDigitsOf(fraction, []);
    assert fraction + [] == fraction;
  }

  /** Splitting the text of a number recovers its parts, with nothing left over. */
  lemma SplitNumberText(neg: bool, whole: string, dot: bool, fraction: string)
    requires AllDecDigits(whole) && AllDecDigits(fraction)
    requires !dot ==> fraction == []
    ensures SplitNumber(NumberText(neg, whole, dot, fraction)) == NumberParts(neg, whole, dot, fraction, [])
  {
    var a := NumberText(false, whole, dot, fraction);
    SplitUnsignedText(whole, dot, fraction);
    if neg {
      assert NumberText(neg, whole, dot, fraction) == "-" + a;
      SplitNumberMinus(a);
    }
  }

  /** A reply built as sign, digits, optional dot, digits, unit letters and
      anything after parses to the number those digits denote. */
  lemma ParseFieldReplyValue(neg: bool, whole: string, dot: bool, fraction: string, unit: string, tail: string)
    requires AllDecDigits(whole) && AllDecDigits(fraction)
    requires !dot ==> fraction == []
    requires |unit| > 0 && IsLetter(unit[0])
    ensures ParseFieldReply(NumberText(neg, whole, dot, fraction) + unit + tail)
         == Ok(NumberValue(NumberParts(neg, whole, dot, fraction, [])))
  {
    var num := NumberText(neg, whole, dot, fraction);
    var ans := num + unit + tail;
    assert ans == num + (unit + tail);
    FirstLetterAfter(num, unit + tail);
    assert ans[..|num|] == num;
    SplitNumberText(neg, whole, dot, fraction);
  }

  /** A reply with no letters does not match the pattern. */
  lemma ParseFieldReplyNoUnit(ans: string)
    requires forall i :: 0 <= i < |ans| ==> !IsLetter(ans[i])
    ensures ParseFieldReply(ans) == Err(AttributeError)
  {}

  /** A unit with no digits before it (`kG`, `-kG`, `.kG`, `-.kG`) matches,
      but `float()` of the numeric group fails: None. */
  lemma ParseFieldReplyNoDigits(neg: bool, dot: bool, unit: string, tail: string)
    requires |unit| > 0 && IsLetter(unit[0])
    ensures ParseFieldReply(NumberText(neg, [], dot, []) + unit + tail) == Ok(None)
  {
    ParseFieldReplyValue(neg, [], dot, [], unit, tail);
  }

  /** `get_magnetout`: select, query `IMAG?`, parse the reply. */
  function GetMagnetOut(m: Magnet, channel: string, reply: string): (r: Exchange<Command, Option<real>>)
    ensures r.result.Ok? <==> Upper(channel) in m.axes && ParseFieldReply(reply).Ok?
    ensures Upper(channel) !in m.axes ==> r == Exchange([], Err(ValueError))
    ensures Upper(channel) in m.axes ==>
      r.written == [SelectChannel(m, channel).value, FieldQuery] && r.result == ParseFieldReply(reply)
  {
    match SelectChannel(m, channel)
    case Err(e) => Exchange([], Err(e))
    case Ok(chan) => Exchange([chan, FieldQuery], ParseFieldReply(reply))
  }

  /** What `_set_field` writes after the reading, through `set_uplim` and
      `sweep_up` or `set_lowlim` and `sweep_down` (each of which selects the
      channel again): up with `ULIM 10*val` when the target in T is above a
      tenth of the `kg` kG reading, otherwise down with `LLIM 10*val`. */
  function Approach(chan: Command, val: real, kg: real): (r: seq<Command>)
    ensures |r| == 4 && r[0] == chan && r[2] == chan
    ensures r[1] == UpLim(10.0 * val) && r[3] == Sweep("UP") <==> val * 10.0 > kg
    ensures r[1] == LowLim(10.0 * val) && r[3] == Sweep("DOWN") <==> val * 10.0 <= kg
  {
    if val > 0.1 * kg then [chan, UpLim(10.0 * val), chan, Sweep("UP")]
    else [chan, LowLim(10.0 * val), chan, Sweep("DOWN")]
  }

  /** The approach is exactly what the helper calls write. */
  lemma ApproachIsHelperCalls(m: Magnet, channel: string, val: real, kg: real)
    requires Upper(channel) in m.axes
    ensures var chan := SelectChannel(m, channel).value;
      Approach(chan, val, kg) ==
        if val * 10.0 > kg then SetUpLim(m, channel, 10.0 * val).written + SweepUp(m, channel, false).written
        else SetLowLim(m, channel, 10.0 * val).written + SweepDown(m, channel, false).written
  {
    var chan := SelectChannel(m, channel).value;
    if val * 10.0 > kg {
      assert SetUpLim(m, channel, 10.0 * val).written == [chan, UpLim(10.0 * val)];
      assert SweepUp(m, channel, false).written == [chan, Sweep("UP")];
    } else {
      assert SetLowLim(m, channel, 10.0 * val).written == [chan, LowLim(10.0 * val)];
      assert SweepDown(m, channel, false).written == [chan, Sweep("DOWN")];
    }
  }

  /** `_set_field` without the wait loop: select, read the field in kG
      (`get_magnetout` selects again and queries), then approach the target.
      A reply the pattern rejects raises AttributeError; a reading without
      digits (None) fails the multiplication with TypeError. */
  function SetField(m: Magnet, channel: string, val: real, reply: string): (r: Exchange<Command, bool>)
    ensures Upper(channel) !in m.axes ==> r == Exchange([], Err(ValueError))
    ensures r.result.Ok? <==> Upper(channel) in m.axes && ParseFieldReply(reply).Ok? && ParseFieldReply(reply).value.Some?
    ensures r.result.Ok? ==> r.result.value
  {
    match SelectChannel(m, channel)
    case Err(e) => Exchange([], Err(e))
    case Ok(chan) =>
      var before := [chan, chan, FieldQuery];
      match ParseFieldReply(reply)
      case Err(e) => Exchange(before, Err(e))
      case Ok(None) => Exchange(before, Err(TypeError))
      case Ok(Some(kg)) => Exchange(before + Approach(chan, val, kg), Ok(true))
  }

  /** `_set_field` sweeps up, with `ULIM 10*val`, exactly when the target
      exceeds a tenth of the `kg` kG reading; otherwise, equality included, it
      sweeps down with `LLIM 10*val`. */
  lemma SetFieldDirection(m: Magnet, channel: string, val: real, reply: string, kg: real)
    requires Upper(channel) in m.axes
    requires ParseFieldReply(reply) == Ok(Some(kg))
    ensures var chan := SelectChannel(m, channel).value;
      var r := SetField(m, channel, val, reply);
      r.result == Ok(true) &&
      r.written == [chan, chan, FieldQuery] +
        (if val * 10.0 > kg then [chan, UpLim(10.0 * val), chan, Sweep("UP")]
         else [chan, LowLim(10.0 * val), chan, Sweep("DOWN")])
  {}

  /** Whatever the reply, `_set_field` starts with its own selection followed
      by exactly what `get_magnetout` writes. */
  lemma SetFieldReadsFirst(m: Magnet, channel: string, val: real, reply: string)
    requires Upper(channel) in m.axes
    ensures var w := SetField(m, channel, val, reply).written;
      |w| >= 3 && w[..3] == [SelectChannel(m, channel).value] + GetMagnetOut(m, channel, reply).written
  {
    var chan := SelectChannel(m, channel).value;
    var w := SetField(m, channel, val, reply).written;
    assert w[..3] == [chan, chan, FieldQuery];
    assert GetMagnetOut(m, channel, reply).written == [chan, FieldQuery];
  }

  /** A reading with no digits (parsed as None) makes `_set_field` fail
      after the selection and the query were written. */
  lemma SetFieldWithoutReading(m: Magnet, channel: string, val: real, reply: string)
    requires Upper(channel) in m.axes
    requires ParseFieldReply(reply) == Ok(None)
    ensures var chan := SelectChannel(m, channel).value;
      SetField(m, channel, val, reply) == Exchange([chan, chan, FieldQuery], Err(TypeError))
  {}
}
