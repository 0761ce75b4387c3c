/** The Rohde & Schwarz FSW driver's frequency-window setters, its reply
    stripping helper and its display grid command. Replies to the `start`
    and `stop` queries arrive already converted to numbers. */
module Fsw {
  import opened Base

  /** What the setters put on the wire. Frequencies are printed with
      `{:.7f}`, which is left to the `fmt` argument of `Text`. */
  datatype Command =
    | WriteStart(startHz: real)
    | WriteStop(stopHz: real)
    | AskStart
    | AskStop

  const GridPrefix: string := "DISP:LAY GRID;:DISP:LAY:GRID "

  function Text(c: Command, fmt: real -> string): string {
    match c
    case WriteStart(v) => "SENS:FREQ:START " + fmt(v)
    case WriteStop(v) => "SENS:FREQ:STOP " + fmt(v)
    case AskStart => "SENS:FREQ:START?"
    case AskStop => "SENS:FREQ:STOP?"
  }

  /** Whether a command changes the instrument's settings. */
  predicate IsWrite(c: Command) {
    c.WriteStart? || c.WriteStop?
  }

  /** A setter's outcome: `Ok(true)` when the read-back differed from the
      request (the driver logs a warning), `Ok(false)` when it matched. */
  type Outcome = Exchange<Command, bool>

  /** `_set_start` as written: after the read-back and the warning it calls
      `self._update_traces()`, which neither the driver nor its base class
      defines, so every accepted start ends in AttributeError (the warning,
      if any, has already been logged). */
  function SetStartAsWritten(val: real, stopReply: real, startReply: real): (r: Outcome)
    ensures r.result.Err?
    ensures r.result.error == ValueError <==> val >= stopReply
    ensures r.result.error == AttributeError <==> val < stopReply
    ensures val >= stopReply ==> r.written == [WriteStart(val), AskStop]
    ensures val < stopReply ==> r.written == [WriteStart(val), AskStop, AskStart]
  {
    if val >= stopReply then Exchange([WriteStart(val), AskStop], Err(ValueError))
    else Exchange([WriteStart(val), AskStop, AskStart], Err(AttributeError))
  }

  /** `_set_start` with the undefined `_update_traces` call left out, as the
      other setters have it: write the start first, then read the stop back;
      a start not below the stop raises ValueError, but only after it was
      written. Otherwise the start is read back and a mismatch is reported. */
  function SetStart(val: real, stopReply: real, startReply: real): (r: Outcome)
    ensures r.result.Ok? <==> val < stopReply
    ensures r.result.Err? ==> r.result.error == ValueError && r.written == [WriteStart(val), AskStop]
    ensures r.result.Ok? ==> r.written == [WriteStart(val), AskStop, AskStart]
    ensures r.result.Ok? ==> (r.result.value <==> val != startReply)
  {
    if val >= stopReply then Exchange([WriteStart(val), AskStop], Err(ValueError))
    else Exchange([WriteStart(val), AskStop, AskStart], Ok(val != startReply))
  }

  /** `_set_stop`: read the start first; a stop not above it raises
      ValueError before anything is written. Otherwise write the stop, read
      it back, and report a mismatch. */
  function SetStop(val: real, startReply: real, stopReply: real): (r: Outcome)
    ensures r.result.Ok? <==> val > startReply
    ensures r.result.Err? ==> r.result.error == ValueError && r.written == [AskStart]
    ensures r.result.Ok? ==> r.written == [AskStart, WriteStop(val), AskStop]
    ensures r.result.Ok? ==> (r.result.value <==> val != stopReply)
  {
    if val <= startReply then Exchange([AskStart], Err(ValueError))
    else Exchange([AskStart, WriteStop(val), AskStop], Ok(val != stopReply))
  }

  /** The driver as written and the corrected one put the same commands on
      the wire; the start the corrected one accepts is exactly the one that
      raises AttributeError as written. */
  lemma SetStartAsWrittenRaises(val: real, stopReply: real, startReply: real)
    ensures SetStartAsWritten(val, stopReply, startReply).written == SetStart(val, stopReply, startReply).written
    ensures SetStart(val, stopReply, startReply).result.Ok?
        <==> SetStartAsWritten(val, stopReply, startReply).result == Err(AttributeError)
    ensures SetStart(val, stopReply, startReply).result.Err?
        ==> SetStartAsWritten(val, stopReply, startReply).result == SetStart(val, stopReply, startReply).result
  {}

  /** As written, setting the start never succeeds: 1 Hz below a 2 Hz stop is
      written and read back, then the call raises AttributeError. */
  lemma SetStartNeverSucceeds()
    ensures SetStartAsWritten(1.0, 2.0, 1.0) == Exchange([WriteStart(1.0), AskStop, AskStart], Err(AttributeError))
    ensures SetStart(1.0, 2.0, 1.0) == Exchange([WriteStart(1.0), AskStop, AskStart], Ok(false))
  {}

  // ---------------------------------------------------------------------------
  // An instrument that stores what it is sent

  datatype Window = Window(start: real, stop: real)

  /** The instrument's frequency window after it has received `cmds`. */
  function Apply(w: Window, cmds: seq<Command>): Window
    decreases |cmds|
  {
    if |cmds| == 0 then w
    else
      var w1 := match cmds[0]
        case WriteStart(v) => w.(start := v)
        case WriteStop(v) => w.(stop := v)
        case _ => w;
      Apply(w1, cmds[1..])
  }

  /** Commands that do not write leave the window alone. */
  lemma {:induction false} ApplyQueries(w: Window, cmds: seq<Command>)
    requires forall k :: 0 <= k < |cmds| ==> !IsWrite(cmds[k])
    ensures Apply(w, cmds) == w
    decreases |cmds|
  {
    if |cmds| > 0 {
      ApplyQueries(w, cmds[1..]);
    }
  }

  /** A rejected stop writes nothing, so the instrument keeps its window. */
  lemma RejectedStopWritesNothing(w: Window, val: real, stopReply: real)
    requires val <= w.start
    ensures SetStop(val, w.start, stopReply).result == Err(ValueError)
    ensures forall k :: 0 <= k < |SetStop(val, w.start, stopReply).written| ==> !IsWrite(SetStop(val, w.start, stopReply).written[k])
    ensures Apply(w, SetStop(val, w.start, stopReply).written) == w
  {
    ApplyQueries(w, [AskStart]);
  }

  /** A rejected start has already been written: on an instrument that
      takes what it is sent, the window is left with start at or above
      stop, although the driver raised. */
  lemma RejectedStartAlreadyWritten(w: Window, val: real, startReply: real)
    requires val >= w.stop
    ensures SetStart(val, w.stop, startReply).result == Err(ValueError)
    ensures WriteStart(val) in SetStart(val, w.stop, startReply).written
    ensures var after := Apply(w, SetStart(val, w.stop, startReply).written);
      after.start == val && after.stop == w.stop && after.start >= after.stop
  {
    var cmds := [WriteStart(val), AskStop];
    assert cmds[1..] == [AskStop];
    assert Apply(w, cmds) == Apply(w.(start := val), [AskStop]);
    ApplyQueries(w.(start := val), [AskStop]);
  }

  /** An accepted stop, against replies that report the instrument's window,
      leaves the window ordered, and no warning is logged. */
  lemma AcceptedStopKeepsOrder(w: Window, val: real)
    requires val > w.start
    ensures var r := SetStop(val, w.start, val);
      r.result == Ok(false) && Apply(w, r.written) == Window(w.start, val) && w.start < val
  {
    var cmds := [AskStart, WriteStop(val), AskStop];
    assert cmds[1..] == [WriteStop(val), AskStop];
    assert cmds[1..][1..] == [AskStop];
    assert Apply(w, cmds) == Apply(w, cmds[1..]);
    assert Apply(w, cmds[1..]) == Apply(w.(stop := val), [AskStop]);
    ApplyQueries(w.(stop := val), [AskStop]);
  }

  // ---------------------------------------------------------------------------
  // Reply stripping and the display grid

  /** `_strip`: drop trailing whitespace, then the first and last
      characters (Python's `[1:-1]`, empty when fewer than two remain). */
  function StripReply(reply: string): (r: string)
    ensures |RStrip(reply)| >= 2 ==> |r| == |RStrip(reply)| - 2
    ensures |RStrip(reply)| < 2 ==> r == []
  {
    var t := RStrip(reply);
    if |t| >= 2 then t[1..|t| - 1] else []
  }

  /** A quoted reply with a line ending comes back as the text between the
      quotes. */
  lemma StripReplyQuoted(open: char, body: string, close: char, ending: string)
    requires !IsSpace(close) && AllSpace(ending)
    ensures StripReply([open] + body + [close] + ending) == body
  {
    var t := [open] + body + [close];
    assert [open] + body + [close] + ending == t + ending;
    RStripPadded(t, ending);
    assert t[1..|t| - 1] == body;
  }

  /** How the instrument reads a grid command: the two integers after the
      prefix, separated by a comma. */
  function ParseGrid(text: string): Option<(int, int)> {
    if |text| >= |GridPrefix| && text[..|GridPrefix|] == GridPrefix then
      match SplitFirst(text[|GridPrefix|..], ',')
      case None => None
      case Some(parts) =>
        match (ParseInt(parts.0, 10), ParseInt(parts.1, 10))
        case (Ok(a), Ok(b)) => Some((a, b))
        case _ => None
    else None
  }

  /** The grid command text: rows and columns in decimal after the prefix. */
  function GridText(rows: int, cols: int): string {
    GridPrefix + Decimal(rows) + "," + Decimal(cols)
  }

  lemma GridTextParses(rows: int, cols: int)
    ensures |GridText(rows, cols)| > |GridPrefix|
    ensures ParseGrid(GridText(rows, cols)) == Some((rows, cols))
  {
    var a, b := Decimal(rows), Decimal(cols);
    var text := GridText(rows, cols);
    assert text[..|GridPrefix|] == GridPrefix;
    assert text[|GridPrefix|..] == a + [','] + b;
    FormatIntSeparators(rows, 10);
    SplitFirstJoin(a, ',', b);
    ParseFormatIntBare(rows, 10);
    ParseFormatIntBare(cols, 10);
  }

  /** `display_grid`: the layout command written, which the instrument reads
      back as the rows and columns it was given. */
  function DisplayGrid(rows: int, cols: int): (r: string)
    ensures |r| > |GridPrefix| && r[..|GridPrefix|] == GridPrefix
    ensures ParseGrid(r) == Some((rows, cols))
  {
    GridTextParses(rows, cols);
    GridText(rows, cols)
  }
}
