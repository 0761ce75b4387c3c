/** The Yokogawa 7651 driver used as a current source: output on/off, the
    output state read from bit 4 of the `OC` status word, the current read
    from the `OD` reply with its `NDCA` header removed, and the current set
    with `S<value>E`. */
module Yokogawa {
  import opened Base

  /** `float_round`: Python's `round(float(val))`. */
  function FloatRound(val: real): (r: int)
    ensures val - 1.0 / 2.0 <= r as real <= val + 1.0 / 2.0
    ensures (r as real == val - 1.0 / 2.0 || r as real == val + 1.0 / 2.0) ==> r % 2 == 0
  {
    Round(val)
  }

  /** Ties go to the even neighbour, in both directions. */
  lemma FloatRoundTies()
    ensures FloatRound(0.5) == 0 && FloatRound(1.5) == 2 && FloatRound(2.5) == 2
    ensures FloatRound(-0.5) == 0 && FloatRound(-1.5) == -2
    ensures FloatRound(2.4) == 2 && FloatRound(2.6) == 3
  {}

  // ---------------------------------------------------------------------------
  // Substring removal, as `str.replace(pat, '')`

  /** `pat` occurs in `s` starting at `i`. */
  predicate OccursAt(s: string, i: int, pat: string) {
    0 <= i && i + |pat| <= |s| && s[i..i + |pat|] == pat
  }

  predicate Contains(s: string, pat: string) {
    exists i | 0 <= i <= |s| :: OccursAt(s, i, pat)
  }

  /** `s.replace(pat, '')`: one left-to-right pass removing non-overlapping
      occurrences; what the removal joins together is not looked at again. */
  function RemoveAll(s: string, pat: string): (r: string)
    requires |pat| > 0
    ensures |r| <= |s|
    decreases |s|
  {
    if |s| < |pat| then s
    else if s[..|pat|] == pat then RemoveAll(s[|pat|..], pat)
    else [s[0]] + RemoveAll(s[1..], pat)
  }

  /** A string without the pattern comes back unchanged. */
  lemma {:induction false} RemoveAllAbsent(s: string, pat: string)
    requires |pat| > 0 && !Contains(s, pat)
    ensures RemoveAll(s, pat) == s
    decreases |s|
  {
    if |s| >= |pat| {
      assert !OccursAt(s, 0, pat);
      assert s[..|pat|] != pat;
      if Contains(s[1..], pat) {
        var i :| 0 <= i <= |s[1..]| && OccursAt(s[1..], i, pat);
        assert i + |pat| <= |s| - 1;
        assert s[1..][i..i + |pat|] == s[i + 1..i + 1 + |pat|];
        assert OccursAt(s, i + 1, pat);
      }
      RemoveAllAbsent(s[1..], pat);
      assert s == [s[0]] + s[1..];
    }
  }

  /** A leading occurrence is removed and the scan resumes after it. */
  lemma RemoveAllPrefix(pat: string, t: string)
    requires |pat| > 0
    ensures RemoveAll(pat + t, pat) == RemoveAll(t, pat)
  {
    assert (pat + t)[..|pat|] == pat;
    assert (pat + t)[|pat|..] == t;
  }

  /** One pass is not enough to clear every occurrence: removing `NDCA` from
      `NDNDCACA` joins a new `NDCA`. */
  lemma RemoveAllSinglePass()
    ensures RemoveAll("NDNDCACA", "NDCA") == "NDCA"
    ensures Contains(RemoveAll("NDNDCACA", "NDCA"), "NDCA")
  {
    var s := "NDNDCACA";
    assert s[..4] == "NDND";
    assert s[1..][..4] == "DNDC";
    assert s[1..][1..] == "NDCACA";
    assert "NDCACA"[..4] == "NDCA";
    assert "NDCACA"[4..] == "CA";
    assert RemoveAll("CA", "NDCA") == "CA";
    assert RemoveAll("NDCACA", "NDCA") == "CA";
    assert RemoveAll(s[1..], "NDCA") == ['D'] + "CA";
    assert RemoveAll(s, "NDCA") == ['N'] + (['D'] + "CA");
    assert OccursAt("NDCA", 0, "NDCA");
  }

  // ---------------------------------------------------------------------------
  // Output state

  /** The `output` parameter's values; `val_mapping` sends them as 0 and 1. */
  datatype Output = Off | On

  function OutputValue(o: Output): int {
    match o
    case Off => 0
    case On => 1
  }

  /** The inverse mapping applied to what the getter returns; anything but 0
      or 1 has no name and raises KeyError. */
  function OutputFromValue(v: int): (r: Result<Output>)
    ensures r.Ok? <==> v == 0 || v == 1
    ensures r.Err? ==> r.error == KeyError
  {
    if v == 0 then Ok(Off)
    else if v == 1 then Ok(On)
    else Err(KeyError)
  }

  lemma OutputMappingRoundTrip(o: Output)
    ensures OutputFromValue(OutputValue(o)) == Ok(o)
  {}

  /** The setter's lambda: `on()` for a truthy value, `off()` otherwise. */
  function OutputCommand(x: int): (r: string)
    ensures r == "O1E" || r == "O0E"
    ensures r == "O1E" <==> x != 0
  {
    if x != 0 then "O1E" else "O0E"
  }

  /** Setting `output`: the name is mapped to 0 or 1 and handed to the lambda. */
  function SetOutput(o: Output): (r: Exchange<string, ()>)
    ensures r.result.Ok? && |r.written| == 1
    ensures r.written[0] == (if o == On then "O1E" else "O0E")
  {
    Exchange([OutputCommand(OutputValue(o))], Ok(()))
  }

  /** How the instrument reads an output command. */
  function CommandedOutput(cmd: string): Option<Output> {
    if cmd == "O1E" then Some(On)
    else if cmd == "O0E" then Some(Off)
    else None
  }

  /** The command written for a state switches the output to that state. */
  lemma SetOutputRoundTrip(o: Output)
    ensures CommandedOutput(SetOutput(o).written[0]) == Some(o)
  {}

  /** `reply[5:]`: an empty string when the reply is shorter. */
  function AfterHeader(reply: string): (r: string)
    ensures |reply| >= 5 ==> reply == reply[..5] + r
    ensures |reply| < 5 ==> r == []
  {
    if |reply| >= 5 then reply[5..] else []
  }

  /** `state`: the status word after the five-character header, as a decimal
      integer; the result is 1 when its bit 4 is set and 0 otherwise. A word
      that is not an integer raises ValueError. */
  function State(reply: string): (r: Result<int>)
    ensures r.Ok? <==> ParseInt(AfterHeader(reply), 10).Ok?
    ensures r.Err? ==> r.error == ValueError
    ensures r.Ok? ==> (r.value == 0 || r.value == 1)
    ensures r.Ok? ==> (r.value == 1 <==> ParseInt(AfterHeader(reply), 10).value % 32 >= 16)
  {
    match ParseInt(AfterHeader(reply), 10)
    case Err(e) => Err(e)
    case Ok(oc) =>
      Bit4(oc);
      var bit := (oc / 16) % 2;
      if bit > 0 then Ok(1) else Ok(0)
  }

  /** Bit 4 of a two's-complement integer, as Python's `&` sees it, is the
      parity of `floor(n / 16)`; it is set exactly when `n mod 32` is at
      least 16. Both are floor-based, as Dafny's `/` and `%` are for a
      positive divisor. */
  lemma Bit4(n: int)
    ensures (n / 16) % 2 == 1 <==> n % 32 >= 16
  {
    var q := n / 32;
    var m := n % 32;
    assert n == 32 * q + m && 0 <= m < 32;
    if m >= 16 {
      assert n == 16 * (2 * q + 1) + (m - 16);
      assert n / 16 == 2 * q + 1;
    } else {
      assert n == 16 * (2 * q) + m;
      assert n / 16 == 2 * q;
    }
  }

  /** `output` read back: `OC` is asked and the state mapped to a name. */
  function GetOutput(reply: string): (r: Exchange<string, Output>)
    ensures r.written == ["OC"]
    ensures r.result.Ok? <==> State(reply).Ok?
    ensures r.result.Ok? ==> OutputValue(r.result.value) == State(reply).value
  {
    match State(reply)
    case Err(e) => Exchange(["OC"], Err(e))
    case Ok(v) => Exchange(["OC"], OutputFromValue(v))
  }

  /** A status reply `<5-char header><decimal word>` reads as On exactly
      when bit 4 of the word is set, for negative words too. */
  lemma GetOutputReadsBit4(header: string, word: int)
    requires |header| == 5
    ensures GetOutput(header + Decimal(word)).result == Ok(if word % 32 >= 16 then On else Off)
  {
    assert AfterHeader(header + Decimal(word)) == Decimal(word);
    ParseFormatIntBare(word, 10);
  }

  // ---------------------------------------------------------------------------
  // Current

  /** `_get_current`: ask `OD`, remove every `NDCA` and read the rest as a
      number. Python's `float` parsing is the `parseFloat` argument; text it
      rejects raises ValueError. */
  function GetCurrent(reply: string, parseFloat: string -> Option<real>): (r: Exchange<string, real>)
    ensures r.written == ["OD"]
    ensures r.result.Ok? <==> parseFloat(RemoveAll(reply, "NDCA")).Some?
    ensures r.result.Ok? ==> r.result.value == parseFloat(RemoveAll(reply, "NDCA")).value
    ensures r.result.Err? ==> r.result.error == ValueError
  {
    match parseFloat(RemoveAll(reply, "NDCA"))
    case None => Exchange(["OD"], Err(ValueError))
    case Some(v) => Exchange(["OD"], Ok(v))
  }

  /** A reply `NDCA<number>` reads as the number, when the number's text has
      no `NDCA` of its own. */
  lemma GetCurrentReadsNumber(t: string, parseFloat: string -> Option<real>)
    requires !Contains(t, "NDCA")
    ensures GetCurrent("NDCA" + t, parseFloat).result ==
      (match parseFloat(t) case None => Err(ValueError) case Some(v) => Ok(v))
  {
    RemoveAllPrefix("NDCA", t);
    RemoveAllAbsent(t, "NDCA");
  }

  /** `_set_current`: `S<value>E`, the value printed with `{:e}` (the `fmt`
      argument). */
  function SetCurrent(value: real, fmt: real -> string): (r: Exchange<string, ()>)
    ensures r.result.Ok? && |r.written| == 1
    ensures |r.written[0]| == |fmt(value)| + 2
    ensures r.written[0][0] == 'S' && r.written[0][|r.written[0]| - 1] == 'E'
  {
    Exchange(["S" + fmt(value) + "E"], Ok(()))
  }

  /** How the instrument reads a set-current command: the text between the
      leading `S` and the trailing `E`. */
  function SetCurrentArgument(cmd: string): Option<string> {
    if |cmd| >= 2 && cmd[0] == 'S' && cmd[|cmd| - 1] == 'E' then Some(cmd[1..|cmd| - 1])
    else None
  }

  /** The command carries exactly the printed value. */
  lemma SetCurrentRoundTrip(value: real, fmt: real -> string)
    ensures SetCurrentArgument(SetCurrent(value, fmt).written[0]) == Some(fmt(value))
  {
    var c := SetCurrent(value, fmt).written[0];
    assert c == "S" + fmt(value) + "E";
    assert c[1..|c| - 1] == fmt(value);
  }
}
