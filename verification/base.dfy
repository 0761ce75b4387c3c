/** Shared vocabulary of the driver models: the exception kinds the drivers
    raise, Result/Option wrappers, ASCII whitespace stripping, integer
    formatting and parsing in base 10 and 16 (the subset of Python's
    `format` and `int(s, base)` the drivers rely on), and nearest-integer
    rounding. */
module Base {

  /** The Python exception classes the modelled code can raise;
      `DatabaseError` is `sqlite3.DatabaseError` and its subclasses. */
  datatype Error = ValueError | IndexError | AttributeError | TypeError | AssertionError | KeyError | DatabaseError

  datatype Result<T> = Ok(value: T) | Err(error: Error)

  datatype Option<T> = None | Some(value: T)

  /** One driver call seen from the wire: the commands it wrote, in order,
      and what it returned or raised. */
  datatype Exchange<C, T> = Exchange(written: seq<C>, result: Result<T>)

  /** Runs a list of steps in order, as a Python loop does when each step may
      raise: the values of the steps before the first failure, and that
      failure, if any. */
  function RunAll<T>(steps: seq<Result<T>>): (r: (seq<T>, Option<Error>))
    ensures |r.0| <= |steps|
    ensures forall j :: 0 <= j < |r.0| ==> steps[j] == Ok(r.0[j])
    ensures r.1.None? <==> |r.0| == |steps|
    ensures r.1.Some? ==> steps[|r.0|] == Err(r.1.value)
  {
    if |steps| == 0 then ([], None)
    else match steps[0]
      case Err(e) => ([], Some(e))
      case Ok(v) =>
        var rest := RunAll(steps[1..]);
        var vs := [v] + rest.0;
        assert forall j :: 1 <= j < |vs| ==> vs[j] == rest.0[j - 1] && steps[j] == steps[1..][j - 1];
        (vs, rest.1)
  }

  // ---------------------------------------------------------------------------
  // Whitespace

  /** Whitespace as `int()` skips it around the digits: space, \t, \n, \v,
      \f, \r. */
  const IntSpace: set<char> := {' ', '\t', '\n', '\U{B}', '\U{C}', '\r'}

  /** Whitespace as `str.strip()` and `str.rstrip()` remove it on ASCII text:
      the six characters above and the separators \x1c to \x1f, which
      Python's `str` also counts as whitespace. */
  const StrSpace: set<char> := IntSpace + {'\U{1C}', '\U{1D}', '\U{1E}', '\U{1F}'}

  /** Every character of `s` is in `ws`. */
  predicate AllIn(s: string, ws: set<char>) {
    forall i :: 0 <= i < |s| ==> s[i] in ws
  }

  /** Drops the trailing characters that are in `ws`. */
  function RTrim(s: string, ws: set<char>): (r: string)
    ensures r <= s
    ensures AllIn(s[|r|..], ws)
    ensures |r| == 0 || r[|r| - 1] !in ws
  {
    if |s| > 0 && s[|s| - 1] in ws then RTrim(s[..|s| - 1], ws) else s
  }

  /** Drops the leading characters that are in `ws`. */
  function LTrim(s: string, ws: set<char>): (r: string)
    ensures |r| <= |s| && r == s[|s| - |r|..]
    ensures AllIn(s[..|s| - |r|], ws)
    ensures |r| == 0 || r[0] !in ws
  {
    if |s| > 0 && s[0] in ws then LTrim(s[1..], ws) else s
  }

  function Trim(s: string, ws: set<char>): string {
    LTrim(RTrim(s, ws), ws)
  }

  lemma {:induction false} RTrimPadded(t: string, w: string, ws: set<char>)
    requires |t| == 0 || t[|t| - 1] !in ws
    requires AllIn(w, ws)
    ensures RTrim(t + w, ws) == t
    decreases |w|
  {
    if |w| == 0 {
      assert t + w == t;
    } else {
      assert (t + w)[..|t + w| - 1] == t + w[..|w| - 1];
      RTrimPadded(t, w[..|w| - 1], ws);
    }
  }

  lemma {:induction false} LTrimPadded(w: string, t: string, ws: set<char>)
    requires |t| == 0 || t[0] !in ws
    requires AllIn(w, ws)
    ensures LTrim(w + t, ws) == t
    decreases |w|
  {
    if |w| == 0 {
      assert w + t == t;
    } else {
      assert (w + t)[1..] == w[1..] + t;
      LTrimPadded(w[1..], t, ws);
    }
  }

  /** Trimming a word surrounded by characters of `ws` gives back the word. */
  lemma TrimPadded(w1: string, t: string, w2: string, ws: set<char>)
    requires |t| == 0 || (t[0] !in ws && t[|t| - 1] !in ws)
    requires AllIn(w1, ws) && AllIn(w2, ws)
    ensures Trim(w1 + t + w2, ws) == t
  {
    if |t| == 0 {
      var e: string := [];
      assert w1 + t + w2 == e + (w1 + w2);
      assert AllIn(w1 + w2, ws);
      RTrimPadded(e, w1 + w2, ws);
    } else {
      assert w1 + t + w2 == (w1 + t) + w2;
      RTrimPadded(w1 + t, w2, ws);
      LTrimPadded(w1, t, ws);
    }
  }

  predicate IsSpace(c: char) {
    c in StrSpace
  }

  predicate AllSpace(s: string) {
    AllIn(s, StrSpace)
  }

  /** Python `s.rstrip()`. */
  function RStrip(s: string): string {
    RTrim(s, StrSpace)
  }

  /** Python `s.strip()`. */
  function Strip(s: string): string {
    Trim(s, StrSpace)
  }

  /** `strip()` of a word surrounded by whitespace gives back the word. */
  lemma StripPadded(w1: string, t: string, w2: string)
    requires |t| == 0 || (!IsSpace(t[0]) && !IsSpace(t[|t| - 1]))
    requires AllSpace(w1) && AllSpace(w2)
    ensures Strip(w1 + t + w2) == t
  {
    TrimPadded(w1, t, w2, StrSpace);
  }

  /** `rstrip()` of text followed by whitespace gives back the text, when the
      text does not itself end in whitespace. */
  lemma RStripPadded(t: string, w: string)
    requires |t| == 0 || !IsSpace(t[|t| - 1])
    requires AllSpace(w)
    ensures RStrip(t + w) == t
  {
    RTrimPadded(t, w, StrSpace);
  }

  // ---------------------------------------------------------------------------
  // Splitting

  /** Splits `s` at the first occurrence of `sep`, dropping the separator. */
  function SplitFirst(s: string, sep: char): (r: Option<(string, string)>)
    ensures r.None? <==> sep !in s
    ensures r.Some? ==> s == r.value.0 + [sep] + r.value.1 && sep !in r.value.0
  {
    if |s| == 0 then None
    else if s[0] == sep then
      assert s == [] + [sep] + s[1..];
      Some(([], s[1..]))
    else match SplitFirst(s[1..], sep)
      case None =>
        assert s == [s[0]] + s[1..];
        None
      case Some(p) =>
        assert s == [s[0]] + s[1..];
        assert s == ([s[0]] + p.0) + [sep] + p.1;
        Some(([s[0]] + p.0, p.1))
  }

  /** Splitting a joined pair at a separator the left part does not contain
      gives the pair back. */
  lemma {:induction false} SplitFirstJoin(a: string, sep: char, b: string)
    requires sep !in a
    ensures SplitFirst(a + [sep] + b, sep) == Some((a, b))
    decreases |a|
  {
    var s := a + [sep] + b;
    if |a| == 0 {
      assert s[0] == sep && s[1..] == b;
    } else {
      assert s[0] == a[0] && s[1..] == a[1..] + [sep] + b;
      SplitFirstJoin(a[1..], sep, b);
      assert [a[0]] + a[1..] == a;
    }
  }

  // ---------------------------------------------------------------------------
  // Letters

  predicate IsLower(c: char) { 'a' <= c <= 'z' }
  predicate IsUpper(c: char) { 'A' <= c <= 'Z' }
  predicate IsLetter(c: char) { IsLower(c) || IsUpper(c) }
  predicate IsDecDigit(c: char) { '0' <= c <= '9' }

  function UpperChar(c: char): char {
    if IsLower(c) then (c as int - 32) as char else c
  }

  function LowerChar(c: char): char {
    if IsUpper(c) then (c as int + 32) as char else c
  }

  /** Python `str.upper()` on ASCII text. */
  function Upper(s: string): (r: string)
    ensures |r| == |s|
    ensures forall i :: 0 <= i < |s| ==> r[i] == UpperChar(s[i])
  {
    if |s| == 0 then [] else [UpperChar(s[0])] + Upper(s[1..])
  }

  /** Python `str.lower()` on ASCII text. */
  function Lower(s: string): (r: string)
    ensures |r| == |s|
    ensures forall i :: 0 <= i < |s| ==> r[i] == LowerChar(s[i])
  {
    if |s| == 0 then [] else [LowerChar(s[0])] + Lower(s[1..])
  }

  predicate NoLowerCase(s: string) {
    forall i :: 0 <= i < |s| ==> !IsLower(s[i])
  }

  /** Upper-casing is the identity exactly on text without lower-case letters. */
  lemma UpperFixedPoints(s: string)
    ensures Upper(s) == s <==> NoLowerCase(s)
  {
    if NoLowerCase(s) {
      assert forall i :: 0 <= i < |s| ==> Upper(s)[i] == s[i];
    }
    if Upper(s) == s {
      forall i | 0 <= i < |s| ensures !IsLower(s[i]) {
        assert UpperChar(s[i]) == s[i];
      }
    }
  }

  /** Upper-cased text has no lower-case letters. */
  lemma UpperHasNoLowerCase(s: string)
    ensures NoLowerCase(Upper(s))
  {}

  /** Lower-casing then upper-casing restores text that had no lower-case letters. */
  lemma UpperLowerInverse(s: string)
    requires NoLowerCase(s)
    ensures Upper(Lower(s)) == s
  {
    assert forall i :: 0 <= i < |s| ==> Upper(Lower(s))[i] == s[i];
  }

  // ---------------------------------------------------------------------------
  // Digits in base 2..16

  /** The digit character Python's `{:X}` / `{}` formats print for `d`. */
  function DigitChar(d: nat): (c: char)
    requires d < 16
  {
    if d < 10 then ('0' as int + d) as char else ('A' as int + d - 10) as char
  }

  /** Value of a hexadecimal digit in either case, as `int(c, 16)` reads it. */
  function DigitValue(c: char): Option<nat> {
    if '0' <= c <= '9' then Some(c as int - '0' as int)
    else if 'a' <= c <= 'f' then Some(c as int - 'a' as int + 10)
    else if 'A' <= c <= 'F' then Some(c as int - 'A' as int + 10)
    else None
  }

  predicate IsDigitIn(c: char, base: nat) {
    DigitValue(c).Some? && DigitValue(c).value < base
  }

  predicate AllDigitsIn(s: string, base: nat) {
    forall i :: 0 <= i < |s| ==> IsDigitIn(s[i], base)
  }

  /** The characters `DigitChar` prints: `0`-`9` and `A`-`F`. */
  predicate PrintedDigit(c: char) {
    '0' <= c <= '9' || 'A' <= c <= 'F'
  }

  lemma DigitCharValue(d: nat)
    requires d < 16
    ensures DigitValue(DigitChar(d)) == Some(d)
    ensures PrintedDigit(DigitChar(d))
  {}

  /** Positional value of a digit string, most significant digit first. */
  function ValueOf(s: string, base: nat): nat
    requires AllDigitsIn(s, base)
  {
    if |s| == 0 then 0
    else ValueOf(s[..|s| - 1], base) * base + DigitValue(s[|s| - 1]).value
  }

  /** One step of positional notation: `n` splits into a quotient and a last digit. */
  lemma DivStep(n: nat, base: nat)
    requires 2 <= base <= n
    ensures 0 < n / base < n && n % base < base
    ensures n == (n / base) * base + n % base
  {}

  /** Appending one digit multiplies the value by the base and adds the digit. */
  lemma ValueOfSnoc(s: string, c: char, base: nat)
    requires AllDigitsIn(s, base) && IsDigitIn(c, base)
    ensures AllDigitsIn(s + [c], base)
    ensures ValueOf(s + [c], base) == ValueOf(s, base) * base + DigitValue(c).value
  {
    assert (s + [c])[..|s|] == s;
  }

  /** The shortest digit string of `n` in `base`, upper-case letters for 10..15. */
  function ToDigits(n: nat, base: nat): (r: string)
    requires 2 <= base <= 16
    ensures |r| > 0
    ensures forall i :: 0 <= i < |r| ==> PrintedDigit(r[i])
    ensures AllDigitsIn(r, base)
    ensures ValueOf(r, base) == n
    decreases n
  {
    if n < base then
      DigitCharValue(n);
      [DigitChar(n)]
    else
      DivStep(n, base);
      var q, d := n / base, n % base;
      DigitCharValue(d);
      ValueOfSnoc(ToDigits(q, base), DigitChar(d), base);
      ToDigits(q, base) + [DigitChar(d)]
  }

  /** `{:d}`-style (base 10) or `{:X}`-style (base 16) formatting of an int. */
  function FormatInt(i: int, base: nat): (r: string)
    requires base == 10 || base == 16
  {
    if i < 0 then "-" + ToDigits(-i, base) else ToDigits(i, base)
  }

  /** Decimal text of an int, as `'{}'.format(i)` prints it. */
  function Decimal(i: int): string {
    FormatInt(i, 10)
  }

  /** Upper-case hexadecimal text of an int, as `'{:X}'.format(i)` prints it. */
  function HexUpper(i: int): string {
    FormatInt(i, 16)
  }

  /** Unsigned digits as Python's `int()` accepts them after the sign. For base
      16 an optional `0x`/`0X` prefix is allowed. */
  function ParseMagnitude(s: string, base: nat): Option<nat> {
    var t := if base == 16 && |s| >= 2 && s[0] == '0' && (s[1] == 'x' || s[1] == 'X') then s[2..] else s;
    if |t| > 0 && AllDigitsIn(t, base) then Some(ValueOf(t, base)) else None
  }

  /** Python `int(s, base)` for base 10 or 16: surrounding `IntSpace`, an
      optional sign, optional `0x` prefix in base 16, at least one digit;
      anything else raises ValueError. */
  function ParseInt(s: string, base: nat): (r: Result<int>)
    requires base == 10 || base == 16
  {
    ParseSigned(Trim(s, IntSpace), base)
  }

  /** `int(t, base)` once the surrounding whitespace is gone. */
  function ParseSigned(t: string, base: nat): Result<int> {
    var neg := |t| > 0 && t[0] == '-';
    var body := if |t| > 0 && (t[0] == '-' || t[0] == '+') then t[1..] else t;
    match ParseMagnitude(body, base)
    case None => Err(ValueError)
    case Some(m) => Ok(if neg then -(m as int) else m)
  }

  /** `FormatInt` text is a sign and printed digits: no whitespace, blank,
      comma or lower-case letter. */
  lemma FormatIntShape(i: int, base: nat)
    requires base == 10 || base == 16
    ensures var s := FormatInt(i, base);
      |s| > 0 && forall k :: 0 <= k < |s| ==> s[k] == '-' || PrintedDigit(s[k])
  {
    if i < 0 {
      var d := ToDigits(-i, base);
      var s := "-" + d;
      assert forall k :: 1 <= k < |s| ==> s[k] == d[k - 1];
    }
  }

  lemma ParseMagnitudeDigits(n: nat, base: nat)
    requires base == 10 || base == 16
    ensures ParseMagnitude(ToDigits(n, base), base) == Some(n)
  {
    var d := ToDigits(n, base);
    assert PrintedDigit(d[0]);
    assert |d| >= 2 ==> PrintedDigit(d[1]);
  }

  lemma ParseSignedMinus(d: string, base: nat, m: nat)
    requires ParseMagnitude(d, base) == Some(m)
    ensures ParseSigned("-" + d, base) == Ok(-(m as int))
  {
    var t := "-" + d;
    assert t[0] == '-' && t[1..] == d;
  }

  lemma ParseSignedPlain(d: string, base: nat, m: nat)
    requires |d| > 0 && PrintedDigit(d[0])
    requires ParseMagnitude(d, base) == Some(m)
    ensures ParseSigned(d, base) == Ok(m)
  {}

  lemma ParseSignedFormat(i: int, base: nat)
    requires base == 10 || base == 16
    ensures ParseSigned(FormatInt(i, base), base) == Ok(i)
  {
    if i < 0 {
      ParseMagnitudeDigits(-i, base);
      ParseSignedMinus(ToDigits(-i, base), base, -i);
    } else {
      var d := ToDigits(i, base);
      ParseMagnitudeDigits(i, base);
      ParseSignedPlain(d, base, i);
    }
  }

  /** Round trip: `int(format(i), base)` returns `i`, whatever whitespace
      surrounds the text. */
  lemma ParseFormatInt(i: int, base: nat, w1: string, w2: string)
    requires base == 10 || base == 16
    requires AllIn(w1, IntSpace) && AllIn(w2, IntSpace)
    ensures ParseInt(w1 + FormatInt(i, base) + w2, base) == Ok(i)
  {
    var s := FormatInt(i, base);
    FormatIntShape(i, base);
    assert s[0] !in IntSpace && s[|s| - 1] !in IntSpace;
    TrimPadded(w1, s, w2, IntSpace);
    ParseSignedFormat(i, base);
  }

  /** Round trip without surrounding whitespace. */
  lemma ParseFormatIntBare(i: int, base: nat)
    requires base == 10 || base == 16
    ensures ParseInt(FormatInt(i, base), base) == Ok(i)
  {
    var e: string := [];
    ParseFormatInt(i, base, e, e);
    assert e + FormatInt(i, base) + e == FormatInt(i, base);
  }

  /** Formatted integers never contain a blank or a comma, and start and end
      with a non-space. */
  lemma FormatIntSeparators(i: int, base: nat)
    requires base == 10 || base == 16
    ensures var s := FormatInt(i, base);
      ' ' !in s && ',' !in s && |s| > 0 && !IsSpace(s[0]) && !IsSpace(s[|s| - 1])
  {
    FormatIntShape(i, base);
    var s := FormatInt(i, base);
    PrintedNotSpace(s[0]);
    PrintedNotSpace(s[|s| - 1]);
  }

  /** A sign or printed digit is not whitespace. */
  lemma PrintedNotSpace(c: char)
    requires c == '-' || PrintedDigit(c)
    ensures !IsSpace(c)
  {}

  // ---------------------------------------------------------------------------
  // Rounding

  /** Python's `round` on a number: the nearest integer, an exact tie going
      to the even neighbour. */
  function Round(x: real): (r: int)
    ensures x - 1.0 / 2.0 <= r as real <= x + 1.0 / 2.0
    ensures (r as real == x - 1.0 / 2.0 || r as real == x + 1.0 / 2.0) ==> r % 2 == 0
  {
    var f := x.Floor;
    var frac := x - f as real;
    if frac < 1.0 / 2.0 then f
    else if frac > 1.0 / 2.0 then f + 1
    else if f % 2 == 0 then f
    else f + 1
  }

  /** Rounding to the nearest integer is monotone. */
  lemma RoundMonotone(x: real, y: real)
    requires x <= y
    ensures Round(x) <= Round(y)
  {}

  /** An integer rounds to itself. */
  lemma RoundInteger(n: int)
    ensures Round(n as real) == n
  {}
}
