/**
 * `formatTime` (App.jsx:177-181): the remaining seconds shown as minutes, a
 * colon and two-digit seconds ("3:00", "1:05"). The timer it is given is never
 * negative, so the seconds are a `nat`; on such a value JavaScript's `%` and
 * Dafny's agree, and `Math.floor(seconds / 60)` is integer division.
 * ParseClock reads such a string back and is the partner of FormatTime.
 */
module Clock {
  import opened Wrappers

  predicate IsDigit(c: char) {
    '0' <= c <= '9'
  }

  predicate AllDigits(s: string) {
    forall i :: 0 <= i < |s| ==> IsDigit(s[i])
  }

  function DigitChar(d: nat): (c: char)
    requires d < 10
    ensures IsDigit(c)
  {
    (48 + d) as char
  }

  function DigitValue(c: char): (d: nat)
    requires IsDigit(c)
    ensures d < 10
  {
    c as int - 48
  }

  /** `Number.prototype.toString()` on a non-negative integer below 10^21: its decimal digits. */
  function NatToString(n: nat): (s: string)
    ensures 1 <= |s| && AllDigits(s)
    ensures |s| == 1 <==> n < 10
    ensures n >= 10 ==> s[0] != '0'
    decreases n
  {
    if n < 10 then [DigitChar(n)] else NatToString(n / 10) + [DigitChar(n % 10)]
  }

  /** The value of a string of decimal digits, read most significant first. */
  function ParseDigits(s: string): nat
    requires AllDigits(s)
  {
    if |s| == 0 then 0 else ParseDigits(s[..|s| - 1]) * 10 + DigitValue(s[|s| - 1])
  }

  /** `String.prototype.padStart(width, fill)`: fill on the left up to the width. */
  function PadStart(s: string, width: nat, fill: char): (r: string)
    ensures |r| == if |s| >= width then |s| else width
    ensures r[|r| - |s|..] == s
    ensures forall i :: 0 <= i < |r| - |s| ==> r[i] == fill
  {
    if |s| >= width then s else seq(width - |s|, _ => fill) + s
  }

  /** `formatTime(seconds)`. */
  function FormatTime(seconds: nat): (s: string)
    ensures |s| >= 4 && s[|s| - 3] == ':'
  {
    NatToString(seconds / 60) + ":" + PadStart(NatToString(seconds % 60), 2, '0')
  }

  /** Reads "m:ss" back into seconds; anything else is None. */
  function ParseClock(s: string): Option<nat> {
    if |s| >= 4 && s[|s| - 3] == ':' then ParseFields(s[..|s| - 3], s[|s| - 2..]) else None
  }

  /** The minutes and the seconds fields of "m:ss" as seconds, if both are digits and ss < 60. */
  function ParseFields(mins: string, secs: string): Option<nat> {
    if AllDigits(mins) && AllDigits(secs) && ParseDigits(secs) < 60 then
      Some(ParseDigits(mins) * 60 + ParseDigits(secs))
    else
      None
  }

  /** Reading back the digits of a number gives the number. */
  lemma {:induction false} ParseNatToString(n: nat)
    ensures ParseDigits(NatToString(n)) == n
    decreases n
  {
    var s := NatToString(n);
    if n < 10 {
      assert s[..0] == [];
    } else {
      ParseNatToString(n / 10);
      assert s[..|s| - 1] == NatToString(n / 10);
    }
  }

  /** The seconds field is always two digits and reads back as the seconds. */
  lemma SecondsField(k: nat)
    requires k < 60
    ensures |PadStart(NatToString(k), 2, '0')| == 2
    ensures AllDigits(PadStart(NatToString(k), 2, '0'))
    ensures ParseDigits(PadStart(NatToString(k), 2, '0')) == k
  {
    var p := PadStart(NatToString(k), 2, '0');
    if k < 10 {
      assert p == ['0', DigitChar(k)];
      assert DigitValue(DigitChar(k)) == k;
      assert p[..1] == ['0'] && p[..1][..0] == [];
      assert ParseDigits(p[..1]) == 0;
    } else {
      assert NatToString(k / 10) == [DigitChar(k / 10)];
      ParseNatToString(k);
    }
  }

  /** The pieces of "m" + ":" + "ss" sit where ParseClock looks for them. */
  lemma SplitClock(m: string, p: string)
    requires 1 <= |m| && |p| == 2
    ensures var s := m + ":" + p;
      |s| >= 4 && s[|s| - 3] == ':' && s[..|s| - 3] == m && s[|s| - 2..] == p
  {
    var s := m + ":" + p;
    assert s == (m + ":") + p;
    assert (m + ":")[..|m|] == m;
  }

  /** ParseClock of "m" + ":" + "ss" looks at exactly the fields m and ss. */
  lemma ParseClockSplit(m: string, p: string)
    requires 1 <= |m| && |p| == 2
    ensures ParseClock(m + ":" + p) == ParseFields(m, p)
  {
    SplitClock(m, p);
  }

  /** The string "m:ss" built from digit strings m and ss reads back as m * 60 + ss. */
  lemma ParseClockOfFields(m: string, p: string)
    requires 1 <= |m| && AllDigits(m) && |p| == 2 && AllDigits(p) && ParseDigits(p) < 60
    ensures ParseClock(m + ":" + p) == Some(ParseDigits(m) * 60 + ParseDigits(p))
  {
    ParseFieldsOfDigits(m, p);
    ParseClockSplit(m, p);
  }

  /** Digit fields with seconds under 60 give m * 60 + ss. */
  lemma ParseFieldsOfDigits(m: string, p: string)
    requires AllDigits(m) && AllDigits(p) && ParseDigits(p) < 60
    ensures ParseFields(m, p) == Some(ParseDigits(m) * 60 + ParseDigits(p))
  {
  }

  /** "m" + ":" + "ss" has the shape of a clock display when m and ss are digits. */
  predicate ClockShaped(s: string) {
    |s| >= 4 && s[|s| - 3] == ':' && AllDigits(s[..|s| - 3]) && AllDigits(s[|s| - 2..])
  }

  lemma FieldsClockShaped(m: string, p: string)
    requires 1 <= |m| && AllDigits(m) && |p| == 2 && AllDigits(p)
    ensures ClockShaped(m + ":" + p)
  {
    SplitClock(m, p);
  }

  /** The display is one or more minute digits, a colon and exactly two second digits. */
  lemma FormatTimeShape(seconds: nat)
    ensures ClockShaped(FormatTime(seconds))
  {
    var m := NatToString(seconds / 60);
    var p := PadStart(NatToString(seconds % 60), 2, '0');
    assert FormatTime(seconds) == m + ":" + p;
    SecondsField(seconds % 60);
    FieldsClockShaped(m, p);
  }

  /** Every displayed time reads back as the seconds it shows. */
  lemma ClockRoundTrip(seconds: nat)
    ensures ParseClock(FormatTime(seconds)) == Some(seconds)
  {
    var q, r := seconds / 60, seconds % 60;
    var m := NatToString(q);
    var p := PadStart(NatToString(r), 2, '0');
    assert FormatTime(seconds) == m + ":" + p;
    SecondsField(r);
    ParseNatToString(q);
    ParseClockOfFields(m, p);
    assert q * 60 + r == seconds;
  }

  /** Two different times never look alike on the display. */
  lemma FormatTimeInjective(a: nat, b: nat)
    ensures FormatTime(a) == FormatTime(b) ==> a == b
  {
    ClockRoundTrip(a);
    ClockRoundTrip(b);
  }

  /** A new game's timer is shown as "3:00". */
  lemma FormatTimeStart()
    ensures FormatTime(180) == "3:00"
  {
    assert 180 / 60 == 3 && 180 % 60 == 0;
    assert FormatTime(180) == NatToString(3) + ":" + PadStart(NatToString(0), 2, '0');
    assert NatToString(3) == "3" && NatToString(0) == "0";
    assert PadStart("0", 2, '0') == "00";
  }

  /** A minute and five seconds is shown as "1:05". */
  lemma FormatTimeMinuteFive()
    ensures FormatTime(65) == "1:05"
  {
    assert 65 / 60 == 1 && 65 % 60 == 5;
    assert FormatTime(65) == NatToString(1) + ":" + PadStart(NatToString(5), 2, '0');
    assert NatToString(1) == "1" && NatToString(5) == "5";
    assert PadStart("5", 2, '0') == "05";
  }
}
