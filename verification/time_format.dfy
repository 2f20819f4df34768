/**
 * The elapsed/duration label of the player: `getSongMinute` in
 * components/PlayerContent.tsx, over whole seconds.
 *
 * The seconds part is the argument modulo 60, rendered in decimal and
 * left-padded with '0' to two characters. The minutes part is NOT taken from
 * the argument: it is `VALUE_TIMER / 60` or `MAX_VALUE_TIMER / 60`, chosen by
 * `isMaxTimer`, rendered with `toFixed(2)` and cut at the decimal point. For a
 * whole number of seconds x, x / 60 has a fractional part of at most 59/60,
 * which `toFixed(2)` never rounds up to the next integer, so that text is the
 * decimal rendering of x div 60.
 */
module TimeFormat {
  import opened Wrappers

  predicate IsDigit(c: char) {
    '0' <= c <= '9'
  }

  predicate AllDigits(s: string) {
    forall k :: 0 <= k < |s| ==> IsDigit(s[k])
  }

  function DigitChar(d: nat): (c: char)
    requires d < 10
    ensures IsDigit(c) && c as int - '0' as int == d
  {
    ['0', '1', '2', '3', '4', '5', '6', '7', '8', '9'][d]
  }

  /** `String(n)` for a non-negative integer: its decimal digits, with no leading zero. */
  function Decimal(n: nat): (s: string)
    ensures 1 <= |s| && AllDigits(s)
    ensures |s| == 1 <==> n < 10
    ensures s[0] == '0' ==> n == 0
  {
    if n < 10 then [DigitChar(n)] else Decimal(n / 10) + [DigitChar(n % 10)]
  }

  /** The value of a string of decimal digits (leading zeros allowed); the reference for Decimal. */
  function DigitsValue(s: string): nat
    requires AllDigits(s)
  {
    if s == [] then 0
    else DigitsValue(s[..|s| - 1]) * 10 + (s[|s| - 1] as int - '0' as int)
  }

  /** Reading back the rendering of n gives n. */
  lemma {:induction false} DecimalValue(n: nat)
    ensures DigitsValue(Decimal(n)) == n
  {
    var s := Decimal(n);
    if n >= 10 {
      DecimalValue(n / 10);
      assert s[..|s| - 1] == Decimal(n / 10);
    }
  }

  /** A leading '0' adds nothing to the value of a digit string. */
  lemma {:induction false} LeadingZeroValue(s: string)
    requires AllDigits(s)
    ensures DigitsValue(['0'] + s) == DigitsValue(s)
  {
    if s != [] {
      var t := ['0'] + s;
      assert t[..|t| - 1] == ['0'] + s[..|s| - 1];
      LeadingZeroValue(s[..|s| - 1]);
    }
  }

  /** `s.padStart(width, fill)`: fill prepended until the string is `width` long. */
  function PadStart(s: string, width: nat, fill: char): (r: string)
    ensures |r| == if |s| < width then width else |s|
    ensures r[|r| - |s|..] == s
    ensures forall k :: 0 <= k < |r| - |s| ==> r[k] == fill
  {
    if |s| < width then seq(width - |s|, _ => fill) + s else s
  }

  /** Padding a one- or two-digit rendering to two characters keeps its value. */
  lemma PaddedSecondsValue(seconds: nat)
    requires seconds < 100
    ensures var r := PadStart(Decimal(seconds), 2, '0');
      |r| == 2 && AllDigits(r) && DigitsValue(r) == seconds
  {
    var d := Decimal(seconds);
    DecimalValue(seconds);
    var r := PadStart(d, 2, '0');
    if |d| == 1 {
      assert r == ['0'] + d;
      LeadingZeroValue(d);
    } else {
      assert r == d;
    }
  }

  /** The two-character seconds field: `String(seconds).padStart(2, '0')`. */
  function SecondsField(seconds: nat): (r: string)
    requires seconds < 60
    ensures |r| == 2 && AllDigits(r) && DigitsValue(r) == seconds
  {
    PaddedSecondsValue(seconds);
    PadStart(Decimal(seconds), 2, '0')
  }

  /**
   * `getSongMinute(valueInSeconds, isMaxTimer)` with the two values it reads
   * from the component, `VALUE_TIMER` and `MAX_VALUE_TIMER`, passed explicitly.
   */
  function GetSongMinute(valueInSeconds: nat, isMaxTimer: bool, valueTimer: nat, maxValueTimer: nat): (r: string)
    ensures ParseClock(r) == Some(ClockValue((if isMaxTimer then maxValueTimer else valueTimer) / 60, valueInSeconds % 60))
  {
    var seconds := if valueInSeconds % 60 != 0 then valueInSeconds % 60 else 0;
    var minuteSource := if isMaxTimer then maxValueTimer else valueTimer;
    ParseJoined(minuteSource / 60, seconds);
    Decimal(minuteSource / 60) + ":" + SecondsField(seconds)
  }

  /** A colon between a digit string and a two-digit seconds field parses as their total. */
  lemma ParseParts(m: string, f: string)
    requires 1 <= |m| && AllDigits(m)
    requires |f| == 2 && AllDigits(f) && DigitsValue(f) < 60
    ensures ParseClock(m + ":" + f) == Some(ClockValue(DigitsValue(m), DigitsValue(f)))
  {
    SplitAtColon(m, f);
  }

  /** A label joined from decimal minutes and a seconds field reads back as their total. */
  lemma ParseJoined(minutes: nat, seconds: nat)
    requires seconds < 60
    ensures ParseClock(Decimal(minutes) + ":" + SecondsField(seconds)) == Some(ClockValue(minutes, seconds))
  {
    ParseParts(Decimal(minutes), SecondsField(seconds));
    DecimalValue(minutes);
  }

  /** The intended `m:ss` rendering of n seconds. */
  function Clock(n: nat): (r: string)
  {
    Decimal(n / 60) + ":" + SecondsField(n % 60)
  }

  /** The number of seconds in `minutes:seconds`. */
  function ClockValue(minutes: nat, seconds: nat): nat {
    minutes * 60 + seconds
  }

  /** Reads an `m:ss` label back into seconds; None when the text is not of that shape. */
  function ParseClock(s: string): (r: Option<nat>)
  {
    if |s| < 4 || s[|s| - 3] != ':' then None
    else
      var minutes := s[..|s| - 3];
      var seconds := s[|s| - 2..];
      if AllDigits(minutes) && AllDigits(seconds) && DigitsValue(seconds) < 60
      then Some(ClockValue(DigitsValue(minutes), DigitsValue(seconds)))
      else None
  }

  /** Cutting `minutes:ss` at its colon gives back the two parts. */
  lemma SplitAtColon(minutes: string, seconds: string)
    requires |seconds| == 2
    ensures var r := minutes + ":" + seconds;
      |r| == |minutes| + 3 && r[|r| - 3] == ':' && r[..|r| - 3] == minutes && r[|r| - 2..] == seconds
  {
    var r := minutes + ":" + seconds;
    assert r[..|r| - 3] == minutes;
    assert r[|r| - 2..] == seconds;
  }

  /** Shape of the label: decimal minutes, a colon, then exactly two digits of seconds. */
  lemma ClockShape(n: nat)
    ensures var r := Clock(n);
      |r| >= 4 && r[|r| - 3] == ':' && r[..|r| - 3] == Decimal(n / 60)
      && AllDigits(r[|r| - 2..]) && DigitsValue(r[|r| - 2..]) == n % 60
  {
    var minutes, seconds := Decimal(n / 60), SecondsField(n % 60);
    assert Clock(n) == minutes + ":" + seconds;
    SplitAtColon(minutes, seconds);
  }

  /** Round trip: the label reads back as the number of seconds it was made from. */
  lemma ClockRoundTrip(n: nat)
    ensures ParseClock(Clock(n)) == Some(n)
  {
    var r := Clock(n);
    ClockShape(n);
    DecimalValue(n / 60);
    var mv, sv := DigitsValue(r[..|r| - 3]), DigitsValue(r[|r| - 2..]);
    assert ParseClock(r) == Some(ClockValue(mv, sv));
    Recombine(n, mv, sv);
  }

  /** Minutes and seconds recombine into the total. */
  lemma Recombine(n: nat, minutes: nat, seconds: nat)
    requires minutes == n / 60 && seconds == n % 60
    ensures ClockValue(minutes, seconds) == n
  {
  }

  /** Different numbers of seconds get different labels. */
  lemma ClockInjective(m: nat, n: nat)
    requires Clock(m) == Clock(n)
    ensures m == n
  {
    ClockRoundTrip(m);
    ClockRoundTrip(n);
  }

  /** The elapsed label at line 199 passes VALUE_TIMER as both argument and minute source. */
  lemma ElapsedLabelIsClock(valueTimer: nat, maxValueTimer: nat)
    ensures GetSongMinute(valueTimer, false, valueTimer, maxValueTimer) == Clock(valueTimer)
  {
  }

  /** The duration label at line 208 passes MAX_VALUE_TIMER as both argument and minute source. */
  lemma DurationLabelIsClock(valueTimer: nat, maxValueTimer: nat)
    ensures GetSongMinute(maxValueTimer, true, valueTimer, maxValueTimer) == Clock(maxValueTimer)
  {
  }

  /** The minutes never come from the argument: only the seconds field depends on it. */
  lemma MinutesIgnoreArgument(a: nat, b: nat, isMaxTimer: bool, valueTimer: nat, maxValueTimer: nat)
    requires a % 60 == b % 60
    ensures GetSongMinute(a, isMaxTimer, valueTimer, maxValueTimer) == GetSongMinute(b, isMaxTimer, valueTimer, maxValueTimer)
  {
  }
}
