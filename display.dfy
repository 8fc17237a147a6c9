/**
 * Timer display helpers of the front end: the default phase lengths and the
 * two formatters that turn a count of seconds into the zero-padded minute and
 * second strings shown on the timer face.
 *
 * Inputs are natural numbers: the formatters are only meaningful for a
 * whole, non-negative count of seconds.
 */
module Display {

  import Types

  /** Default phase lengths, in seconds. */
  const POMODORO_DEFAULT: nat := 25 * 60
  const SHORT_REST_DEFAULT: nat := 5 * 60
  const LONG_REST_DEFAULT: nat := 15 * 60

  /** The phase lengths in use while no preferences have been stored. */
  const DEFAULT_PREFERENCES: Types.UserPreferences :=
    Types.UserPreferences(POMODORO_DEFAULT, SHORT_REST_DEFAULT, LONG_REST_DEFAULT)

  // ---------------------------------------------------------------------
  // Decimal digits

  predicate IsDigit(c: char) {
    '0' <= c <= '9'
  }

  predicate IsDigits(s: string) {
    forall i :: 0 <= i < |s| ==> IsDigit(s[i])
  }

  /** The character of a single decimal digit. */
  function Digit(d: nat): (c: char)
    requires d < 10
    ensures IsDigit(c)
  {
    (48 + d) as char
  }

  /** The value of a single decimal digit character. */
  function DigitValue(c: char): (d: nat)
    requires IsDigit(c)
    ensures d < 10 && Digit(d) == c
  {
    (c as int) - 48
  }

  /**
   * A decimal string is canonical when it is non-empty, all digits, and has
   * no leading zero unless it is the single digit "0": the form JavaScript's
   * Number.prototype.toString produces for a non-negative integer below
   * 10^21 (from 10^21 on it switches to exponential notation).
   */
  predicate IsCanonical(s: string) {
    |s| >= 1 && IsDigits(s) && (s[0] == '0' ==> |s| == 1)
  }

  /** The value of a string of decimal digits, most significant digit first. */
  function ParseDecimal(s: string): nat
    requires IsDigits(s)
  {
    if s == [] then 0
    else 10 * ParseDecimal(s[..|s| - 1]) + DigitValue(s[|s| - 1])
  }

  /**
   * Decimal rendering of a natural number, as `n.toString()` renders a safe
   * integer (at most 2^53 - 1); ParseDecimal reads it back, and the
   * rendering is canonical.
   */
  function NatToDecimal(n: nat): (r: string)
    ensures IsCanonical(r)
    ensures ParseDecimal(r) == n
  {
    if n < 10 then
      [Digit(n)]
    else
      var prefix := NatToDecimal(n / 10);
      var r := prefix + [Digit(n % 10)];
      assert r[..|r| - 1] == prefix;
      r
  }

  // ---------------------------------------------------------------------
  // padStart

  /** `count` copies of `c`. */
  function Repeat(c: char, count: nat): (r: string)
    ensures |r| == count
    ensures forall i :: 0 <= i < count ==> r[i] == c
  {
    seq(count, _ => c)
  }

  /**
   * `s.padStart(width, fill)` for a one-character fill string: the fill is
   * added on the left up to `width` characters, and a string that is already
   * at least `width` long is returned as it is, never truncated.
   */
  function PadStart(s: string, width: nat, fill: char): (r: string)
    ensures |s| >= width ==> r == s
    ensures |r| == if |s| >= width then |s| else width
    ensures r[|r| - |s|..] == s
    ensures forall i :: 0 <= i < |r| - |s| ==> r[i] == fill
  {
    if |s| >= width then s else Repeat(fill, width - |s|) + s
  }

  // ---------------------------------------------------------------------
  // Formatters

  /**
   * `Math.floor(totalSeconds / 60).toString().padStart(2, "0")`: the whole
   * minutes, in decimal, at least two characters wide. The string is exactly
   * two characters below 100 minutes and grows past that, never truncated.
   */
  function FormatMinutes(totalSeconds: nat): (r: string)
    ensures IsDigits(r)
    ensures ParseDecimal(r) == totalSeconds / 60
    ensures |r| >= 2
    ensures |r| == 2 <==> totalSeconds < 6000
  {
    var decimal := NatToDecimal(totalSeconds / 60);
    DecimalWidth(totalSeconds / 60);
    ParseZeroPadded(decimal, 2);
    PadStart(decimal, 2, '0')
  }

  /**
   * `(totalSeconds % 60).toString().padStart(2, "0")`: the seconds within
   * the current minute, always exactly two digits, "00" to "59".
   */
  function FormatSeconds(totalSeconds: nat): (r: string)
    ensures IsDigits(r)
    ensures |r| == 2
    ensures ParseDecimal(r) == totalSeconds % 60
    ensures ParseDecimal(r) < 60
  {
    var decimal := NatToDecimal(totalSeconds % 60);
    DecimalWidth(totalSeconds % 60);
    ParseZeroPadded(decimal, 2);
    PadStart(decimal, 2, '0')
  }

  // ---------------------------------------------------------------------
  // Lemmas

  /** A leading '0' does not change the value of a digit string. */
  lemma {:induction false} ParseLeadingZero(s: string)
    requires IsDigits(s)
    ensures IsDigits(['0'] + s)
    ensures ParseDecimal(['0'] + s) == ParseDecimal(s)
  {
    var t := ['0'] + s;
    if s != [] {
      var front := s[..|s| - 1];
      assert t[..|t| - 1] == ['0'] + front;
      ParseLeadingZero(front);
    }
  }

  /** Any number of leading zeros leaves the value unchanged. */
  lemma {:induction false} ParseLeadingZeros(s: string, count: nat)
    requires IsDigits(s)
    ensures IsDigits(Repeat('0', count) + s)
    ensures ParseDecimal(Repeat('0', count) + s) == ParseDecimal(s)
  {
    if count > 0 {
      ParseLeadingZeros(s, count - 1);
      var rest := Repeat('0', count - 1) + s;
      assert Repeat('0', count) + s == ['0'] + rest;
      ParseLeadingZero(rest);
    } else {
      assert Repeat('0', count) + s == s;
    }
  }

  /** Zero-padding a digit string keeps it all digits and keeps its value. */
  lemma ParseZeroPadded(s: string, width: nat)
    requires IsDigits(s)
    ensures IsDigits(PadStart(s, width, '0'))
    ensures ParseDecimal(PadStart(s, width, '0')) == ParseDecimal(s)
  {
    if |s| < width {
      ParseLeadingZeros(s, width - |s|);
    }
  }

  /** One digit exactly below 10, at most two digits exactly below 100. */
  lemma {:induction false} DecimalWidth(n: nat)
    ensures |NatToDecimal(n)| == 1 <==> n < 10
    ensures |NatToDecimal(n)| <= 2 <==> n < 100
  {
    if n >= 10 {
      DecimalWidth(n / 10);
    }
  }

  /** A digit string whose first digit is not '0' has a positive value. */
  lemma {:induction false} LeadingNonZeroPositive(s: string)
    requires IsDigits(s) && |s| >= 1 && s[0] != '0'
    ensures ParseDecimal(s) >= 1
  {
    if |s| > 1 {
      LeadingNonZeroPositive(s[..|s| - 1]);
    }
  }

  /**
   * The other direction of the decimal round trip: every canonical decimal
   * string is the rendering of its own value, so NatToDecimal is a bijection
   * between the naturals and the canonical strings.
   */
  lemma {:induction false} CanonicalRoundTrip(s: string)
    requires IsCanonical(s)
    ensures NatToDecimal(ParseDecimal(s)) == s
  {
    if |s| > 1 {
      var front := s[..|s| - 1];
      var last := s[|s| - 1];
      LeadingNonZeroPositive(front);
      CanonicalRoundTrip(front);
      var n := ParseDecimal(s);
      assert n / 10 == ParseDecimal(front) && n % 10 == DigitValue(last);
      assert s == front + [last];
    }
  }

  /**
   * The two strings shown on the timer give back the count of seconds they
   * were made from.
   */
  lemma DisplayRoundTrip(totalSeconds: nat)
    ensures 60 * ParseDecimal(FormatMinutes(totalSeconds)) + ParseDecimal(FormatSeconds(totalSeconds)) == totalSeconds
  {
  }

  /** Different second counts never show the same minutes and seconds. */
  lemma DisplayInjective(s: nat, t: nat)
    requires FormatMinutes(s) == FormatMinutes(t) && FormatSeconds(s) == FormatSeconds(t)
    ensures s == t
  {
    DisplayRoundTrip(s);
    DisplayRoundTrip(t);
  }

  /**
   * The seconds field has period 60 and no shorter one: two counts show the
   * same seconds exactly when they agree modulo 60.
   */
  lemma FormatSecondsPeriodic(s: nat, t: nat)
    ensures FormatSeconds(s + 60) == FormatSeconds(s)
    ensures FormatSeconds(s) == FormatSeconds(t) <==> s % 60 == t % 60
  {
    assert (s + 60) % 60 == s % 60;
  }

  /** One more minute of input shows one more minute, with the same seconds. */
  lemma FormatMinutesStep(s: nat)
    ensures ParseDecimal(FormatMinutes(s + 60)) == ParseDecimal(FormatMinutes(s)) + 1
  {
    assert (s + 60) / 60 == s / 60 + 1;
  }

  /**
   * Zero padding only ever adds leading '0's: from 10 minutes on the minute
   * string is the plain decimal rendering, and below that it is the
   * rendering behind a '0'.
   */
  lemma FormatMinutesIsPaddedDecimal(totalSeconds: nat)
    ensures var d := NatToDecimal(totalSeconds / 60);
            var r := FormatMinutes(totalSeconds);
            r[|r| - |d|..] == d && (forall i :: 0 <= i < |r| - |d| ==> r[i] == '0')
    ensures totalSeconds >= 600 ==> FormatMinutes(totalSeconds) == NatToDecimal(totalSeconds / 60)
  {
    DecimalWidth(totalSeconds / 60);
  }

  /** The timer face for the default phase lengths. */
  lemma DefaultsDisplay()
    ensures FormatMinutes(POMODORO_DEFAULT) == "25" && FormatSeconds(POMODORO_DEFAULT) == "00"
    ensures FormatMinutes(SHORT_REST_DEFAULT) == "05" && FormatSeconds(SHORT_REST_DEFAULT) == "00"
    ensures FormatMinutes(LONG_REST_DEFAULT) == "15" && FormatSeconds(LONG_REST_DEFAULT) == "00"
  {
    assert NatToDecimal(0) == "0" && NatToDecimal(5) == "5";
    assert NatToDecimal(25) == NatToDecimal(2) + "5" == "25";
    assert NatToDecimal(15) == NatToDecimal(1) + "5" == "15";
  }

  /** A few fixed inputs, among them one past 99 minutes. */
  lemma DisplayExamples()
    ensures FormatMinutes(0) == "00" && FormatSeconds(0) == "00"
    ensures FormatMinutes(90) == "01" && FormatSeconds(90) == "30"
    ensures FormatMinutes(3599) == "59" && FormatSeconds(3599) == "59"
    ensures FormatMinutes(6000) == "100" && FormatSeconds(6000) == "00"
  {
    assert NatToDecimal(0) == "0" && NatToDecimal(1) == "1";
    assert NatToDecimal(30) == NatToDecimal(3) + "0" == "30";
    assert NatToDecimal(59) == NatToDecimal(5) + "9" == "59";
    assert NatToDecimal(10) == NatToDecimal(1) + "0" == "10";
    assert NatToDecimal(100) == NatToDecimal(10) + "0" == "100";
  }
}
