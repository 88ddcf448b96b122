/** The time string the engine draws:
    `String.format(Locale.getDefault(), "%02d:%02d", hour, minute)` on the
    calendar's hour of day and minute. Java formats `%d` with the locale's
    digits; this model is the case of a locale whose digits are ASCII. */
module ClockText {
  import opened Wrappers

  predicate IsDigit(c: char)
  {
    '0' <= c <= '9'
  }

  function DigitChar(d: nat): (c: char)
    requires d < 10
    ensures IsDigit(c)
  {
    (('0' as int) + d) as char
  }

  function DigitValue(c: char): nat
    requires IsDigit(c)
  {
    (c as int) - ('0' as int)
  }

  /** `%02d` on a value below 100: zero-padded to two digits. */
  function TwoDigits(n: nat): (s: string)
    requires n < 100
    ensures |s| == 2 && IsDigit(s[0]) && IsDigit(s[1])
  {
    [DigitChar(n / 10), DigitChar(n % 10)]
  }

  /** "HH:MM" for an hour of day and a minute. */
  function Clock(hour: nat, minute: nat): (s: string)
    requires hour < 24 && minute < 60
    ensures |s| == 5 && s[2] == ':'
  {
    TwoDigits(hour) + ":" + TwoDigits(minute)
  }

  /** Reads back a two-digit field. */
  function ParseTwoDigits(s: string): int
    requires |s| == 2 && IsDigit(s[0]) && IsDigit(s[1])
  {
    10 * DigitValue(s[0]) + DigitValue(s[1])
  }

  /** Reads back "HH:MM", or None when the text is not of that shape. */
  function ParseClock(s: string): Option<(int, int)>
  {
    if |s| == 5 && IsDigit(s[0]) && IsDigit(s[1]) && s[2] == ':' && IsDigit(s[3]) && IsDigit(s[4])
    then Some((ParseTwoDigits(s[..2]), ParseTwoDigits(s[3..])))
    else None
  }

  lemma TwoDigitsRoundTrip(n: nat)
    requires n < 100
    ensures ParseTwoDigits(TwoDigits(n)) == n
  {
  }

  /** The clock text is exactly five characters, digits around a colon, and it
      reads back as the hour and minute it was made from (so distinct times give
      distinct texts). */
  lemma ClockRoundTrip(hour: nat, minute: nat)
    requires hour < 24 && minute < 60
    ensures ParseClock(Clock(hour, minute)) == Some((hour, minute))
  {
    var s := Clock(hour, minute);
    assert s[..2] == TwoDigits(hour);
    assert s[3..] == TwoDigits(minute);
    TwoDigitsRoundTrip(hour);
    TwoDigitsRoundTrip(minute);
  }

  /** Three past seven in the morning reads "03:07". */
  lemma ClockExample()
    ensures Clock(3, 7) == "03:07"
  {
  }
}
