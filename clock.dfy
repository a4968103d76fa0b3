/**
 * Times as the refactored classes (Generator, PowerStats) use them: a datetime is a whole number
 * of seconds since 1900-01-01 00:00:00, the date `datetime.strptime` gives a time-only string.
 * A timedelta is a difference of such numbers. `strftime` / `strptime` with "%H.%M.%S" or
 * "%H:%M:%S" become FormatClock / ParseClock.
 */
module Clock {
  import opened Common
  import opened Numbers

  const SecondsPerDay: int := 86400

  /** `datetime.min` (0001-01-01 00:00:00): 693595 days before 1900-01-01. */
  const MinTime: int := -693595 * SecondsPerDay

  /** The seconds since midnight of the day `t` falls on. */
  function SecondOfDay(t: int): (c: int)
    ensures 0 <= c < SecondsPerDay
  {
    t % SecondsPerDay
  }

  /** Midnight of the day `t` falls on: the year, month and day of `t` with a zero clock. */
  function DayStart(t: int): (d: int)
    ensures d % SecondsPerDay == 0
    ensures d <= t < d + SecondsPerDay
  {
    t - SecondOfDay(t)
  }

  function Hour(t: int): (h: int)
    ensures 0 <= h < 24
  {
    SecondOfDay(t) / 3600
  }

  /** `t.minute`. */
  function Minute(t: int): (m: int)
    ensures 0 <= m < 60
  {
    SecondOfDay(t) / 60 % 60
  }

  function Second(t: int): (s: int)
    ensures 0 <= s < 60
  {
    SecondOfDay(t) % 60
  }

  /** A timedelta of `seconds` in hours, as `convert_timedelta_to_hours` is used. */
  function Hours(seconds: int): real
  {
    seconds as real / 3600.0
  }

  function TwoDigits(n: int): (s: string)
    requires 0 <= n < 100
    ensures |s| == 2 && AllDigits(s) && DigitsValue(s) == n
  {
    var s := [DigitChar(n / 10), DigitChar(n % 10)];
    assert s[..1] == [DigitChar(n / 10)] && s[..1][..0] == [];
    assert DigitsValue(s[..1]) == n / 10;
    s
  }

  /** `t.strftime("%H" + sep + "%M" + sep + "%S")`. */
  function FormatClock(t: int, sep: char): (s: string)
    ensures |s| == 8 && s[2] == sep && s[5] == sep
  {
    TwoDigits(Hour(t)) + [sep] + TwoDigits(Minute(t)) + [sep] + TwoDigits(Second(t))
  }

  /**
   * `datetime.strptime(s, "%H" + sep + "%M" + sep + "%S")`, as seconds since midnight of
   * 1900-01-01; None for text that is not two-digit hour, minute and second fields (ValueError).
   */
  function ParseClock(s: string, sep: char): (r: Option<int>)
    ensures r.Some? ==> 0 <= r.value < SecondsPerDay
    ensures r.Some? ==> |s| == 8 && s[2] == sep && s[5] == sep
  {
    if |s| == 8 && s[2] == sep && s[5] == sep
       && AllDigits(s[0..2]) && AllDigits(s[3..5]) && AllDigits(s[6..8])
       && DigitsValue(s[0..2]) <= 23 && DigitsValue(s[3..5]) <= 59 && DigitsValue(s[6..8]) <= 59
    then Some(DigitsValue(s[0..2]) * 3600 + DigitsValue(s[3..5]) * 60 + DigitsValue(s[6..8]))
    else None
  }

  /** Formatting the clock of `t` and parsing it back gives the clock of `t`. */
  lemma ClockRoundTrip(t: int, sep: char)
    ensures ParseClock(FormatClock(t, sep), sep) == Some(SecondOfDay(t))
  {
    var s := FormatClock(t, sep);
    assert s[0..2] == TwoDigits(Hour(t));
    assert s[3..5] == TwoDigits(Minute(t));
    assert s[6..8] == TwoDigits(Second(t));
    var c := SecondOfDay(t);
    assert c == (c / 3600) * 3600 + (c / 60 % 60) * 60 + c % 60;
  }
}
