/** Two formatting helpers: a percentage and the `mm:ss` of a duration. */
module Utils {
  import opened Wrappers
  import opened JsString

  /** `${Math.round(value)}%` on an integer, which rounding leaves alone. */
  function FormatPercent(n: int): (s: string)
    ensures |s| >= 2 && s[|s| - 1] == '%' && s[..|s| - 1] == IntToDecimal(n)
  {
    IntToDecimal(n) + "%"
  }

  /** Different numbers give different texts. */
  lemma FormatPercentInjective(m: int, n: int)
    requires FormatPercent(m) == FormatPercent(n)
    ensures m == n
  {
    assert FormatPercent(m)[..|FormatPercent(m)| - 1] == IntToDecimal(m);
    IntToDecimalInjective(m, n);
  }

  /** Two decimal digits, with a leading zero below ten. */
  function TwoDigits(n: nat): (s: string)
    requires n < 100
    ensures |s| == 2 && IsDigit(s[0]) && IsDigit(s[1])
    ensures DecimalValue(s) == n
  {
    var s := [DigitChar(n / 10), DigitChar(n % 10)];
    assert s[..1] == [DigitChar(n / 10)];
    assert s[..1][..0] == [];
    assert DecimalValue(s[..1]) == n / 10;
    assert DecimalValue(s) == (n / 10) * 10 + n % 10;
    s
  }

  /** `hh:mm` or `mm:ss`: two two-digit fields around a colon. */
  function Clock(a: nat, b: nat): (t: string)
    requires a < 100 && b < 100
    ensures |t| == 5 && t[2] == ':'
    ensures t[..2] == TwoDigits(a) && t[3..] == TwoDigits(b)
  {
    TwoDigits(a) + ":" + TwoDigits(b)
  }

  /** The fields can be read back from the text. */
  lemma ClockRoundTrip(a: nat, b: nat)
    requires a < 100 && b < 100
    ensures DecimalValue(Clock(a, b)[..2]) == a && DecimalValue(Clock(a, b)[3..]) == b
  {
  }

  /** The first second whose ISO form has a six-digit year (10000-01-01T00:00:00Z). */
  const FirstExpandedYearSecond: nat := 253402300800

  /** The last second a `Date` can hold. */
  const LastDateSecond: nat := 8640000000000

  const InvalidTimeMessage := "Invalid time value"

  /** `new Date(0)`, `setSeconds(s)`, then characters 14 to 19 of `toISOString()`. Up to
      the year 9999 those are minutes and seconds; with the six-digit year they are hours
      and minutes; past the last representable instant the conversion fails. The process
      time zone is taken to be UTC. */
  function SecondsToTimestamp(s: nat): (r: Result<string>)
    ensures r.Err? <==> s > LastDateSecond
    ensures s < FirstExpandedYearSecond ==> r == Ok(Clock((s / 60) % 60, s % 60))
    ensures FirstExpandedYearSecond <= s <= LastDateSecond ==> r == Ok(Clock((s / 3600) % 24, (s / 60) % 60))
  {
    if s > LastDateSecond then Err(InvalidTimeMessage)
    else if s < FirstExpandedYearSecond then Ok(Clock((s / 60) % 60, s % 60))
    else Ok(Clock((s / 3600) % 24, (s / 60) % 60))
  }

  /** An hour more is sixty whole minutes more and the same second. */
  lemma AddHour(s: nat)
    ensures ((s + 3600) / 60) % 60 == (s / 60) % 60 && (s + 3600) % 60 == s % 60
  {
    var q, r := s / 60, s % 60;
    assert s + 3600 == 60 * (q + 60) + r;
    assert (s + 3600) / 60 == q + 60;
  }

  /** Whole hours are dropped: a duration and the same duration an hour longer read the
      same. */
  lemma HoursDropped(s: nat)
    requires s + 3600 < FirstExpandedYearSecond
    ensures SecondsToTimestamp(s + 3600) == SecondsToTimestamp(s)
  {
    AddHour(s);
  }
}
