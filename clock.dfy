/**
 * The departure time of a flight, as a `DateFormatter` with the pattern "HH:mm" sees it.
 *
 * A Swift `Date` is an instant; the formatter reads its hour (0-23) and minute (0-59) in the
 * formatter's time zone.  The model keeps exactly that pair.  In the LDML date field symbols
 * (Unicode Technical Standard #35), "HH" is the hour of a 24-hour day and "mm" the minute, each
 * zero-padded to two digits, and ':' is a literal.
 */
module Clock {
  import opened Wrappers

  type Hour = h: int | 0 <= h < 24
  type Minute = m: int | 0 <= m < 60

  datatype TimeOfDay = TimeOfDay(hour: Hour, minute: Minute)

  predicate IsDigit(c: char) {
    '0' <= c <= '9'
  }

  /** The decimal digit for `d`. */
  function Digit(d: int): (c: char)
    requires 0 <= d < 10
    ensures IsDigit(c) && c as int - '0' as int == d
  {
    ('0' as int + d) as char
  }

  /** `n` written with exactly two digits, zero-padded on the left. */
  function TwoDigits(n: int): (s: string)
    requires 0 <= n < 100
    ensures |s| == 2 && IsDigit(s[0]) && IsDigit(s[1])
    ensures (s[0] as int - '0' as int) * 10 + (s[1] as int - '0' as int) == n
  {
    [Digit(n / 10), Digit(n % 10)]
  }

  /** The text of a time formatted with the pattern "HH:mm". */
  function FormatHHmm(t: TimeOfDay): (s: string)
    ensures |s| == 5 && s[2] == ':'
  {
    TwoDigits(t.hour) + ":" + TwoDigits(t.minute)
  }

  /** Reads back a text of the form "HH:mm"; the partner of FormatHHmm. */
  function ParseHHmm(s: string): Option<TimeOfDay> {
    if |s| == 5 && IsDigit(s[0]) && IsDigit(s[1]) && s[2] == ':' && IsDigit(s[3]) && IsDigit(s[4]) then
      var h := (s[0] as int - '0' as int) * 10 + (s[1] as int - '0' as int);
      var m := (s[3] as int - '0' as int) * 10 + (s[4] as int - '0' as int);
      if h < 24 && m < 60 then Some(TimeOfDay(h, m)) else None
    else
      None
  }

  /** Formatting loses nothing: the hour and the minute can be read back from the text. */
  lemma FormatHHmmRoundTrip(t: TimeOfDay)
    ensures ParseHHmm(FormatHHmm(t)) == Some(t)
  {
  }

  /** Two different times never print alike. */
  lemma FormatHHmmInjective(t: TimeOfDay, u: TimeOfDay)
    ensures FormatHHmm(t) == FormatHHmm(u) <==> t == u
  {
    if FormatHHmm(t) == FormatHHmm(u) {
      FormatHHmmRoundTrip(t);
      FormatHHmmRoundTrip(u);
    }
  }

  /** Every character of a formatted time is a digit, except the colon in the middle. */
  lemma FormatHHmmShape(t: TimeOfDay)
    ensures forall i :: 0 <= i < 5 && i != 2 ==> IsDigit(FormatHHmm(t)[i])
  {
  }
}
