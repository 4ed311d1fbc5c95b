/** Text forms of dates: Python's `strptime(s, "%Y-%m-%d")` with the
    leniency of its regular expression (`%m` and `%d` also accept one digit,
    `%d` also a space and one digit), `strftime("%Y-%m-%d")`, the
    `"%Y-%m-%d %H:%M:%S"` form, and Python's clamping string slices. */
module DateText {
  import opened Wrappers
  import opened Calendar
  import opened Clock

  /** Why `strptime` raised `ValueError`. */
  datatype DateError =
    | NoMatch          // the text does not match the format
    | UnconvertedData  // the format matched a proper prefix only
    | OutOfRange       // year 0, or a day past the end of its month

  predicate IsDigit(c: char) {
    '0' <= c <= '9'
  }

  function DigitValue(c: char): (n: int)
    requires IsDigit(c)
    ensures 0 <= n <= 9
  {
    c as int - '0' as int
  }

  function DigitChar(n: int): (c: char)
    requires 0 <= n <= 9
    ensures IsDigit(c) && DigitValue(c) == n
  {
    (n + '0' as int) as char
  }

  /** `n` as exactly two decimal digits. */
  function Two(n: int): (s: string)
    requires 0 <= n <= 99
    ensures |s| == 2 && IsDigit(s[0]) && IsDigit(s[1])
    ensures 10 * DigitValue(s[0]) + DigitValue(s[1]) == n
  {
    [DigitChar(n / 10), DigitChar(n % 10)]
  }

  /** `n` as exactly four decimal digits. */
  function Four(n: int): (s: string)
    requires 0 <= n <= 9999
    ensures |s| == 4 && forall i :: 0 <= i < 4 ==> IsDigit(s[i])
    ensures 1000 * DigitValue(s[0]) + 100 * DigitValue(s[1]) + 10 * DigitValue(s[2]) + DigitValue(s[3]) == n
  {
    var hi := Two(n / 100);
    var lo := Two(n % 100);
    assert 100 * (10 * DigitValue(hi[0]) + DigitValue(hi[1])) + n % 100 == n;
    hi + lo
  }

  /** Two digits are the `Two` rendering of the number they spell. */
  lemma TwoDigitsAreTwo(t: string, n: int)
    requires |t| == 2 && IsDigit(t[0]) && IsDigit(t[1])
    requires 10 * DigitValue(t[0]) + DigitValue(t[1]) == n
    ensures 0 <= n <= 99 && t == Two(n)
  {
    var u := Two(n);
    assert DigitValue(u[0]) == n / 10 && DigitValue(u[1]) == n % 10;
    assert DigitValue(t[0]) == n / 10 && DigitValue(t[1]) == n % 10;
    assert t[0] == u[0] && t[1] == u[1];
  }

  /** Four digits are the `Four` rendering of the number they spell. */
  lemma FourDigitsAreFour(t: string, n: int)
    requires |t| == 4 && forall i :: 0 <= i < 4 ==> IsDigit(t[i])
    requires 1000 * DigitValue(t[0]) + 100 * DigitValue(t[1]) + 10 * DigitValue(t[2]) + DigitValue(t[3]) == n
    ensures 0 <= n <= 9999 && t == Four(n)
  {
    var hi := 10 * DigitValue(t[0]) + DigitValue(t[1]);
    var lo := 10 * DigitValue(t[2]) + DigitValue(t[3]);
    assert n == 100 * hi + lo && 0 <= lo < 100;
    assert hi == n / 100 && lo == n % 100;
    TwoDigitsAreTwo(t[..2], hi);
    TwoDigitsAreTwo(t[2..], lo);
    assert t == t[..2] + t[2..];
  }

  /** `d.strftime("%Y-%m-%d")`. */
  function FormatDate(d: Date): (s: string)
    requires ValidDate(d)
    ensures |s| == 10 && s[4] == '-' && s[7] == '-'
  {
    Four(d.year) + "-" + Two(d.month) + "-" + Two(d.day)
  }

  /** A number read by one alternative of a regular-expression group, and the
      count of characters it consumed. */
  datatype Field = Field(value: int, width: nat)

  /** The `%m` group, `1[0-2]|0[1-9]|[1-9]`, first matching alternative. */
  function MatchMonth(t: string): (r: Option<Field>)
    ensures r.Some? ==> 1 <= r.value.value <= 12 && 1 <= r.value.width <= |t|
  {
    if |t| >= 2 && t[0] == '1' && '0' <= t[1] <= '2' then Some(Field(10 + DigitValue(t[1]), 2))
    else if |t| >= 2 && t[0] == '0' && '1' <= t[1] <= '9' then Some(Field(DigitValue(t[1]), 2))
    else if |t| >= 1 && '1' <= t[0] <= '9' then Some(Field(DigitValue(t[0]), 1))
    else None
  }

  /** The `%d` group, `3[01]|[12]\d|0[1-9]|[1-9]| [1-9]`, first matching
      alternative (it ends the pattern, so the first alternative that
      matches is the one the regex engine keeps). */
  function MatchDay(t: string): (r: Option<Field>)
    ensures r.Some? ==> 1 <= r.value.value <= 31 && 1 <= r.value.width <= |t|
  {
    if |t| >= 2 && t[0] == '3' && '0' <= t[1] <= '1' then Some(Field(30 + DigitValue(t[1]), 2))
    else if |t| >= 2 && '1' <= t[0] <= '2' && IsDigit(t[1]) then Some(Field(10 * DigitValue(t[0]) + DigitValue(t[1]), 2))
    else if |t| >= 2 && t[0] == '0' && '1' <= t[1] <= '9' then Some(Field(DigitValue(t[1]), 2))
    else if |t| >= 1 && '1' <= t[0] <= '9' then Some(Field(DigitValue(t[0]), 1))
    else if |t| >= 2 && t[0] == ' ' && '1' <= t[1] <= '9' then Some(Field(DigitValue(t[1]), 2))
    else None
  }

  predicate FourDigits(s: string)
    requires |s| >= 4
  {
    IsDigit(s[0]) && IsDigit(s[1]) && IsDigit(s[2]) && IsDigit(s[3])
  }

  function FourValue(s: string): int
    requires |s| >= 4 && FourDigits(s)
  {
    1000 * DigitValue(s[0]) + 100 * DigitValue(s[1]) + 10 * DigitValue(s[2]) + DigitValue(s[3])
  }

  /** `datetime.strptime(s, "%Y-%m-%d")`: the match, then the check that
      nothing is left over, then the range check of `date(year, month, day)`. */
  function ParseDate(s: string): (r: Result<Date, DateError>)
    ensures r.Success? ==> ValidDate(r.value)
  {
    if |s| < 5 || !FourDigits(s) || s[4] != '-' then Failure(NoMatch)
    else
      var year := FourValue(s);
      match MatchMonth(s[5..])
      case None => Failure(NoMatch)
      case Some(m) =>
        var k := 5 + m.width;
        if k >= |s| || s[k] != '-' then Failure(NoMatch)
        else
          match MatchDay(s[k + 1..])
          case None => Failure(NoMatch)
          case Some(d) =>
            if k + 1 + d.width != |s| then Failure(UnconvertedData)
            else if year < MinYear || d.value > DaysInMonth(year, m.value) then Failure(OutOfRange)
            else Success(Date(year, m.value, d.value))
  }

  /** Formatting a date and reading it back gives the same date. */
  lemma ParseFormatDate(d: Date)
    requires ValidDate(d)
    ensures ParseDate(FormatDate(d)) == Success(d)
  {
    var s := FormatDate(d);
    assert s[..4] == Four(d.year);
    assert s[5..7] == Two(d.month);
    assert s[8..] == Two(d.day);
    assert s[5..][..2] == Two(d.month);
    assert MatchMonth(s[5..]) == Some(Field(d.month, 2));
    assert s[8..] == Two(d.day);
    assert MatchDay(s[8..]) == Some(Field(d.day, 2));
  }

  /** The only ten-character texts `strptime` accepts without a space are
      the canonical ones: for them `strftime(strptime(s))` gives `s` back. */
  lemma CanonicalIsFixedPoint(s: string, d: Date)
    requires ParseDate(s) == Success(d)
    requires |s| == 10 && s[8] != ' '
    ensures FormatDate(d) == s
  {
    var m := MatchMonth(s[5..]).value;
    var k := 5 + m.width;
    var dd := MatchDay(s[k + 1..]).value;
    assert m.width == 2 && dd.width == 2;
    FourDigitsAreFour(s[..4], d.year);
    TwoDigitsAreTwo(s[5..7], d.month);
    TwoDigitsAreTwo(s[8..], d.day);
    assert s == s[..4] + "-" + s[5..7] + "-" + s[8..];
  }

  /** The rendered date is all digits apart from its two hyphens, and the
      digits spell the year, the month and the day. */
  lemma FormatDateDigits(d: Date)
    requires ValidDate(d)
    ensures var s := FormatDate(d);
      && (forall i :: 0 <= i < 10 && i != 4 && i != 7 ==> IsDigit(s[i]))
      && 1000 * DigitValue(s[0]) + 100 * DigitValue(s[1]) + 10 * DigitValue(s[2]) + DigitValue(s[3]) == d.year
      && 10 * DigitValue(s[5]) + DigitValue(s[6]) == d.month
      && 10 * DigitValue(s[8]) + DigitValue(s[9]) == d.day
  {
  }

  /** `t.strftime("%Y-%m-%d %H:%M:%S")`. */
  function FormatDateTime(t: DateTime): (s: string)
    requires ValidDateTime(t)
    ensures |s| == 19
  {
    FormatDate(t.date) + " " + Two(t.hour) + ":" + Two(t.minute) + ":" + Two(t.second)
  }

  /** The rendered date-time is the rendered date, a space, and the hour,
      minute and second as two digits each, separated by colons. */
  lemma FormatDateTimeLayout(t: DateTime)
    requires ValidDateTime(t)
    ensures var s := FormatDateTime(t);
      && s[..10] == FormatDate(t.date)
      && s[10] == ' ' && s[13] == ':' && s[16] == ':'
      && IsDigit(s[11]) && IsDigit(s[12]) && 10 * DigitValue(s[11]) + DigitValue(s[12]) == t.hour
      && IsDigit(s[14]) && IsDigit(s[15]) && 10 * DigitValue(s[14]) + DigitValue(s[15]) == t.minute
      && IsDigit(s[17]) && IsDigit(s[18]) && 10 * DigitValue(s[17]) + DigitValue(s[18]) == t.second
  {
    var s := FormatDateTime(t);
    assert s[..10] == FormatDate(t.date);
    assert s[11..13] == Two(t.hour);
    assert s[14..16] == Two(t.minute);
    assert s[17..19] == Two(t.second);
  }

  function TwoValue(s: string, i: nat): int
    requires i + 2 <= |s| && IsDigit(s[i]) && IsDigit(s[i + 1])
  {
    10 * DigitValue(s[i]) + DigitValue(s[i + 1])
  }

  /** The ASCII characters Python's `\s` matches: space, tab, line feed,
      vertical tab, form feed and carriage return. */
  predicate IsSpace(c: char) {
    c == ' ' || 9 <= c as int <= 13
  }

  /** `t` without its trailing whitespace. */
  function TrimEnd(t: string): (r: string)
    ensures r <= t
    ensures |r| == 0 || !IsSpace(r[|r| - 1])
    ensures forall i :: |r| <= i < |t| ==> IsSpace(t[i])
  {
    if |t| > 0 && IsSpace(t[|t| - 1]) then TrimEnd(t[..|t| - 1]) else t
  }

  /** The model's own reader for the fixed-width `"%Y-%m-%d %H:%M:%S"` form:
      19 characters, a space at index 10, colons at 13 and 16 and digits in
      the six time positions. On strings of that shape it reads as
      `datetime.strptime` does. The space in the format is the pattern
      `\s+`, so the date is what is left of the first ten characters
      without trailing whitespace, and it must match whole. `%H` takes
      `00`-`23` and `%M` `00`-`59`, because a single-digit match is not
      followed by the colon. `%S` ends the pattern, so for `62`-`99` it
      matches one digit and leaves the other unconverted. Range errors come
      last: a day past its month, year 0, or second 60 or 61. Strings of
      any other shape are rejected as not matching. */
  function ParseDateTime(s: string): (r: Result<DateTime, DateError>)
    ensures r.Success? ==> ValidDateTime(r.value)
  {
    if |s| != 19 || s[10] != ' ' || s[13] != ':' || s[16] != ':' then Failure(NoMatch)
    else if !(IsDigit(s[11]) && IsDigit(s[12]) && IsDigit(s[14]) && IsDigit(s[15]) && IsDigit(s[17]) && IsDigit(s[18])) then Failure(NoMatch)
    else
      var date := ParseDate(TrimEnd(s[..10]));
      var hour := TwoValue(s, 11);
      var minute := TwoValue(s, 14);
      var second := TwoValue(s, 17);
      if !(date.Success? || date == Failure(OutOfRange)) || hour > 23 || minute > 59 then Failure(NoMatch)
      else if second > 61 then Failure(UnconvertedData)
      else if date.Failure? || second >= 60 then Failure(OutOfRange)
      else Success(DateTime(date.value, hour, minute, second))
  }

  /** Formatting a date-time and reading it back gives the same date-time. */
  lemma ParseFormatDateTime(t: DateTime)
    requires ValidDateTime(t)
    ensures ParseDateTime(FormatDateTime(t)) == Success(t)
  {
    var s := FormatDateTime(t);
    assert s[..10] == FormatDate(t.date);
    assert TrimEnd(s[..10]) == s[..10];
    ParseFormatDate(t.date);
    assert s[11..13] == Two(t.hour);
    assert s[14..16] == Two(t.minute);
    assert s[17..19] == Two(t.second);
  }

  /** A canonical date followed by any three two-digit time fields is
      classified as `strptime` classifies it: an hour above 23 or a minute
      above 59 does not match, a second above 61 leaves a digit unconverted,
      a second of 60 or 61 is out of range, and anything else is read back
      field by field. */
  lemma TimeFieldOutcomes(d: Date, hour: int, minute: int, second: int)
    requires ValidDate(d)
    requires 0 <= hour <= 99 && 0 <= minute <= 99 && 0 <= second <= 99
    ensures var r := ParseDateTime(FormatDate(d) + " " + Two(hour) + ":" + Two(minute) + ":" + Two(second));
      r == if hour > 23 || minute > 59 then Failure(NoMatch)
           else if second > 61 then Failure(UnconvertedData)
           else if second >= 60 then Failure(OutOfRange)
           else Success(DateTime(d, hour, minute, second))
  {
    var s := FormatDate(d) + " " + Two(hour) + ":" + Two(minute) + ":" + Two(second);
    assert s[..10] == FormatDate(d);
    assert TrimEnd(s[..10]) == s[..10];
    ParseFormatDate(d);
    assert s[11..13] == Two(hour);
    assert s[14..16] == Two(minute);
    assert s[17..19] == Two(second);
  }

  /** Worked examples of the combined pattern: the separator absorbs a
      trailing space of a one-digit day, a day that does not match whole is
      a mismatch rather than leftover text, and second 62 leaves its last
      digit unconverted. */
  lemma DateTimeExamples()
    ensures ParseDateTime("2020-01-5  12:00:00") == Success(DateTime(Date(2020, 1, 5), 12, 0, 0))
    ensures ParseDateTime("2020-01-35 12:00:00") == Failure(NoMatch)
    ensures ParseDateTime("2020-07-01 12:00:62") == Failure(UnconvertedData)
  {
    var a := "2020-01-5  12:00:00";
    assert a[..10] == "2020-01-5 ";
    assert TrimEnd(a[..10]) == "2020-01-5";
    assert ParseDate("2020-01-5") == Success(Date(2020, 1, 5));
    var b := "2020-01-35 12:00:00";
    assert b[..10] == "2020-01-35";
    assert ParseDate("2020-01-35") == Failure(UnconvertedData);
    var c := "2020-07-01 12:00:62";
    assert c[..10] == "2020-07-01";
    assert ParseDate("2020-07-01").Success?;
  }

  /** Python's `s[lo:hi]` for non-negative bounds: out-of-range bounds are
      clamped to the length instead of raising. */
  function Slice(s: string, lo: nat, hi: nat): (r: string)
    requires lo <= hi
    ensures |r| == (if hi <= |s| then hi - lo else if lo <= |s| then |s| - lo else 0)
    ensures forall i :: 0 <= i < |r| ==> r[i] == s[lo + i]
  {
    if hi <= |s| then s[lo..hi] else if lo <= |s| then s[lo..] else []
  }

  /** The date part of a timestamp, `stamp[0:10]`. */
  function DatePart(stamp: string): string {
    Slice(stamp, 0, 10)
  }

  /** The time part of a timestamp, `stamp[11:19]`. */
  function TimePart(stamp: string): string {
    Slice(stamp, 11, 19)
  }

  /** For a timestamp of at least 19 characters the two parts and the
      separator between them rebuild its first 19 characters; shorter
      timestamps give shorter (possibly empty) parts instead of an error. */
  lemma StampSplit(stamp: string)
    ensures |stamp| >= 19 ==> DatePart(stamp) + [stamp[10]] + TimePart(stamp) == stamp[..19]
    ensures |DatePart(stamp)| == if |stamp| < 10 then |stamp| else 10
    ensures |TimePart(stamp)| == if |stamp| <= 11 then 0 else if |stamp| < 19 then |stamp| - 11 else 8
  {
    if |stamp| >= 19 {
      var lhs := DatePart(stamp) + [stamp[10]] + TimePart(stamp);
      assert forall i :: 0 <= i < 19 ==> lhs[i] == stamp[i];
    }
  }

  /** A canonical date-time splits back into its formatted date and time. */
  lemma StampOfDateTime(t: DateTime)
    requires ValidDateTime(t)
    ensures DatePart(FormatDateTime(t)) == FormatDate(t.date)
    ensures TimePart(FormatDateTime(t)) == Two(t.hour) + ":" + Two(t.minute) + ":" + Two(t.second)
  {
    var s := FormatDateTime(t);
    assert DatePart(s) == s[..10];
    assert TimePart(s) == s[11..19];
  }
}
