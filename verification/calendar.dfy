/** The proleptic Gregorian calendar as Python's `datetime.date` implements it:
    years 1 to 9999, ordinals counted from 0001-01-01 (ordinal 1), and day
    arithmetic by whole days. */
module Calendar {

  const MinYear := 1
  const MaxYear := 9999

  datatype Date = Date(year: int, month: int, day: int)

  /** The last representable date, 9999-12-31; adding a day to it overflows. */
  const LastDate := Date(MaxYear, 12, 31)

  predicate IsLeapYear(y: int) {
    y % 4 == 0 && (y % 100 != 0 || y % 400 == 0)
  }

  function DaysInMonth(y: int, m: int): (n: int)
    requires 1 <= m <= 12
    ensures 28 <= n <= 31
  {
    if m == 2 then (if IsLeapYear(y) then 29 else 28)
    else if m == 4 || m == 6 || m == 9 || m == 11 then 30
    else 31
  }

  function DaysInYear(y: int): int {
    if IsLeapYear(y) then 366 else 365
  }

  predicate ValidDate(d: Date) {
    && MinYear <= d.year <= MaxYear
    && 1 <= d.month <= 12
    && 1 <= d.day <= DaysInMonth(d.year, d.month)
  }

  /** Days in the whole years before `y`, counted from 0001-01-01. */
  function DaysBeforeYear(y: int): nat
    requires y >= 1
    decreases y
  {
    if y == 1 then 0 else DaysBeforeYear(y - 1) + DaysInYear(y - 1)
  }

  /** Days in the whole months of year `y` before month `m`. */
  function DaysBeforeMonth(y: int, m: int): nat
    requires 1 <= m <= 12
  {
    var common :=
      if m == 1 then 0 else if m == 2 then 31 else if m == 3 then 59
      else if m == 4 then 90 else if m == 5 then 120 else if m == 6 then 151
      else if m == 7 then 181 else if m == 8 then 212 else if m == 9 then 243
      else if m == 10 then 273 else if m == 11 then 304 else 334;
    if m > 2 && IsLeapYear(y) then common + 1 else common
  }

  /** Day number of a date, 0001-01-01 being day 1 (Python's `toordinal`). */
  function Ordinal(d: Date): int
    requires ValidDate(d)
  {
    DaysBeforeYear(d.year) + DaysBeforeMonth(d.year, d.month) + d.day
  }

  /** Lexicographic order on (year, month, day). */
  predicate Before(a: Date, b: Date) {
    || a.year < b.year
    || (a.year == b.year && a.month < b.month)
    || (a.year == b.year && a.month == b.month && a.day < b.day)
  }

  lemma MonthEnd(y: int, m: int)
    requires 1 <= m <= 12
    ensures m < 12 ==> DaysBeforeMonth(y, m) + DaysInMonth(y, m) == DaysBeforeMonth(y, m + 1)
    ensures m == 12 ==> DaysBeforeMonth(y, m) + DaysInMonth(y, m) == DaysInYear(y)
  {
  }

  lemma MonthsIncrease(y: int, m: int, m': int)
    requires 1 <= m < m' <= 12
    ensures DaysBeforeMonth(y, m) + DaysInMonth(y, m) <= DaysBeforeMonth(y, m')
  {
  }

  lemma {:induction false} YearsIncrease(y: int, y': int)
    requires 1 <= y < y'
    ensures DaysBeforeYear(y) + DaysInYear(y) <= DaysBeforeYear(y')
    decreases y' - y
  {
    if y + 1 < y' {
      YearsIncrease(y, y' - 1);
    }
  }

  /** Ordinals follow calendar order: a date that comes earlier has a
      smaller day number. */
  lemma OrdinalMonotone(a: Date, b: Date)
    requires ValidDate(a) && ValidDate(b)
    requires Before(a, b)
    ensures Ordinal(a) < Ordinal(b)
  {
    MonthEnd(a.year, a.month);
    if a.year < b.year {
      YearsIncrease(a.year, b.year);
      if a.month < 12 {
        MonthsIncrease(a.year, a.month, 12);
      }
    } else if a.month < b.month {
      MonthsIncrease(a.year, a.month, b.month);
    }
  }

  /** Distinct dates have distinct ordinals. */
  lemma OrdinalInjective(a: Date, b: Date)
    requires ValidDate(a) && ValidDate(b)
    requires Ordinal(a) == Ordinal(b)
    ensures a == b
  {
    if Before(a, b) {
      OrdinalMonotone(a, b);
    } else if Before(b, a) {
      OrdinalMonotone(b, a);
    }
  }

  /** Day numbers preserve the calendar order in both directions. */
  lemma OrdinalOrder(a: Date, b: Date)
    requires ValidDate(a) && ValidDate(b)
    ensures Ordinal(a) < Ordinal(b) <==> Before(a, b)
  {
    if Before(a, b) {
      OrdinalMonotone(a, b);
    } else if Before(b, a) {
      OrdinalMonotone(b, a);
    } else {
      assert a == b;
    }
  }

  /** The calendar day after `d` (`d + timedelta(days=1)`). */
  function NextDay(d: Date): (r: Date)
    requires ValidDate(d) && d != LastDate
    ensures ValidDate(r)
    ensures Ordinal(r) == Ordinal(d) + 1
  {
    MonthEnd(d.year, d.month);
    if d.day < DaysInMonth(d.year, d.month) then Date(d.year, d.month, d.day + 1)
    else if d.month < 12 then Date(d.year, d.month + 1, 1)
    else Date(d.year + 1, 1, 1)
  }

  /** `d + timedelta(days=n)`, defined only where Python does not overflow. */
  function AddDays(d: Date, n: nat): (r: Date)
    requires ValidDate(d)
    requires Ordinal(d) + n <= Ordinal(LastDate)
    ensures ValidDate(r)
    ensures Ordinal(r) == Ordinal(d) + n
    decreases n
  {
    if n == 0 then d else AddDays(NextDay(d), n - 1)
  }

  /** `(b - a).days` for two midnights. */
  function DaysBetween(a: Date, b: Date): int
    requires ValidDate(a) && ValidDate(b)
  {
    Ordinal(b) - Ordinal(a)
  }

  lemma LastDateValid()
    ensures ValidDate(LastDate)
  {
  }

  lemma OrdinalAtMostLast(d: Date)
    requires ValidDate(d)
    ensures Ordinal(d) <= Ordinal(LastDate)
  {
    LastDateValid();
    OrdinalOrder(d, LastDate);
  }

  /** Adding the day difference to the earlier date lands exactly on the later one. */
  lemma AddDaysReaches(a: Date, b: Date)
    requires ValidDate(a) && ValidDate(b)
    requires Ordinal(a) <= Ordinal(b)
    ensures Ordinal(a) + DaysBetween(a, b) <= Ordinal(LastDate)
    ensures AddDays(a, DaysBetween(a, b)) == b
  {
    OrdinalAtMostLast(b);
    OrdinalInjective(AddDays(a, DaysBetween(a, b)), b);
  }

  /** One more day is one more step of `NextDay`. */
  lemma AddDaysStep(d: Date, n: nat)
    requires ValidDate(d)
    requires Ordinal(d) + n + 1 <= Ordinal(LastDate)
    ensures AddDays(d, n) != LastDate
    ensures AddDays(d, n + 1) == NextDay(AddDays(d, n))
  {
    var x := AddDays(d, n + 1);
    var y := NextDay(AddDays(d, n));
    OrdinalInjective(x, y);
  }

  /** The days `a`, `a + 1`, ..., `b` (`a + timedelta(days=i)` for `i` in
      `range((b - a).days + 1)`); empty when `b` precedes `a`. */
  function DayRange(a: Date, b: Date): (r: seq<Date>)
    requires ValidDate(a) && ValidDate(b)
    ensures |r| == if Ordinal(b) < Ordinal(a) then 0 else DaysBetween(a, b) + 1
    ensures forall i :: 0 <= i < |r| ==> ValidDate(r[i]) && Ordinal(r[i]) == Ordinal(a) + i
  {
    if Ordinal(b) < Ordinal(a) then []
    else
      AddDaysReaches(a, b);
      seq(DaysBetween(a, b) + 1, i requires 0 <= i <= DaysBetween(a, b) => AddDays(a, i))
  }

  /** `DayRange` starts at `a`, ends at `b`, and steps one calendar day at a time. */
  lemma DayRangeShape(a: Date, b: Date)
    requires ValidDate(a) && ValidDate(b)
    requires Ordinal(a) <= Ordinal(b)
    ensures var r := DayRange(a, b);
      && r[0] == a
      && r[|r| - 1] == b
      && forall i :: 0 <= i < |r| - 1 ==> r[i] != LastDate && r[i + 1] == NextDay(r[i])
  {
    var r := DayRange(a, b);
    AddDaysReaches(a, b);
    forall i | 0 <= i < |r| - 1
      ensures r[i] != LastDate && r[i + 1] == NextDay(r[i])
    {
      AddDaysStep(a, i);
    }
  }

  /** `DayRange` lists every date between its ends and nothing else. */
  lemma DayRangeExact(a: Date, b: Date, x: Date)
    requires ValidDate(a) && ValidDate(b) && ValidDate(x)
    ensures x in DayRange(a, b) <==> Ordinal(a) <= Ordinal(x) <= Ordinal(b)
  {
    var r := DayRange(a, b);
    if Ordinal(a) <= Ordinal(x) <= Ordinal(b) {
      var i := Ordinal(x) - Ordinal(a);
      OrdinalInjective(r[i], x);
    }
  }
}

/** Naive date-times at whole-second resolution, as `datetime.datetime`
    values with no time zone. */
module Clock {
  import opened Calendar

  const SecondsPerDay := 86400

  datatype DateTime = DateTime(date: Date, hour: int, minute: int, second: int)

  predicate ValidDateTime(t: DateTime) {
    && ValidDate(t.date)
    && 0 <= t.hour < 24 && 0 <= t.minute < 60 && 0 <= t.second < 60
  }

  function SecondOfDay(t: DateTime): int {
    t.hour * 3600 + t.minute * 60 + t.second
  }

  /** Seconds elapsed since 0001-01-01 00:00:00. */
  function Instant(t: DateTime): int
    requires ValidDateTime(t)
  {
    (Ordinal(t.date) - 1) * SecondsPerDay + SecondOfDay(t)
  }

  function AtSecond(d: Date, s: int): (t: DateTime)
    requires 0 <= s < SecondsPerDay
    ensures SecondOfDay(t) == s
  {
    DateTime(d, s / 3600, s % 3600 / 60, s % 60)
  }

  /** `t + timedelta(seconds=k)` for a shift shorter than a day, defined
      only where Python does not overflow. */
  function AddSeconds(t: DateTime, k: int): (r: DateTime)
    requires ValidDateTime(t) && 0 <= k < SecondsPerDay
    requires SecondOfDay(t) + k >= SecondsPerDay ==> t.date != LastDate
    ensures ValidDateTime(r)
    ensures Instant(r) == Instant(t) + k
  {
    var s := SecondOfDay(t) + k;
    if s < SecondsPerDay then AtSecond(t.date, s)
    else AtSecond(NextDay(t.date), s - SecondsPerDay)
  }
}
