/** Query windows for the Flume water-usage API: the span cap of
    `calculateTimes` (flumecli.py) and the two fixed half-day windows
    `getBulkData` sends for every day of a requested range. */
module FlumeWindows {
  import opened Wrappers
  import opened Calendar
  import opened Clock
  import opened DateText

  /** The vendor's ceiling on one query, `timedelta(hours=20)`, in seconds. */
  const MaxSpan := 20 * 3600

  /** How far past the start a capped window ends, `timedelta(hours=19, minutes=59)`. */
  const CapOffset := 19 * 3600 + 59 * 60

  /** What `calculateTimes` returns: a capped end already rendered as text by
      `strftime`, or the caller's own end value untouched. */
  datatype EndTime = Capped(text: string) | Uncapped(value: DateTime)

  /** `calculateTimes(startTime, endTime, interval)`. The `interval` argument
      only sets a local that is never read, so it has no effect. */
  function CalculateTimes(start: DateTime, end: DateTime, interval: string): (r: EndTime)
    requires ValidDateTime(start) && ValidDateTime(end)
    ensures r.Uncapped? <==> Instant(end) - Instant(start) < MaxSpan
    ensures r.Uncapped? ==> r.value == end
    ensures r.Capped? ==>
      && ParseDateTime(r.text).Success?
      && Instant(ParseDateTime(r.text).value) == Instant(start) + CapOffset
  {
    if Instant(end) - Instant(start) >= MaxSpan then
      OrdinalAtMostLast(end.date);
      var capped := AddSeconds(start, CapOffset);
      ParseFormatDateTime(capped);
      Capped(FormatDateTime(capped))
    else
      Uncapped(end)
  }

  /** The end a caller gets from `CalculateTimes`, read back as a date-time. */
  function EndInstant(r: EndTime): Option<int>
  {
    match r
    case Uncapped(t) => if ValidDateTime(t) then Some(Instant(t)) else None
    case Capped(text) =>
      match ParseDateTime(text)
      case Success(t) => Some(Instant(t))
      case Failure(_) => None
  }

  /** For a start no later than the end, the window `CalculateTimes` leaves
      is never longer than the vendor allows, and a window of exactly 20
      hours is already cut back. */
  lemma WindowBelowCeiling(start: DateTime, end: DateTime, interval: string)
    requires ValidDateTime(start) && ValidDateTime(end)
    requires Instant(start) <= Instant(end)
    ensures EndInstant(CalculateTimes(start, end, interval)).Some?
    ensures 0 <= EndInstant(CalculateTimes(start, end, interval)).value - Instant(start) < MaxSpan
    ensures Instant(end) - Instant(start) == MaxSpan ==>
      EndInstant(CalculateTimes(start, end, interval)).value < Instant(end)
  {
  }

  /** One query of the water-usage API: `since_datetime` and `until_datetime`. */
  datatype Query = Query(since: string, until: string)

  /** The morning window of day `d`: `D 00:00:00` to `D 11:59:00`. */
  function MorningQuery(d: Date): Query
    requires ValidDate(d)
  {
    Query(FormatDate(d) + " 00:00:00", FormatDate(d) + " 11:59:00")
  }

  /** The afternoon window of day `d`: `D 12:00:00` to `D 24:00:00`. */
  function AfternoonQuery(d: Date): Query
    requires ValidDate(d)
  {
    Query(FormatDate(d) + " 12:00:00", FormatDate(d) + " 24:00:00")
  }

  /** The morning window reads back as 00:00:00 to 11:59:00 of its own day,
      11 hours 59 minutes, within the ceiling. */
  lemma MorningWindow(d: Date)
    requires ValidDate(d)
    ensures ParseDateTime(MorningQuery(d).since) == Success(DateTime(d, 0, 0, 0))
    ensures ParseDateTime(MorningQuery(d).until) == Success(DateTime(d, 11, 59, 0))
    ensures Instant(DateTime(d, 11, 59, 0)) - Instant(DateTime(d, 0, 0, 0)) < MaxSpan
  {
    ParseFormatDateTime(DateTime(d, 0, 0, 0));
    ParseFormatDateTime(DateTime(d, 11, 59, 0));
    assert FormatDateTime(DateTime(d, 0, 0, 0)) == MorningQuery(d).since;
    assert FormatDateTime(DateTime(d, 11, 59, 0)) == MorningQuery(d).until;
  }

  /** The afternoon window starts at 12:00:00 of its day; its end, hour 24,
      does not match `strptime`'s hour pattern, so it is passed to the vendor
      only as text, though its date part is still the day's. */
  lemma AfternoonWindow(d: Date)
    requires ValidDate(d)
    ensures ParseDateTime(AfternoonQuery(d).since) == Success(DateTime(d, 12, 0, 0))
    ensures ParseDateTime(AfternoonQuery(d).until) == Failure(NoMatch)
    ensures DatePart(AfternoonQuery(d).until) == FormatDate(d)
  {
    ParseFormatDateTime(DateTime(d, 12, 0, 0));
    assert FormatDateTime(DateTime(d, 12, 0, 0)) == AfternoonQuery(d).since;
    var u := AfternoonQuery(d).until;
    assert u[..10] == FormatDate(d);
    ParseFormatDate(d);
    assert TwoValue(u, 11) == 24;
  }

  /** The two windows fetched for one day. */
  datatype DayQueries = DayQueries(day: Date, morning: Query, afternoon: Query)

  /** The windows `getBulkData` fetches, one pair per day from `start` to
      `end` inclusive, in ascending day order. */
  function BulkPlan(start: Date, end: Date): (plan: seq<DayQueries>)
    requires ValidDate(start) && ValidDate(end)
    ensures |plan| == |DayRange(start, end)|
    ensures forall i :: 0 <= i < |plan| ==>
      && ValidDate(plan[i].day)
      && plan[i].day == DayRange(start, end)[i]
      && plan[i].morning == MorningQuery(plan[i].day)
      && plan[i].afternoon == AfternoonQuery(plan[i].day)
  {
    var days := DayRange(start, end);
    seq(|days|, i requires 0 <= i < |days| => DayQueries(days[i], MorningQuery(days[i]), AfternoonQuery(days[i])))
  }

  /** The plan covers the range without gaps or repeats: it is empty exactly
      when `end` precedes `start`, otherwise it starts at `start`, ends at
      `end`, and each day is the calendar day after the one before. */
  lemma BulkPlanCovers(start: Date, end: Date)
    requires ValidDate(start) && ValidDate(end)
    ensures |BulkPlan(start, end)| == 0 <==> Ordinal(end) < Ordinal(start)
    ensures Ordinal(start) <= Ordinal(end) ==>
      var plan := BulkPlan(start, end);
      && |plan| == DaysBetween(start, end) + 1
      && plan[0].day == start
      && plan[|plan| - 1].day == end
      && forall i :: 0 <= i < |plan| - 1 ==> plan[i].day != LastDate && plan[i + 1].day == NextDay(plan[i].day)
  {
    if Ordinal(start) <= Ordinal(end) {
      DayRangeShape(start, end);
    }
  }
}
