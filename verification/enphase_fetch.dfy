/** Fetching in enphase.py: `request_data` with its throttle check
    `check_throttling_and_rest`, and `main`, which plans one request per day
    for generation data and a single request for anything else. The server
    is a function from URL to decoded response body. */
module EnphaseFetch {
  import opened Wrappers
  import opened Calendar
  import opened DateText
  import opened EnphaseDates
  import opened EnphaseUrl
  import opened EnphaseStore

  /** The pause after an explicit throttle reason, in seconds. */
  const ThrottleWait := 60

  /** `check_throttling_and_rest(rawData)`: the seconds it sleeps. */
  function ThrottleSleep(body: Body): (seconds: nat)
    ensures seconds == ThrottleWait <==> body.reason.Some? && Truthy(body.reason.value)
    ensures seconds != ThrottleWait ==> seconds == 0
  {
    match body.reason
    case Some(reason) => if Truthy(reason) then ThrottleWait else 0
    case None => 0
  }

  /** What `request_data` hands back: the body as received, and how long it
      slept before returning it. */
  datatype Fetched = Fetched(body: Body, slept: nat)

  /** `rawdata['intervals'][0]` on an empty list: IndexError. */
  datatype FetchFault = EmptyIntervals

  /** `request_data(url)` once the server answered `body`. A body without
      `intervals` goes to the throttle check; the same body is returned
      whatever it finds, and nothing is fetched again. */
  function RequestData(body: Body): (r: Result<Fetched, FetchFault>)
    ensures r.Failure? <==> body.intervals == Some([])
    ensures r.Success? ==> r.value.body == body
    ensures r.Success? ==> (r.value.slept == ThrottleWait <==> body.intervals.None? && body.reason.Some? && Truthy(body.reason.value))
    ensures r.Success? ==> r.value.slept == 0 || r.value.slept == ThrottleWait
  {
    match body.intervals
    case Some(ivs) => if |ivs| == 0 then Failure(EmptyIntervals) else Success(Fetched(body, 0))
    case None => Success(Fetched(body, ThrottleSleep(body)))
  }

  /** Why a run of `main` stopped early. */
  datatype RunFault =
    | DatesFault(DateError)
    | UrlFault(UrlFault)
    | FetchFault(FetchFault)
    | StoreFault(StoreFault)

  /** The observable effect of `main`: the URLs requested in order, the
      tables afterwards, and the exception that ended it, if any. Rows
      stored before an exception stay stored. */
  datatype Run = Run(urls: seq<string>, tables: Tables, fault: Option<RunFault>)

  /** A body that goes through `request_data` and `append_db` without raising. */
  predicate Usable(body: Body) {
    body.intervals.Some? && |body.intervals.value| > 0
  }

  /** One `request_data`, `append_db` round on the outcome `built` of a
      `generate_url` call: an exception there ends the run before anything
      is fetched. */
  function FetchStep(built: Result<UrlAndDate, UrlFault>, server: string -> Body, run: Run): (r: Run)
    ensures Extends(run.tables, r.tables)
    ensures built.Failure? ==> r == run.(fault := Some(UrlFault(built.error)))
    ensures built.Success? ==> r.urls == run.urls + [built.value.url]
    ensures built.Success? ==> (r.fault.None? <==> Usable(server(built.value.url)))
    ensures r.fault.Some? ==> r.tables == run.tables
    ensures built.Success? && Usable(server(built.value.url)) ==>
      r.tables == AppendDb(run.tables, server(built.value.url)).value
  {
    match built
    case Failure(e) => run.(fault := Some(UrlFault(e)))
    case Success(u) =>
      var urls := run.urls + [u.url];
      match RequestData(server(u.url))
      case Failure(e) => Run(urls, run.tables, Some(FetchFault(e)))
      case Success(f) =>
        match AppendDb(run.tables, f.body)
        case Failure(e) => Run(urls, run.tables, Some(StoreFault(e)))
        case Success(t) => Run(urls, t, None)
  }

  /** The generation loop over the listed days, each fetched alone with the
      URL `build` makes from it. */
  function FetchDays(dates: seq<string>, build: string -> Result<UrlAndDate, UrlFault>,
                     server: string -> Body, run: Run): (r: Run)
    ensures run.fault.Some? ==> r == run
    ensures Extends(run.tables, r.tables)
    ensures run.urls <= r.urls && |r.urls| <= |run.urls| + |dates|
    decreases |dates|
  {
    if |dates| == 0 || run.fault.Some? then run
    else FetchDays(dates[1..], build, server, FetchStep(build(dates[0]), server, run))
  }

  /** The URL builder `main` uses for generation: one day, no end date. */
  function DayBuilder(settings: Settings, epoch: Date -> int): string -> Result<UrlAndDate, UrlFault> {
    date => GenerateUrl(settings, Generation, date, "", epoch)
  }

  /** `main(event_request, event_start_date, event_end_date)` on tables
      holding `tables`. */
  function Main(settings: Settings, request: string, startDate: string, endDate: string,
                epoch: Date -> int, server: string -> Body, tables: Tables): (r: Run)
    ensures Extends(tables, r.tables)
    ensures request != Generation ==> |r.urls| <= 1
    ensures request == Generation && GenerateDates(startDate, endDate).Failure? ==>
      r.urls == [] && r.tables == tables && r.fault.Some?
    ensures request == Generation && GenerateDates(startDate, endDate).Success? ==>
      |r.urls| <= |GenerateDates(startDate, endDate).value|
  {
    if request == Generation then
      match GenerateDates(startDate, endDate)
      case Failure(e) => Run([], tables, Some(DatesFault(e)))
      case Success(dates) => FetchDays(dates, DayBuilder(settings, epoch), server, Run([], tables, None))
    else
      FetchStep(GenerateUrl(settings, request, startDate, endDate, epoch), server, Run([], tables, None))
  }

  /** Tables only grow: what was stored before is still there, in place. */
  predicate Extends(before: Tables, after: Tables) {
    before.generation <= after.generation && before.consumption <= after.consumption
  }

  /** The generation loop requests the listed days' URLs in order, one per
      day, and the tables only grow. */
  lemma {:induction false} FetchDaysOrder(dates: seq<string>, build: string -> Result<UrlAndDate, UrlFault>,
                                          server: string -> Body, run: Run)
    requires run.fault.None?
    requires forall i :: 0 <= i < |dates| ==> build(dates[i]).Success?
    ensures var r := FetchDays(dates, build, server, run);
      && Extends(run.tables, r.tables)
      && run.urls <= r.urls
      && |r.urls| <= |run.urls| + |dates|
      && (forall i :: |run.urls| <= i < |r.urls| ==> r.urls[i] == build(dates[i - |run.urls|]).value.url)
    decreases |dates|
  {
    if |dates| > 0 {
      var next := FetchStep(build(dates[0]), server, run);
      if next.fault.None? {
        var rest := dates[1..];
        assert forall i :: 0 <= i < |rest| ==> rest[i] == dates[i + 1];
        FetchDaysOrder(rest, build, server, next);
        var r := FetchDays(rest, build, server, next);
        assert r == FetchDays(dates, build, server, run);
        forall i | |run.urls| <= i < |r.urls|
          ensures r.urls[i] == build(dates[i - |run.urls|]).value.url
        {
          if i > |run.urls| {
            assert r.urls[i] == build(rest[i - |next.urls|]).value.url;
          } else {
            assert r.urls[i] == next.urls[i];
          }
        }
      }
    }
  }

  /** The generation loop completes every day, one request each, exactly
      when every response is usable. */
  lemma {:induction false} FetchDaysOutcome(dates: seq<string>, build: string -> Result<UrlAndDate, UrlFault>,
                                            server: string -> Body, run: Run)
    requires run.fault.None?
    requires forall i :: 0 <= i < |dates| ==> build(dates[i]).Success?
    ensures var r := FetchDays(dates, build, server, run);
      && (r.fault.None? <==> forall i :: 0 <= i < |dates| ==> Usable(server(build(dates[i]).value.url)))
      && (r.fault.None? ==> |r.urls| == |run.urls| + |dates|)
    decreases |dates|
  {
    if |dates| > 0 {
      var next := FetchStep(build(dates[0]), server, run);
      if next.fault.None? {
        var rest := dates[1..];
        assert forall i :: 0 <= i < |rest| ==> rest[i] == dates[i + 1];
        FetchDaysOutcome(rest, build, server, next);
        assert (forall i :: 0 <= i < |dates| ==> Usable(server(build(dates[i]).value.url)))
          <==> Usable(server(build(dates[0]).value.url))
               && (forall i :: 0 <= i < |rest| ==> Usable(server(build(rest[i]).value.url)));
      }
    }
  }

  /** A generation loop that raises does so on the last URL it requested:
      every earlier response was usable, and nothing is requested after it. */
  lemma {:induction false} FetchDaysStops(dates: seq<string>, build: string -> Result<UrlAndDate, UrlFault>,
                                          server: string -> Body, run: Run)
    requires run.fault.None?
    requires forall i :: 0 <= i < |dates| ==> build(dates[i]).Success?
    ensures var r := FetchDays(dates, build, server, run);
      r.fault.Some? ==>
        && |r.urls| > |run.urls|
        && !Usable(server(r.urls[|r.urls| - 1]))
        && forall i :: |run.urls| <= i < |r.urls| - 1 ==> Usable(server(r.urls[i]))
    decreases |dates|
  {
    if |dates| > 0 {
      var next := FetchStep(build(dates[0]), server, run);
      if next.fault.None? {
        var rest := dates[1..];
        assert forall i :: 0 <= i < |rest| ==> rest[i] == dates[i + 1];
        FetchDaysStops(rest, build, server, next);
        var r := FetchDays(rest, build, server, next);
        assert r == FetchDays(dates, build, server, run);
        if r.fault.Some? {
          FetchDaysOrder(rest, build, server, next);
          forall i | |run.urls| <= i < |r.urls| - 1
            ensures Usable(server(r.urls[i]))
          {
            if i < |next.urls| {
              assert r.urls[i] == next.urls[i];
            }
          }
        }
      }
    }
  }

  /** The loop run from an empty start: the three properties above
      together, with every URL the loop requests numbered as its day. */
  lemma {:induction false} FetchDaysPlan(dates: seq<string>, build: string -> Result<UrlAndDate, UrlFault>,
                                         server: string -> Body, tables: Tables)
    requires forall i :: 0 <= i < |dates| ==> build(dates[i]).Success?
    ensures var r := FetchDays(dates, build, server, Run([], tables, None));
      && Extends(tables, r.tables)
      && |r.urls| <= |dates|
      && (forall i :: 0 <= i < |r.urls| ==> r.urls[i] == build(dates[i]).value.url)
      && (r.fault.None? <==> forall i :: 0 <= i < |dates| ==> Usable(server(build(dates[i]).value.url)))
      && (r.fault.None? ==> |r.urls| == |dates|)
      && (r.fault.Some? ==>
            && |r.urls| > 0
            && !Usable(server(r.urls[|r.urls| - 1]))
            && forall i :: 0 <= i < |r.urls| - 1 ==> Usable(server(r.urls[i])))
  {
    var start := Run([], tables, None);
    FetchDaysOrder(dates, build, server, start);
    FetchDaysOutcome(dates, build, server, start);
    FetchDaysStops(dates, build, server, start);
  }

  /** `main("generation", ...)` with dates `generate_dates` accepts fetches
      once per listed day, in list order, each URL built by `generate_url`
      from that day alone; it completes every day exactly when every
      response is usable, and otherwise stops right after the first
      response that raises, keeping the rows stored before it. */
  lemma MainGeneration(settings: Settings, startDate: string, endDate: string,
                       epoch: Date -> int, server: string -> Body, tables: Tables)
    requires ParseDate(startDate).Success? && ParseDate(EffectiveEnd(startDate, endDate)).Success?
    ensures var dates := GenerateDates(startDate, endDate).value;
      var build := DayBuilder(settings, epoch);
      var r := Main(settings, Generation, startDate, endDate, epoch, server, tables);
      && (forall i :: 0 <= i < |dates| ==> build(dates[i]).Success?)
      && Extends(tables, r.tables)
      && |r.urls| <= |dates|
      && (forall i :: 0 <= i < |r.urls| ==> r.urls[i] == build(dates[i]).value.url)
      && (r.fault.None? <==> forall i :: 0 <= i < |dates| ==> Usable(server(build(dates[i]).value.url)))
      && (r.fault.None? ==> |r.urls| == |dates|)
      && (r.fault.Some? ==>
            && |r.urls| > 0
            && !Usable(server(r.urls[|r.urls| - 1]))
            && forall i :: 0 <= i < |r.urls| - 1 ==> Usable(server(r.urls[i])))
  {
    var dates := GenerateDates(startDate, endDate).value;
    var build := DayBuilder(settings, epoch);
    assert Main(settings, Generation, startDate, endDate, epoch, server, tables) ==
      FetchDays(dates, build, server, Run([], tables, None));
    ListedDaysBuild(settings, dates, epoch);
    FetchDaysPlan(dates, build, server, tables);
  }

  /** Every date `strptime` accepts yields a generation URL. */
  lemma ListedDaysBuild(settings: Settings, dates: seq<string>, epoch: Date -> int)
    requires forall i :: 0 <= i < |dates| ==> ParseDate(dates[i]).Success?
    ensures forall i :: 0 <= i < |dates| ==> DayBuilder(settings, epoch)(dates[i]).Success?
  {
    forall i | 0 <= i < |dates|
      ensures DayBuilder(settings, epoch)(dates[i]).Success?
    {
      assert Segment(Generation).Some?;
    }
  }

  /** Any other request fetches at most once, with the URL built from both
      dates; it fetches exactly when that URL can be built. */
  lemma OtherRequestFetchesOnce(settings: Settings, request: string, startDate: string, endDate: string,
                                epoch: Date -> int, server: string -> Body, tables: Tables)
    requires request != Generation
    ensures var r := Main(settings, request, startDate, endDate, epoch, server, tables);
      && Extends(tables, r.tables)
      && |r.urls| <= 1
      && (|r.urls| == 1 <==> GenerateUrl(settings, request, startDate, endDate, epoch).Success?)
      && (|r.urls| == 1 ==> r.urls[0] == GenerateUrl(settings, request, startDate, endDate, epoch).value.url)
  {
  }
}
