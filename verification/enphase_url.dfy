/** `generate_url` of enphase.py: the Enphase API URL for a generation
    (`stats`) or consumption (`consumption_stats`) request. The conversion
    of a date to epoch seconds depends on the host's time zone and is a
    parameter `epoch`. */
module EnphaseUrl {
  import opened Wrappers
  import opened Calendar
  import opened DateText

  /** The account values substituted into the URL template. The source
      reads its API key from the same setting as its application id. */
  datatype Settings = Settings(apiKey: string, userId: string, siteId: string)

  /** Why `generate_url` raised. */
  datatype UrlFault =
    | StartDateError(DateError)  // `strptime` rejected the start date: ValueError
    | UnknownRequest             // neither kind, so `REQUEST` is unbound when used
    | EndDateError(DateError)    // `strptime` rejected the end date: ValueError

  /** The URL and the normalised start date `generate_url` returns. */
  datatype UrlAndDate = UrlAndDate(url: string, date: string)

  const Host := "https://api.enphaseenergy.com/api/v2/systems/"
  const FormatFlag := "&datetime_format=iso8601"
  const Generation := "generation"
  const Consumption := "consumption"

  /** The path segment a request kind selects. */
  function Segment(request: string): (r: Option<string>)
    ensures r == Some("stats") <==> request == Generation
    ensures r == Some("consumption_stats") <==> request == Consumption
    ensures r.None? <==> request != Generation && request != Consumption
  {
    if request == Generation then Some("stats")
    else if request == Consumption then Some("consumption_stats")
    else None
  }

  /** The filled template `.../systems/$SITE_ID/$REQUEST?key=$API_KEY&user_id=$USER_ID`. */
  function BaseUrl(settings: Settings, segment: string): string {
    Host + settings.siteId + "/" + segment + "?key=" + settings.apiKey + "&user_id=" + settings.userId
  }

  /** `str(n)` for a natural number. */
  function NatToString(n: nat): (s: string)
    ensures |s| > 0 && forall i :: 0 <= i < |s| ==> IsDigit(s[i])
    decreases n
  {
    if n < 10 then [DigitChar(n)] else NatToString(n / 10) + [DigitChar(n % 10)]
  }

  /** `str(n)` for any integer, with a leading minus sign when negative. */
  function IntToString(n: int): string {
    if n < 0 then "-" + NatToString(-n) else NatToString(n)
  }

  /** The number a string of decimal digits denotes. */
  function DecimalValue(s: string): nat
    requires forall i :: 0 <= i < |s| ==> IsDigit(s[i])
  {
    if |s| == 0 then 0 else 10 * DecimalValue(s[..|s| - 1]) + DigitValue(s[|s| - 1])
  }

  /** `str(n)` of a non-negative number reads back as that number. */
  lemma {:induction false} NatToStringRoundTrip(n: nat)
    ensures DecimalValue(NatToString(n)) == n
    decreases n
  {
    if n >= 10 {
      NatToStringRoundTrip(n / 10);
      var s := NatToString(n);
      assert s[..|s| - 1] == NatToString(n / 10);
    }
  }

  /** Decimal digits, optionally after one leading minus sign: the form
      `str` gives an integer. */
  predicate IsIntText(s: string) {
    if |s| > 0 && s[0] == '-' then
      |s| > 1 && forall i :: 1 <= i < |s| ==> IsDigit(s[i])
    else
      |s| > 0 && forall i :: 0 <= i < |s| ==> IsDigit(s[i])
  }

  /** `int(s)` for text of that form. */
  function IntValue(s: string): int
    requires IsIntText(s)
  {
    if s[0] == '-' then -(DecimalValue(s[1..]) as int) else DecimalValue(s)
  }

  /** The epoch written into a URL, negative for dates before 1970 as well,
      has the form `str` gives and reads back as the same number. */
  lemma IntToStringRoundTrip(n: int)
    ensures IsIntText(IntToString(n)) && IntValue(IntToString(n)) == n
  {
    if n < 0 {
      var s := IntToString(n);
      assert s[1..] == NatToString(-n);
      NatToStringRoundTrip(-n);
    } else {
      NatToStringRoundTrip(n);
    }
  }

  /** One query parameter `&name=value`. */
  function Param(name: string, value: string): string {
    "&" + name + "=" + value
  }

  /** `generate_url(event_request, event_start_date, event_end_date)`; an
      empty end date is the default, absent. The start date is checked
      first, then the request kind, then the end date. */
  function GenerateUrl(settings: Settings, request: string, startDate: string, endDate: string, epoch: Date -> int): (r: Result<UrlAndDate, UrlFault>)
    ensures ParseDate(startDate).Failure? ==> r == Failure(StartDateError(ParseDate(startDate).error))
    ensures ParseDate(startDate).Success? && Segment(request).None? ==> r == Failure(UnknownRequest)
    ensures ParseDate(startDate).Success? && Segment(request).Some? && endDate != "" && ParseDate(endDate).Failure? ==>
      r == Failure(EndDateError(ParseDate(endDate).error))
    ensures r.Success? <==>
      ParseDate(startDate).Success? && Segment(request).Some? && (endDate == "" || ParseDate(endDate).Success?)
    ensures r.Success? ==>
      var start := ParseDate(startDate).value;
      var base := BaseUrl(settings, Segment(request).value);
      && r.value.date == FormatDate(start)
      && ParseDate(r.value.date) == Success(start)
      && (request == Consumption && endDate != "" ==>
            r.value.url == base + Param("start_at", IntToString(epoch(start)))
                                + Param("end_at", IntToString(epoch(ParseDate(endDate).value))) + FormatFlag)
      && (request == Generation || endDate == "" ==>
            r.value.url == base + Param("start_at", IntToString(epoch(start))) + FormatFlag)
  {
    match ParseDate(startDate)
    case Failure(e) => Failure(StartDateError(e))
    case Success(start) =>
      ParseFormatDate(start);
      var date := FormatDate(start);
      match Segment(request)
      case None => Failure(UnknownRequest)
      case Some(segment) =>
        var filled := BaseUrl(settings, segment);
        if endDate != "" then
          match ParseDate(endDate)
          case Failure(e) => Failure(EndDateError(e))
          case Success(end) =>
            if request == Generation then
              Success(UrlAndDate(filled + Param("start_at", IntToString(epoch(start))) + FormatFlag, date))
            else
              Success(UrlAndDate(filled + Param("start_at", IntToString(epoch(start))) + Param("end_at", IntToString(epoch(end))) + FormatFlag, date))
        else
          Success(UrlAndDate(filled + Param("start_at", IntToString(epoch(start))) + FormatFlag, date))
  }

  /** The default start date `""` is not a date, so the branch of the source
      that builds a URL without any date can never be reached: every URL
      returned carries `start_at`. */
  lemma DefaultStartRaises(settings: Settings, request: string, endDate: string, epoch: Date -> int)
    ensures GenerateUrl(settings, request, "", endDate, epoch) == Failure(StartDateError(NoMatch))
  {
  }

  /** A generation request validates its end date but otherwise ignores it:
      the URL is the one built from the start date alone. */
  lemma GenerationIgnoresEnd(settings: Settings, startDate: string, endDate: string, epoch: Date -> int)
    requires ParseDate(endDate).Success?
    ensures GenerateUrl(settings, Generation, startDate, endDate, epoch) == GenerateUrl(settings, Generation, startDate, "", epoch)
  {
  }

  /** Every URL returned starts with the template for its request kind and
      ends with the ISO 8601 flag. */
  lemma UrlShape(settings: Settings, request: string, startDate: string, endDate: string, epoch: Date -> int)
    requires ParseDate(startDate).Success? && Segment(request).Some?
    requires endDate == "" || ParseDate(endDate).Success?
    ensures var url := GenerateUrl(settings, request, startDate, endDate, epoch).value.url;
      var base := BaseUrl(settings, Segment(request).value);
      |url| >= |base| && url[..|base|] == base
    ensures var url := GenerateUrl(settings, request, startDate, endDate, epoch).value.url;
      |url| >= |FormatFlag| && url[|url| - |FormatFlag|..] == FormatFlag
  {
    UrlForm(settings, request, startDate, endDate, epoch);
    Framed(BaseUrl(settings, Segment(request).value), UrlMiddle(request, startDate, endDate, epoch), FormatFlag);
  }

  /** The query parameters between the template and the format flag. */
  function UrlMiddle(request: string, startDate: string, endDate: string, epoch: Date -> int): string
    requires ParseDate(startDate).Success?
    requires endDate == "" || ParseDate(endDate).Success?
  {
    Param("start_at", IntToString(epoch(ParseDate(startDate).value)))
      + if request == Consumption && endDate != "" then Param("end_at", IntToString(epoch(ParseDate(endDate).value))) else ""
  }

  /** Every URL returned is the template, the date parameters and the flag. */
  lemma UrlForm(settings: Settings, request: string, startDate: string, endDate: string, epoch: Date -> int)
    requires ParseDate(startDate).Success? && Segment(request).Some?
    requires endDate == "" || ParseDate(endDate).Success?
    ensures GenerateUrl(settings, request, startDate, endDate, epoch).value.url ==
      BaseUrl(settings, Segment(request).value) + UrlMiddle(request, startDate, endDate, epoch) + FormatFlag
  {
    var startAt := Param("start_at", IntToString(epoch(ParseDate(startDate).value)));
    if request == Consumption && endDate != "" {
    } else {
      assert startAt + "" == startAt;
    }
  }

  /** A string built as `head + middle + tail` starts with `head` and ends
      with `tail`. */
  lemma Framed(head: string, middle: string, tail: string)
    ensures var s := head + middle + tail;
      && s[..|head|] == head
      && s[|s| - |tail|..] == tail
  {
  }

  /** The date returned is already in `YYYY-MM-DD` form: passing it back in
      as the start date returns it unchanged. */
  lemma ReturnedDateIsNormal(settings: Settings, request: string, startDate: string, endDate: string, epoch: Date -> int)
    requires ParseDate(startDate).Success? && Segment(request).Some?
    requires endDate == "" || ParseDate(endDate).Success?
    ensures var date := GenerateUrl(settings, request, startDate, endDate, epoch).value.date;
      && GenerateUrl(settings, request, date, endDate, epoch).Success?
      && GenerateUrl(settings, request, date, endDate, epoch).value.date == date
  {
    var start := ParseDate(startDate).value;
    ParseFormatDate(start);
  }

  /** A canonical date yields a URL for either request kind,
      as `main` relies on when it passes each listed day alone. */
  lemma CanonicalDateAccepted(settings: Settings, request: string, d: Date, epoch: Date -> int)
    requires ValidDate(d) && Segment(request).Some?
    ensures GenerateUrl(settings, request, FormatDate(d), "", epoch).Success?
    ensures GenerateUrl(settings, request, FormatDate(d), "", epoch).value.url ==
      BaseUrl(settings, Segment(request).value) + Param("start_at", IntToString(epoch(d))) + FormatFlag
  {
    ParseFormatDate(d);
  }
}
