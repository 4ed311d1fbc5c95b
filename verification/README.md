# Home Portal energy and water collectors, modelled in Dafny

Home Portal gathers household readings from two vendor APIs into TinyDB tables.
This project models the two collector scripts.

- `enphase.py` fetches solar data from the Enphase API:
  - `generate_dates` lists the days of a range;
  - `generate_url` builds the `stats` (generation) or `consumption_stats` (consumption) request URL;
  - `request_data` fetches a response and checks it for throttling (`check_throttling_and_rest`);
  - `append_db` stores each interval in the generation table when it has a `powr` field, and in the consumption table otherwise;
  - `main` runs one request per day for generation and a single request for anything else.
- `flumecli.py` fetches per-minute water usage from the Flume API:
  - `obtainCredentials` and `loadCredentials` manage the OAuth tokens and the token file;
  - `getDevices` picks the bridge device;
  - `calculateTimes` caps a query window at the vendor's 20-hour ceiling;
  - `getBulkData` sends a morning and an afternoon query for every day and decides, from the two status codes, whether to go on, stop or return;
  - `append_db` writes every per-minute reading as a `{date, time, gallons}` row.

Python's `datetime` is modelled exactly where these scripts depend on it, in module `Calendar` and module `Clock`:
- proleptic Gregorian dates for years 1 to 9999 and their day numbers (`toordinal`);
- whole-second naive date-times;
- `timedelta` arithmetic, defined only where Python does not overflow.

Module `DateText` models the text forms:
- `strptime(s, "%Y-%m-%d")` with the leniency of its regular expression. `%m` and `%d` also accept a single digit, and `%d` also accepts a space followed by a digit. The first alternative that matches wins, then leftover text is rejected, then the range is checked.
- `strftime`.
- `ParseDateTime`, a reader of the model's own for the fixed-width `%Y-%m-%d %H:%M:%S` text that `calculateTimes` and `getBulkData` write. The scripts never read such text back; the reader exists to state what that text means. Its shape is 19 characters, a space at index 10, colons at 13 and 16, and digits in the six time positions. On strings of that shape it reads as `datetime.strptime` does with the combined pattern:
  - the space is `\s+`, so the date is the first ten characters without trailing whitespace, and it must match whole;
  - an hour above 23 or a minute above 59 does not match;
  - a second from 62 to 99 matches one digit and leaves the other unconverted;
  - range errors come last: a day past its month, year 0, or a second of 60 or 61.
- Python's clamping slices `s[0:10]` and `s[11:19]`.

Everything outside the program is an input value:
- HTTP replies;
- the decoded JSON bodies;
- the token file, as a map from path to tokens;
- the host time zone's epoch conversion;
- the JWT `user_id` decoder.

An exception is a `Failure` carrying its reason. Rows stored before the exception stay stored.

Behaviours of the code that the model keeps as written:
- `obtainCredentials` calls `logging.CRITICAL(...)` after a non-200 reply. `logging.CRITICAL` is the integer 50, so that call raises `TypeError`; it is the fault `CriticalNotCallable`.
- `generate_url` checks the start date first. It then uses `REQUEST`, which is unbound for an unknown request kind, and only then checks the end date. A generation request validates its end date but leaves it out of the URL. The branch that builds a URL with no date at all cannot be reached, because the default start date `""` is rejected first.
- `API_KEY` is read from the same setting as `API_ID` (`enphase.py:9`), so `Settings.apiKey` holds that value.
- `main` compares `event_request is "generation"`, which is modelled as string equality, the behaviour CPython shows for interned literals.
- `request_data` never retries. After the throttle check it returns the same body, and `append_db` then raises `KeyError` on it because it has no `intervals`. An empty `intervals` list raises `IndexError` at `rawdata['intervals'][0]`, so the `if not testnull` branch is unreachable.
- `getBulkData` asks for the afternoon window up to `24:00:00`. Hour `24` does not match the hour pattern of `strptime`, so that is not a time Python would accept; the model shows that it passes to the vendor only as text.
- A 401 in `getDevices` re-obtains tokens but does not repeat the device lookup.

## Model

| member | source | states |
|---|---|---|
| Calendar.NextDay | enphase.py:35 | the day after a valid date other than 9999-12-31 is a valid date whose day number is one higher |
| Calendar.AddDays | enphase.py:35 | `d + timedelta(days=n)` is a valid date exactly `n` day numbers later, for every `n` that does not overflow |
| Calendar.OrdinalOrder | enphase.py:33 | day numbers order dates as the calendar does, in both directions |
| Calendar.OrdinalInjective | enphase.py:33 | two valid dates with the same day number are the same date |
| Calendar.DayRange | enphase.py:33-35 | the days from `a` to `b`: none when `b` comes first, otherwise `(b - a).days + 1` valid dates, the i-th being `a` plus i days |
| Calendar.DayRangeShape | enphase.py:34-35 | the listed days start at `a`, end at `b` and each is the calendar day after the one before |
| Calendar.DayRangeExact | enphase.py:34-35 | a date is listed if and only if it lies between the two ends |
| Calendar.AddDaysReaches | enphase.py:33-35 | adding `(b - a).days` to `a` gives exactly `b` |
| Clock.AddSeconds | flumecli.py:257 | adding less than a day of seconds gives a valid date-time exactly that many seconds later, rolling into the next day when needed |
| DateText.Four | enphase.py:36 | `%Y` renders four decimal digits that spell the year back |
| DateText.FourDigitsAreFour | enphase.py:31 | four digits spelling a number are the `%Y` rendering of that number |
| DateText.ParseDate | enphase.py:31-32 | `strptime(s, "%Y-%m-%d")`: whatever it accepts is a valid calendar date |
| DateText.FormatDate | enphase.py:36 | `strftime("%Y-%m-%d")` writes ten characters with hyphens fifth and eighth |
| DateText.FormatDateDigits | enphase.py:36 | `strftime("%Y-%m-%d")` writes ten characters: four digits spelling the year, a hyphen, two digits spelling the month, a hyphen and two digits spelling the day |
| DateText.ParseFormatDate | enphase.py:48 | rendering a valid date with `%Y-%m-%d` and parsing the text gives the same date back |
| DateText.CanonicalIsFixedPoint | enphase.py:48 | a ten-character text without a space that `strptime` accepts is already canonical: re-rendering its date gives the same text |
| DateText.FormatDateTime | flumecli.py:258 | `strftime("%Y-%m-%d %H:%M:%S")` writes 19 characters |
| DateText.FormatDateTimeLayout | flumecli.py:258 | the text is the rendered date, a space, then hour, minute and second as two digits each that spell the fields, separated by colons at indices 13 and 16 |
| DateText.ParseFormatDateTime | flumecli.py:258 | rendering a date-time with `%Y-%m-%d %H:%M:%S` and reading it back with the model's own reader `ParseDateTime` gives the same date-time |
| DateText.TimeFieldOutcomes | flumecli.py:334-339 | a canonical date followed by any three two-digit fields: hour above 23 or minute above 59 does not match, a second above 61 leaves data unconverted, 60 or 61 is out of range, and otherwise the fields read back as written |
| DateText.DateTimeExamples | flumecli.py:258 | `2020-01-5  12:00:00` reads as 2020-01-05 12:00:00, `2020-01-35 12:00:00` does not match, and `2020-07-01 12:00:62` leaves data unconverted |
| DateText.Slice | enphase.py:99-100 | Python slicing clamps out-of-range bounds: the length is cut to what the string has, and each character comes from the matching position |
| DateText.StampSplit | enphase.py:99-100 | for a timestamp of at least 19 characters, the date part, the separator and the time part rebuild its first 19 characters; shorter stamps give shorter parts instead of an error |
| DateText.StampOfDateTime | flumecli.py:317-318 | a canonical date-time splits back into its rendered date and its rendered time |
| FlumeWindows.CalculateTimes | flumecli.py:252-261 | the window is left alone exactly when it is shorter than 20 hours, and the caller's own end is then returned; otherwise a text is returned that reads back as start plus 19 h 59 min; `interval` has no effect |
| FlumeWindows.WindowBelowCeiling | flumecli.py:255-259 | for a start no later than the end, the resulting window is shorter than 20 hours, and a window of exactly 20 hours is cut back |
| FlumeWindows.MorningWindow | flumecli.py:334-337 | the morning query reads back as 00:00:00 to 11:59:00 of its own day, inside the ceiling |
| FlumeWindows.AfternoonWindow | flumecli.py:338-339 | the afternoon query starts at 12:00:00 of its day; its end `24:00:00` does not match the hour pattern of `strptime`, so it is not a time `strptime` accepts, though its date part is the day's |
| FlumeWindows.BulkPlan | flumecli.py:332-339 | one morning and one afternoon query per day of the range, in day order |
| FlumeWindows.BulkPlanCovers | flumecli.py:329-333 | the plan is empty exactly when the end precedes the start; otherwise it starts at the start, ends at the end and advances one calendar day at a time |
| FlumeBulk.GetBulkData | flumecli.py:326-390 | with a device id, the loop returns what the day-by-day decision table `Collect` gives for the replies to the plan's queries; without one, the first query raises `KeyError`; when the end precedes the start nothing is sent and nothing is returned |
| FlumeBulk.Loop | flumecli.py:332-389 | the loop from day `i` only appends to what it has, sends at most the remaining days, and every day before the last it sent was complete; it fails only on a day whose data is missing, after complete days |
| FlumeBulk.Collect | flumecli.py:332-390 | the loop from the first day: at most two lists per day, at most every day sent, every day before the last sent complete; a failure names a day with missing data after complete days |
| FlumeBulk.AllDaysComplete | flumecli.py:378-380 | when both queries answer 200 every day, the result holds exactly two lists per day, morning before afternoon, in day order |
| FlumeBulk.RateLimitStops | flumecli.py:381-386 | a morning 429, whatever the afternoon code, stops the loop with the lists of the earlier days only |
| FlumeBulk.OtherCodeReturns | flumecli.py:387-389 | any other non-200 pair keeps that day's morning list and returns at once, or raises when the morning reply carries no data |
| FlumeBulk.LaterDaysUnused | flumecli.py:383-389 | once a day ends the loop, the replies of later days have no effect on the result |
| FlumeBulk.SkipCompleteDays | flumecli.py:378-380 | complete days only append their two lists and move on to the next day |
| FlumeBulk.PairsLayout | flumecli.py:379-380 | complete days place each morning list at an even index with its afternoon list right after it |
| FlumeBulk.ResultLength | flumecli.py:378-390 | a successful run returns at most two lists per day, and exactly two per day if and only if every day was complete |
| FlumeStore.AppendDb | flumecli.py:309-323 | without an empty list, every reading becomes a row, appended in order; the first empty list raises, leaving exactly the rows of the lists before it |
| FlumeStore.RowCount | flumecli.py:312-322 | one row per reading |
| FlumeStore.RowOrder | flumecli.py:312-322 | reading `j` of list `i` becomes the row after all readings of the earlier lists and the first `j` of list `i` |
| FlumeStore.RowFields | flumecli.py:317-319 | a row's date and time rebuild the first 19 characters of the reading's timestamp, and its gallons are the reading's value |
| FlumeAuth.ObtainCredentials | flumecli.py:138-191 | without all four secrets nothing changes; with them, a non-200 reply raises, a 200 reply without the tokens raises `MissingTokens`, an undecodable access token raises, and a 200 reply with tokens whose access token decodes succeeds; a success installs the reply's tokens and user id and rewrites only the token file when one is named |
| FlumeAuth.LoadCredentials | flumecli.py:210-224 | an empty token path exits; a missing file raises; a success installs the file's tokens and the decoded user id |
| FlumeAuth.ObtainThenLoad | flumecli.py:179-189 | the token file written by `obtainCredentials` reads back through `loadCredentials` to the same tokens and user id |
| FlumeAuth.LastBridge | flumecli.py:277-279 | the index of the last device of type 2, or none when no device has that type |
| FlumeAuth.ScanBridges | flumecli.py:277-279 | with no device of type 2 the old `device_id` stays; when the last device is a bridge, its id wins |
| FlumeAuth.ScanFindsLastBridge | flumecli.py:277-279 | the overwriting loop leaves the id of the last bridge, or the old value when there is no bridge |
| FlumeAuth.LastBridgeUnique | flumecli.py:277-279 | a bridge with no bridge after it is the last bridge |
| FlumeAuth.GetDevices | flumecli.py:264-279 | a 401 re-obtains credentials and nothing else; a 200 sets only `device_id`, to the last bridge's id; any other code changes nothing |
| EnphaseDates.GenerateDates | enphase.py:27-38 | the start date is parsed first, then the end date, which defaults to the start; on success, one canonical text per day of the range, each reading back as that day |
| EnphaseDates.DatesSpan | enphase.py:33-37 | `(edate - sdate).days + 1` texts, the first the start and the last the end as `strftime` writes them; none when the end comes first |
| EnphaseDates.DatesConsecutive | enphase.py:34-36 | each listed text reads back as the calendar day after the previous one |
| EnphaseDates.NoEndDateIsOneDay | enphase.py:28-29 | without an end date the list is the start date alone, normalised |
| EnphaseDates.JulyExample | enphase.py:27-38 | 2020-07-01 to 2020-07-03 gives the three dates in order |
| EnphaseUrl.Segment | enphase.py:55-62 | `generation` selects `stats`, `consumption` selects `consumption_stats`, and every other request selects nothing |
| EnphaseUrl.NatToStringRoundTrip | enphase.py:79 | `str(n)` of a non-negative number reads back as that number |
| EnphaseUrl.IntToStringRoundTrip | enphase.py:79 | the epoch written into a URL, negative for dates before 1970 too, is an optional minus sign and digits, and reads back as the same number |
| EnphaseUrl.GenerateUrl | enphase.py:46-93 | errors come in source order: start date, then request kind, then end date; a URL is returned exactly when all three pass; it is the filled template with `start_at`, plus `end_at` only for consumption with an end date, then the ISO 8601 flag; the returned date reads back as the start date |
| EnphaseUrl.DefaultStartRaises | enphase.py:85-93 | the default start date raises, so no URL is ever built without `start_at` |
| EnphaseUrl.GenerationIgnoresEnd | enphase.py:75-80 | a generation request with a valid end date gets the same URL and date as without one |
| EnphaseUrl.UrlShape | enphase.py:65-90 | every URL starts with its request kind's filled template and ends with `&datetime_format=iso8601` |
| EnphaseUrl.ReturnedDateIsNormal | enphase.py:48 | passing the returned date back in as the start date returns it unchanged |
| EnphaseUrl.CanonicalDateAccepted | enphase.py:85-90 | a canonical date with no end date always yields the URL with that date's epoch as `start_at` |
| EnphaseStore.InsertAll | enphase.py:98-106 | each interval with `powr` is appended to the generation table and each without it to the consumption table, in order |
| EnphaseStore.AppendDb | enphase.py:95-107 | a body without `intervals` raises; otherwise both tables grow by exactly their rows |
| EnphaseStore.RowCounts | enphase.py:98-106 | N intervals give exactly N rows, as many generation rows as intervals with `powr` |
| EnphaseStore.RowPlacement | enphase.py:98-106 | each interval's row lands in its table after the rows of the earlier intervals of the same kind, with its date, time and values |
| EnphaseFetch.ThrottleSleep | enphase.py:135-145 | it sleeps 60 seconds exactly when the body has a non-empty `reason`, and 0 seconds otherwise |
| EnphaseFetch.RequestData | enphase.py:109-128 | it raises exactly on an empty `intervals` list; otherwise it returns the body unchanged, having slept only for a missing `intervals` with a throttle reason |
| EnphaseFetch.FetchStep | enphase.py:151-155 | a URL error requests nothing and stores nothing; otherwise the URL is requested once and the run goes on exactly when the response is usable; a usable response stores exactly the rows `append_db` adds for it, and a fault keeps the tables as they were |
| EnphaseFetch.FetchDays | enphase.py:150-155 | the per-day loop does nothing once a fault is set; otherwise it requests at most one URL per listed day after those already requested, and the tables only grow |
| EnphaseFetch.FetchDaysOrder | enphase.py:150-155 | the generation loop requests the listed days' URLs in order, one per day, and the tables only grow |
| EnphaseFetch.FetchDaysOutcome | enphase.py:150-155 | the loop completes every day, one request each, if and only if every response is usable |
| EnphaseFetch.FetchDaysStops | enphase.py:150-155 | a loop that raises does so on the last URL it requested; every earlier response was usable |
| EnphaseFetch.Main | enphase.py:147-161 | the tables only grow; a non-generation request fetches at most once; generation with invalid dates requests nothing, stores nothing and raises; generation with valid dates requests at most one URL per listed day |
| EnphaseFetch.FetchDaysPlan | enphase.py:150-155 | the loop from an empty run requests the i-th day's URL i-th, at most one per day; it completes, with one URL per day, exactly when every response is usable; when it raises, it does so on the last URL it requested, after usable responses only |
| EnphaseFetch.MainGeneration | enphase.py:147-155 | generation with valid dates: every listed day builds a URL; the i-th URL requested is the i-th listed day's URL built alone with no end date; the run completes, one URL per day, exactly when every day's response is usable; when it raises, it does so on the last URL requested |
| EnphaseFetch.ListedDaysBuild | enphase.py:151 | every date `strptime` accepts yields a generation URL |
| EnphaseFetch.OtherRequestFetchesOnce | enphase.py:156-161 | any other request fetches at most once, exactly when its URL can be built, with the URL built from both dates |

## Left out

- HTTP, JSON decoding, TinyDB and file I/O are not modelled as effects. Replies and bodies are inputs, and tables and the token file are values.
- `save_data` (`enphase.py:130-133`) writes the raw body to a file and is not modelled.
- `generate_epoch` and `generate_reg_time` depend on the host time zone, so the epoch conversion is a parameter.
- `generate_time_difference`, `previousminute` and `currentminute` read the clock and are not modelled.
- `time.sleep` is modelled by the number of seconds slept.
- JWT decoding is an uninterpreted decoder parameter. Malformed token-file JSON is not modelled; a token file is either absent or a well-formed pair.
- `renewCredentials` refers to a `headers` name that is not defined and discards its reply, so it is not modelled.
- The following are not part of this model: `checkparams`, `setup_logger`, flumecli's `main`, `buildRequestHeader`, `testAuthorizationToken`, `getWaterFlowLastMinute` and `transmitFlow`.
- Logging and `print` output are not modelled.
- Date-times have whole-second resolution. Microseconds never appear in the windows these scripts build.
- `\d` and `\s` in Python's regular expressions also match non-ASCII digits and whitespace. Only the ASCII ones are modelled.
- DateText.ParseDateTime: reads as `strptime` does only on its fixed shape. Other strings that `strptime` accepts, such as a one-digit hour or a tab before the time, are rejected as not matching. The scripts never read date-time text, so the reader serves only to state what the written text means.
- `strftime("%Y")` for years below 1000 is platform dependent. Four zero-padded digits are modelled.
- Replies whose JSON does not have the expected shape are not modelled. Examples are a non-list `intervals`, or a `data` entry that is not a list. Only a missing `intervals`, `perminute` or token field is modelled.
- `generate_url` catches and prints any exception other than `ValueError` from the end-date conversion (`enphase.py:73-74`). The total epoch parameter never raises, so that path is not modelled.
- FlumeWindows.CalculateTimes: the window sizes use the model's naive date-times with no time zone, as `datetime` subtraction does.
- FlumeBulk.GetBulkData: `startDate` and `endDate` are taken to be midnights, as the command line supplies them. The day count is `(end - start).days` on those dates.
- FlumeBulk.GetBulkData: `config["user_id"]` is taken to be set by `loadCredentials`, so its `KeyError` is not modelled; a missing `device_id` is. `server` answers the queries of the one device, so the URL text itself is not modelled.
- FlumeAuth.ObtainCredentials: an empty `tokenfile` leaves the disk untouched, and `json.dumps` formatting of the written file is not modelled.
