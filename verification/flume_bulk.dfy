/** The day loop of `getBulkData` (flumecli.py): for each day it sends the
    morning and the afternoon query, then decides on the two status codes
    whether to keep both lists and go on, stop, or keep the morning list and
    return at once. Each HTTP reply is an input value. */
module FlumeBulk {
  import opened Wrappers
  import opened Calendar
  import opened FlumeWindows

  /** One per-minute bucket of a query result: `{datetime, value}`. */
  datatype Reading = Reading(datetime: string, value: real)

  /** A decoded query reply: `http_code`, and `data[0]["perminute"]` when
      the body has it. */
  datatype Reply = Reply(httpCode: int, perminute: Option<seq<Reading>>)

  /** The replies to one day's morning and afternoon queries. */
  datatype DayReplies = DayReplies(morning: Reply, afternoon: Reply)

  /** What the loop returns: the collected lists, and how many days had
      their two queries sent. */
  datatype BulkRun = BulkRun(lists: seq<seq<Reading>>, daysRequested: nat)

  /** `MissingData`: `data[0]["perminute"]` was read from a reply that
      lacks it, on the given day (0-based). `NoDeviceId`: the query URL reads
      `config["device_id"]`, which `getDevices` never set. Either exception
      discards everything collected. */
  datatype BulkFault = MissingData(day: nat) | NoDeviceId

  predicate BothOk(r: DayReplies) {
    r.morning.httpCode == 200 && r.afternoon.httpCode == 200
  }

  /** Both halves answered 200 and carry their lists. */
  predicate DayComplete(r: DayReplies) {
    BothOk(r) && r.morning.perminute.Some? && r.afternoon.perminute.Some?
  }

  predicate CompleteUpTo(replies: seq<DayReplies>, k: nat)
    requires k <= |replies|
  {
    forall j :: 0 <= j < k ==> DayComplete(replies[j])
  }

  /** The morning and afternoon lists of complete days, in day order. */
  function Pairs(days: seq<DayReplies>): seq<seq<Reading>>
    requires forall j :: 0 <= j < |days| ==> DayComplete(days[j])
  {
    if |days| == 0 then []
    else
      var last := days[|days| - 1];
      assert DayComplete(last);
      Pairs(days[..|days| - 1]) + [last.morning.perminute.value, last.afternoon.perminute.value]
  }

  /** The loop from day `i` on, with `data` collected so far. */
  function Loop(replies: seq<DayReplies>, i: nat, data: seq<seq<Reading>>): (r: Result<BulkRun, BulkFault>)
    requires i <= |replies|
    ensures r.Success? ==>
      && data <= r.value.lists
      && |r.value.lists| <= |data| + 2 * (|replies| - i)
      && i <= r.value.daysRequested <= |replies|
      && forall j :: i <= j < r.value.daysRequested - 1 ==> DayComplete(replies[j])
    ensures r.Failure? ==>
      && r.error.MissingData?
      && i <= r.error.day < |replies|
      && !DayComplete(replies[r.error.day])
      && forall j :: i <= j < r.error.day ==> DayComplete(replies[j])
    decreases |replies| - i
  {
    if i == |replies| then Success(BulkRun(data, i))
    else
      var day := replies[i];
      if BothOk(day) then
        if day.morning.perminute.None? || day.afternoon.perminute.None? then Failure(MissingData(i))
        else Loop(replies, i + 1, data + [day.morning.perminute.value, day.afternoon.perminute.value])
      else if day.morning.httpCode == 429 then
        Success(BulkRun(data, i + 1))
      else if day.morning.perminute.None? then
        Failure(MissingData(i))
      else
        Success(BulkRun(data + [day.morning.perminute.value], i + 1))
  }

  /** The whole loop over the replies of consecutive days: it sends the
      queries of at most every day, every day before the last one it sent
      was complete, and it fails only on a day whose data is missing after
      complete days. */
  function Collect(replies: seq<DayReplies>): (r: Result<BulkRun, BulkFault>)
    ensures r.Success? ==>
      && |r.value.lists| <= 2 * |replies|
      && r.value.daysRequested <= |replies|
      && CompleteUpTo(replies, if r.value.daysRequested == 0 then 0 else r.value.daysRequested - 1)
    ensures r.Failure? ==>
      && r.error.MissingData?
      && r.error.day < |replies|
      && !DayComplete(replies[r.error.day])
      && CompleteUpTo(replies, r.error.day)
  {
    Loop(replies, 0, [])
  }

  /** Pairs lists each day's morning list at an even index and its
      afternoon list right after it. */
  lemma {:induction false} PairsLayout(days: seq<DayReplies>)
    requires forall j :: 0 <= j < |days| ==> DayComplete(days[j])
    ensures |Pairs(days)| == 2 * |days|
    ensures forall j :: 0 <= j < |days| ==>
      Pairs(days)[2 * j] == days[j].morning.perminute.value
      && Pairs(days)[2 * j + 1] == days[j].afternoon.perminute.value
  {
    if |days| > 0 {
      var init := days[..|days| - 1];
      PairsLayout(init);
      forall j | 0 <= j < |days|
        ensures Pairs(days)[2 * j] == days[j].morning.perminute.value
        ensures Pairs(days)[2 * j + 1] == days[j].afternoon.perminute.value
      {
        if j < |days| - 1 {
          assert init[j] == days[j];
        }
      }
    }
  }

  /** Complete days only extend the collected data. */
  lemma {:induction false} SkipCompleteDays(replies: seq<DayReplies>, k: nat)
    requires k <= |replies| && CompleteUpTo(replies, k)
    ensures Collect(replies) == Loop(replies, k, Pairs(replies[..k]))
  {
    if k > 0 {
      SkipCompleteDays(replies, k - 1);
      assert replies[..k][..k - 1] == replies[..k - 1];
    }
  }

  /** When every day answers 200 twice, the result holds exactly two lists
      per day, morning before afternoon, in day order. */
  lemma AllDaysComplete(replies: seq<DayReplies>)
    requires CompleteUpTo(replies, |replies|)
    ensures Collect(replies).Success?
    ensures Collect(replies).value.daysRequested == |replies|
    ensures |Collect(replies).value.lists| == 2 * |replies|
    ensures forall j :: 0 <= j < |replies| ==>
      Collect(replies).value.lists[2 * j] == replies[j].morning.perminute.value
      && Collect(replies).value.lists[2 * j + 1] == replies[j].afternoon.perminute.value
  {
    SkipCompleteDays(replies, |replies|);
    assert replies[..|replies|] == replies;
    PairsLayout(replies);
  }

  /** A morning 429 on day `k` (whatever the afternoon code) stops the loop:
      nothing of day `k` is kept, the earlier days' lists are returned. */
  lemma RateLimitStops(replies: seq<DayReplies>, k: nat)
    requires k < |replies| && CompleteUpTo(replies, k)
    requires replies[k].morning.httpCode == 429
    ensures Collect(replies) == Success(BulkRun(Pairs(replies[..k]), k + 1))
    ensures |Collect(replies).value.lists| == 2 * k
  {
    SkipCompleteDays(replies, k);
    PairsLayout(replies[..k]);
  }

  /** Any other failure on day `k` (morning not 429, not both 200) keeps
      only that morning's list and returns at once. */
  lemma OtherCodeReturns(replies: seq<DayReplies>, k: nat)
    requires k < |replies| && CompleteUpTo(replies, k)
    requires !BothOk(replies[k]) && replies[k].morning.httpCode != 429
    ensures replies[k].morning.perminute.Some? ==>
      Collect(replies) == Success(BulkRun(Pairs(replies[..k]) + [replies[k].morning.perminute.value], k + 1))
    ensures replies[k].morning.perminute.None? ==> Collect(replies) == Failure(MissingData(k))
  {
    SkipCompleteDays(replies, k);
  }

  /** Whatever ends the loop on day `k`, the replies of later days are never
      looked at: the outcome is the same without them. */
  lemma {:induction false} LaterDaysUnused(replies: seq<DayReplies>, k: nat)
    requires k < |replies| && CompleteUpTo(replies, k)
    requires !DayComplete(replies[k])
    ensures Collect(replies) == Collect(replies[..k + 1])
  {
    var short := replies[..k + 1];
    assert CompleteUpTo(short, k) by {
      forall j | 0 <= j < k ensures DayComplete(short[j]) {
        assert short[j] == replies[j];
      }
    }
    SkipCompleteDays(replies, k);
    SkipCompleteDays(short, k);
    assert short[..k] == replies[..k];
    assert short[k] == replies[k];
  }

  /** The loop run from day `i` with the lists of `i` complete days ends
      with at most two lists per day, and with exactly that many only if
      every remaining day was complete. */
  lemma {:induction false} LoopLength(replies: seq<DayReplies>, i: nat, data: seq<seq<Reading>>)
    requires i <= |replies| && |data| == 2 * i
    ensures Loop(replies, i, data).Success? ==>
      && |Loop(replies, i, data).value.lists| <= 2 * |replies|
      && (|Loop(replies, i, data).value.lists| == 2 * |replies| <==> forall j :: i <= j < |replies| ==> DayComplete(replies[j]))
    decreases |replies| - i
  {
    if i < |replies| {
      var day := replies[i];
      if DayComplete(day) {
        LoopLength(replies, i + 1, data + [day.morning.perminute.value, day.afternoon.perminute.value]);
      }
    }
  }

  /** A successful run returns at most two lists per day, and exactly two
      per day precisely when every day was complete. */
  lemma ResultLength(replies: seq<DayReplies>)
    ensures Collect(replies).Success? ==>
      && |Collect(replies).value.lists| <= 2 * |replies|
      && (|Collect(replies).value.lists| == 2 * |replies| <==> CompleteUpTo(replies, |replies|))
  {
    LoopLength(replies, 0, []);
  }

  /** The replies a server gives to the plan's queries, day by day. */
  function RepliesFor(plan: seq<DayQueries>, server: Query -> Reply): (replies: seq<DayReplies>)
    ensures |replies| == |plan|
    ensures forall i :: 0 <= i < |plan| ==>
      replies[i] == DayReplies(server(plan[i].morning), server(plan[i].afternoon))
  {
    seq(|plan|, i requires 0 <= i < |plan| => DayReplies(server(plan[i].morning), server(plan[i].afternoon)))
  }

  /** `getBulkData()`: `start` and `end` are the configured midnights,
      `deviceId` is `config["device_id"]` if `getDevices` set it, and
      `server` answers each query sent to that device. Days are visited in
      ascending order and the loop ends as `Collect` describes; without a
      device id the first query raises, and an empty range sends none. */
  method GetBulkData(start: Date, end: Date, deviceId: Option<string>, server: Query -> Reply)
    returns (r: Result<BulkRun, BulkFault>)
    requires ValidDate(start) && ValidDate(end)
    ensures deviceId.Some? ==> r == Collect(RepliesFor(BulkPlan(start, end), server))
    ensures deviceId.None? && Ordinal(start) <= Ordinal(end) ==> r == Failure(NoDeviceId)
    ensures Ordinal(end) < Ordinal(start) ==> r == Success(BulkRun([], 0))
  {
    var plan := BulkPlan(start, end);
    BulkPlanCovers(start, end);
    if deviceId.None? && |plan| > 0 {
      // The first day's morning query reads `config["device_id"]`.
      return Failure(NoDeviceId);
    }
    ghost var replies := RepliesFor(plan, server);
    var data: seq<seq<Reading>> := [];
    var i := 0;
    while i < |plan|
      invariant 0 <= i <= |plan|
      invariant Collect(replies) == Loop(replies, i, data)
    {
      var resp1 := server(plan[i].morning);
      var resp2 := server(plan[i].afternoon);
      if resp1.httpCode == 200 && resp2.httpCode == 200 {
        if resp1.perminute.None? || resp2.perminute.None? {
          return Failure(MissingData(i));
        }
        data := data + [resp1.perminute.value, resp2.perminute.value];
      } else if resp1.httpCode == 429 && resp2.httpCode == 429 {
        return Success(BulkRun(data, i + 1));
      } else if resp1.httpCode == 429 {
        return Success(BulkRun(data, i + 1));
      } else {
        if resp1.perminute.None? {
          return Failure(MissingData(i));
        }
        data := data + [resp1.perminute.value];
        return Success(BulkRun(data, i + 1));
      }
      i := i + 1;
    }
    return Success(BulkRun(data, i));
  }
}
