/** `generate_dates` of enphase.py: the consecutive calendar days from a
    start date to an end date, as `YYYY-MM-DD` texts. */
module EnphaseDates {
  import opened Wrappers
  import opened Calendar
  import opened DateText

  /** The end date actually used: an empty `edate` means the start date. */
  function EffectiveEnd(sdate: string, edate: string): string {
    if edate == "" then sdate else edate
  }

  /** `generate_dates(sdate, edate)`. Both dates go through `strptime`
      (start first); the result lists each day as `strftime` renders it. */
  function GenerateDates(sdate: string, edate: string): (r: Result<seq<string>, DateError>)
    ensures ParseDate(sdate).Failure? ==> r == Failure(ParseDate(sdate).error)
    ensures ParseDate(sdate).Success? && ParseDate(EffectiveEnd(sdate, edate)).Failure? ==>
      r == Failure(ParseDate(EffectiveEnd(sdate, edate)).error)
    ensures r.Success? <==> ParseDate(sdate).Success? && ParseDate(EffectiveEnd(sdate, edate)).Success?
    ensures r.Success? ==>
      var days := DayRange(ParseDate(sdate).value, ParseDate(EffectiveEnd(sdate, edate)).value);
      && |r.value| == |days|
      && forall i :: 0 <= i < |days| ==> r.value[i] == FormatDate(days[i]) && ParseDate(r.value[i]) == Success(days[i])
  {
    var s :- ParseDate(sdate);
    var e :- ParseDate(EffectiveEnd(sdate, edate));
    var days := DayRange(s, e);
    var texts := seq(|days|, i requires 0 <= i < |days| => FormatDate(days[i]));
    assert forall i :: 0 <= i < |days| ==> ParseDate(texts[i]) == Success(days[i]) by {
      forall i | 0 <= i < |days| ensures ParseDate(texts[i]) == Success(days[i]) {
        ParseFormatDate(days[i]);
      }
    }
    Success(texts)
  }

  /** The listed days: `(edate - sdate).days + 1` of them, the first being
      the start date and the last the end date as `strftime` writes them;
      none when the end date comes first. */
  lemma DatesSpan(sdate: string, edate: string)
    requires ParseDate(sdate).Success? && ParseDate(EffectiveEnd(sdate, edate)).Success?
    ensures var s := ParseDate(sdate).value;
      var e := ParseDate(EffectiveEnd(sdate, edate)).value;
      var r := GenerateDates(sdate, edate).value;
      && (|r| == 0 <==> Ordinal(e) < Ordinal(s))
      && (Ordinal(s) <= Ordinal(e) ==>
          && |r| == DaysBetween(s, e) + 1
          && r[0] == FormatDate(s)
          && r[|r| - 1] == FormatDate(e))
  {
    var s := ParseDate(sdate).value;
    var e := ParseDate(EffectiveEnd(sdate, edate)).value;
    var r := GenerateDates(sdate, edate).value;
    var days := DayRange(s, e);
    assert |r| == |days|;
    if Ordinal(s) <= Ordinal(e) {
      DayRangeShape(s, e);
      assert r[0] == FormatDate(days[0]);
      assert r[|r| - 1] == FormatDate(days[|r| - 1]);
    }
  }

  /** Each listed day is the calendar day after the one before it. */
  lemma DatesConsecutive(sdate: string, edate: string)
    requires ParseDate(sdate).Success? && ParseDate(EffectiveEnd(sdate, edate)).Success?
    ensures var r := GenerateDates(sdate, edate).value;
      forall i :: 0 <= i < |r| - 1 ==>
        ParseDate(r[i]).value != LastDate
        && ParseDate(r[i + 1]) == Success(NextDay(ParseDate(r[i]).value))
  {
    var s := ParseDate(sdate).value;
    var e := ParseDate(EffectiveEnd(sdate, edate)).value;
    var r := GenerateDates(sdate, edate).value;
    var days := DayRange(s, e);
    if Ordinal(s) <= Ordinal(e) {
      DayRangeShape(s, e);
      forall i | 0 <= i < |r| - 1
        ensures ParseDate(r[i]).value != LastDate
        ensures ParseDate(r[i + 1]) == Success(NextDay(ParseDate(r[i]).value))
      {
        assert ParseDate(r[i]) == Success(days[i]);
        assert ParseDate(r[i + 1]) == Success(days[i + 1]);
      }
    }
  }

  /** Without an end date the list holds the start date alone, normalised. */
  lemma NoEndDateIsOneDay(sdate: string)
    requires ParseDate(sdate).Success?
    ensures GenerateDates(sdate, "") == Success([FormatDate(ParseDate(sdate).value)])
  {
    var s := ParseDate(sdate).value;
    assert EffectiveEnd(sdate, "") == sdate;
    DayRangeShape(s, s);
    var days := DayRange(s, s);
    assert |days| == 1 && days[0] == s;
    var g := GenerateDates(sdate, "");
    assert g.Success?;
    assert |g.value| == 1;
    assert g.value[0] == FormatDate(s);
    assert g.value == [FormatDate(s)];
  }

  /** A worked example: the first three days of July 2020, listed in order
      and written `YYYY-MM-DD`. */
  lemma JulyExample()
    ensures GenerateDates("2020-07-01", "2020-07-03") == Success(["2020-07-01", "2020-07-02", "2020-07-03"])
  {
    var a := Date(2020, 7, 1);
    var b := Date(2020, 7, 3);
    JulyTexts();
    assert NextDay(NextDay(a)) == b;
    assert Ordinal(b) == Ordinal(a) + 2;
    DayRangeShape(a, b);
    var days := DayRange(a, b);
    assert days == [a, NextDay(a), b];
    var g := GenerateDates("2020-07-01", "2020-07-03");
    assert g.Success?;
    var r := g.value;
    assert |r| == 3;
    assert r[0] == "2020-07-01" && r[1] == "2020-07-02" && r[2] == "2020-07-03";
    assert r == ["2020-07-01", "2020-07-02", "2020-07-03"];
  }

  lemma JulyTexts()
    ensures ParseDate("2020-07-01") == Success(Date(2020, 7, 1))
    ensures ParseDate("2020-07-03") == Success(Date(2020, 7, 3))
    ensures EffectiveEnd("2020-07-01", "2020-07-03") == "2020-07-03"
    ensures FormatDate(Date(2020, 7, 1)) == "2020-07-01"
    ensures FormatDate(Date(2020, 7, 2)) == "2020-07-02"
    ensures FormatDate(Date(2020, 7, 3)) == "2020-07-03"
  {
    ParseFormatDate(Date(2020, 7, 1));
    ParseFormatDate(Date(2020, 7, 3));
  }
}
