/** `append_db` of enphase.py: every interval of a response becomes one row,
    in the generation table when the interval has a `powr` value and in the
    consumption table otherwise. Both tables are append-only sequences. */
module EnphaseStore {
  import opened Wrappers
  import opened DateText

  /** One interval of a response: `end_at`, `enwh`, and `powr` when present. */
  datatype Interval = Interval(endAt: string, enwh: real, powr: Option<real>)

  /** A decoded response body: its `intervals` and `reason` keys, each
      possibly absent. A `reason` is truthy when it is a non-empty string. */
  datatype Body = Body(intervals: Option<seq<Interval>>, reason: Option<string>)

  /** A generation row: `{date, time, EnWh, Power}`. */
  datatype GenerationRow = GenerationRow(date: string, time: string, enwh: real, power: real)

  /** A consumption row: `{date, time, EnWh}`. */
  datatype ConsumptionRow = ConsumptionRow(date: string, time: string, enwh: real)

  datatype Tables = Tables(generation: seq<GenerationRow>, consumption: seq<ConsumptionRow>)

  /** `rawdata['intervals']` was read from a body without it: KeyError. */
  datatype StoreFault = NoIntervals

  /** The rows the intervals with `powr` produce, in input order. */
  function GenerationRows(ivs: seq<Interval>): seq<GenerationRow> {
    if |ivs| == 0 then []
    else
      var iv := ivs[0];
      (if iv.powr.Some? then [GenerationRow(DatePart(iv.endAt), TimePart(iv.endAt), iv.enwh, iv.powr.value)] else [])
      + GenerationRows(ivs[1..])
  }

  /** The rows the intervals without `powr` produce, in input order. */
  function ConsumptionRows(ivs: seq<Interval>): seq<ConsumptionRow> {
    if |ivs| == 0 then []
    else
      var iv := ivs[0];
      (if iv.powr.None? then [ConsumptionRow(DatePart(iv.endAt), TimePart(iv.endAt), iv.enwh)] else [])
      + ConsumptionRows(ivs[1..])
  }

  /** How many intervals carry `powr`. */
  function PowerCount(ivs: seq<Interval>): nat {
    if |ivs| == 0 then 0 else (if ivs[0].powr.Some? then 1 else 0) + PowerCount(ivs[1..])
  }

  /** The `for entry in data` loop, inserting one row per interval. */
  function InsertAll(t: Tables, ivs: seq<Interval>): (r: Tables)
    ensures r.generation == t.generation + GenerationRows(ivs)
    ensures r.consumption == t.consumption + ConsumptionRows(ivs)
    decreases |ivs|
  {
    if |ivs| == 0 then t
    else
      var iv := ivs[0];
      var date := DatePart(iv.endAt);
      var time := TimePart(iv.endAt);
      match iv.powr
      case Some(p) =>
        var row := GenerationRow(date, time, iv.enwh, p);
        assert GenerationRows(ivs) == [row] + GenerationRows(ivs[1..]);
        assert ConsumptionRows(ivs) == ConsumptionRows(ivs[1..]);
        assert (t.generation + [row]) + GenerationRows(ivs[1..]) == t.generation + GenerationRows(ivs);
        InsertAll(t.(generation := t.generation + [row]), ivs[1..])
      case None =>
        var row := ConsumptionRow(date, time, iv.enwh);
        assert ConsumptionRows(ivs) == [row] + ConsumptionRows(ivs[1..]);
        assert GenerationRows(ivs) == GenerationRows(ivs[1..]);
        assert (t.consumption + [row]) + ConsumptionRows(ivs[1..]) == t.consumption + ConsumptionRows(ivs);
        InsertAll(t.(consumption := t.consumption + [row]), ivs[1..])
  }

  /** `append_db(rawdata)`. */
  function AppendDb(t: Tables, body: Body): (r: Result<Tables, StoreFault>)
    ensures body.intervals.None? <==> r == Failure(NoIntervals)
    ensures r.Success? ==>
      && r.value.generation == t.generation + GenerationRows(body.intervals.value)
      && r.value.consumption == t.consumption + ConsumptionRows(body.intervals.value)
  {
    match body.intervals
    case None => Failure(NoIntervals)
    case Some(ivs) => Success(InsertAll(t, ivs))
  }

  /** N intervals produce exactly N rows, split by the presence of `powr`. */
  lemma {:induction false} RowCounts(ivs: seq<Interval>)
    ensures |GenerationRows(ivs)| == PowerCount(ivs)
    ensures |ConsumptionRows(ivs)| == |ivs| - PowerCount(ivs)
    ensures |GenerationRows(ivs)| + |ConsumptionRows(ivs)| == |ivs|
  {
    if |ivs| > 0 {
      RowCounts(ivs[1..]);
    }
  }

  /** Interval `i` lands in exactly one table, right after the rows of the
      earlier intervals routed to the same table, with `date = end_at[0:10]`,
      `time = end_at[11:19]` and its own `enwh` (and `powr` as `Power`). */
  lemma {:induction false} RowPlacement(ivs: seq<Interval>, i: nat)
    requires i < |ivs|
    ensures var iv := ivs[i];
      var k := PowerCount(ivs[..i]);
      && k <= i
      && (iv.powr.Some? ==>
            k < |GenerationRows(ivs)|
            && GenerationRows(ivs)[k] == GenerationRow(DatePart(iv.endAt), TimePart(iv.endAt), iv.enwh, iv.powr.value))
      && (iv.powr.None? ==>
            i - k < |ConsumptionRows(ivs)|
            && ConsumptionRows(ivs)[i - k] == ConsumptionRow(DatePart(iv.endAt), TimePart(iv.endAt), iv.enwh))
  {
    RowCounts(ivs[..i]);
    if i > 0 {
      var tail := ivs[1..];
      assert ivs[..i] == [ivs[0]] + tail[..i - 1];
      assert tail[i - 1] == ivs[i];
      assert PowerCount(ivs[..i]) == (if ivs[0].powr.Some? then 1 else 0) + PowerCount(tail[..i - 1]) by {
        assert ivs[..i][1..] == tail[..i - 1];
      }
      RowPlacement(tail, i - 1);
    }
  }
}
