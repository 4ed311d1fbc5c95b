/** `append_db` of flumecli.py: every per-minute reading of every collected
    list becomes one row of the water-usage table. The table is an
    append-only sequence; a row is inserted as soon as it is built, so rows
    written before an exception stay written. */
module FlumeStore {
  import opened Wrappers
  import opened DateText
  import opened FlumeBulk

  /** One stored row: `{date, time, gallons}`. */
  datatype WaterRow = WaterRow(date: string, time: string, gallons: real)

  /** Where `append_db` stopped: the table it leaves, and the index of the
      empty list whose `ampm[0]` raised, if one did. */
  datatype WaterAppend = WaterAppend(table: seq<WaterRow>, emptyAt: Option<nat>)

  function RowOf(r: Reading): WaterRow {
    WaterRow(DatePart(r.datetime), TimePart(r.datetime), r.value)
  }

  /** The rows of one list, in list order. */
  function RowsOf(list: seq<Reading>): (rows: seq<WaterRow>)
    ensures |rows| == |list|
    ensures forall j :: 0 <= j < |list| ==> rows[j] == RowOf(list[j])
  {
    seq(|list|, j requires 0 <= j < |list| => RowOf(list[j]))
  }

  /** The rows of all lists, list after list. */
  function Rows(raw: seq<seq<Reading>>): seq<WaterRow> {
    if |raw| == 0 then [] else RowsOf(raw[0]) + Rows(raw[1..])
  }

  /** The number of readings in all lists together. */
  function TotalReadings(raw: seq<seq<Reading>>): nat {
    if |raw| == 0 then 0 else |raw[0]| + TotalReadings(raw[1..])
  }

  /** `append_db(rawdata)` on a table holding `table`. */
  function AppendDb(table: seq<WaterRow>, raw: seq<seq<Reading>>): (r: WaterAppend)
    ensures r.emptyAt.None? <==> forall i :: 0 <= i < |raw| ==> |raw[i]| > 0
    ensures r.emptyAt.None? ==> r.table == table + Rows(raw)
    ensures r.emptyAt.Some? ==>
      var k := r.emptyAt.value;
      && k < |raw| && |raw[k]| == 0
      && (forall i :: 0 <= i < k ==> |raw[i]| > 0)
      && r.table == table + Rows(raw[..k])
    decreases |raw|
  {
    if |raw| == 0 then WaterAppend(table, None)
    else if |raw[0]| == 0 then WaterAppend(table, Some(0))
    else
      var rest := AppendDb(table + RowsOf(raw[0]), raw[1..]);
      assert forall i :: 1 <= i < |raw| ==> raw[i] == raw[1..][i - 1];
      match rest.emptyAt
      case None => rest
      case Some(k) =>
        assert raw[..k + 1] == [raw[0]] + raw[1..][..k];
        assert Rows(raw[..k + 1]) == RowsOf(raw[0]) + Rows(raw[1..][..k]);
        WaterAppend(rest.table, Some(k + 1))
  }

  /** One row per reading: the table grows by the number of readings. */
  lemma {:induction false} RowCount(raw: seq<seq<Reading>>)
    ensures |Rows(raw)| == TotalReadings(raw)
  {
    if |raw| > 0 {
      RowCount(raw[1..]);
    }
  }

  /** Reading `j` of list `i` becomes the row right after the rows of the
      lists before it: rows keep the input order. */
  lemma {:induction false} RowOrder(raw: seq<seq<Reading>>, i: nat, j: nat)
    requires i < |raw| && j < |raw[i]|
    ensures TotalReadings(raw[..i]) + j < |Rows(raw)|
    ensures Rows(raw)[TotalReadings(raw[..i]) + j] == RowOf(raw[i][j])
  {
    RowCount(raw[1..]);
    if i > 0 {
      assert raw[..i] == [raw[0]] + raw[1..][..i - 1];
      assert raw[1..][i - 1] == raw[i];
      RowOrder(raw[1..], i - 1, j);
    }
  }

  /** Each row takes `datetime[0:10]` as its date, `datetime[11:19]` as its
      time, and the reading's value as its gallons. */
  lemma RowFields(r: Reading)
    ensures |r.datetime| >= 19 ==> RowOf(r).date + [r.datetime[10]] + RowOf(r).time == r.datetime[..19]
    ensures RowOf(r).gallons == r.value
  {
    StampSplit(r.datetime);
  }
}
