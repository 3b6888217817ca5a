/** Trade records of the simulator (src/simulator/trade_data.rs): the scaling
    each parsed CSV row goes through, and the trades-per-day count. The CSV
    and datetime parsing themselves are not part of this model: a row reaches
    it as an already-parsed `RawRow`. */
module SimTradeData {

  /** One realized trade: its P&L and the largest move against it before it
      settled, both in account currency. */
  datatype Trade = Trade(returnValue: real, maxOppositeExcursion: real)

  datatype Date = Date(year: int, month: nat, day: nat)

  /** A UTC timestamp; `date` is what `date_naive()` keeps of it. */
  datatype DateTime = DateTime(date: Date, secondOfDay: nat)

  datatype TradeRecord = TradeRecord(datetime: DateTime, trade: Trade)

  /** The three columns of a CSV row after parsing. */
  datatype RawRow = RawRow(datetime: DateTime, returnValue: real, maxOppositeExcursion: real)

  /** Both readers (`read_csv` and `read_csv_from_string`): one record per row,
      in row order, each value scaled by the multiplier and charged the
      round-trip cost. */
  method ReadRecords(rows: seq<RawRow>, multiplier: real, roundTripCost: real)
    returns (records: seq<TradeRecord>)
    ensures |records| == |rows|
    ensures forall i :: 0 <= i < |rows| ==>
      && records[i].datetime == rows[i].datetime
      && records[i].trade.returnValue == rows[i].returnValue * multiplier - roundTripCost
      && records[i].trade.maxOppositeExcursion == rows[i].maxOppositeExcursion * multiplier - roundTripCost
  {
    records := [];
    for i := 0 to |rows|
      invariant |records| == i
      invariant forall k :: 0 <= k < i ==> records[k] == Scaled(rows[k], multiplier, roundTripCost)
    {
      records := records + [Scaled(rows[i], multiplier, roundTripCost)];
    }
  }

  /** One row's record: both values scaled, then charged the cost. */
  function Scaled(row: RawRow, multiplier: real, roundTripCost: real): TradeRecord {
    TradeRecord(row.datetime, Trade(
      row.returnValue * multiplier - roundTripCost,
      row.maxOppositeExcursion * multiplier - roundTripCost))
  }

  /** The calendar date of every record, in order. */
  function Dates(records: seq<TradeRecord>): (ds: seq<Date>)
    ensures |ds| == |records|
  {
    seq(|records|, i requires 0 <= i < |records| => records[i].datetime.date)
  }

  /** The reference for `calculate_trades_per_day`: every date that occurs,
      mapped to the number of records on it. */
  function DayCounts(records: seq<TradeRecord>): map<Date, nat> {
    var dates := multiset(Dates(records));
    map d | d in dates :: dates[d]
  }

  /** `calculate_trades_per_day`: one `entry(date).or_insert(0) += 1` per record. */
  method CalculateTradesPerDay(trades: seq<TradeRecord>) returns (tradesPerDay: map<Date, nat>)
    ensures tradesPerDay == DayCounts(trades)
  {
    tradesPerDay := map[];
    for i := 0 to |trades|
      invariant tradesPerDay == DayCounts(trades[..i])
    {
      var date := trades[i].datetime.date;
      DayCountsAppend(trades[..i], trades[i]);
      assert trades[..i + 1] == trades[..i] + [trades[i]];
      var count := if date in tradesPerDay then tradesPerDay[date] else 0;
      tradesPerDay := tradesPerDay[date := count + 1];
    }
    assert trades[..|trades|] == trades;
  }

  lemma DatesAppend(a: seq<TradeRecord>, b: seq<TradeRecord>)
    ensures Dates(a + b) == Dates(a) + Dates(b)
  {
  }

  /** Adding one record bumps its date's count (from 0 if it was absent). */
  lemma DayCountsAppend(records: seq<TradeRecord>, r: TradeRecord)
    ensures var before := DayCounts(records);
            var d := r.datetime.date;
            DayCounts(records + [r]) == before[d := (if d in before then before[d] else 0) + 1]
  {
    DatesAppend(records, [r]);
    assert Dates([r]) == [r.datetime.date];
  }

  /** Keys are exactly the dates that occur, and every count is at least 1. */
  lemma DayCountsKeys(records: seq<TradeRecord>)
    ensures forall d :: d in DayCounts(records) <==> exists i :: 0 <= i < |records| && records[i].datetime.date == d
    ensures forall d :: d in DayCounts(records) ==> DayCounts(records)[d] >= 1
  {
    forall d ensures d in DayCounts(records) <==> exists i :: 0 <= i < |records| && records[i].datetime.date == d {
      if d in DayCounts(records) {
        assert d in Dates(records);
        var i :| 0 <= i < |records| && Dates(records)[i] == d;
        assert records[i].datetime.date == d;
      }
      if exists i :: 0 <= i < |records| && records[i].datetime.date == d {
        var i :| 0 <= i < |records| && records[i].datetime.date == d;
        assert Dates(records)[i] == d;
        assert d in multiset(Dates(records));
      }
    }
  }

  /** Sum of the values of a finite map. */
  ghost function MapSum<K>(m: map<K, nat>): nat
    decreases |m|
  {
    if m == map[] then 0
    else
      var k :| k in m;
      m[k] + MapSum(m - {k})
  }

  /** The sum does not depend on which key the definition happens to pick. */
  lemma {:induction false} MapSumRemove<K>(m: map<K, nat>, k: K)
    requires k in m
    ensures MapSum(m) == m[k] + MapSum(m - {k})
    decreases |m|
  {
    var j :| j in m && MapSum(m) == m[j] + MapSum(m - {j});
    if j != k {
      MapSumRemove(m - {j}, k);
      MapSumRemove(m - {k}, j);
      assert m - {j} - {k} == m - {k} - {j};
    }
  }

  lemma MapSumBump<K>(m: map<K, nat>, k: K)
    ensures MapSum(m[k := (if k in m then m[k] else 0) + 1]) == MapSum(m) + 1
  {
    var m' := m[k := (if k in m then m[k] else 0) + 1];
    MapSumRemove(m', k);
    assert m' - {k} == m - {k};
    if k in m {
      MapSumRemove(m, k);
    } else {
      assert m - {k} == m;
    }
  }

  /** The per-date counts add up to the number of records. */
  lemma {:induction false} DayCountsTotal(records: seq<TradeRecord>)
    ensures MapSum(DayCounts(records)) == |records|
  {
    if records == [] {
      assert DayCounts(records) == map[];
    } else {
      var init := records[..|records| - 1];
      var last := records[|records| - 1];
      assert records == init + [last];
      DayCountsTotal(init);
      DayCountsAppend(init, last);
      MapSumBump(DayCounts(init), last.datetime.date);
    }
  }

  /** Taking out the record at `j` takes one copy of it out of the records
      and one copy of its date out of the dates. */
  lemma RemoveAt(b: seq<TradeRecord>, j: nat, rest: seq<TradeRecord>)
    requires j < |b| && rest == b[..j] + b[j + 1..]
    ensures multiset(rest) == multiset(b) - multiset{b[j]}
    ensures multiset(Dates(b)) == multiset(Dates(rest)) + multiset{b[j].datetime.date}
  {
    assert b == b[..j] + ([b[j]] + b[j + 1..]);
    DatesAppend(b[..j], [b[j]] + b[j + 1..]);
    DatesAppend([b[j]], b[j + 1..]);
    DatesAppend(b[..j], b[j + 1..]);
    assert Dates([b[j]]) == [b[j].datetime.date];
  }

  /** The dates of a reordering are a reordering of the dates. */
  lemma {:induction false} DatesPermutation(a: seq<TradeRecord>, b: seq<TradeRecord>)
    requires multiset(a) == multiset(b)
    ensures multiset(Dates(a)) == multiset(Dates(b))
    decreases |a|
  {
    if a != [] {
      var x := a[0];
      assert x in multiset(b);
      var j :| 0 <= j < |b| && b[j] == x;
      var restA, restB := a[1..], b[..j] + b[j + 1..];
      assert restA == a[..0] + a[1..];
      RemoveAt(a, 0, restA);
      RemoveAt(b, j, restB);
      DatesPermutation(restA, restB);
      var d := x.datetime.date;
      calc {
        multiset(Dates(a));
        multiset(Dates(restA)) + multiset{d};
        multiset(Dates(restB)) + multiset{d};
        multiset(Dates(b));
      }
    }
  }

  /** The counts do not depend on the order of the records. */
  lemma DayCountsOrderIndependent(a: seq<TradeRecord>, b: seq<TradeRecord>)
    requires multiset(a) == multiset(b)
    ensures DayCounts(a) == DayCounts(b)
  {
    DatesPermutation(a, b);
  }
}
