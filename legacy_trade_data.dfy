/** The older trade reader (src/trade_data.rs): the same record types as the
    simulator's, scaled by the multiplier only, with no round-trip cost. */
module LegacyTradeData {
  import opened SimTradeData

  /** `read_csv`: one record per row, in row order, values times the multiplier. */
  method ReadRecords(rows: seq<RawRow>, multiplier: real) returns (records: seq<TradeRecord>)
    ensures |records| == |rows|
    ensures forall i :: 0 <= i < |rows| ==>
      && records[i].datetime == rows[i].datetime
      && records[i].trade.returnValue == rows[i].returnValue * multiplier
      && records[i].trade.maxOppositeExcursion == rows[i].maxOppositeExcursion * multiplier
  {
    records := [];
    for i := 0 to |rows|
      invariant |records| == i
      invariant forall k :: 0 <= k < i ==> records[k] == Scaled(rows[k], multiplier, 0.0)
    {
      records := records + [Scaled(rows[i], multiplier, 0.0)];
    }
  }

  /** `calculate_trades_per_day`: the same loop as the simulator's copy, so
      it has the same specification. */
  method CalculateTradesPerDay(trades: seq<TradeRecord>) returns (tradesPerDay: map<Date, nat>)
    ensures tradesPerDay == DayCounts(trades)
  {
    tradesPerDay := map[];
    for i := 0 to |trades|
      invariant tradesPerDay == DayCounts(trades[..i])
    {
      var date := trades[i].datetime.date;
      DayCountsAppend(trades[..i], trades[i]);
      assert trades[..i + 1] == trades[..i] + [trades[i]];
      tradesPerDay := tradesPerDay[date := (if date in tradesPerDay then tradesPerDay[date] else 0) + 1];
    }
    assert trades[..|trades|] == trades;
  }
}
