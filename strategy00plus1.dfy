/**
 * Strategy00plus1: the EMA crossover entry with exits on the candle's own profit
 * `close/open - 1`: "exit_long_50" from 2%, three writes of "exit_long_10" (from 10%, 13% and
 * 18%) into the same column, and "exit_long" from 25.5%.
 */
module Strategy00plus1 {
  import opened Frames

  function ProfitMask(c: seq<Candle>, t: real): (m: seq<bool>)
    ensures |m| == |c|
  {
    seq(|c|, i requires 0 <= i < |c| => ProfitAtLeast(c[i], t))
  }

  function LongEntries(c: seq<Candle>): (m: seq<bool>)
    ensures |m| == |c|
  {
    seq(|c|, i requires 0 <= i < |c| => CrossedAbove(c, i))
  }

  method PopulateEntryTrend(df: DataFrame)
    requires df.Valid()
    modifies df
    ensures df.Valid()
    ensures df.columns == old(df.columns)[EnterLong := Where(old(df.Column(EnterLong)), LongEntries(df.candles), One)]
  {
    df.Loc(LongEntries(df.candles), EnterLong, One);
  }

  /** The "exit_long_10" column after its three writes, in order. */
  function TenPercentColumn(col: seq<Cell>, c: seq<Candle>): (r: seq<Cell>)
    requires |col| == |c|
    ensures |r| == |c|
  {
    Where(Where(Where(col, ProfitMask(c, 0.1), One), ProfitMask(c, 0.13), One), ProfitMask(c, 0.18), One)
  }

  /** `populate_exit_trend`. */
  method PopulateExitTrend(df: DataFrame)
    requires df.Valid()
    modifies df
    ensures df.Valid()
    ensures df.columns == old(df.columns)[ExitLong50 := Where(old(df.Column(ExitLong50)), ProfitMask(df.candles, 0.02), One)]
                                         [ExitLong10 := TenPercentColumn(old(df.Column(ExitLong10)), df.candles)]
                                         [ExitLong := Where(old(df.Column(ExitLong)), ProfitMask(df.candles, 0.255), One)]
  {
    df.Loc(ProfitMask(df.candles, 0.02), ExitLong50, One);
    df.Loc(ProfitMask(df.candles, 0.1), ExitLong10, One);
    df.Loc(ProfitMask(df.candles, 0.13), ExitLong10, One);
    df.Loc(ProfitMask(df.candles, 0.18), ExitLong10, One);
    df.Loc(ProfitMask(df.candles, 0.255), ExitLong, One);
  }

  /** All three writes put 1 into the same column, and every row past 13% or 18% is already
      past 10%: the column is the single 10% write, and the later writes change nothing. */
  lemma OverwritesCollapse(col: seq<Cell>, c: seq<Candle>)
    requires |col| == |c|
    ensures TenPercentColumn(col, c) == Where(col, ProfitMask(c, 0.1), One)
  {
    forall i | 0 <= i < |c|
      ensures TenPercentColumn(col, c)[i] == Where(col, ProfitMask(c, 0.1), One)[i]
    {
      assert ProfitMask(c, 0.18)[i] ==> ProfitMask(c, 0.1)[i];
      assert ProfitMask(c, 0.13)[i] ==> ProfitMask(c, 0.1)[i];
    }
  }

  /** With a positive open, each flag is a price level over the open, and a full exit row is
      also a 10% row and a 50% row. */
  lemma StepsArePriceLevels(c: seq<Candle>, i: nat)
    requires i < |c| && c[i].open > 0.0
    ensures ProfitMask(c, 0.02)[i] <==> c[i].close >= 1.02 * c[i].open
    ensures ProfitMask(c, 0.1)[i] <==> c[i].close >= 1.1 * c[i].open
    ensures ProfitMask(c, 0.255)[i] <==> c[i].close >= 1.255 * c[i].open
    ensures ProfitMask(c, 0.255)[i] ==> ProfitMask(c, 0.1)[i] && ProfitMask(c, 0.02)[i]
  {
    ProfitAtLeastIsPrice(c[i], 0.02);
    ProfitAtLeastIsPrice(c[i], 0.1);
    ProfitAtLeastIsPrice(c[i], 0.255);
  }
}
