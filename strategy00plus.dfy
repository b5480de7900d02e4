/**
 * Strategy00plus: the EMA crossover entry with exits in steps of the candle's own profit
 * `close/open - 1`: "exit_long_50" from 1%, "exit_long_25" from 2.5% and "exit_long" from 4%.
 * The candle's open stands in for the entry price.
 */
module Strategy00plus {
  import opened Frames

  /** `(close / open - 1) >= t` over the frame. */
  function ProfitMask(c: seq<Candle>, t: real): (m: seq<bool>)
    ensures |m| == |c|
  {
    seq(|c|, i requires 0 <= i < |c| => ProfitAtLeast(c[i], t))
  }

  function LongEntries(c: seq<Candle>): (m: seq<bool>)
    ensures |m| == |c|
  {
    seq(|c|, i requires 0 <= i < |c| => CrossedAbove(c, i))
  }

  method PopulateEntryTrend(df: DataFrame)
    requires df.Valid()
    modifies df
    ensures df.Valid()
    ensures df.columns == old(df.columns)[EnterLong := Where(old(df.Column(EnterLong)), LongEntries(df.candles), One)]
  {
    df.Loc(LongEntries(df.candles), EnterLong, One);
  }

  /** `populate_exit_trend`: the three step flags, in order. */
  method PopulateExitTrend(df: DataFrame)
    requires df.Valid()
    modifies df
    ensures df.Valid()
    ensures df.columns == old(df.columns)[ExitLong50 := Where(old(df.Column(ExitLong50)), ProfitMask(df.candles, 0.01), One)]
                                         [ExitLong25 := Where(old(df.Column(ExitLong25)), ProfitMask(df.candles, 0.025), One)]
                                         [ExitLong := Where(old(df.Column(ExitLong)), ProfitMask(df.candles, 0.04), One)]
  {
    df.Loc(ProfitMask(df.candles, 0.01), ExitLong50, One);
    df.Loc(ProfitMask(df.candles, 0.025), ExitLong25, One);
    df.Loc(ProfitMask(df.candles, 0.04), ExitLong, One);
  }

  /** With a positive open, each step is a price level: 1%, 2.5% and 4% above the open. */
  lemma StepsArePriceLevels(c: seq<Candle>, i: nat)
    requires i < |c| && c[i].open > 0.0
    ensures ProfitMask(c, 0.01)[i] <==> c[i].close >= 1.01 * c[i].open
    ensures ProfitMask(c, 0.025)[i] <==> c[i].close >= 1.025 * c[i].open
    ensures ProfitMask(c, 0.04)[i] <==> c[i].close >= 1.04 * c[i].open
  {
    ProfitAtLeastIsPrice(c[i], 0.01);
    ProfitAtLeastIsPrice(c[i], 0.025);
    ProfitAtLeastIsPrice(c[i], 0.04);
  }

  /** Written into fresh columns, the steps nest on every row: a full exit row is also a 25%
      row, and a 25% row is also a 50% row. */
  lemma FreshStepsNest(c: seq<Candle>, i: nat)
    requires i < |c|
    ensures Where(NaNs(|c|), ProfitMask(c, 0.04), One)[i] == One ==> Where(NaNs(|c|), ProfitMask(c, 0.025), One)[i] == One
    ensures Where(NaNs(|c|), ProfitMask(c, 0.025), One)[i] == One ==> Where(NaNs(|c|), ProfitMask(c, 0.01), One)[i] == One
  {
    FreshWrites(|c|, ProfitMask(c, 0.04), ProfitMask(c, 0.025), i);
    FreshWrites(|c|, ProfitMask(c, 0.025), ProfitMask(c, 0.01), i);
  }
}
