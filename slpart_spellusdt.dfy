/**
 * Strategy_SLpart_SPELLUSDT: long entries on an EMA20/EMA30 crossover and exits on the
 * crossunder; a strict break-even latch above 1% measured as `current/open - 1`; the trailing
 * partial exit with `pl` = 0.03, reading every trade as a long. Both callbacks catch their
 * exceptions.
 */
module SlpartSpellusdt {
  import opened Wrappers
  import opened Trades
  import BreakEven
  import Trailing
  import opened Frames

  /** `pl`: the drawdown from the best price that closes the whole stake. */
  const Pl: real := 0.03

  /** Break-even once `current/open - 1` exceeds `brakeeven` = 0.01. */
  const Latch := BreakEven.Latch(0.01, true, false, 0.002)

  function LongEntries(c: seq<Candle>): (m: seq<bool>)
    ensures |m| == |c|
  {
    seq(|c|, i requires 0 <= i < |c| => CrossedAbove(c, i))
  }

  function LongExits(c: seq<Candle>): (m: seq<bool>)
    ensures |m| == |c|
  {
    seq(|c|, i requires 0 <= i < |c| => CrossedBelow(c, i))
  }

  method PopulateEntryTrend(df: DataFrame)
    requires df.Valid()
    modifies df
    ensures df.Valid()
    ensures df.columns == old(df.columns)[EnterLong := Where(old(df.Column(EnterLong)), LongEntries(df.candles), One)]
  {
    df.Loc(LongEntries(df.candles), EnterLong, One);
  }

  method PopulateExitTrend(df: DataFrame)
    requires df.Valid()
    modifies df
    ensures df.Valid()
    ensures df.columns == old(df.columns)[ExitLong := Where(old(df.Column(ExitLong)), LongExits(df.candles), One)]
  {
    df.Loc(LongExits(df.candles), ExitLong, One);
  }

  /** No row is both a crossover and a crossunder, and two crossovers are at least two rows
      apart (the EMAs must be back at or below each other in between). */
  lemma CrossesSeparate(c: seq<Candle>, i: nat, j: nat)
    requires i < j < |c|
    ensures !(LongEntries(c)[i] && LongExits(c)[i])
    ensures LongEntries(c)[i] && LongEntries(c)[j] ==> j >= i + 2 && c[j - 1].emaFast <= c[j - 1].emaSlow
  {
  }

  method CustomStoploss(trade: Trade, currentRate: real, currentProfit: real, sfo: StopFromOpen)
    returns (r: Option<real>)
    modifies trade`customData
    ensures var c := BreakEven.Call(Latch, old(trade.customData), trade.openRate, currentRate, trade.isShort,
                                    currentProfit, trade.leverage, sfo);
            r == Caught(c.0) && trade.customData == c.1
  {
    var out := BreakEven.Apply(trade, Latch, currentRate, currentProfit, sfo);
    r := Caught(out);
  }

  /** `adjust_trade_position`: the trailing exit with every trade read as a long, which can
      never raise. */
  method AdjustTradePosition(trade: Trade, currentRate: real) returns (r: Option<real>)
    modifies trade`bestPrice, trade`customData
    ensures var c := Trailing.Call(Pl, Trailing.Long, old(trade.bestPrice), old(trade.customData), currentRate, trade.stakeAmount);
            c.Ok? && r == c.value.ret && trade.bestPrice == c.value.best && trade.customData == c.value.store
  {
    var out := Trailing.Apply(trade, Pl, Trailing.Long, currentRate);
    r := Caught(out);
  }

  /** From a best price of `b`, a fall to 0.975 `b` (a 2.5% drawdown, past three quarters of
      `pl` but not past `pl`) sells half the stake once and records "pl_sell_3_4"; the call
      after it at the same price sells the other half and records "pl_sell_half"; the third
      returns nothing. */
  lemma ThreeQuarterThenHalf(b: real, store: map<Key, bool>, stake: real)
    requires b > 0.0 && !Flag(store, PlSell34) && !Flag(store, PlSellHalf)
    ensures var s1 := Trailing.Call(Pl, Trailing.Long, b, store, 0.975 * b, stake);
            s1 == Ok(Trailing.Step(Some(-(stake / 2.0)), b, store[PlSell34 := true]))
    ensures var st := store[PlSell34 := true];
            Trailing.Call(Pl, Trailing.Long, b, st, 0.975 * b, stake)
            == Ok(Trailing.Step(Some(-(stake / 2.0)), b, st[PlSellHalf := true]))
    ensures var st := store[PlSell34 := true][PlSellHalf := true];
            Trailing.Call(Pl, Trailing.Long, b, st, 0.975 * b, stake) == Ok(Trailing.Step(None, b, st))
  {
    assert (0.975 * b) / b == 0.975;
    assert 1.0 - (0.975 * b) / b == 0.025;
  }
}
