/**
 * Strategy_SLpart_SPELLUSDT_leverage: the futures variant of the SLpart strategy. The same
 * EMA crossover entries (its "ema15" column holds the 20-period EMA), leverage 3, a strict
 * break-even latch above 1% measured as `current/open - 1` for every trade, and the trailing
 * partial exit with `pl` = 0.026 that reads `trade.trade_direction`. Neither callback catches
 * exceptions: a division by zero reaches the host.
 */
module SlpartSpellusdtLeverage {
  import opened Wrappers
  import opened Trades
  import BreakEven
  import Trailing
  import opened Frames

  const Pl: real := 0.026

  /** Break-even once `current/open - 1` exceeds 0.01, handing the host an offset of 0.003. */
  const Latch := BreakEven.Latch(0.01, true, false, 0.003)

  function LongEntries(c: seq<Candle>): (m: seq<bool>)
    ensures |m| == |c|
  {
    seq(|c|, i requires 0 <= i < |c| => CrossedAbove(c, i))
  }

  function LongExits(c: seq<Candle>): (m: seq<bool>)
    ensures |m| == |c|
  {
    seq(|c|, i requires 0 <= i < |c| => CrossedBelow(c, i))
  }

  method PopulateEntryTrend(df: DataFrame)
    requires df.Valid()
    modifies df
    ensures df.Valid()
    ensures df.columns == old(df.columns)[EnterLong := Where(old(df.Column(EnterLong)), LongEntries(df.candles), One)]
  {
    df.Loc(LongEntries(df.candles), EnterLong, One);
  }

  method PopulateExitTrend(df: DataFrame)
    requires df.Valid()
    modifies df
    ensures df.Valid()
    ensures df.columns == old(df.columns)[ExitLong := Where(old(df.Column(ExitLong)), LongExits(df.candles), One)]
  {
    df.Loc(LongExits(df.candles), ExitLong, One);
  }

  /** `leverage`: always 3. */
  function Leverage(proposed: real, maxLeverage: real): (l: real)
    ensures l == 3.0
  {
    3.0
  }

  /** `custom_stoploss`, exceptions included. */
  method CustomStoploss(trade: Trade, currentRate: real, currentProfit: real, sfo: StopFromOpen)
    returns (r: Result<Option<real>>)
    modifies trade`customData
    ensures (r, trade.customData) == BreakEven.Call(Latch, old(trade.customData), trade.openRate, currentRate,
                                                    trade.isShort, currentProfit, trade.leverage, sfo)
  {
    r := BreakEven.Apply(trade, Latch, currentRate, currentProfit, sfo);
  }

  /** The latch reads a short like a long: on a fresh short it fires exactly when the price has
      risen more than 1% above the open, a move against the position. */
  lemma ShortLatchesOnRise(store: map<Key, bool>, openRate: real, currentRate: real, profit: real,
                           leverage: real, sfo: StopFromOpen)
    requires openRate > 0.0 && currentRate > 0.0 && !Flag(store, BeActivated)
    ensures var c := BreakEven.Call(Latch, store, openRate, currentRate, true, profit, leverage, sfo);
            c.0.Ok? && (c.0.value.Some? <==> currentRate > 1.01 * openRate)
  {
    PriceRateReaches(openRate, currentRate, false, 0.01);
  }

  /** `adjust_trade_position`, exceptions included: the trailing exit in the trade's direction;
      a trade whose direction is neither "long" nor "short" only has its first price stored. */
  method AdjustTradePosition(trade: Trade, currentRate: real) returns (r: Result<Option<real>>)
    modifies trade`bestPrice, trade`customData
    ensures var c := Trailing.Call(Pl, Trailing.DirectionOf(trade.tradeDirection), old(trade.bestPrice),
                                   old(trade.customData), currentRate, trade.stakeAmount);
            match c
            case Raise(e) => r == Raise(e) && trade.bestPrice == old(trade.bestPrice) && trade.customData == old(trade.customData)
            case Ok(s) => r == Ok(s.ret) && trade.bestPrice == s.best && trade.customData == s.store
  {
    r := Trailing.Apply(trade, Pl, Trailing.DirectionOf(trade.tradeDirection), currentRate);
  }

  /** A short trade with a stored best price raises only when the current price is zero and
      at or above the best price, which a positive best price rules out: for positive prices
      the call always returns. */
  lemma ShortNeverRaisesOnPositivePrices(best: real, store: map<Key, bool>, current: real, stake: real)
    requires best > 0.0 && current > 0.0
    ensures Trailing.Call(Pl, Trailing.Short, best, store, current, stake).Ok?
  {
  }

  /** For a short, a rise to 1.03 times the best price is beyond `pl`: the whole stake is given
      back and, since no flag is recorded, again on every such call. */
  lemma ShortFullExit(best: real, store: map<Key, bool>, stake: real)
    requires best > 0.0
    ensures Trailing.Call(Pl, Trailing.Short, best, store, 1.03 * best, stake) == Ok(Trailing.Step(Some(-stake), best, store))
  {
    assert best / (1.03 * best) == 1.0 / 1.03;
    assert 1.0 - 1.0 / 1.03 > Pl;
  }
}
