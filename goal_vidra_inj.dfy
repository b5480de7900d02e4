/**
 * Strategy_Goal_Vidra_RSI_EMA_MACD_INJ: long entries that need an uptrend (close and short EMA
 * above the long EMA, MACD above its signal, ADX above 20), a bid-heavy book with a large
 * order, rising volume, a falling close and RSI below 35; exits on RSI above 70 or a broken
 * trend; two DCA buy-ins and a two-stage ladder that sells parts of the position amount.
 */
module GoalVidraInj {
  import opened Wrappers
  import opened Trades
  import opened Actions
  import Ladder
  import Adjust
  import Runs
  import opened OrderBook
  import opened Frames

  /** `bot_start`: the settings of the configured timeframe; any other timeframe fails the
      dictionary lookup. */
  function BotStart(timeframe: string): (r: Result<Settings>)
    ensures r.Raise? <==> timeframe != "5m" && timeframe != "30m"
    ensures r.Ok? ==> r.value.delta == 1.3 && r.value.depth == 15
    ensures r.Ok? ==> r.value.volumeThreshold == (if timeframe == "5m" then 500.0 else 1000.0)
  {
    if timeframe == "5m" then Ok(Settings(1.3, 15, 500.0))
    else if timeframe == "30m" then Ok(Settings(1.3, 15, 1000.0))
    else Raise(KeyError)
  }

  const AdxThreshold: real := 20.0
  const RsiBuy: real := 35.0
  const RsiSell: real := 70.0

  /** DCA at -0.02 and -0.035, each adding 0.2 of the stake. */
  const Levels := [Level(-0.02, 0.2), Level(-0.035, 0.2)]

  /** 0.3 of the position at 0.02, 0.4 at 0.04, the rest at 0.08. */
  const Targets := Ladder.Config([Stage(0.02, 0.3), Stage(0.04, 0.4)], 0.08)

  predicate Trend(k: Candle) {
    k.close > k.emaLong && k.emaShort > k.emaLong && k.macd > k.macdSignal && k.adx > AdxThreshold
  }

  function LongEntries(c: seq<Candle>, depth: bool, large: bool): (m: seq<bool>)
    ensures |m| == |c|
  {
    seq(|c|, i requires 0 <= i < |c| =>
      Trend(c[i]) && depth && large && VolumeRises(c, i) && CloseFalls(c, i) && c[i].rsi < RsiBuy)
  }

  function LongExits(c: seq<Candle>): (m: seq<bool>)
    ensures |m| == |c|
  {
    seq(|c|, i requires 0 <= i < |c| => c[i].rsi > RsiSell || c[i].close < c[i].emaLong || c[i].macd < c[i].macdSignal)
  }

  /** `populate_entry_trend`: the guarded depth check cannot raise on entry; the write is
      followed by log lines that read the last row, which raise on an empty frame after the
      (empty) column has been written. */
  method PopulateEntryTrend(df: DataFrame, book: Book, timeframe: string) returns (r: Result<()>)
    requires BotStart(timeframe).Ok?
    requires df.Valid()
    modifies df
    ensures df.Valid()
    ensures var s := BotStart(timeframe).value;
            var d := GuardedDepth(book, s.depth, s.delta, false);
            df.columns == old(df.columns)[EnterLong := Where(old(df.Column(EnterLong)),
                            LongEntries(df.candles, d.value, LargeOrders(book, s.volumeThreshold)), One)]
    ensures r.Raise? <==> |df.candles| == 0
    ensures r.Raise? ==> r.error == IndexError
  {
    var s := BotStart(timeframe).value;
    var d := GuardedDepth(book, s.depth, s.delta, false);
    df.Loc(LongEntries(df.candles, d.value, LargeOrders(book, s.volumeThreshold)), EnterLong, One);
    if |df.candles| == 0 {
      return Raise(IndexError);
    }
    return Ok(());
  }

  /** `populate_exit_trend`: the write, then the same last-row log lines. */
  method PopulateExitTrend(df: DataFrame) returns (r: Result<()>)
    requires df.Valid()
    modifies df
    ensures df.Valid()
    ensures df.columns == old(df.columns)[ExitLong := Where(old(df.Column(ExitLong)), LongExits(df.candles), One)]
    ensures r.Raise? <==> |df.candles| == 0
    ensures r.Raise? ==> r.error == IndexError
  {
    df.Loc(LongExits(df.candles), ExitLong, One);
    if |df.candles| == 0 {
      return Raise(IndexError);
    }
    return Ok(());
  }

  /** The exit undoes the entry's own filters: a row marked for entry is never marked for exit. */
  lemma EntryNeverExit(c: seq<Candle>, depth: bool, large: bool, i: nat)
    requires i < |c|
    ensures LongEntries(c, depth, large)[i] ==> !LongExits(c)[i]
  {
  }

  /** `adjust_trade_position`: the DCA scan, then the ladder on `trade.amount`; an exception
      yields None and no change. The flags read and written through `get_custom_value` and
      `set_custom_value` are taken to be the trade's custom data. */
  method AdjustTradePosition(trade: Trade, currentRate: real) returns (r: Option<real>)
    modifies trade`customData
    ensures match PriceRate(trade.openRate, currentRate, false)
            case Raise(_) => r.None? && trade.customData == old(trade.customData)
            case Ok(rate) =>
              var c := Adjust.Call(Levels, Targets, old(trade.customData), rate, trade.stakeAmount, trade.amount);
              r == c.0 && trade.customData == c.1
  {
    var out := Adjust.Apply(trade, Levels, Targets, false, currentRate, trade.amount);
    r := Caught(out);
  }

  /** `adjust_trade_position` as written against a trade without `get_custom_value`: once the
      excursion is computed, the first flag read of the DCA scan raises AttributeError inside
      the `try`, so every call returns None, buys nothing and sells nothing. */
  function AdjustAsWritten(openRate: real, currentRate: real): (r: Option<real>)
    ensures r == None
  {
    Caught(match PriceRate(openRate, currentRate, false)
           case Raise(e) => Raise(e)
           case Ok(_) => Raise(AttributeError))
  }

  /** At a drawdown of 2% or more a fresh trade buys 0.2 of its stake at level 0 and records
      only that level; the as-written call returns None there. */
  lemma MissedBuyIn(openRate: real, currentRate: real, stake: real, amount: real)
    requires PriceRate(openRate, currentRate, false).Ok?
    requires PriceRate(openRate, currentRate, false).value <= -0.02
    ensures AdjustAsWritten(openRate, currentRate) == None
    ensures Adjust.Call(Levels, Targets, map[], PriceRate(openRate, currentRate, false).value, stake, amount)
            == (Some(0.2 * stake), map[StageBought(0) := true])
  {
    var rate := PriceRate(openRate, currentRate, false).value;
    assert Adjust.Due(Levels, map[], rate, 0);
    assert Adjust.Decide(Levels, Targets, map[], rate) == Buy(0);
    assert Payout(Buy(0), Targets.stages, Levels, stake, amount).value == 0.2 * stake;
  }

  /** The configured levels descend, so a deeper buy-in never precedes a shallower one. */
  lemma LevelsInOrder(store: map<Key, bool>, rate: real)
    ensures var a := Adjust.Decide(Levels, Targets, store, rate);
            a.Buy? ==> forall j :: 0 <= j < a.level ==> Flag(store, StageBought(j))
  {
    assert Adjust.Descending(Levels);
    Adjust.BuysInOrder(Levels, Targets, store, rate);
  }

  /** A fresh trade held at a drawdown of 3.5% or more buys level 0, then level 1, then holds:
      at most 0.4 of the stake is ever added, however long the drawdown lasts. */
  lemma DeepDrawdown(rate: real)
    requires rate <= -0.035
    ensures Runs.Run(Levels, Targets, map[], [rate, rate, rate]) == [Buy(0), Buy(1), Hold]
  {
    var s0: map<Key, bool> := map[];
    assert Adjust.Due(Levels, s0, rate, 0);
    assert Adjust.Decide(Levels, Targets, s0, rate) == Buy(0);
    var s1 := Mark(s0, Buy(0));
    assert !Adjust.Due(Levels, s1, rate, 0) && Adjust.Due(Levels, s1, rate, 1);
    assert Adjust.Decide(Levels, Targets, s1, rate) == Buy(1);
    var s2 := Mark(s1, Buy(1));
    assert !Adjust.Due(Levels, s2, rate, 0) && !Adjust.Due(Levels, s2, rate, 1);
    assert !Ladder.Eligible(Targets.stages, s2, rate, 0) && !Ladder.Eligible(Targets.stages, s2, rate, 1);
    assert Adjust.Decide(Levels, Targets, s2, rate) == Hold;
    var s3 := Mark(s2, Hold);
    assert [rate, rate, rate][1..] == [rate, rate];
    assert [rate, rate][1..] == [rate];
    assert Runs.Run(Levels, Targets, s2, [rate]) == [Hold] + Runs.Run(Levels, Targets, s3, []);
    assert Runs.Run(Levels, Targets, s1, [rate, rate]) == [Buy(1)] + Runs.Run(Levels, Targets, s2, [rate]);
  }
}
