/**
 * Strategy_Goal_Depth_RSI_Futures_SUI: RSI entries gated by the order book, on both sides,
 * with a direction-aware break-even latch and a two-stage take-profit ladder.
 *
 * Its entry passes the settings' depth (15) and delta (1.3) positionally into parameters
 * declared (delta, depth), so the depth check runs with delta 15 and depth 1.3. A float
 * depth cannot slice a list: on any book with two or more levels a side the check raises,
 * otherwise it answers false, so no row is ever entered. `PopulateEntryTrend` keeps that call;
 * `PopulateEntryTrendIntended` passes the values where they were meant to go.
 */
module GoalDepthRsiFuturesSui {
  import opened Wrappers
  import opened Trades
  import opened Actions
  import Ladder
  import Adjust
  import BreakEven
  import opened OrderBook
  import opened Frames

  /** The "5m" settings: delta 1.3, depth 15, volume threshold 20000. */
  const BidsAskDelta: real := 1.3
  const Depth: int := 15
  const VolumeThreshold: real := 20000.0

  /** Stage 1 sells 0.4 of the stake at 0.01, stage 2 0.6 at 0.02, the rest closes at 0.03. */
  const Targets := Ladder.Config([Stage(0.01, 0.4), Stage(0.02, 0.6)], 0.03)

  /** Break-even at a direction-aware excursion of at least `target_stage_1`. */
  const Latch := BreakEven.Latch(0.01, false, true, 0.002)

  /** Row masks of the entry and exit rules; `depth` and `large` are the order-book answers,
      the same for every row. */
  function LongEntries(c: seq<Candle>, depth: bool, large: bool): (m: seq<bool>)
    ensures |m| == |c|
  {
    seq(|c|, i requires 0 <= i < |c| => depth && large && VolumeRises(c, i) && CloseFalls(c, i) && c[i].rsi < 35.0)
  }

  function ShortEntries(c: seq<Candle>, depth: bool, large: bool): (m: seq<bool>)
    ensures |m| == |c|
  {
    seq(|c|, i requires 0 <= i < |c| => depth && large && VolumeRises(c, i) && CloseRises(c, i) && c[i].rsi > 70.0)
  }

  function LongExits(c: seq<Candle>): (m: seq<bool>)
    ensures |m| == |c|
  {
    seq(|c|, i requires 0 <= i < |c| => c[i].rsi > 70.0)
  }

  function ShortExits(c: seq<Candle>): (m: seq<bool>)
    ensures |m| == |c|
  {
    seq(|c|, i requires 0 <= i < |c| => c[i].rsi < 35.0)
  }

  /** `populate_entry_trend` as written: the depth check with delta and depth swapped. An
      exception from the check leaves the frame untouched. */
  method PopulateEntryTrend(df: DataFrame, book: Book) returns (r: Result<()>)
    requires df.Valid()
    modifies df
    ensures df.Valid()
    ensures var d := DirectedDepth(book, Depth as real, PyFloat(BidsAskDelta), false);
            var large := LargeOrders(book, VolumeThreshold);
            match d
            case Raise(e) => r == Raise(e) && df.columns == old(df.columns)
            case Ok(depthOk) =>
              r.Ok? && df.columns == old(df.columns)
                [EnterLong := Where(old(df.Column(EnterLong)), LongEntries(df.candles, depthOk, large), One)]
                [EnterShort := Where(old(df.Column(EnterShort)), ShortEntries(df.candles, depthOk, large), One)]
  {
    var d := DirectedDepth(book, Depth as real, PyFloat(BidsAskDelta), false);
    if d.Raise? {
      return Raise(d.error);
    }
    var large := LargeOrders(book, VolumeThreshold);
    df.Loc(LongEntries(df.candles, d.value, large), EnterLong, One);
    df.Loc(ShortEntries(df.candles, d.value, large), EnterShort, One);
    return Ok(());
  }

  /** The entry with depth 15 and delta 1.3 in their declared places. */
  method PopulateEntryTrendIntended(df: DataFrame, book: Book) returns (r: Result<()>)
    requires df.Valid()
    modifies df
    ensures df.Valid()
    ensures var d := DirectedDepth(book, BidsAskDelta, PyInt(Depth), false);
            var large := LargeOrders(book, VolumeThreshold);
            match d
            case Raise(e) => r == Raise(e) && df.columns == old(df.columns)
            case Ok(depthOk) =>
              r.Ok? && df.columns == old(df.columns)
                [EnterLong := Where(old(df.Column(EnterLong)), LongEntries(df.candles, depthOk, large), One)]
                [EnterShort := Where(old(df.Column(EnterShort)), ShortEntries(df.candles, depthOk, large), One)]
  {
    var d := DirectedDepth(book, BidsAskDelta, PyInt(Depth), false);
    if d.Raise? {
      return Raise(d.error);
    }
    var large := LargeOrders(book, VolumeThreshold);
    df.Loc(LongEntries(df.candles, d.value, large), EnterLong, One);
    df.Loc(ShortEntries(df.candles, d.value, large), EnterShort, One);
    return Ok(());
  }

  /** As written, the entry never marks a row: the swapped depth check is never true. */
  lemma NoEntryAsWritten(book: Book, c: seq<Candle>, i: nat)
    requires i < |c|
    ensures var d := DirectedDepth(book, Depth as real, PyFloat(BidsAskDelta), false);
            d.Ok? ==> !LongEntries(c, d.value, LargeOrders(book, VolumeThreshold))[i]
                      && !ShortEntries(c, d.value, LargeOrders(book, VolumeThreshold))[i]
  {
    FloatDepthNeverTrue(book, Depth as real, BidsAskDelta, false);
  }

  /** A concrete book on which the written call raises while the intended one answers true:
      sixteen levels a side, bids of size 2 against asks of size 1. */
  lemma SwappedArgumentsWitness()
    ensures var book := Book(seq(16, _ => Entry(1.0, 2.0)), seq(16, _ => Entry(1.0, 1.0)));
            DirectedDepth(book, Depth as real, PyFloat(BidsAskDelta), false) == Raise(TypeError)
            && DirectedDepth(book, BidsAskDelta, PyInt(Depth), false) == Ok(true)
  {
    var book := Book(seq(16, _ => Entry(1.0, 2.0)), seq(16, _ => Entry(1.0, 1.0)));
    SumsOfConstantLevels(Prefix(book.bids, Depth), 2.0);
    SumsOfConstantLevels(Prefix(book.asks, Depth), 1.0);
  }

  /** A long entry needs a falling close and a short entry a rising one, so no row is marked
      for both, and the intended entry too marks a row only where its mask holds. */
  lemma EntriesExclusive(c: seq<Candle>, depth: bool, large: bool, i: nat)
    requires i < |c|
    ensures !(LongEntries(c, depth, large)[i] && ShortEntries(c, depth, large)[i])
    ensures Where(NaNs(|c|), LongEntries(c, depth, large), One)[i] == One
            ==> Where(NaNs(|c|), ShortEntries(c, depth, large), One)[i] != One
  {
    FreshWrites(|c|, LongEntries(c, depth, large), ShortEntries(c, depth, large), i);
  }

  /** `populate_exit_trend`: leave a long above RSI 70, a short below RSI 35. */
  method PopulateExitTrend(df: DataFrame)
    requires df.Valid()
    modifies df
    ensures df.Valid()
    ensures df.columns == old(df.columns)
              [ExitLong := Where(old(df.Column(ExitLong)), LongExits(df.candles), One)]
              [ExitShort := Where(old(df.Column(ExitShort)), ShortExits(df.candles), One)]
  {
    df.Loc(LongExits(df.candles), ExitLong, One);
    df.Loc(ShortExits(df.candles), ExitShort, One);
  }

  /** `leverage`: always 4, whatever is proposed. */
  function Leverage(proposed: real, maxLeverage: real): (l: real)
    ensures l == 4.0
  {
    4.0
  }

  /** `custom_stoploss`: the direction-aware latch at 0.01; an exception yields None and no change. */
  method CustomStoploss(trade: Trade, currentRate: real, currentProfit: real, sfo: StopFromOpen)
    returns (r: Option<real>)
    modifies trade`customData
    ensures var c := BreakEven.Call(Latch, old(trade.customData), trade.openRate, currentRate, trade.isShort,
                                    currentProfit, trade.leverage, sfo);
            r == Caught(c.0) && trade.customData == c.1
  {
    var out := BreakEven.Apply(trade, Latch, currentRate, currentProfit, sfo);
    r := Caught(out);
  }

  /** `adjust_trade_position`: the two-stage ladder on the stake, direction-aware excursion. */
  method AdjustTradePosition(trade: Trade, currentRate: real) returns (r: Option<real>)
    modifies trade`customData
    ensures match PriceRate(trade.openRate, currentRate, trade.isShort)
            case Raise(_) => r.None? && trade.customData == old(trade.customData)
            case Ok(rate) =>
              var c := Adjust.Call([], Targets, old(trade.customData), rate, trade.stakeAmount, trade.stakeAmount);
              r == c.0 && trade.customData == c.1
  {
    var out := Adjust.Apply(trade, [], Targets, true, currentRate, trade.stakeAmount);
    r := Caught(out);
  }

  /** Stage 1 fires first: with no stage sold, any excursion at or above 0.01 sells 0.4 of the
      stake and records stage 1; below 0.01 nothing happens. */
  lemma StageOneFirst(store: map<Key, bool>, rate: real, stake: real)
    requires !Flag(store, StageSold(1)) && !Flag(store, StageSold(2))
    ensures rate >= 0.01 ==> Adjust.Call([], Targets, store, rate, stake, stake)
                             == (Some(-(stake * 0.4)), store[StageSold(1) := true])
    ensures rate < 0.01 ==> Adjust.Call([], Targets, store, rate, stake, stake) == (None, store)
  {
    if rate >= 0.01 {
      Ladder.LowestStageFirst(Targets, store, rate, 0);
      assert Payout(Sell(1), Targets.stages, [], stake, stake).value == -(stake * 0.4);
    } else {
      assert !Ladder.Eligible(Targets.stages, store, rate, 0);
      assert !Ladder.Eligible(Targets.stages, store, rate, 1);
    }
  }
}
