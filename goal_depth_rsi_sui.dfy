/**
 * Strategy_Goal_Depth_RSI_SUI: long-only RSI entries gated by the order book, a break-even
 * latch at 0.02 and a two-stage take-profit ladder, all measured as `current/open - 1`.
 * The long entry rule is the same as the futures strategy's (a deep, bid-heavy book, a large
 * order, rising volume, a falling close and RSI below 35), so it is reused from there.
 */
module GoalDepthRsiSui {
  import opened Wrappers
  import opened Trades
  import opened Actions
  import Ladder
  import Adjust
  import BreakEven
  import opened OrderBook
  import opened Frames
  import GoalDepthRsiFuturesSui

  /** The "5m" settings: delta 1.3, depth 15, volume threshold 40000. */
  const BidsAskDelta: real := 1.3
  const Depth: int := 15
  const VolumeThreshold: real := 40000.0

  /** `bot_start`: the settings of the configured timeframe. The class declares no timeframe
      of its own and its settings hold only "5m", so any other configured timeframe fails the
      dictionary lookup. */
  function BotStart(timeframe: string): (r: Result<Settings>)
    ensures r.Raise? <==> timeframe != "5m"
    ensures r.Raise? ==> r.error == KeyError
    ensures r.Ok? ==> r.value == Settings(BidsAskDelta, Depth, VolumeThreshold)
  {
    if timeframe == "5m" then Ok(Settings(1.3, 15, 40000.0)) else Raise(KeyError)
  }

  /** 0.2 of the stake at 0.02, 0.3 at 0.04, the rest at 0.06. */
  const Targets := Ladder.Config([Stage(0.02, 0.2), Stage(0.04, 0.3)], 0.06)

  /** Break-even once `current/open - 1` reaches `target_stage_1`, for longs and shorts alike. */
  const Latch := BreakEven.Latch(0.02, false, false, 0.002)

  function LongExits(c: seq<Candle>): (m: seq<bool>)
    ensures |m| == |c|
  {
    seq(|c|, i requires 0 <= i < |c| => c[i].rsi > 70.0 && c[i].volume > 0.0)
  }

  /** `populate_entry_trend`, after a `bot_start` that loaded the settings: the depth check
      (which may raise while logging its ratio) runs before the single write. */
  method PopulateEntryTrend(df: DataFrame, book: Book, timeframe: string) returns (r: Result<()>)
    requires BotStart(timeframe).Ok?
    requires df.Valid()
    modifies df
    ensures df.Valid()
    ensures match LoggedDepth(book, Depth, BidsAskDelta, false)
            case Raise(e) => r == Raise(e) && df.columns == old(df.columns)
            case Ok(depthOk) =>
              r.Ok? && df.columns == old(df.columns)[EnterLong := Where(old(df.Column(EnterLong)),
                         GoalDepthRsiFuturesSui.LongEntries(df.candles, depthOk, LargeOrders(book, VolumeThreshold)), One)]
  {
    var s := BotStart(timeframe).value;
    var d := LoggedDepth(book, s.depth, s.delta, false);
    if d.Raise? {
      return Raise(d.error);
    }
    df.Loc(GoalDepthRsiFuturesSui.LongEntries(df.candles, d.value, LargeOrders(book, s.volumeThreshold)), EnterLong, One);
    return Ok(());
  }

  /** `populate_exit_trend`: leave above RSI 70 on a candle with volume. */
  method PopulateExitTrend(df: DataFrame)
    requires df.Valid()
    modifies df
    ensures df.Valid()
    ensures df.columns == old(df.columns)[ExitLong := Where(old(df.Column(ExitLong)), LongExits(df.candles), One)]
  {
    df.Loc(LongExits(df.candles), ExitLong, One);
  }

  /** No candle is both an entry and an exit (RSI below 35 against above 70), and an entry
      needs a book of at least 15 levels a side. */
  lemma EntryAndExitExclusive(book: Book, c: seq<Candle>, i: nat)
    requires i < |c|
    ensures var d := LoggedDepth(book, Depth, BidsAskDelta, false);
            d.Ok? ==> !(GoalDepthRsiFuturesSui.LongEntries(c, d.value, LargeOrders(book, VolumeThreshold))[i] && LongExits(c)[i])
    ensures var d := LoggedDepth(book, Depth, BidsAskDelta, false);
            d.Ok? && GoalDepthRsiFuturesSui.LongEntries(c, d.value, LargeOrders(book, VolumeThreshold))[i]
            ==> |book.bids| >= Depth && |book.asks| >= Depth
  {
  }

  method CustomStoploss(trade: Trade, currentRate: real, currentProfit: real, sfo: StopFromOpen)
    returns (r: Option<real>)
    modifies trade`customData
    ensures var c := BreakEven.Call(Latch, old(trade.customData), trade.openRate, currentRate, trade.isShort,
                                    currentProfit, trade.leverage, sfo);
            r == Caught(c.0) && trade.customData == c.1
  {
    var out := BreakEven.Apply(trade, Latch, currentRate, currentProfit, sfo);
    r := Caught(out);
  }

  method AdjustTradePosition(trade: Trade, currentRate: real) returns (r: Option<real>)
    modifies trade`customData
    ensures match PriceRate(trade.openRate, currentRate, false)
            case Raise(_) => r.None? && trade.customData == old(trade.customData)
            case Ok(rate) =>
              var c := Adjust.Call([], Targets, old(trade.customData), rate, trade.stakeAmount, trade.stakeAmount);
              r == c.0 && trade.customData == c.1
  {
    var out := Adjust.Apply(trade, [], Targets, false, currentRate, trade.stakeAmount);
    r := Caught(out);
  }

  /** The latch and the first stage share a threshold: on a fresh trade the call that first
      sells stage 1 is exactly the call whose excursion also latches the stop. */
  lemma LatchWithFirstStage(store: map<Key, bool>, rate: real)
    requires !Flag(store, StageSold(1))
    ensures Ladder.Decide(Targets, store, rate) == Sell(1) <==> BreakEven.Reached(Latch, rate)
  {
    if rate >= 0.02 {
      assert Ladder.Eligible(Targets.stages, store, rate, 0);
    }
  }
}
