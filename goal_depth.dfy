/**
 * Strategy_Goal_Depth: long entries gated by the order book, a break-even latch at a small
 * excursion and a two-stage take-profit ladder, all measured long-style.
 */
module GoalDepth {
  import opened Wrappers
  import opened Trades
  import opened Actions
  import Ladder
  import Adjust
  import BreakEven
  import opened OrderBook
  import opened Frames

  /** The settings object built at start-up: delta 1.3, depth 10, volume threshold 1000. */
  const BidsAskDelta: real := 1.3
  const Depth: int := 10
  const VolumeThreshold: real := 1000.0

  /** 0.3 of the stake at 0.03, 0.3 at 0.06, the rest at 0.10. */
  const Targets := Ladder.Config([Stage(0.03, 0.3), Stage(0.06, 0.3)], 0.10)

  /** Break-even at `target_percent * target_stage_1` = 0.003, measured long-style. */
  const Latch := BreakEven.Latch(0.10 * 0.03, false, false, 0.002)

  function LongEntries(c: seq<Candle>, depth: bool, large: bool): (m: seq<bool>)
    ensures |m| == |c|
  {
    seq(|c|, i requires 0 <= i < |c| => depth && large && VolumeRises(c, i) && CloseFalls(c, i))
  }

  /** `populate_entry_trend`: the depth check (which may raise) is evaluated before the write. */
  method PopulateEntryTrend(df: DataFrame, book: Book) returns (r: Result<()>)
    requires df.Valid()
    modifies df
    ensures df.Valid()
    ensures match LoggedDepth(book, Depth, BidsAskDelta, false)
            case Raise(e) => r == Raise(e) && df.columns == old(df.columns)
            case Ok(depthOk) =>
              r.Ok? && df.columns == old(df.columns)[EnterLong := Where(old(df.Column(EnterLong)),
                         LongEntries(df.candles, depthOk, LargeOrders(book, VolumeThreshold)), One)]
  {
    var d := LoggedDepth(book, Depth, BidsAskDelta, false);
    if d.Raise? {
      return Raise(d.error);
    }
    df.Loc(LongEntries(df.candles, d.value, LargeOrders(book, VolumeThreshold)), EnterLong, One);
    return Ok(());
  }

  /** A row is entered only when the book is deep enough and bid-heavy, some level is large,
      volume rises and the close falls against the previous row. */
  lemma EntryNeedsAllConditions(book: Book, c: seq<Candle>, i: nat)
    requires i < |c|
    requires LoggedDepth(book, Depth, BidsAskDelta, false).Ok?
    requires LongEntries(c, LoggedDepth(book, Depth, BidsAskDelta, false).value, LargeOrders(book, VolumeThreshold))[i]
    ensures !TooShallow(book, Depth) && TotalAsks(book, Depth) != 0.0
    ensures TotalAsks(book, Depth) > 0.0 ==> TotalBids(book, Depth) > BidsAskDelta * TotalAsks(book, Depth)
    ensures (exists j :: 0 <= j < |book.bids| && book.bids[j].size >= VolumeThreshold)
            || (exists j :: 0 <= j < |book.asks| && book.asks[j].size >= VolumeThreshold)
    ensures 0 < i && c[i].volume > c[i - 1].volume && c[i].close < c[i - 1].close
  {
    if TotalAsks(book, Depth) > 0.0 {
      RatioAsProduct(book, Depth, BidsAskDelta);
    }
  }

  method CustomStoploss(trade: Trade, currentRate: real, currentProfit: real, sfo: StopFromOpen)
    returns (r: Option<real>)
    modifies trade`customData
    ensures var c := BreakEven.Call(Latch, old(trade.customData), trade.openRate, currentRate, trade.isShort,
                                    currentProfit, trade.leverage, sfo);
            r == Caught(c.0) && trade.customData == c.1
  {
    var out := BreakEven.Apply(trade, Latch, currentRate, currentProfit, sfo);
    r := Caught(out);
  }

  method AdjustTradePosition(trade: Trade, currentRate: real) returns (r: Option<real>)
    modifies trade`customData
    ensures match PriceRate(trade.openRate, currentRate, false)
            case Raise(_) => r.None? && trade.customData == old(trade.customData)
            case Ok(rate) =>
              var c := Adjust.Call([], Targets, old(trade.customData), rate, trade.stakeAmount, trade.stakeAmount);
              r == c.0 && trade.customData == c.1
  {
    var out := Adjust.Apply(trade, [], Targets, false, currentRate, trade.stakeAmount);
    r := Caught(out);
  }

  /** The latch engages well before the first sale: every excursion that sells stage 1 has
      already reached the latch threshold, while an excursion of 0.01 latches but sells nothing. */
  lemma LatchBeforeFirstStage(store: map<Key, bool>, rate: real)
    ensures rate >= Targets.stages[0].threshold ==> BreakEven.Reached(Latch, rate)
    ensures BreakEven.Reached(Latch, 0.01) && Ladder.Decide(Targets, store, 0.01) == Hold
  {
    assert !Ladder.Eligible(Targets.stages, store, 0.01, 0);
    assert !Ladder.Eligible(Targets.stages, store, 0.01, 1);
  }
}
