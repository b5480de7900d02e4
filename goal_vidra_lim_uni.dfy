/**
 * Strategy_Goal_Vidra_RSI_lim_UNI: long entries on a bid-heavy book with a large order,
 * rising volume, a falling close and hourly RSI below 35; exit on hourly RSI above 70; four
 * DCA buy-ins, a two-stage ladder on the stake, and a time exit two days after stage 1.
 */
module GoalVidraLimUni {
  import opened Wrappers
  import opened Trades
  import opened Actions
  import Ladder
  import Adjust
  import opened OrderBook
  import opened Frames

  /** The "5m" settings (the strategy's own timeframe): delta 1.2, depth 5, volume 700. */
  const BidsAskDelta: real := 1.2
  const Depth: int := 5
  const VolumeThreshold: real := 700.0

  const Levels := [Level(-0.02, 0.1), Level(-0.04, 0.1), Level(-0.06, 0.15), Level(-0.08, 0.15)]

  /** 0.33 of the stake at 0.03, 0.5 at 0.06, the rest at 0.1. */
  const Targets := Ladder.Config([Stage(0.03, 0.33), Stage(0.06, 0.5)], 0.1)

  /** Whole days a trade must have been open before the time exit. */
  const ExitDays: int := 2

  function LongEntries(c: seq<Candle>, depth: bool, large: bool): (m: seq<bool>)
    ensures |m| == |c|
  {
    seq(|c|, i requires 0 <= i < |c| => depth && large && VolumeRises(c, i) && CloseFalls(c, i) && c[i].rsi1h < 35.0)
  }

  function LongExits(c: seq<Candle>): (m: seq<bool>)
    ensures |m| == |c|
  {
    seq(|c|, i requires 0 <= i < |c| => c[i].rsi1h > 70.0)
  }

  method PopulateEntryTrend(df: DataFrame, book: Book) returns (r: Result<()>)
    requires df.Valid()
    modifies df
    ensures df.Valid()
    ensures match LoggedDepth(book, Depth, BidsAskDelta, false)
            case Raise(e) => r == Raise(e) && df.columns == old(df.columns)
            case Ok(depthOk) =>
              r.Ok? && df.columns == old(df.columns)[EnterLong := Where(old(df.Column(EnterLong)),
                         LongEntries(df.candles, depthOk, LargeOrders(book, VolumeThreshold)), One)]
  {
    var d := LoggedDepth(book, Depth, BidsAskDelta, false);
    if d.Raise? {
      return Raise(d.error);
    }
    df.Loc(LongEntries(df.candles, d.value, LargeOrders(book, VolumeThreshold)), EnterLong, One);
    return Ok(());
  }

  method PopulateExitTrend(df: DataFrame)
    requires df.Valid()
    modifies df
    ensures df.Valid()
    ensures df.columns == old(df.columns)[ExitLong := Where(old(df.Column(ExitLong)), LongExits(df.candles), One)]
  {
    df.Loc(LongExits(df.candles), ExitLong, One);
  }

  /** Entry and exit both read the hourly RSI, on opposite sides of 35 and 70. */
  lemma EntryNeverExit(c: seq<Candle>, depth: bool, large: bool, i: nat)
    requires i < |c|
    ensures LongEntries(c, depth, large)[i] ==> !LongExits(c)[i]
  {
  }

  /** One `adjust_trade_position` call, `days` being the whole days since the trade opened:
      the time exit is checked before the excursion is computed, then the DCA scan and the
      ladder decide. An exception becomes `None` with no change. */
  function Call(store: map<Key, bool>, openRate: real, currentRate: real, stake: real, days: int)
    : (out: (Option<real>, map<Key, bool>))
    ensures days >= ExitDays && Flag(store, StageSold(1)) ==> out == (Some(-stake), store)
    ensures openRate == 0.0 && !(days >= ExitDays && Flag(store, StageSold(1))) ==> out == (None, store)
  {
    if days >= ExitDays && Flag(store, StageSold(1)) then (Some(-stake), store)
    else
      match PriceRate(openRate, currentRate, false)
      case Raise(_) => (None, store)
      case Ok(rate) => Adjust.Call(Levels, Targets, store, rate, stake, stake)
  }

  method AdjustTradePosition(trade: Trade, currentRate: real, days: int) returns (r: Option<real>)
    modifies trade`customData
    ensures (r, trade.customData) == Call(old(trade.customData), trade.openRate, currentRate, trade.stakeAmount, days)
  {
    if days >= ExitDays && Flag(trade.customData, StageSold(1)) {
      return Some(-trade.stakeAmount);
    }
    var out := Adjust.Apply(trade, Levels, Targets, false, currentRate, trade.stakeAmount);
    r := Caught(out);
  }

  /** The time exit overrides everything: once stage 1 is sold and two days have passed, a
      call closes the whole stake whatever the price, even where a buy-in would be due. */
  lemma TimeExitFirst(store: map<Key, bool>, openRate: real, currentRate: real, stake: real, days: int)
    requires days >= ExitDays && Flag(store, StageSold(1))
    requires openRate > 0.0 && currentRate <= 0.92 * openRate && !Flag(store, StageBought(0))
    ensures Adjust.Decide(Levels, Targets, store, PriceRate(openRate, currentRate, false).value) == Buy(0)
    ensures Call(store, openRate, currentRate, stake, days) == (Some(-stake), store)
  {
    var rate := PriceRate(openRate, currentRate, false).value;
    assert rate == currentRate / openRate - 1.0;
    ScaleBothSides(currentRate / openRate, openRate, currentRate, 0.92);
    assert Adjust.Due(Levels, store, rate, 0);
  }

  /** Before two days, or before stage 1 is sold, a call is the plain DCA-then-ladder decision. */
  lemma NoTimeExitBefore(store: map<Key, bool>, openRate: real, currentRate: real, stake: real, days: int)
    requires days < ExitDays || !Flag(store, StageSold(1))
    requires openRate != 0.0
    ensures Call(store, openRate, currentRate, stake, days)
            == Adjust.Call(Levels, Targets, store, currentRate / openRate - 1.0, stake, stake)
  {
  }

  /** The four levels descend, so buy-ins happen in level order. */
  lemma LevelsInOrder(store: map<Key, bool>, rate: real)
    ensures var a := Adjust.Decide(Levels, Targets, store, rate);
            a.Buy? ==> forall j :: 0 <= j < a.level ==> Flag(store, StageBought(j))
  {
    assert Adjust.Descending(Levels);
    Adjust.BuysInOrder(Levels, Targets, store, rate);
  }
}
