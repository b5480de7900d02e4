/**
 * Strategy_Goal_Vidra_SUI_EMA_30: long entries on a bid-heavy book with a large order, rising
 * volume, a falling close and the 15-minute EMA20 above the EMA30; exit when the EMA30 is
 * above the EMA20; four DCA buy-ins and a two-stage ladder. Its flags live in the trade's
 * `custom_info` dictionary rather than in the persisted custom data. The host's trade has no
 * such attribute: `AdjustAsWritten` is the callback as it then runs, `AdjustTradePosition`
 * the callback on a working dictionary.
 */
module GoalVidraSuiEma30 {
  import opened Wrappers
  import opened Trades
  import opened Actions
  import Ladder
  import Adjust
  import opened OrderBook
  import opened Frames

  /** The "5m" settings: delta 1.3, depth 15, volume threshold 20000. */
  const BidsAskDelta: real := 1.3
  const Depth: int := 15
  const VolumeThreshold: real := 20000.0

  const Levels := [Level(-0.02, 0.15), Level(-0.04, 0.15), Level(-0.06, 0.10), Level(-0.08, 0.10)]

  /** 0.2 of the stake at 0.02, 0.3 at 0.04, the rest at 0.08. */
  const Targets := Ladder.Config([Stage(0.02, 0.2), Stage(0.04, 0.3)], 0.08)

  function LongEntries(c: seq<Candle>, depth: bool, large: bool): (m: seq<bool>)
    ensures |m| == |c|
  {
    seq(|c|, i requires 0 <= i < |c| =>
      depth && large && VolumeRises(c, i) && CloseFalls(c, i) && c[i].ema20At15m > c[i].ema30At15m)
  }

  function LongExits(c: seq<Candle>): (m: seq<bool>)
    ensures |m| == |c|
  {
    seq(|c|, i requires 0 <= i < |c| => c[i].ema30At15m > c[i].ema20At15m)
  }

  method PopulateEntryTrend(df: DataFrame, book: Book) returns (r: Result<()>)
    requires df.Valid()
    modifies df
    ensures df.Valid()
    ensures match LoggedDepth(book, Depth, BidsAskDelta, false)
            case Raise(e) => r == Raise(e) && df.columns == old(df.columns)
            case Ok(depthOk) =>
              r.Ok? && df.columns == old(df.columns)[EnterLong := Where(old(df.Column(EnterLong)),
                         LongEntries(df.candles, depthOk, LargeOrders(book, VolumeThreshold)), One)]
  {
    var d := LoggedDepth(book, Depth, BidsAskDelta, false);
    if d.Raise? {
      return Raise(d.error);
    }
    df.Loc(LongEntries(df.candles, d.value, LargeOrders(book, VolumeThreshold)), EnterLong, One);
    return Ok(());
  }

  method PopulateExitTrend(df: DataFrame)
    requires df.Valid()
    modifies df
    ensures df.Valid()
    ensures df.columns == old(df.columns)[ExitLong := Where(old(df.Column(ExitLong)), LongExits(df.candles), One)]
  {
    df.Loc(LongExits(df.candles), ExitLong, One);
  }

  /** The EMA cross decides both: no row is an entry and an exit, and a row with the two EMAs
      apart is an exit exactly when it fails the entry's EMA condition. */
  lemma EmaCrossSplitsRows(c: seq<Candle>, depth: bool, large: bool, i: nat)
    requires i < |c|
    ensures LongEntries(c, depth, large)[i] ==> !LongExits(c)[i]
    ensures c[i].ema20At15m != c[i].ema30At15m ==> (LongExits(c)[i] <==> !(c[i].ema20At15m > c[i].ema30At15m))
  {
  }

  /** `adjust_trade_position` on `trade.custom_info`: the DCA scan, then the ladder on the stake.
      An exception yields None and no change; the persisted custom data is never touched. */
  method AdjustTradePosition(trade: Trade, currentRate: real) returns (r: Option<real>)
    modifies trade`customInfo
    ensures match PriceRate(trade.openRate, currentRate, false)
            case Raise(_) => r.None? && trade.customInfo == old(trade.customInfo)
            case Ok(rate) =>
              var c := Adjust.Call(Levels, Targets, old(trade.customInfo), rate, trade.stakeAmount, trade.stakeAmount);
              r == c.0 && trade.customInfo == c.1
  {
    var rate := PriceRate(trade.openRate, currentRate, false);
    if rate.Raise? {
      return None;
    }
    var ret, next := Adjust.Step(Levels, Targets, trade.customInfo, rate.value, trade.stakeAmount, trade.stakeAmount);
    trade.customInfo := next;
    r := ret;
  }

  /** On a fresh trade, any drawdown of 2% or more buys 0.15 of the stake at level 0 and
      records only that level. */
  lemma FirstBuyIn(rate: real, stake: real)
    requires rate <= -0.02
    ensures Adjust.Call(Levels, Targets, map[], rate, stake, stake) == (Some(0.15 * stake), map[StageBought(0) := true])
  {
    assert Adjust.Due(Levels, map[], rate, 0);
    assert Adjust.Decide(Levels, Targets, map[], rate) == Buy(0);
    assert Payout(Buy(0), Targets.stages, Levels, stake, stake).value == 0.15 * stake;
  }

  /** `adjust_trade_position` as written against a trade without `custom_info`: once the
      excursion is computed, the first flag read of the DCA scan raises AttributeError inside
      the `try`, so every call returns None, buys nothing and sells nothing. */
  function AdjustAsWritten(openRate: real, currentRate: real): (r: Option<real>)
    ensures r == None
  {
    Caught(match PriceRate(openRate, currentRate, false)
           case Raise(e) => Raise(e)
           case Ok(_) => Raise(AttributeError))
  }

  /** Where a fresh trade's first buy-in is due, the as-written call returns None. */
  lemma MissedBuyIn(openRate: real, currentRate: real, stake: real)
    requires PriceRate(openRate, currentRate, false).Ok?
    requires PriceRate(openRate, currentRate, false).value <= -0.02
    ensures AdjustAsWritten(openRate, currentRate) == None
    ensures Adjust.Call(Levels, Targets, map[], PriceRate(openRate, currentRate, false).value, stake, stake)
            == (Some(0.15 * stake), map[StageBought(0) := true])
  {
    FirstBuyIn(PriceRate(openRate, currentRate, false).value, stake);
  }

  lemma LevelsInOrder(store: map<Key, bool>, rate: real)
    ensures var a := Adjust.Decide(Levels, Targets, store, rate);
            a.Buy? ==> forall j :: 0 <= j < a.level ==> Flag(store, StageBought(j))
  {
    assert Adjust.Descending(Levels);
    Adjust.BuysInOrder(Levels, Targets, store, rate);
  }
}
