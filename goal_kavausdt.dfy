/**
 * Strategy_Goal_KAVAUSDT: long entries on an EMA crossover, exits on the crossunder, a
 * break-even latch at `target_percent * target_stage_1` and a three-stage take-profit ladder
 * whose thresholds are fractions of `target_percent` = 0.109. Neither callback catches
 * exceptions.
 *
 * As written, the ladder reads its "stage_k_sold" flags but never records them (the calls
 * meant to set them are reads with a default), so stage 1 sells 0.3 of the stake on every call
 * once the excursion reaches 0.0109; and stage 3 pays `stage_2_sell_amount` (0.3) where
 * `stage_3_sell_amount` (0.25) is declared. `AdjustTradePosition` keeps both;
 * `AdjustTradePositionIntended` records the flags and pays 0.25 at stage 3.
 *
 * The class sets neither `position_adjustment_enable` nor `use_custom_stoploss`: the host
 * calls these two callbacks only when the bot's configuration turns them on, and the model
 * describes what they do when it does.
 */
module GoalKavausdt {
  import opened Wrappers
  import opened Trades
  import opened Actions
  import Ladder
  import Adjust
  import Runs
  import BreakEven
  import opened Frames

  const TargetPercent: real := 0.109

  /** The ladder the code runs: stage 3 returns the stage-2 amount. */
  const WrittenTargets := Ladder.Config(
    [Stage(TargetPercent * 0.1, 0.3), Stage(TargetPercent * 0.3, 0.3), Stage(TargetPercent * 0.65, 0.3)], TargetPercent)

  /** The ladder the declared settings describe. */
  const IntendedTargets := Ladder.Config(
    [Stage(TargetPercent * 0.1, 0.3), Stage(TargetPercent * 0.3, 0.3), Stage(TargetPercent * 0.65, 0.25)], TargetPercent)

  const Latch := BreakEven.Latch(TargetPercent * 0.1, false, false, 0.002)

  function LongEntries(c: seq<Candle>): (m: seq<bool>)
    ensures |m| == |c|
  {
    seq(|c|, i requires 0 <= i < |c| => CrossedAbove(c, i))
  }

  function LongExits(c: seq<Candle>): (m: seq<bool>)
    ensures |m| == |c|
  {
    seq(|c|, i requires 0 <= i < |c| => CrossedBelow(c, i))
  }

  method PopulateEntryTrend(df: DataFrame)
    requires df.Valid()
    modifies df
    ensures df.Valid()
    ensures df.columns == old(df.columns)[EnterLong := Where(old(df.Column(EnterLong)), LongEntries(df.candles), One)]
  {
    df.Loc(LongEntries(df.candles), EnterLong, One);
  }

  method PopulateExitTrend(df: DataFrame)
    requires df.Valid()
    modifies df
    ensures df.Valid()
    ensures df.columns == old(df.columns)[ExitLong := Where(old(df.Column(ExitLong)), LongExits(df.candles), One)]
  {
    df.Loc(LongExits(df.candles), ExitLong, One);
  }

  /** `custom_stoploss`, exceptions included. */
  method CustomStoploss(trade: Trade, currentRate: real, currentProfit: real, sfo: StopFromOpen)
    returns (r: Result<Option<real>>)
    modifies trade`customData
    ensures (r, trade.customData) == BreakEven.Call(Latch, old(trade.customData), trade.openRate, currentRate,
                                                    trade.isShort, currentProfit, trade.leverage, sfo)
  {
    r := BreakEven.Apply(trade, Latch, currentRate, currentProfit, sfo);
  }

  /** What one call returns as written: the ladder's decision on a store it never changes. */
  function CallAsWritten(store: map<Key, bool>, rate: real, stake: real): (r: Option<real>)
  {
    Payout(Ladder.Decide(WrittenTargets, store, rate), WrittenTargets.stages, [], stake, stake)
  }

  /** `adjust_trade_position` as written: the `if/elif` chain over the three flags, which it
      only reads; the method modifies nothing. */
  method AdjustTradePosition(trade: Trade, currentRate: real) returns (r: Result<Option<real>>)
    ensures match PriceRate(trade.openRate, currentRate, false)
            case Raise(e) => r == Raise(e)
            case Ok(rate) => r == Ok(CallAsWritten(trade.customData, rate, trade.stakeAmount))
  {
    var stage1 := Flag(trade.customData, StageSold(1));
    var stage2 := Flag(trade.customData, StageSold(2));
    var stage3 := Flag(trade.customData, StageSold(3));
    var pr := PriceRate(trade.openRate, currentRate, false);
    if pr.Raise? {
      return Raise(pr.error);
    }
    var rate := pr.value;
    var a: Action;
    if !stage1 && rate >= TargetPercent * 0.1 {
      r := Ok(Some(-(trade.stakeAmount * 0.3)));
      a := Sell(1);
    } else if !stage2 && rate >= TargetPercent * 0.3 {
      r := Ok(Some(-(trade.stakeAmount * 0.3)));
      a := Sell(2);
    } else if !stage3 && rate >= TargetPercent * 0.65 {
      r := Ok(Some(-(trade.stakeAmount * 0.3)));
      a := Sell(3);
    } else if rate >= TargetPercent {
      r := Ok(Some(-trade.stakeAmount));
      a := CloseAll;
    } else {
      r := Ok(None);
      a := Hold;
    }
    assert a == Ladder.Decide(WrittenTargets, trade.customData, rate) by {
      if a.Sell? {
        assert Ladder.Eligible(WrittenTargets.stages, trade.customData, rate, a.stage - 1);
      }
    }
    assert r.value == Payout(a, WrittenTargets.stages, [], trade.stakeAmount, trade.stakeAmount);
  }

  /** Flags never recorded: on a trade whose stage 1 is not recorded, every call at an
      excursion of 0.0109 or more sells 0.3 of the stake again, so a run of such calls gives
      back 0.3 of the stake per call without end. */
  lemma StageOneRepeats(store: map<Key, bool>, rates: seq<real>, stake: real)
    requires !Flag(store, StageSold(1))
    requires forall i :: 0 <= i < |rates| ==> rates[i] >= TargetPercent * 0.1
    ensures forall i :: 0 <= i < |rates| ==> CallAsWritten(store, rates[i], stake) == Some(-(stake * 0.3))
  {
    forall i | 0 <= i < |rates|
      ensures CallAsWritten(store, rates[i], stake) == Some(-(stake * 0.3))
    {
      assert Ladder.Eligible(WrittenTargets.stages, store, rates[i], 0);
      assert CallAsWritten(store, rates[i], stake).value == -(stake * 0.3);
    }
  }

  /** Stage 3 as written: with stages 1 and 2 recorded, an excursion of 0.07085 or more gives
      back 0.3 of the stake, where the intended ladder gives back the declared 0.25. */
  lemma StageThreeAsWritten(store: map<Key, bool>, rate: real, stake: real)
    requires Flag(store, StageSold(1)) && Flag(store, StageSold(2)) && !Flag(store, StageSold(3))
    requires TargetPercent * 0.65 <= rate
    ensures CallAsWritten(store, rate, stake) == Some(-(stake * 0.3))
    ensures Adjust.Call([], IntendedTargets, store, rate, stake, stake).0 == Some(-(stake * 0.25))
  {
    assert Ladder.Eligible(WrittenTargets.stages, store, rate, 2);
    assert Ladder.Eligible(IntendedTargets.stages, store, rate, 2);
    assert CallAsWritten(store, rate, stake).value == -(stake * 0.3);
    assert Adjust.Call([], IntendedTargets, store, rate, stake, stake).0.value == -(stake * 0.25);
  }

  /** The ladder as intended: record each stage's flag and pay the declared amounts. */
  method AdjustTradePositionIntended(trade: Trade, currentRate: real) returns (r: Result<Option<real>>)
    modifies trade`customData
    ensures match PriceRate(trade.openRate, currentRate, false)
            case Raise(e) => r == Raise(e) && trade.customData == old(trade.customData)
            case Ok(rate) =>
              var c := Adjust.Call([], IntendedTargets, old(trade.customData), rate, trade.stakeAmount, trade.stakeAmount);
              r == Ok(c.0) && trade.customData == c.1
  {
    r := Adjust.Apply(trade, [], IntendedTargets, false, currentRate, trade.stakeAmount);
  }

  /** As intended, each stage sells at most once over any run of calls. */
  lemma IntendedSellsOnce(store: map<Key, bool>, rates: seq<real>, k: nat)
    requires 1 <= k <= 3
    ensures Runs.Count(Runs.Run([], IntendedTargets, store, rates), Sell(k)) <= 1
  {
    Runs.AtMostOnce([], IntendedTargets, store, rates, Sell(k));
  }
}
