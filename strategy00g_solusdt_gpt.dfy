/**
 * Strategy00G_SOLUSDT_GPT: four profit targets over the open rate (1.5%, 3.9%, 12.7% and 19.5%).
 * `custom_stoploss` trails the stop once any target is reached; `custom_sell` tags the first
 * target reached that has not been tagged before and records it in `trade.custom_info`.
 * The host's trade has no such attribute: `SellAsWritten` is `custom_sell` as it then runs,
 * `CustomSell` the callback on a working dictionary.
 * The class does not set `use_custom_stoploss`: the host calls `custom_stoploss` only when the
 * bot's configuration turns it on, and the model describes what it does when it does.
 */
module Strategy00gSolusdtGpt {
  import opened Wrappers
  import opened Trades

  /** One entry of `profit_targets`. */
  datatype Target = Target(profitPercent: real, sellRatio: real)

  const ProfitTargets: seq<Target> :=
    [Target(0.015, 0.2), Target(0.039, 0.3), Target(0.127, 0.5), Target(0.195, 1.0)]

  /** The class's initial `stoploss`. */
  const Stoploss: real := -0.05

  /** `current_rate >= open_rate * (1 + profit_percent)` for target `k`. */
  predicate Reached(openRate: real, currentRate: real, k: nat)
    requires k < |ProfitTargets|
  {
    currentRate >= openRate * (1.0 + ProfitTargets[k].profitPercent)
  }

  predicate AnyReached(openRate: real, currentRate: real) {
    exists k :: 0 <= k < |ProfitTargets| && Reached(openRate, currentRate, k)
  }

  /** The stop returned on a hit: `max(stoploss, 1 - current_rate * (1 + stoploss) / open_rate)`,
      raising on a zero open rate. */
  function TrailedStop(openRate: real, currentRate: real): (r: Result<real>)
    ensures r.Raise? <==> openRate == 0.0
    ensures r.Ok? ==> r.value >= Stoploss
  {
    match Div(currentRate * (1.0 + Stoploss), openRate)
    case Raise(e) => Raise(e)
    case Ok(q) => Ok(if Stoploss >= 1.0 - q then Stoploss else 1.0 - q)
  }

  /** `custom_stoploss`: the loop returns at the first target reached, with a stop that does not
      depend on which target it is; with none reached, the initial stop. It never returns a
      stop below the initial one. */
  method CustomStoploss(trade: Trade, currentRate: real) returns (r: Result<real>)
    ensures r == if AnyReached(trade.openRate, currentRate) then TrailedStop(trade.openRate, currentRate) else Ok(Stoploss)
    ensures r.Ok? ==> r.value >= Stoploss
  {
    for i := 0 to |ProfitTargets|
      invariant forall j :: 0 <= j < i ==> !Reached(trade.openRate, currentRate, j)
    {
      var targetProfit := trade.openRate * (1.0 + ProfitTargets[i].profitPercent);
      if currentRate >= targetProfit {
        assert Reached(trade.openRate, currentRate, i);
        return TrailedStop(trade.openRate, currentRate);
      }
    }
    return Ok(Stoploss);
  }

  /** For a positive open rate the targets ascend, so the first target alone decides whether
      the stop trails. */
  lemma FirstTargetDecides(openRate: real, currentRate: real)
    requires openRate > 0.0
    ensures AnyReached(openRate, currentRate) <==> currentRate >= openRate * 1.015
  {
    if AnyReached(openRate, currentRate) {
      var k :| 0 <= k < |ProfitTargets| && Reached(openRate, currentRate, k);
      assert openRate * (1.0 + ProfitTargets[k].profitPercent) >= openRate * 1.015;
    } else {
      assert !Reached(openRate, currentRate, 0);
    }
  }

  /** The call raises exactly when the open rate is zero and the current rate is not negative
      (every target price is then zero and reached). */
  lemma RaisesOnZeroOpen(openRate: real, currentRate: real)
    ensures (AnyReached(openRate, currentRate) && TrailedStop(openRate, currentRate).Raise?)
            <==> openRate == 0.0 && currentRate >= 0.0
  {
    if openRate == 0.0 && currentRate >= 0.0 {
      assert Reached(openRate, currentRate, 0);
    }
  }

  /** Past the first target, the trailed stop is above the initial one exactly while
      `current_rate * 0.95 < open_rate * 1.05`; from there on the initial stop is returned. */
  lemma TrailsOnlyNearOpen(openRate: real, currentRate: real)
    requires openRate > 0.0 && currentRate >= openRate * 1.015
    ensures TrailedStop(openRate, currentRate).Ok?
    ensures TrailedStop(openRate, currentRate).value > Stoploss <==> currentRate * 0.95 < openRate * 1.05
  {
    var q := currentRate * (1.0 + Stoploss) / openRate;
    assert q * openRate == currentRate * 0.95;
    ScaleBothSides(q, openRate, currentRate * 0.95, 1.05);
  }

  /** The tag `custom_sell` returns: "none", or "sell_target{k}_hit". */
  datatype SellTag = NoTag | SellTarget(k: nat)

  /** The first target, from index `from` on, that is reached and whose "target{k}_hit" entry
      is not set. */
  function FirstUnhit(store: map<Key, bool>, openRate: real, currentRate: real, from: nat): (i: Option<nat>)
    requires from <= |ProfitTargets|
    decreases |ProfitTargets| - from
    ensures i.Some? ==> from <= i.value < |ProfitTargets| && Reached(openRate, currentRate, i.value)
                        && !Flag(store, TargetHit(i.value + 1))
    ensures i.Some? ==> forall j :: from <= j < i.value ==>
                          !(Reached(openRate, currentRate, j) && !Flag(store, TargetHit(j + 1)))
    ensures i.None? ==> forall j :: from <= j < |ProfitTargets| ==>
                          !(Reached(openRate, currentRate, j) && !Flag(store, TargetHit(j + 1)))
  {
    if from == |ProfitTargets| then None
    else if Reached(openRate, currentRate, from) && !Flag(store, TargetHit(from + 1)) then Some(from)
    else FirstUnhit(store, openRate, currentRate, from + 1)
  }

  /** One `custom_sell` call on a store: the tag and the store it leaves. */
  function Sell(store: map<Key, bool>, openRate: real, currentRate: real): (SellTag, map<Key, bool>)
  {
    match FirstUnhit(store, openRate, currentRate, 0)
    case None => (NoTag, store)
    case Some(i) => (SellTarget(i + 1), store[TargetHit(i + 1) := true])
  }

  /** `custom_sell`: the first target reached and not yet tagged is recorded and tagged. */
  method CustomSell(trade: Trade, currentRate: real) returns (tag: SellTag)
    modifies trade`customInfo
    ensures (tag, trade.customInfo) == Sell(old(trade.customInfo), trade.openRate, currentRate)
  {
    for i := 0 to |ProfitTargets|
      invariant trade.customInfo == old(trade.customInfo)
      invariant FirstUnhit(trade.customInfo, trade.openRate, currentRate, 0) == FirstUnhit(trade.customInfo, trade.openRate, currentRate, i)
    {
      var targetProfit := trade.openRate * (1.0 + ProfitTargets[i].profitPercent);
      var hit := if TargetHit(i + 1) in trade.customInfo then trade.customInfo[TargetHit(i + 1)] else false;
      if currentRate >= targetProfit && !hit {
        trade.customInfo := trade.customInfo[TargetHit(i + 1) := true];
        return SellTarget(i + 1);
      }
    }
    return NoTag;
  }

  /** `custom_sell` as written against a trade without `custom_info`: the `and` reads it only
      for a target that is reached, and the AttributeError is not caught. Wherever it returns,
      the corrected call on any store returns the same "none" and changes nothing. */
  function SellAsWritten(openRate: real, currentRate: real): (r: Result<SellTag>)
    ensures r.Raise? ==> r.error == AttributeError
    ensures r.Ok? ==> r.value == NoTag && forall store :: Sell(store, openRate, currentRate) == (NoTag, store)
  {
    if AnyReached(openRate, currentRate) then Raise(AttributeError) else Ok(NoTag)
  }

  /** For a positive open rate the as-written call raises exactly from the first target on,
      where the corrected call on a fresh trade tags target 1. */
  lemma RaisesFromFirstTarget(openRate: real, currentRate: real)
    requires openRate > 0.0
    ensures SellAsWritten(openRate, currentRate).Raise? <==> currentRate >= openRate * 1.015
    ensures currentRate >= openRate * 1.015 ==> Sell(map[], openRate, currentRate).0 == SellTarget(1)
  {
    FirstTargetDecides(openRate, currentRate);
    if currentRate >= openRate * 1.015 {
      assert Reached(openRate, currentRate, 0);
    }
  }

  /** A call sets at most one entry, from unset to true, and tags the target it sets. */
  lemma OneNewEntry(store: map<Key, bool>, openRate: real, currentRate: real)
    ensures var (tag, s) := Sell(store, openRate, currentRate);
            (tag == NoTag ==> s == store) &&
            (tag.SellTarget? ==> 1 <= tag.k <= |ProfitTargets| && !Flag(store, TargetHit(tag.k))
                                 && s == store[TargetHit(tag.k) := true])
  {
  }

  /** The tags of successive `custom_sell` calls on one trade, one per current rate. */
  function SellRun(store: map<Key, bool>, openRate: real, rates: seq<real>): (tags: seq<SellTag>)
    decreases |rates|
    ensures |tags| == |rates|
  {
    if rates == [] then []
    else
      var (tag, s) := Sell(store, openRate, rates[0]);
      [tag] + SellRun(s, openRate, rates[1..])
  }

  function CountTag(tags: seq<SellTag>, t: SellTag): nat
    decreases |tags|
  {
    if tags == [] then 0
    else (if tags[0] == t then 1 else 0) + CountTag(tags[1..], t)
  }

  /** Over any run of calls each target is tagged at most once, and never if it was already
      recorded when the run began. */
  lemma {:induction false} EachTagOnce(store: map<Key, bool>, openRate: real, rates: seq<real>, k: nat)
    ensures CountTag(SellRun(store, openRate, rates), SellTarget(k)) <= (if Flag(store, TargetHit(k)) then 0 else 1)
    decreases |rates|
  {
    if rates != [] {
      var (tag, s) := Sell(store, openRate, rates[0]);
      var tags := SellRun(store, openRate, rates);
      assert tags[0] == tag && tags[1..] == SellRun(s, openRate, rates[1..]);
      EachTagOnce(s, openRate, rates[1..], k);
      OneNewEntry(store, openRate, rates[0]);
    }
  }
}
