/**
 * The open position as the strategies see it: a few scalar fields the host owns and the
 * per-trade key/value store ("custom data") in which the strategies remember which
 * milestones they have already acted on.
 */
module Trades {
  import opened Wrappers

  /** Keys of the per-trade stores, one constructor per string key the strategies use. */
  datatype Key =
    | BeActivated              // "be_activated"
    | StageSold(stage: nat)    // "stage_{stage}_sold"
    | StageBought(stage: nat)  // "stage_{stage}_bought"
    | PlSellHalf               // "pl_sell_half"
    | PlSell34                 // "pl_sell_3_4"
    | TargetHit(target: nat)   // "target{target}_hit"

  /** A stored flag read with a false default, as `get_custom_data(key, default=False)`
      or `custom_info.get(key, False)` do: an absent key reads as false. */
  predicate Flag(store: map<Key, bool>, k: Key) {
    k in store && store[k]
  }

  /** The host's `stoploss_from_open(open_relative_stop, current_profit, is_short, leverage)`,
      whose code is not part of this model; the callbacks receive it as a parameter. */
  type StopFromOpen = (real, real, bool, real) -> real

  class Trade {
    var openRate: real
    var stakeAmount: real
    var amount: real
    var isShort: bool
    /** `trade.trade_direction`, compared by the strategies against "long" and "short". */
    var tradeDirection: string
    var leverage: real
    /** Boolean entries of the host-persisted custom data (`get_custom_data`/`set_custom_data`).
        The INJ class's `get_custom_value`/`set_custom_value` are read as this store. */
    var customData: map<Key, bool>
    /** The custom-data entry "best_price"; 0 when nothing is stored, the default the source reads with. */
    var bestPrice: real
    /** The `trade.custom_info` dictionary two classes read and write, taken as a per-trade
        dictionary that starts empty. The host's trade defines no such attribute; the
        as-written members of those classes model what then happens. */
    var customInfo: map<Key, bool>

    constructor (openRate: real, stakeAmount: real, amount: real, isShort: bool, leverage: real)
      ensures this.openRate == openRate && this.stakeAmount == stakeAmount && this.amount == amount
      ensures this.isShort == isShort && this.leverage == leverage
      ensures tradeDirection == (if isShort then "short" else "long")
      ensures customData == map[] && bestPrice == 0.0 && customInfo == map[]
    {
      this.openRate := openRate;
      this.stakeAmount := stakeAmount;
      this.amount := amount;
      this.isShort := isShort;
      this.leverage := leverage;
      tradeDirection := if isShort then "short" else "long";
      customData := map[];
      bestPrice := 0.0;
      customInfo := map[];
    }
  }

  /** `current_price_rate`: the price excursion in the trade's favour, `current/open - 1` for a
      long and `open/current - 1` for a short; the division raises on a zero divisor. */
  function PriceRate(openRate: real, currentRate: real, isShort: bool): (r: Result<real>)
    ensures r.Raise? <==> (if isShort then currentRate == 0.0 else openRate == 0.0)
  {
    if isShort then
      if currentRate == 0.0 then Raise(ZeroDivisionError) else Ok(openRate / currentRate - 1.0)
    else
      if openRate == 0.0 then Raise(ZeroDivisionError) else Ok(currentRate / openRate - 1.0)
  }

  /** For positive prices, reaching an excursion of `t` is a plain price condition: a long has
      reached `t` when the price is at least `open*(1+t)`, a short when `open` is at least
      `current*(1+t)`; likewise for the strict comparison. */
  lemma PriceRateReaches(openRate: real, currentRate: real, isShort: bool, t: real)
    requires openRate > 0.0 && currentRate > 0.0
    ensures PriceRate(openRate, currentRate, isShort).Ok?
    ensures !isShort ==> (PriceRate(openRate, currentRate, isShort).value >= t <==> currentRate >= (1.0 + t) * openRate)
    ensures !isShort ==> (PriceRate(openRate, currentRate, isShort).value > t <==> currentRate > (1.0 + t) * openRate)
    ensures isShort ==> (PriceRate(openRate, currentRate, isShort).value >= t <==> openRate >= (1.0 + t) * currentRate)
    ensures isShort ==> (PriceRate(openRate, currentRate, isShort).value > t <==> openRate > (1.0 + t) * currentRate)
  {
    if isShort {
      ScaleBothSides(openRate / currentRate, currentRate, openRate, 1.0 + t);
    } else {
      ScaleBothSides(currentRate / openRate, openRate, currentRate, 1.0 + t);
    }
  }
}
