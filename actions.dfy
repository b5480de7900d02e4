/**
 * What one `adjust_trade_position` call decides, the flag it records for that decision,
 * and the stake change it hands back to the host.
 */
module Actions {
  import opened Wrappers
  import opened Trades

  /** A partial take-profit target: once the excursion reaches `threshold`, give back
      `fraction` of the base (the stake, or the position amount in one strategy). */
  datatype Stage = Stage(threshold: real, fraction: real)

  /** A DCA buy-in level: once the excursion falls to `drop` or below, add `fraction` of the stake. */
  datatype Level = Level(drop: real, fraction: real)

  datatype Action =
    | Hold               // return None: no position change
    | Buy(level: nat)    // DCA level `level` (0-based, key "stage_{level}_bought")
    | Sell(stage: nat)   // partial exit of stage `stage` (1-based, key "stage_{stage}_sold")
    | CloseAll           // give back the whole base

  /** The "already acted" key an action records, if any. */
  function KeyOf(a: Action): Option<Key> {
    match a
    case Buy(i) => Some(StageBought(i))
    case Sell(k) => Some(StageSold(k))
    case _ => None
  }

  /** Record that `a` was acted on: its key (if any) is set to true and nothing else changes. */
  function Mark(store: map<Key, bool>, a: Action): (r: map<Key, bool>)
    ensures forall k :: Flag(store, k) ==> Flag(r, k)
    ensures forall k :: Flag(r, k) && !Flag(store, k) ==> KeyOf(a) == Some(k)
    ensures KeyOf(a).Some? ==> Flag(r, KeyOf(a).value)
    ensures KeyOf(a).None? ==> r == store
  {
    match KeyOf(a)
    case Some(k) => store[k := true]
    case None => store
  }

  /** The action names a stage or a level that exists in the configuration. */
  predicate Fits(a: Action, stages: seq<Stage>, levels: seq<Level>) {
    match a
    case Buy(i) => i < |levels|
    case Sell(k) => 1 <= k <= |stages|
    case _ => true
  }

  /** The value `adjust_trade_position` returns for `a`: `fraction * stake` for a buy-in,
      `-(sellBase * fraction)` for a partial exit, `-sellBase` for a full exit. */
  function Payout(a: Action, stages: seq<Stage>, levels: seq<Level>, stake: real, sellBase: real): (r: Option<real>)
    requires Fits(a, stages, levels)
    ensures r.None? <==> a.Hold?
    ensures a.Buy? && stake >= 0.0 && levels[a.level].fraction >= 0.0 ==> r.value >= 0.0
    ensures a.Sell? && sellBase >= 0.0 && stages[a.stage - 1].fraction >= 0.0 ==> r.value <= 0.0
    ensures a.CloseAll? ==> r == Some(-sellBase)
  {
    match a
    case Hold => None
    case Buy(i) => Some(levels[i].fraction * stake)
    case Sell(k) => Some(-(sellBase * stages[k - 1].fraction))
    case CloseAll => Some(-sellBase)
  }
}
