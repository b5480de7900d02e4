/**
 * The staged take-profit ladder of the Goal strategies: an `if/elif` chain that sells
 * stage 1, else stage 2 (else stage 3), each only while its "stage_k_sold" flag is unset
 * and the excursion has reached its threshold, else closes the whole position at the
 * final target, else does nothing.
 */
module Ladder {
  import opened Wrappers
  import opened Trades
  import opened Actions

  /** The ordered stages (the element at index j is stage j+1) and the final target. */
  datatype Config = Config(stages: seq<Stage>, target: real)

  /** Stage j+1 may fire: it is not sold yet and the excursion has reached its threshold. */
  predicate Eligible(stages: seq<Stage>, store: map<Key, bool>, rate: real, j: int)
    requires 0 <= j < |stages|
  {
    !Flag(store, StageSold(j + 1)) && rate >= stages[j].threshold
  }

  /** The first eligible stage index at or after `k`: the branch of the `if/elif` chain taken. */
  function FirstOpenStage(stages: seq<Stage>, store: map<Key, bool>, rate: real, k: nat): (r: Option<nat>)
    decreases |stages| - k
    ensures r.Some? ==> k <= r.value < |stages| && Eligible(stages, store, rate, r.value)
    ensures r.Some? ==> forall j :: k <= j < r.value ==> !Eligible(stages, store, rate, j)
    ensures r.None? ==> forall j :: k <= j < |stages| ==> !Eligible(stages, store, rate, j)
  {
    if k >= |stages| then None
    else if Eligible(stages, store, rate, k) then Some(k)
    else FirstOpenStage(stages, store, rate, k + 1)
  }

  /** The decision of one call: the lowest eligible stage, else a full exit at the target. */
  function Decide(cfg: Config, store: map<Key, bool>, rate: real): (a: Action)
    ensures Fits(a, cfg.stages, []) && !a.Buy?
    ensures a.Sell? ==> Eligible(cfg.stages, store, rate, a.stage - 1)
    ensures a.Sell? ==> forall j :: 0 <= j < a.stage - 1 ==> !Eligible(cfg.stages, store, rate, j)
    ensures !a.Sell? ==> forall j :: 0 <= j < |cfg.stages| ==> !Eligible(cfg.stages, store, rate, j)
    ensures a.CloseAll? <==> !a.Sell? && rate >= cfg.target
  {
    match FirstOpenStage(cfg.stages, store, rate, 0)
    case Some(j) => Sell(j + 1)
    case None => if rate >= cfg.target then CloseAll else Hold
  }

  /** Thresholds never decrease from one stage to the next. */
  predicate Ascending(stages: seq<Stage>) {
    forall i, j :: 0 <= i < j < |stages| ==> stages[i].threshold <= stages[j].threshold
  }

  /** With ascending thresholds and no stage sold yet, any excursion that reaches some stage
      sells stage 1 first, never a later one. */
  lemma LowestStageFirst(cfg: Config, store: map<Key, bool>, rate: real, j: nat)
    requires Ascending(cfg.stages) && j < |cfg.stages| && rate >= cfg.stages[j].threshold
    requires forall k :: 1 <= k <= |cfg.stages| ==> !Flag(store, StageSold(k))
    ensures Decide(cfg, store, rate) == Sell(1)
  {
    assert Eligible(cfg.stages, store, rate, 0);
  }
}
