/**
 * One `adjust_trade_position` call of the Goal strategies on a computed excursion: the DCA
 * buy-in levels are scanned first (a `for` loop that returns on the first level reached and
 * not yet bought), and only when none is due does the take-profit ladder decide. Strategies
 * without buy-ins use an empty level list.
 */
module Adjust {
  import opened Wrappers
  import opened Trades
  import opened Actions
  import Ladder

  /** Level i is due: its "stage_{i}_bought" flag is unset and the excursion has fallen to it. */
  predicate Due(levels: seq<Level>, store: map<Key, bool>, rate: real, i: int)
    requires 0 <= i < |levels|
  {
    !Flag(store, StageBought(i)) && rate <= levels[i].drop
  }

  /** The first due level at or after `k`. */
  function FirstDueLevel(levels: seq<Level>, store: map<Key, bool>, rate: real, k: nat): (r: Option<nat>)
    decreases |levels| - k
    ensures r.Some? ==> k <= r.value < |levels| && Due(levels, store, rate, r.value)
    ensures r.Some? ==> forall j :: k <= j < r.value ==> !Due(levels, store, rate, j)
    ensures r.None? ==> forall j :: k <= j < |levels| ==> !Due(levels, store, rate, j)
  {
    if k >= |levels| then None
    else if Due(levels, store, rate, k) then Some(k)
    else FirstDueLevel(levels, store, rate, k + 1)
  }

  /** The source's `for level, amount in zip(dca_levels, dca_buy_amounts)` loop: it returns the
      index of the first due level, or nothing when the loop runs to its end. */
  method ScanLevels(levels: seq<Level>, store: map<Key, bool>, rate: real) returns (hit: Option<nat>)
    ensures hit == FirstDueLevel(levels, store, rate, 0)
    ensures hit.Some? ==> hit.value < |levels| && Due(levels, store, rate, hit.value)
  {
    var i := 0;
    while i < |levels|
      invariant 0 <= i <= |levels|
      invariant FirstDueLevel(levels, store, rate, 0) == FirstDueLevel(levels, store, rate, i)
    {
      if !Flag(store, StageBought(i)) && rate <= levels[i].drop {
        return Some(i);
      }
      i := i + 1;
    }
    return None;
  }

  /** The decision of one call: a due buy-in level first, else the ladder. */
  function Decide(levels: seq<Level>, cfg: Ladder.Config, store: map<Key, bool>, rate: real): (a: Action)
    ensures Fits(a, cfg.stages, levels)
    ensures a.Buy? <==> exists i :: 0 <= i < |levels| && Due(levels, store, rate, i)
    ensures a.Buy? ==> Due(levels, store, rate, a.level)
                       && forall j :: 0 <= j < a.level ==> !Due(levels, store, rate, j)
    ensures !a.Buy? ==> a == Ladder.Decide(cfg, store, rate)
  {
    match FirstDueLevel(levels, store, rate, 0)
    case Some(i) => Buy(i)
    case None => Ladder.Decide(cfg, store, rate)
  }

  /** What one call returns and the store after it: buy-ins pay `fraction * stake`, sells give
      back `fraction * sellBase`, and the action's flag (if any) is recorded. */
  function Call(levels: seq<Level>, cfg: Ladder.Config, store: map<Key, bool>, rate: real,
                stake: real, sellBase: real): (Option<real>, map<Key, bool>)
  {
    var a := Decide(levels, cfg, store, rate);
    (Payout(a, cfg.stages, levels, stake, sellBase), Mark(store, a))
  }

  /** One call on a flag store: scan the buy-in levels, else take the ladder's branch; return
      the stake change and the store with the action's flag recorded. */
  method Step(levels: seq<Level>, cfg: Ladder.Config, store: map<Key, bool>, rate: real,
              stake: real, sellBase: real) returns (ret: Option<real>, next: map<Key, bool>)
    ensures (ret, next) == Call(levels, cfg, store, rate, stake, sellBase)
  {
    var hit := ScanLevels(levels, store, rate);
    if hit.Some? {
      next := store[StageBought(hit.value) := true];
      ret := Some(levels[hit.value].fraction * stake);
      assert Decide(levels, cfg, store, rate) == Buy(hit.value);
      assert Payout(Buy(hit.value), cfg.stages, levels, stake, sellBase).value == ret.value;
      return;
    }
    var a := Ladder.Decide(cfg, store, rate);
    match a
    case Sell(k) =>
      next := store[StageSold(k) := true];
      ret := Some(-(sellBase * cfg.stages[k - 1].fraction));
      assert Payout(a, cfg.stages, levels, stake, sellBase).value == ret.value;
    case CloseAll =>
      ret, next := Some(-sellBase), store;
    case Hold =>
      ret, next := None, store;
  }

  /** The callback applied to a trade whose flags live in its custom data: compute the
      excursion (direction-aware when `directed`), then one step on the stored flags. An
      exception leaves the trade unchanged and is returned as such. */
  method Apply(trade: Trade, levels: seq<Level>, cfg: Ladder.Config, directed: bool, currentRate: real, sellBase: real)
    returns (r: Result<Option<real>>)
    modifies trade`customData
    ensures match PriceRate(trade.openRate, currentRate, directed && trade.isShort)
            case Raise(e) => r == Raise(e) && trade.customData == old(trade.customData)
            case Ok(rate) =>
              var c := Call(levels, cfg, old(trade.customData), rate, trade.stakeAmount, sellBase);
              r == Ok(c.0) && trade.customData == c.1
  {
    var rate := PriceRate(trade.openRate, currentRate, directed && trade.isShort);
    if rate.Raise? {
      return Raise(rate.error);
    }
    var ret, next := Step(levels, cfg, trade.customData, rate.value, trade.stakeAmount, sellBase);
    trade.customData := next;
    r := Ok(ret);
  }

  /** A call acts on at most one milestone, and never on one already recorded: the flag it
      sets was unset before, and every other flag is unchanged. */
  lemma OneNewFlag(levels: seq<Level>, cfg: Ladder.Config, store: map<Key, bool>, rate: real)
    ensures var a := Decide(levels, cfg, store, rate);
            KeyOf(a).Some? ==> !Flag(store, KeyOf(a).value)
  {
    var a := Decide(levels, cfg, store, rate);
    if a.Sell? {
      assert Ladder.Eligible(cfg.stages, store, rate, a.stage - 1);
    }
  }

  /** Levels strictly descend, as every configured `dca_levels` list does. */
  predicate Descending(levels: seq<Level>) {
    forall i, j :: 0 <= i < j < |levels| ==> levels[i].drop > levels[j].drop
  }

  /** With descending levels, a deeper level is bought only after every shallower one has been:
      a buy of level i implies the flags of all levels before it are already set. */
  lemma BuysInOrder(levels: seq<Level>, cfg: Ladder.Config, store: map<Key, bool>, rate: real)
    requires Descending(levels)
    ensures var a := Decide(levels, cfg, store, rate);
            a.Buy? ==> forall j :: 0 <= j < a.level ==> Flag(store, StageBought(j))
  {
    var a := Decide(levels, cfg, store, rate);
    if a.Buy? {
      forall j | 0 <= j < a.level
        ensures Flag(store, StageBought(j))
      {
        assert rate <= levels[a.level].drop < levels[j].drop;
        assert !Due(levels, store, rate, j);
      }
    }
  }

  /** A buy-in returns `fraction * stake` of its own level, and a sell happens only when no
      level is due; the sell branches are the ladder's. */
  lemma BuyBeforeSell(levels: seq<Level>, cfg: Ladder.Config, store: map<Key, bool>, rate: real,
                      stake: real, sellBase: real, i: nat)
    requires i < |levels| && Due(levels, store, rate, i)
    ensures Call(levels, cfg, store, rate, stake, sellBase).0.Some?
    ensures exists j :: 0 <= j <= i && Call(levels, cfg, store, rate, stake, sellBase).0.value == levels[j].fraction * stake
    ensures Flag(Call(levels, cfg, store, rate, stake, sellBase).1, StageBought(Decide(levels, cfg, store, rate).level))
  {
    var a := Decide(levels, cfg, store, rate);
    assert a.Buy?;
    assert Call(levels, cfg, store, rate, stake, sellBase).0.value == levels[a.level].fraction * stake;
  }

  /** Without buy-in levels a call never adds to the position: with a non-negative base and
      fractions it returns at most zero, and when every fraction is below one the whole base
      is given back only at the final target. */
  lemma LadderNeverBuys(cfg: Ladder.Config, store: map<Key, bool>, rate: real, base: real)
    requires base >= 0.0 && forall j :: 0 <= j < |cfg.stages| ==> cfg.stages[j].fraction >= 0.0
    ensures Call([], cfg, store, rate, 0.0, base).0.Some? ==> Call([], cfg, store, rate, 0.0, base).0.value <= 0.0
    ensures base > 0.0 && (forall j :: 0 <= j < |cfg.stages| ==> cfg.stages[j].fraction < 1.0)
            && Call([], cfg, store, rate, 0.0, base).0 == Some(-base)
            ==> rate >= cfg.target
  {
    var a := Decide([], cfg, store, rate);
    assert Call([], cfg, store, rate, 0.0, base).0 == Payout(a, cfg.stages, [], 0.0, base);
    SellPayout(cfg, a, rate, base);
  }

  /** What a ladder action pays out of a non-negative base. */
  lemma SellPayout(cfg: Ladder.Config, a: Action, rate: real, base: real)
    requires Fits(a, cfg.stages, []) && !a.Buy? && (a.CloseAll? ==> rate >= cfg.target)
    requires base >= 0.0 && forall j :: 0 <= j < |cfg.stages| ==> cfg.stages[j].fraction >= 0.0
    ensures Payout(a, cfg.stages, [], 0.0, base).Some? ==> Payout(a, cfg.stages, [], 0.0, base).value <= 0.0
    ensures base > 0.0 && (forall j :: 0 <= j < |cfg.stages| ==> cfg.stages[j].fraction < 1.0)
            && Payout(a, cfg.stages, [], 0.0, base) == Some(-base)
            ==> rate >= cfg.target
  {
    if a.Sell? {
      var f := cfg.stages[a.stage - 1].fraction;
      assert Payout(a, cfg.stages, [], 0.0, base).value == -(base * f);
      PartOfBase(base, f);
    }
  }

  /** A fraction below one of a positive base is less than the base. */
  lemma PartOfBase(base: real, f: real)
    requires base >= 0.0 && f >= 0.0
    ensures base * f >= 0.0
    ensures base > 0.0 && f < 1.0 ==> base * f < base
  {
    if base > 0.0 && f < 1.0 {
      assert base - base * f == base * (1.0 - f);
    }
  }
}
