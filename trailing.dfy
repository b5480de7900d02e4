/**
 * The best-price trailing partial exit of the SLpart strategies. The trade remembers the
 * best price seen ("best_price"); a new extreme replaces it and clears both partial-exit flags;
 * otherwise the drawdown from the best price decides: beyond `pl` the whole stake is given
 * back (no flag, so it repeats), beyond three quarters of `pl` half the stake once
 * ("pl_sell_3_4"), beyond half of `pl` half the stake once ("pl_sell_half").
 */
module Trailing {
  import opened Wrappers
  import opened Trades

  /** `trade.trade_direction` as the strategies compare it. */
  datatype Direction = Long | Short | Other

  function DirectionOf(s: string): (d: Direction)
    ensures d == Long <==> s == "long"
    ensures d == Short <==> s == "short"
  {
    if s == "long" then Long else if s == "short" then Short else Other
  }

  /** The outcome of one call: what it returns, the stored best price and the flags after it. */
  datatype Step = Step(ret: Option<real>, best: real, store: map<Key, bool>)

  /** Clear a partial-exit flag only when it is set, as `if half_closed: set(..., False)` does. */
  function Clear(store: map<Key, bool>, k: Key): (r: map<Key, bool>)
    ensures !Flag(r, k)
    ensures forall k2 :: k2 != k ==> (k2 in r <==> k2 in store) && (k2 in store ==> r[k2] == store[k2])
  {
    if Flag(store, k) then store[k := false] else store
  }

  /** The threshold chain on a computed drawdown `dd`. */
  function PartialExit(pl: real, dd: real, store: map<Key, bool>, stake: real): (out: (Option<real>, map<Key, bool>))
    ensures dd > pl ==> out == (Some(-stake), store)
    ensures out.0.Some? && dd <= pl ==> out.0.value == -(stake / 2.0)
    ensures out.0.None? ==> out.1 == store
    ensures out.1 != store ==> exists k :: k in {PlSell34, PlSellHalf} && !Flag(store, k) && out.1 == store[k := true]
  {
    if dd > pl then (Some(-stake), store)
    else if dd > pl / 2.0 + pl / 4.0 && !Flag(store, PlSell34) then (Some(-(stake / 2.0)), store[PlSell34 := true])
    else if dd > pl / 2.0 && !Flag(store, PlSellHalf) then (Some(-(stake / 2.0)), store[PlSellHalf := true])
    else (None, store)
  }

  /** One `adjust_trade_position` call. `best` is the stored best price, 0 when none is stored
      (the source reads it with default 0 and tests it for truth). The short drawdown divides
      by the current price and raises when that is zero. */
  function Call(pl: real, dir: Direction, best: real, store: map<Key, bool>, current: real, stake: real): (r: Result<Step>)
    ensures r.Raise? ==> dir == Short && best != 0.0 && current == 0.0
    ensures best == 0.0 ==> r == Ok(Step(None, current, store))
    ensures dir == Other && best != 0.0 ==> r == Ok(Step(None, best, store))
  {
    if best == 0.0 then Ok(Step(None, current, store))
    else match dir
      case Long =>
        if current > best then Ok(Step(None, current, Clear(Clear(store, PlSellHalf), PlSell34)))
        else
          var out := PartialExit(pl, 1.0 - current / best, store, stake);
          Ok(Step(out.0, best, out.1))
      case Short =>
        if current < best then Ok(Step(None, current, Clear(Clear(store, PlSellHalf), PlSell34)))
        else if current == 0.0 then Raise(ZeroDivisionError)
        else
          var out := PartialExit(pl, 1.0 - best / current, store, stake);
          Ok(Step(out.0, best, out.1))
      case Other => Ok(Step(None, best, store))
  }

  /** The callback applied to a trade, step by step as the source does: read the stored
      best price and both flags, then store a first or new best price and clear the flags,
      or take a partial exit and set its flag. `dir` is how the strategy reads the direction. */
  method Apply(trade: Trade, pl: real, dir: Direction, currentRate: real) returns (r: Result<Option<real>>)
    modifies trade`bestPrice, trade`customData
    ensures var c := Call(pl, dir, old(trade.bestPrice), old(trade.customData), currentRate, trade.stakeAmount);
            match c
            case Raise(e) => r == Raise(e) && trade.bestPrice == old(trade.bestPrice) && trade.customData == old(trade.customData)
            case Ok(s) => r == Ok(s.ret) && trade.bestPrice == s.best && trade.customData == s.store
  {
    var best := trade.bestPrice;
    var halfClosed := Flag(trade.customData, PlSellHalf);
    var closed34 := Flag(trade.customData, PlSell34);
    if best == 0.0 {
      trade.bestPrice := currentRate;
      return Ok(None);
    }
    var dd: real;
    if dir == Long || dir == Short {
      var newExtreme := if dir == Long then currentRate > best else currentRate < best;
      if newExtreme {
        trade.bestPrice := currentRate;
        if halfClosed {
          trade.customData := trade.customData[PlSellHalf := false];
        }
        if closed34 {
          trade.customData := trade.customData[PlSell34 := false];
        }
        return Ok(None);
      }
      if dir == Long {
        dd := 1.0 - currentRate / best;
      } else {
        if currentRate == 0.0 {
          return Raise(ZeroDivisionError);
        }
        dd := 1.0 - best / currentRate;
      }
    } else {
      return Ok(None);
    }
    if dd > pl {
      return Ok(Some(-trade.stakeAmount));
    } else if dd > pl / 2.0 + pl / 4.0 && !closed34 {
      trade.customData := trade.customData[PlSell34 := true];
      return Ok(Some(-(trade.stakeAmount / 2.0)));
    } else if dd > pl / 2.0 && !halfClosed {
      trade.customData := trade.customData[PlSellHalf := true];
      return Ok(Some(-(trade.stakeAmount / 2.0)));
    }
    return Ok(None);
  }

  /** Once a best price is stored, a long trade's best price never decreases and a short
      trade's never increases. */
  lemma BestIsMonotone(pl: real, dir: Direction, best: real, store: map<Key, bool>, current: real, stake: real)
    requires best != 0.0 && Call(pl, dir, best, store, current, stake).Ok?
    ensures dir == Long ==> Call(pl, dir, best, store, current, stake).value.best >= best
    ensures dir == Short ==> Call(pl, dir, best, store, current, stake).value.best <= best
  {
  }

  /** A new extreme replaces the best price, returns nothing and leaves both partial-exit
      flags unset, so both half exits become available again. */
  lemma NewExtremeResets(pl: real, dir: Direction, best: real, store: map<Key, bool>, current: real, stake: real)
    requires best != 0.0
    requires (dir == Long && current > best) || (dir == Short && current < best)
    ensures Call(pl, dir, best, store, current, stake).Ok?
    ensures var s := Call(pl, dir, best, store, current, stake).value;
            s.ret.None? && s.best == current && !Flag(s.store, PlSellHalf) && !Flag(s.store, PlSell34)
  {
    var cleared := Clear(Clear(store, PlSellHalf), PlSell34);
    assert !Flag(cleared, PlSellHalf);
  }

  /** The drawdown measured from a positive best price is never negative when no new extreme
      was set. */
  lemma DrawdownNonNegative(dir: Direction, best: real, current: real)
    requires best > 0.0 && current > 0.0
    ensures dir == Long && current <= best ==> 1.0 - current / best >= 0.0
    ensures dir == Short && current >= best ==> 1.0 - best / current >= 0.0
  {
    if dir == Long && current <= best {
      ScaleBothSides(current / best, best, current, 1.0);
    }
    if dir == Short && current >= best {
      ScaleBothSides(best / current, current, best, 1.0);
    }
  }

  /** The full exit sets no flag and does not move the best price, so while the drawdown stays
      beyond `pl` every call returns the whole stake again. */
  lemma FullExitRepeats(pl: real, dir: Direction, best: real, store: map<Key, bool>, current: real, stake: real)
    requires best != 0.0 && dir == Long && current <= best && 1.0 - current / best > pl
    ensures var r := Call(pl, dir, best, store, current, stake);
            r == Ok(Step(Some(-stake), best, store))
            && Call(pl, dir, r.value.best, r.value.store, current, stake) == r
  {
  }

  /** The two half exits together fire at most twice between new extremes: at an unchanged
      drawdown no larger than `pl`, the third of three successive calls returns nothing. */
  lemma AtMostTwoHalfExits(pl: real, dd: real, store: map<Key, bool>, stake: real)
    requires dd <= pl
    ensures var s1 := PartialExit(pl, dd, store, stake).1;
            var s2 := PartialExit(pl, dd, s1, stake).1;
            PartialExit(pl, dd, s2, stake) == (None, s2)
  {
  }
}
