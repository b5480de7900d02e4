/**
 * Successive `adjust_trade_position` calls on one trade: each call sees the store the
 * previous one left. Over any sequence of excursions, every partial exit and every DCA
 * buy-in happens at most once per trade, because the flag it records is never cleared.
 */
module Runs {
  import opened Trades
  import opened Actions
  import Ladder
  import Adjust

  /** The actions taken by successive calls, one per excursion in `rates`. */
  function Run(levels: seq<Level>, cfg: Ladder.Config, store: map<Key, bool>, rates: seq<real>): (acts: seq<Action>)
    decreases |rates|
    ensures |acts| == |rates|
  {
    if rates == [] then []
    else
      var a := Adjust.Decide(levels, cfg, store, rates[0]);
      [a] + Run(levels, cfg, Mark(store, a), rates[1..])
  }

  /** The store after successive calls. */
  function Final(levels: seq<Level>, cfg: Ladder.Config, store: map<Key, bool>, rates: seq<real>): map<Key, bool>
    decreases |rates|
  {
    if rates == [] then store
    else Final(levels, cfg, Mark(store, Adjust.Decide(levels, cfg, store, rates[0])), rates[1..])
  }

  /** How many times `a` occurs in `acts`. */
  function Count(acts: seq<Action>, a: Action): nat
    decreases |acts|
  {
    if acts == [] then 0
    else (if acts[0] == a then 1 else 0) + Count(acts[1..], a)
  }

  /** Flags only move from false to true: whatever was recorded before a run is still
      recorded after it. */
  lemma {:induction false} FlagsStaySet(levels: seq<Level>, cfg: Ladder.Config, store: map<Key, bool>,
                                        rates: seq<real>, k: Key)
    requires Flag(store, k)
    ensures Flag(Final(levels, cfg, store, rates), k)
    decreases |rates|
  {
    if rates != [] {
      var s1 := Mark(store, Adjust.Decide(levels, cfg, store, rates[0]));
      FlagsStaySet(levels, cfg, s1, rates[1..], k);
    }
  }

  /** Each stage sell and each buy-in level fires at most once over any run of calls, and
      never if its flag was already recorded when the run began. */
  lemma {:induction false} AtMostOnce(levels: seq<Level>, cfg: Ladder.Config, store: map<Key, bool>,
                                      rates: seq<real>, a: Action)
    requires KeyOf(a).Some?
    ensures Count(Run(levels, cfg, store, rates), a) <= (if Flag(store, KeyOf(a).value) then 0 else 1)
    decreases |rates|
  {
    if rates != [] {
      var a0 := Adjust.Decide(levels, cfg, store, rates[0]);
      var s1 := Mark(store, a0);
      var acts := Run(levels, cfg, store, rates);
      assert acts[0] == a0 && acts[1..] == Run(levels, cfg, s1, rates[1..]);
      AtMostOnce(levels, cfg, s1, rates[1..], a);
      Adjust.OneNewFlag(levels, cfg, store, rates[0]);
    }
  }
}
