/**
 * The break-even `custom_stoploss` latch: the first call whose excursion reaches the
 * threshold sets the sticky "be_activated" flag; from then on every call returns the host's
 * `stoploss_from_open(offset, ...)` result, whatever the price. Before that, calls return
 * `None` and change nothing.
 */
module BreakEven {
  import opened Wrappers
  import opened Trades

  /** One strategy's latch settings: the excursion threshold, whether the comparison is strict
      (`>` rather than `>=`), whether shorts measure `open/current - 1`, and the break-even
      offset handed to `stoploss_from_open`. */
  datatype Latch = Latch(threshold: real, strict: bool, directed: bool, offset: real)

  predicate Reached(l: Latch, rate: real) {
    if l.strict then rate > l.threshold else rate >= l.threshold
  }

  /** The excursion the latch measures: direction-aware, or `current/open - 1` for every trade. */
  function Excursion(l: Latch, openRate: real, currentRate: real, isShort: bool): Result<real> {
    PriceRate(openRate, currentRate, l.directed && isShort)
  }

  /** What one call returns and the store after it. The excursion is computed (and may raise)
      before the flag is consulted, as in the source. */
  function Call(l: Latch, store: map<Key, bool>, openRate: real, currentRate: real, isShort: bool,
                profit: real, leverage: real, sfo: StopFromOpen): (out: (Result<Option<real>>, map<Key, bool>))
    ensures out.0.Raise? <==> Excursion(l, openRate, currentRate, isShort).Raise?
    ensures out.0.Raise? ==> out.1 == store
    ensures out.0.Ok? && out.0.value.Some? ==> out.0.value.value == sfo(l.offset, profit, isShort, leverage)
    ensures out.0.Ok? ==> (out.0.value.Some? <==> Flag(store, BeActivated) || Reached(l, Excursion(l, openRate, currentRate, isShort).value))
    ensures out.0.Ok? ==> (Flag(out.1, BeActivated) <==> out.0.value.Some?)
    ensures forall k :: k != BeActivated ==> (k in out.1 <==> k in store) && (k in store ==> out.1[k] == store[k])
  {
    match Excursion(l, openRate, currentRate, isShort)
    case Raise(e) => (Raise(e), store)
    case Ok(rate) =>
      if Flag(store, BeActivated) || Reached(l, rate) then
        (Ok(Some(sfo(l.offset, profit, isShort, leverage))),
         if Flag(store, BeActivated) then store else store[BeActivated := true])
      else (Ok(None), store)
  }

  /** The callback applied to a trade: computes the excursion from its fields, records the
      flag in its custom data and returns what the callback returns (an exception included). */
  method Apply(trade: Trade, l: Latch, currentRate: real, currentProfit: real, sfo: StopFromOpen)
    returns (r: Result<Option<real>>)
    modifies trade`customData
    ensures (r, trade.customData) == Call(l, old(trade.customData), trade.openRate, currentRate, trade.isShort,
                                          currentProfit, trade.leverage, sfo)
  {
    var beActivated := Flag(trade.customData, BeActivated);
    var rate := PriceRate(trade.openRate, currentRate, l.directed && trade.isShort);
    if rate.Raise? {
      return Raise(rate.error);
    }
    if beActivated || Reached(l, rate.value) {
      if !beActivated {
        trade.customData := trade.customData[BeActivated := true];
      }
      return Ok(Some(sfo(l.offset, currentProfit, trade.isShort, trade.leverage)));
    }
    return Ok(None);
  }

  /** Once latched, always latched: with the flag set, every call whose excursion can be
      computed returns the break-even stop, whatever the price, and leaves the store as it was. */
  lemma Sticky(l: Latch, store: map<Key, bool>, openRate: real, currentRate: real, isShort: bool,
               profit: real, leverage: real, sfo: StopFromOpen)
    requires Flag(store, BeActivated) && Excursion(l, openRate, currentRate, isShort).Ok?
    ensures Call(l, store, openRate, currentRate, isShort, profit, leverage, sfo)
            == (Ok(Some(sfo(l.offset, profit, isShort, leverage))), store)
  {
  }

  /** Successive calls on one trade: the outcome of each call, every call seeing the store the
      previous one left. A step is (open, current, is_short, profit, leverage). */
  datatype Tick = Tick(openRate: real, currentRate: real, isShort: bool, profit: real, leverage: real)

  function Run(l: Latch, store: map<Key, bool>, ticks: seq<Tick>, sfo: StopFromOpen): (outs: seq<Result<Option<real>>>)
    decreases |ticks|
    ensures |outs| == |ticks|
  {
    if ticks == [] then []
    else
      var t := ticks[0];
      var c := Call(l, store, t.openRate, t.currentRate, t.isShort, t.profit, t.leverage, sfo);
      [c.0] + Run(l, c.1, ticks[1..], sfo)
  }

  /** After a call has returned a stop, every later call in the run returns a stop too (or
      raises): the latch never releases. */
  lemma {:induction false} NeverReleases(l: Latch, store: map<Key, bool>, ticks: seq<Tick>,
                                         sfo: StopFromOpen, i: nat, j: nat)
    requires i < j < |ticks|
    requires Run(l, store, ticks, sfo)[i].Ok? && Run(l, store, ticks, sfo)[i].value.Some?
    requires Run(l, store, ticks, sfo)[j].Ok?
    ensures Run(l, store, ticks, sfo)[j].value.Some?
    decreases |ticks|
  {
    var t := ticks[0];
    var c := Call(l, store, t.openRate, t.currentRate, t.isShort, t.profit, t.leverage, sfo);
    assert Run(l, store, ticks, sfo)[1..] == Run(l, c.1, ticks[1..], sfo);
    if i == 0 {
      LatchedStaysLatched(l, c.1, ticks[1..], sfo, j - 1);
    } else {
      NeverReleases(l, c.1, ticks[1..], sfo, i - 1, j - 1);
    }
  }

  /** From a latched store, every call of a run that does not raise returns the stop. */
  lemma {:induction false} LatchedStaysLatched(l: Latch, store: map<Key, bool>, ticks: seq<Tick>,
                                               sfo: StopFromOpen, j: nat)
    requires Flag(store, BeActivated) && j < |ticks|
    requires Run(l, store, ticks, sfo)[j].Ok?
    ensures Run(l, store, ticks, sfo)[j].value.Some?
    decreases |ticks|
  {
    var t := ticks[0];
    var c := Call(l, store, t.openRate, t.currentRate, t.isShort, t.profit, t.leverage, sfo);
    assert Flag(c.1, BeActivated);
    if j > 0 {
      assert Run(l, store, ticks, sfo)[j] == Run(l, c.1, ticks[1..], sfo)[j - 1];
      LatchedStaysLatched(l, c.1, ticks[1..], sfo, j - 1);
    }
  }
}
