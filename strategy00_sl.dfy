/**
 * Strategy00_SL: the EMA crossover strategy with a custom stoploss that, once the profit
 * passes 1.5%, trails 3.5% below the highest price the trade has seen but never below the
 * open rate. The stoploss is a ratio to the current rate, as the host expects it. The class
 * does not set `use_custom_stoploss`: the host calls `custom_stoploss` only when the bot's
 * configuration turns it on, and the model describes what it does when it does.
 */
module Strategy00Sl {
  import opened Wrappers
  import opened Frames

  /** The class's initial `stoploss`. */
  const Stoploss: real := -0.05

  function LongEntries(c: seq<Candle>): (m: seq<bool>)
    ensures |m| == |c|
  {
    seq(|c|, i requires 0 <= i < |c| => CrossedAbove(c, i))
  }

  function LongExits(c: seq<Candle>): (m: seq<bool>)
    ensures |m| == |c|
  {
    seq(|c|, i requires 0 <= i < |c| => CrossedBelow(c, i))
  }

  method PopulateEntryTrend(df: DataFrame)
    requires df.Valid()
    modifies df
    ensures df.Valid()
    ensures df.columns == old(df.columns)[EnterLong := Where(old(df.Column(EnterLong)), LongEntries(df.candles), One)]
  {
    df.Loc(LongEntries(df.candles), EnterLong, One);
  }

  method PopulateExitTrend(df: DataFrame)
    requires df.Valid()
    modifies df
    ensures df.Valid()
    ensures df.columns == old(df.columns)[ExitLong := Where(old(df.Column(ExitLong)), LongExits(df.candles), One)]
  {
    df.Loc(LongExits(df.candles), ExitLong, One);
  }

  /** The stop price once trailing: `max(max_rate * (1 - 0.035), open_rate)`. */
  function StopPrice(openRate: real, maxRate: real): (p: real)
    ensures p >= openRate && p >= maxRate * 0.965
    ensures p == openRate || p == maxRate * 0.965
  {
    if maxRate * (1.0 - 0.035) >= openRate then maxRate * (1.0 - 0.035) else openRate
  }

  /** `custom_stoploss`; `maxRate` is the host's `trade.max_rate`. The division by the current
      rate raises when it is zero. */
  function CustomStoploss(openRate: real, maxRate: real, currentRate: real, currentProfit: real): (r: Result<real>)
    ensures currentProfit <= 0.015 ==> r == Ok(Stoploss)
    ensures currentProfit > 0.015 ==> (r.Raise? <==> currentRate == 0.0)
  {
    if currentProfit > 0.015 then
      match Div(StopPrice(openRate, maxRate), currentRate)
      case Raise(e) => Raise(e)
      case Ok(q) => Ok(q - 1.0)
    else Ok(Stoploss)
  }

  /** Once trailing, the returned ratio puts the stop at the stop price: `current * (1 + r)` is
      at the open rate or above, at 96.5% of the highest price or above, and equal to one of
      them. */
  lemma StopAtStopPrice(openRate: real, maxRate: real, currentRate: real, currentProfit: real)
    requires currentProfit > 0.015 && currentRate != 0.0
    ensures var r := CustomStoploss(openRate, maxRate, currentRate, currentProfit);
            r.Ok? && currentRate * (1.0 + r.value) == StopPrice(openRate, maxRate)
  {
    var q := StopPrice(openRate, maxRate) / currentRate;
    assert Div(StopPrice(openRate, maxRate), currentRate) == Ok(q);
    assert q * currentRate == StopPrice(openRate, maxRate);
  }

  /** For a positive current rate, the trailing ratio is at least `open/current - 1` (the stop
      never sits below the open rate) and never decreases as the highest price rises. */
  lemma TrailingNeverLoosens(openRate: real, maxRate: real, maxRate': real, currentRate: real, currentProfit: real)
    requires currentProfit > 0.015 && currentRate > 0.0 && maxRate <= maxRate'
    ensures var r := CustomStoploss(openRate, maxRate, currentRate, currentProfit);
            var r' := CustomStoploss(openRate, maxRate', currentRate, currentProfit);
            r.Ok? && r'.Ok? && r.value >= openRate / currentRate - 1.0 && r.value <= r'.value
  {
    var p := StopPrice(openRate, maxRate);
    var p' := StopPrice(openRate, maxRate');
    assert Div(p, currentRate) == Ok(p / currentRate);
    assert Div(p', currentRate) == Ok(p' / currentRate);
    assert p <= p';
    DivideMonotone(openRate, p, currentRate);
    DivideMonotone(p, p', currentRate);
  }

  lemma DivideMonotone(a: real, b: real, d: real)
    requires a <= b && d > 0.0
    ensures a / d <= b / d
  {
    assert b / d - a / d == (b - a) / d;
  }
}
