/**
 * Strategy00G_SOLUSDT: long entries on an EMA20/EMA30 crossover, exits on the crossunder, and
 * `custom_exit_signal`, which takes the open of the last candle as the entry price, writes four
 * 0/1 "exit_profit_k" columns for closes at or above 1.5%, 3.9%, 12.7% and 19.5% over it, and
 * then three ordered writes into the "stoploss" column, each overwriting the one before on the
 * rows it selects. Nothing in the class calls `custom_exit_signal` and the host has no callback
 * of that name, so the columns `custom_exit` reads are not produced by it in the source.
 */
module Strategy00gSolusdt {
  import opened Wrappers
  import opened Frames

  const TargetProfit1: real := 0.015
  const TargetProfit2: real := 0.039
  const TargetProfit3: real := 0.127
  const TargetProfit4: real := 0.195

  /** `entry_price * (1 + target_profit)`. */
  function TargetPrice(entry: real, profit: real): real
  {
    entry * (1.0 + profit)
  }

  function LongEntries(c: seq<Candle>): (m: seq<bool>)
    ensures |m| == |c|
  {
    seq(|c|, i requires 0 <= i < |c| => CrossedAbove(c, i))
  }

  function LongExits(c: seq<Candle>): (m: seq<bool>)
    ensures |m| == |c|
  {
    seq(|c|, i requires 0 <= i < |c| => CrossedBelow(c, i))
  }

  method PopulateEntryTrend(df: DataFrame)
    requires df.Valid()
    modifies df
    ensures df.Valid()
    ensures df.columns == old(df.columns)[EnterLong := Where(old(df.Column(EnterLong)), LongEntries(df.candles), One)]
  {
    df.Loc(LongEntries(df.candles), EnterLong, One);
  }

  method PopulateExitTrend(df: DataFrame)
    requires df.Valid()
    modifies df
    ensures df.Valid()
    ensures df.columns == old(df.columns)[ExitLong := Where(old(df.Column(ExitLong)), LongExits(df.candles), One)]
  {
    df.Loc(LongExits(df.candles), ExitLong, One);
  }

  /** `dataframe['close'] >= t` and `dataframe['close'] > t`. */
  function CloseAtLeast(c: seq<Candle>, t: real): (m: seq<bool>)
    ensures |m| == |c|
  {
    seq(|c|, i requires 0 <= i < |c| => c[i].close >= t)
  }

  function CloseAbove(c: seq<Candle>, t: real): (m: seq<bool>)
    ensures |m| == |c|
  {
    seq(|c|, i requires 0 <= i < |c| => c[i].close > t)
  }

  /** A whole column of `0.0`. */
  function Zeros(n: nat): (r: seq<Cell>)
    ensures |r| == n && forall i :: 0 <= i < n ==> r[i] == Num(0.0)
  {
    seq(n, i => Num(0.0))
  }

  /** The "exit_profit" column for target price `t`: zeroed, then 1 where the close reaches `t`. */
  function ExitFlag(c: seq<Candle>, t: real): (r: seq<Cell>)
    ensures |r| == |c|
  {
    Where(Zeros(|c|), CloseAtLeast(c, t), One)
  }

  /** The "stoploss" column after the three ordered writes, starting from `stop`. */
  function StopColumn(stop: seq<Cell>, c: seq<Candle>, entry: real): (r: seq<Cell>)
    requires |stop| == |c|
    ensures |r| == |c|
  {
    var t1 := TargetPrice(entry, TargetProfit1);
    var t2 := TargetPrice(entry, TargetProfit2);
    var t3 := TargetPrice(entry, TargetProfit3);
    Where(Where(Where(stop, CloseAbove(c, t1), Num(entry)), CloseAbove(c, t2), Num(t1)), CloseAbove(c, t3), Num(t2))
  }

  /** The columns after `custom_exit_signal` on a non-empty frame with columns `cols`: the four
      exit flags against the targets over the last row's open, and the stop column after its
      three writes. */
  function ExitSignalColumns(cols: map<Col, seq<Cell>>, c: seq<Candle>): (r: map<Col, seq<Cell>>)
    requires |c| > 0
    ensures r.Keys == cols.Keys + {ExitProfit(1), ExitProfit(2), ExitProfit(3), ExitProfit(4), Stoploss}
  {
    var entry := c[|c| - 1].open;
    var stop := if Stoploss in cols && |cols[Stoploss]| == |c| then cols[Stoploss] else NaNs(|c|);
    cols[ExitProfit(1) := ExitFlag(c, TargetPrice(entry, TargetProfit1))]
        [ExitProfit(2) := ExitFlag(c, TargetPrice(entry, TargetProfit2))]
        [ExitProfit(3) := ExitFlag(c, TargetPrice(entry, TargetProfit3))]
        [ExitProfit(4) := ExitFlag(c, TargetPrice(entry, TargetProfit4))]
        [Stoploss := StopColumn(stop, c, entry)]
  }

  /** `dataframe['exit_profit_k'] = 0.0` for k = 1..4. */
  method ZeroExitFlags(df: DataFrame)
    requires df.Valid()
    modifies df
    ensures df.Valid()
    ensures df.columns == old(df.columns)[ExitProfit(1) := Zeros(|df.candles|)][ExitProfit(2) := Zeros(|df.candles|)]
                                         [ExitProfit(3) := Zeros(|df.candles|)][ExitProfit(4) := Zeros(|df.candles|)]
  {
    df.Assign(ExitProfit(1), Zeros(|df.candles|));
    df.Assign(ExitProfit(2), Zeros(|df.candles|));
    df.Assign(ExitProfit(3), Zeros(|df.candles|));
    df.Assign(ExitProfit(4), Zeros(|df.candles|));
  }

  /** The four "exit_profit" columns: each zeroed, then set to 1 where the close reaches its
      target. */
  method WriteExitFlags(df: DataFrame, entry: real)
    requires df.Valid()
    modifies df
    ensures df.Valid()
    ensures df.columns == old(df.columns)[ExitProfit(1) := ExitFlag(df.candles, TargetPrice(entry, TargetProfit1))]
                                         [ExitProfit(2) := ExitFlag(df.candles, TargetPrice(entry, TargetProfit2))]
                                         [ExitProfit(3) := ExitFlag(df.candles, TargetPrice(entry, TargetProfit3))]
                                         [ExitProfit(4) := ExitFlag(df.candles, TargetPrice(entry, TargetProfit4))]
  {
    var c := df.candles;
    ZeroExitFlags(df);
    ghost var zeroed := df.columns;
    df.Loc(CloseAtLeast(c, TargetPrice(entry, TargetProfit1)), ExitProfit(1), One);
    assert df.Column(ExitProfit(2)) == Zeros(|c|);
    df.Loc(CloseAtLeast(c, TargetPrice(entry, TargetProfit2)), ExitProfit(2), One);
    assert df.Column(ExitProfit(3)) == Zeros(|c|);
    df.Loc(CloseAtLeast(c, TargetPrice(entry, TargetProfit3)), ExitProfit(3), One);
    assert df.Column(ExitProfit(4)) == Zeros(|c|);
    df.Loc(CloseAtLeast(c, TargetPrice(entry, TargetProfit4)), ExitProfit(4), One);
  }

  /** The three "stoploss" writes, in order: the entry price past the first target, the first
      target past the second, the second past the third. */
  method WriteStops(df: DataFrame, entry: real)
    requires df.Valid()
    modifies df
    ensures df.Valid()
    ensures df.columns == old(df.columns)[Stoploss := StopColumn(old(df.Column(Stoploss)), df.candles, entry)]
  {
    var c := df.candles;
    var t1 := TargetPrice(entry, TargetProfit1);
    var t2 := TargetPrice(entry, TargetProfit2);
    var t3 := TargetPrice(entry, TargetProfit3);
    df.Loc(CloseAbove(c, t1), Stoploss, Num(entry));
    df.Loc(CloseAbove(c, t2), Stoploss, Num(t1));
    df.Loc(CloseAbove(c, t3), Stoploss, Num(t2));
  }

  /** `custom_exit_signal`. The entry price is read from the last row, so an empty frame raises
      before anything is written. */
  method CustomExitSignal(df: DataFrame) returns (r: Result<()>)
    requires df.Valid()
    modifies df
    ensures df.Valid()
    ensures |df.candles| == 0 ==> r == Raise(IndexError) && df.columns == old(df.columns)
    ensures |df.candles| > 0 ==> r == Ok(()) && df.columns == ExitSignalColumns(old(df.columns), df.candles)
  {
    if |df.candles| == 0 {
      return Raise(IndexError);
    }
    var entry := df.candles[|df.candles| - 1].open;
    ghost var stop := df.Column(Stoploss);
    WriteExitFlags(df, entry);
    assert df.Column(Stoploss) == stop;
    WriteStops(df, entry);
    r := Ok(());
  }

  /** Each "exit_profit" cell is 1 exactly when the close reaches its target, and 0 otherwise. */
  lemma ExitFlagIsReach(c: seq<Candle>, t: real, i: nat)
    requires i < |c|
    ensures ExitFlag(c, t)[i] == One <==> c[i].close >= t
    ensures ExitFlag(c, t)[i] != One ==> ExitFlag(c, t)[i] == Num(0.0)
  {
    assert ExitFlag(c, t)[i] == if CloseAtLeast(c, t)[i] then One else Zeros(|c|)[i];
  }

  /** For a non-negative entry price the targets ascend, so the flags nest: a row that reaches
      a higher target has every lower flag set too. */
  lemma ExitFlagsNest(c: seq<Candle>, entry: real, i: nat)
    requires entry >= 0.0 && i < |c|
    ensures ExitFlag(c, TargetPrice(entry, TargetProfit4))[i] == One ==> ExitFlag(c, TargetPrice(entry, TargetProfit3))[i] == One
    ensures ExitFlag(c, TargetPrice(entry, TargetProfit3))[i] == One ==> ExitFlag(c, TargetPrice(entry, TargetProfit2))[i] == One
    ensures ExitFlag(c, TargetPrice(entry, TargetProfit2))[i] == One ==> ExitFlag(c, TargetPrice(entry, TargetProfit1))[i] == One
  {
    ExitFlagIsReach(c, TargetPrice(entry, TargetProfit1), i);
    ExitFlagIsReach(c, TargetPrice(entry, TargetProfit2), i);
    ExitFlagIsReach(c, TargetPrice(entry, TargetProfit3), i);
    ExitFlagIsReach(c, TargetPrice(entry, TargetProfit4), i);
  }

  /** The ordered overwrites leave the last matching write on each row, whatever the sign of
      the entry price: the stop for the highest of the three targets the close strictly passes,
      and the old cell on a row that passes none. */
  lemma LastWriteWins(stop: seq<Cell>, c: seq<Candle>, entry: real, i: nat)
    requires |stop| == |c| && i < |c|
    ensures var t1 := TargetPrice(entry, TargetProfit1);
            var t2 := TargetPrice(entry, TargetProfit2);
            var t3 := TargetPrice(entry, TargetProfit3);
            StopColumn(stop, c, entry)[i] ==
              if c[i].close > t3 then Num(t2)
              else if c[i].close > t2 then Num(t1)
              else if c[i].close > t1 then Num(entry)
              else stop[i]
  {
  }

  /** Number of the first three targets the close strictly passes, for a positive entry. */
  function Passed(close: real, entry: real): (k: nat)
    ensures k <= 3
  {
    (if close > TargetPrice(entry, TargetProfit1) then 1 else 0)
    + (if close > TargetPrice(entry, TargetProfit2) then 1 else 0)
    + (if close > TargetPrice(entry, TargetProfit3) then 1 else 0)
  }

  /** For a positive entry price the stop trails one target behind: a row whose close strictly
      passes `k` >= 1 of the first three targets gets the price one step below the k-th target
      (the entry itself for k = 1), which lies at or above the entry and strictly below the
      close; a row that passes none keeps its old stop. */
  lemma StopTrailsOneTarget(stop: seq<Cell>, c: seq<Candle>, entry: real, i: nat)
    requires |stop| == |c| && i < |c| && entry > 0.0
    ensures var k := Passed(c[i].close, entry);
            var steps := [entry, TargetPrice(entry, TargetProfit1), TargetPrice(entry, TargetProfit2)];
            var s := StopColumn(stop, c, entry)[i];
            (k == 0 ==> s == stop[i]) &&
            (k > 0 ==> s == Num(steps[k - 1]) && entry <= s.v < c[i].close)
  {
    LastWriteWins(stop, c, entry, i);
  }
}
