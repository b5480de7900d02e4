/**
 * Strategy_Goal_Resistance_Futures_SOL: support and resistance are the lowest and highest
 * close of the last 25 candles; a long enters below support and a short above resistance on
 * rising volume; a long exits at resistance and a short at support. Both callbacks are the
 * direction-aware latch and ladder.
 *
 * The rolling window includes the current candle, so a close is never below its own support
 * nor above its own resistance: as written the entry rules never mark a row.
 * `PopulateEntryTrend` keeps that; `PopulateEntryTrendIntended` compares against the window of
 * the 25 candles before the current one.
 */
module GoalResistanceFuturesSol {
  import opened Wrappers
  import opened Trades
  import opened Actions
  import Ladder
  import Adjust
  import BreakEven
  import opened Frames

  const Window: nat := 25

  const Targets := Ladder.Config([Stage(0.01, 0.33), Stage(0.02, 0.55)], 0.025)

  const Latch := BreakEven.Latch(0.01, false, true, 0.002)

  /** The lowest and the highest close among candles `lo` .. `hi - 1`. */
  function MinClose(c: seq<Candle>, lo: nat, hi: nat): (m: real)
    requires lo < hi <= |c|
    decreases hi - lo
    ensures forall j :: lo <= j < hi ==> m <= c[j].close
    ensures exists j :: lo <= j < hi && m == c[j].close
  {
    if hi == lo + 1 then c[lo].close
    else
      var m := MinClose(c, lo, hi - 1);
      if c[hi - 1].close < m then c[hi - 1].close else m
  }

  function MaxClose(c: seq<Candle>, lo: nat, hi: nat): (m: real)
    requires lo < hi <= |c|
    decreases hi - lo
    ensures forall j :: lo <= j < hi ==> m >= c[j].close
    ensures exists j :: lo <= j < hi && m == c[j].close
  {
    if hi == lo + 1 then c[lo].close
    else
      var m := MaxClose(c, lo, hi - 1);
      if c[hi - 1].close > m then c[hi - 1].close else m
  }

  /** `close.rolling(window=w).min()`: NaN on the first `w - 1` rows, then the minimum of the
      `w` closes ending at (and including) the row. */
  function RollingMin(c: seq<Candle>, w: nat): (s: seq<Cell>)
    requires w >= 1
    ensures |s| == |c|
    ensures forall i :: 0 <= i < |c| ==> (s[i].Num? <==> i + 1 >= w)
  {
    seq(|c|, i requires 0 <= i < |c| => if i + 1 < w then NaN else Num(MinClose(c, i + 1 - w, i + 1)))
  }

  function RollingMax(c: seq<Candle>, w: nat): (s: seq<Cell>)
    requires w >= 1
    ensures |s| == |c|
    ensures forall i :: 0 <= i < |c| ==> (s[i].Num? <==> i + 1 >= w)
  {
    seq(|c|, i requires 0 <= i < |c| => if i + 1 < w then NaN else Num(MaxClose(c, i + 1 - w, i + 1)))
  }

  /** A rolling window never strictly excludes its own row: the close lies between the support
      and the resistance of its window on every row where they are defined. */
  lemma CloseWithinOwnWindow(c: seq<Candle>, w: nat, i: nat)
    requires w >= 1 && i < |c| && i + 1 >= w
    ensures RollingMin(c, w)[i].v <= c[i].close <= RollingMax(c, w)[i].v
  {
    assert RollingMin(c, w)[i] == Num(MinClose(c, i + 1 - w, i + 1));
    assert RollingMax(c, w)[i] == Num(MaxClose(c, i + 1 - w, i + 1));
  }

  /** Being below the minimum of a window is being below every close in it, and being above
      the maximum is being above every close. */
  lemma BeyondWindow(c: seq<Candle>, lo: nat, hi: nat, x: real)
    requires lo < hi <= |c|
    ensures x < MinClose(c, lo, hi) <==> forall j :: lo <= j < hi ==> x < c[j].close
    ensures x > MaxClose(c, lo, hi) <==> forall j :: lo <= j < hi ==> x > c[j].close
  {
    BelowWindow(c, lo, hi, x);
    AboveWindow(c, lo, hi, x);
  }

  lemma BelowWindow(c: seq<Candle>, lo: nat, hi: nat, x: real)
    requires lo < hi <= |c|
    ensures x < MinClose(c, lo, hi) <==> forall j :: lo <= j < hi ==> x < c[j].close
  {
    var m := MinClose(c, lo, hi);
    var jm :| lo <= jm < hi && m == c[jm].close;
  }

  lemma AboveWindow(c: seq<Candle>, lo: nat, hi: nat, x: real)
    requires lo < hi <= |c|
    ensures x > MaxClose(c, lo, hi) <==> forall j :: lo <= j < hi ==> x > c[j].close
  {
    var n := MaxClose(c, lo, hi);
    var jn :| lo <= jn < hi && n == c[jn].close;
  }

  /** `calculate_support_resistance` as called from `populate_indicators`: both columns written
      over the whole frame. */
  method PopulateIndicators(df: DataFrame)
    requires df.Valid()
    modifies df
    ensures df.Valid()
    ensures df.columns == old(df.columns)[Support := RollingMin(df.candles, Window)][Resistance := RollingMax(df.candles, Window)]
  {
    df.Assign(Support, RollingMin(df.candles, Window));
    df.Assign(Resistance, RollingMax(df.candles, Window));
  }

  function LongEntries(c: seq<Candle>, support: seq<Cell>): (m: seq<bool>)
    requires |support| == |c|
    ensures |m| == |c|
  {
    seq(|c|, i requires 0 <= i < |c| => Below(Num(c[i].close), support[i]) && VolumeRises(c, i))
  }

  function ShortEntries(c: seq<Candle>, resistance: seq<Cell>): (m: seq<bool>)
    requires |resistance| == |c|
    ensures |m| == |c|
  {
    seq(|c|, i requires 0 <= i < |c| => Below(resistance[i], Num(c[i].close)) && VolumeRises(c, i))
  }

  function LongExits(c: seq<Candle>, resistance: seq<Cell>): (m: seq<bool>)
    requires |resistance| == |c|
    ensures |m| == |c|
  {
    seq(|c|, i requires 0 <= i < |c| => AtMost(resistance[i], Num(c[i].close)))
  }

  function ShortExits(c: seq<Candle>, support: seq<Cell>): (m: seq<bool>)
    requires |support| == |c|
    ensures |m| == |c|
  {
    seq(|c|, i requires 0 <= i < |c| => AtMost(Num(c[i].close), support[i]))
  }

  /** `populate_entry_trend` as written: each `.loc` reads its level column when it is
      evaluated, so a missing "support" column raises before any write and a missing
      "resistance" column raises after the long write. */
  method PopulateEntryTrend(df: DataFrame) returns (r: Result<()>)
    requires df.Valid()
    modifies df
    ensures df.Valid()
    ensures Support !in old(df.columns) ==> r == Raise(KeyError) && df.columns == old(df.columns)
    ensures Support in old(df.columns) ==>
              var afterLong := old(df.columns)[EnterLong := Where(old(df.Column(EnterLong)),
                                 LongEntries(df.candles, old(df.columns)[Support]), One)];
              if Resistance !in afterLong then r == Raise(KeyError) && df.columns == afterLong
              else r.Ok? && df.columns == afterLong[EnterShort := Where(old(df.Column(EnterShort)),
                                                     ShortEntries(df.candles, afterLong[Resistance]), One)]
  {
    if Support !in df.columns {
      return Raise(KeyError);
    }
    df.Loc(LongEntries(df.candles, df.columns[Support]), EnterLong, One);
    if Resistance !in df.columns {
      return Raise(KeyError);
    }
    df.Loc(ShortEntries(df.candles, df.columns[Resistance]), EnterShort, One);
    return Ok(());
  }

  /** As written, no row is ever marked for entry on the columns `populate_indicators` writes. */
  lemma NoEntriesAsWritten(c: seq<Candle>, i: nat)
    requires i < |c|
    ensures !LongEntries(c, RollingMin(c, Window))[i]
    ensures !ShortEntries(c, RollingMax(c, Window))[i]
  {
    if i + 1 >= Window {
      CloseWithinOwnWindow(c, Window, i);
    }
  }

  /** The levels the entry evidently meant: the support and resistance of the 25 candles before
      the row (`rolling(25).min().shift(1)`), NaN on the first 25 rows. */
  function PreviousMin(c: seq<Candle>, w: nat): (s: seq<Cell>)
    requires w >= 1
    ensures |s| == |c|
  {
    seq(|c|, i requires 0 <= i < |c| => if i < w then NaN else Num(MinClose(c, i - w, i)))
  }

  function PreviousMax(c: seq<Candle>, w: nat): (s: seq<Cell>)
    requires w >= 1
    ensures |s| == |c|
  {
    seq(|c|, i requires 0 <= i < |c| => if i < w then NaN else Num(MaxClose(c, i - w, i)))
  }

  /** The entry against the previous window's levels, computed from the candles. */
  method PopulateEntryTrendIntended(df: DataFrame)
    requires df.Valid()
    modifies df
    ensures df.Valid()
    ensures df.columns == old(df.columns)
              [EnterLong := Where(old(df.Column(EnterLong)), LongEntries(df.candles, PreviousMin(df.candles, Window)), One)]
              [EnterShort := Where(old(df.Column(EnterShort)), ShortEntries(df.candles, PreviousMax(df.candles, Window)), One)]
  {
    df.Loc(LongEntries(df.candles, PreviousMin(df.candles, Window)), EnterLong, One);
    df.Loc(ShortEntries(df.candles, PreviousMax(df.candles, Window)), EnterShort, One);
  }

  /** With the previous window, a long enters exactly on a breakdown: the close is below every
      one of the 25 closes before it and volume rises; a short enters exactly on a breakout. */
  lemma IntendedEntryIsBreakout(c: seq<Candle>, i: nat)
    requires Window <= i < |c|
    ensures LongEntries(c, PreviousMin(c, Window))[i]
            <==> (forall j :: i - Window <= j < i ==> c[i].close < c[j].close) && c[i].volume > c[i - 1].volume
    ensures ShortEntries(c, PreviousMax(c, Window))[i]
            <==> (forall j :: i - Window <= j < i ==> c[i].close > c[j].close) && c[i].volume > c[i - 1].volume
  {
    IntendedLongEntry(c, i);
    IntendedShortEntry(c, i);
  }

  lemma IntendedLongEntry(c: seq<Candle>, i: nat)
    requires Window <= i < |c|
    ensures LongEntries(c, PreviousMin(c, Window))[i]
            <==> (forall j :: i - Window <= j < i ==> c[i].close < c[j].close) && c[i].volume > c[i - 1].volume
  {
    var lo := MinClose(c, i - Window, i);
    assert PreviousMin(c, Window)[i] == Num(lo);
    assert LongEntries(c, PreviousMin(c, Window))[i] == (c[i].close < lo && VolumeRises(c, i));
    BelowWindow(c, i - Window, i, c[i].close);
  }

  lemma IntendedShortEntry(c: seq<Candle>, i: nat)
    requires Window <= i < |c|
    ensures ShortEntries(c, PreviousMax(c, Window))[i]
            <==> (forall j :: i - Window <= j < i ==> c[i].close > c[j].close) && c[i].volume > c[i - 1].volume
  {
    var hi := MaxClose(c, i - Window, i);
    assert PreviousMax(c, Window)[i] == Num(hi);
    assert ShortEntries(c, PreviousMax(c, Window))[i] == (hi < c[i].close && VolumeRises(c, i));
    AboveWindow(c, i - Window, i, c[i].close);
  }

  /** `populate_exit_trend`: a long exits at or above resistance, a short at or below support;
      both columns are read before any write. */
  method PopulateExitTrend(df: DataFrame) returns (r: Result<()>)
    requires df.Valid()
    modifies df
    ensures df.Valid()
    ensures Resistance !in old(df.columns) ==> r == Raise(KeyError) && df.columns == old(df.columns)
    ensures Resistance in old(df.columns) ==>
              var afterLong := old(df.columns)[ExitLong := Where(old(df.Column(ExitLong)),
                                 LongExits(df.candles, old(df.columns)[Resistance]), One)];
              if Support !in afterLong then r == Raise(KeyError) && df.columns == afterLong
              else r.Ok? && df.columns == afterLong[ExitShort := Where(old(df.Column(ExitShort)),
                                                    ShortExits(df.candles, afterLong[Support]), One)]
  {
    if Resistance !in df.columns {
      return Raise(KeyError);
    }
    df.Loc(LongExits(df.candles, df.columns[Resistance]), ExitLong, One);
    if Support !in df.columns {
      return Raise(KeyError);
    }
    df.Loc(ShortExits(df.candles, df.columns[Support]), ExitShort, One);
    return Ok(());
  }

  /** On the computed levels a long exits exactly when its close is the highest of its window,
      a short exactly when it is the lowest; nothing exits on the first 24 rows. */
  lemma ExitAtWindowExtreme(c: seq<Candle>, i: nat)
    requires i < |c|
    ensures i + 1 < Window ==> !LongExits(c, RollingMax(c, Window))[i] && !ShortExits(c, RollingMin(c, Window))[i]
    ensures i + 1 >= Window ==>
              (LongExits(c, RollingMax(c, Window))[i] <==> forall j :: i + 1 - Window <= j <= i ==> c[j].close <= c[i].close)
    ensures i + 1 >= Window ==>
              (ShortExits(c, RollingMin(c, Window))[i] <==> forall j :: i + 1 - Window <= j <= i ==> c[i].close <= c[j].close)
  {
    if i + 1 >= Window {
      var hi := MaxClose(c, i + 1 - Window, i + 1);
      var lo := MinClose(c, i + 1 - Window, i + 1);
      assert RollingMax(c, Window)[i] == Num(hi);
      assert RollingMin(c, Window)[i] == Num(lo);
    }
  }

  /** `leverage`: always 4. */
  function Leverage(proposed: real, maxLeverage: real): (l: real)
    ensures l == 4.0
  {
    4.0
  }

  method CustomStoploss(trade: Trade, currentRate: real, currentProfit: real, sfo: StopFromOpen)
    returns (r: Option<real>)
    modifies trade`customData
    ensures var c := BreakEven.Call(Latch, old(trade.customData), trade.openRate, currentRate, trade.isShort,
                                    currentProfit, trade.leverage, sfo);
            r == Caught(c.0) && trade.customData == c.1
  {
    var out := BreakEven.Apply(trade, Latch, currentRate, currentProfit, sfo);
    r := Caught(out);
  }

  method AdjustTradePosition(trade: Trade, currentRate: real) returns (r: Option<real>)
    modifies trade`customData
    ensures match PriceRate(trade.openRate, currentRate, trade.isShort)
            case Raise(_) => r.None? && trade.customData == old(trade.customData)
            case Ok(rate) =>
              var c := Adjust.Call([], Targets, old(trade.customData), rate, trade.stakeAmount, trade.stakeAmount);
              r == c.0 && trade.customData == c.1
  {
    var out := Adjust.Apply(trade, [], Targets, true, currentRate, trade.stakeAmount);
    r := Caught(out);
  }

  /** The latch and stage 1 share the threshold 0.01: on a trade with stage 1 unsold, the
      ladder sells stage 1 exactly when the latch's excursion is reached. */
  lemma LatchWithFirstStage(store: map<Key, bool>, rate: real)
    requires !Flag(store, StageSold(1))
    ensures Ladder.Decide(Targets, store, rate) == Sell(1) <==> BreakEven.Reached(Latch, rate)
  {
    if rate >= 0.01 {
      assert Ladder.Eligible(Targets.stages, store, rate, 0);
    }
  }
}
