/**
 * The candle frame the row-wise signal rules read and write. The host's indicator columns
 * arrive as numbers on each candle, so the NaN rows an indicator starts with (before its
 * period is filled) are not represented. The columns the strategies write are cells that may
 * hold NaN (a pandas column created by `.loc[mask, col] = v` is NaN on every row the mask
 * leaves out), and comparisons against such a NaN are false, as in pandas.
 */
module Frames {
  import opened Wrappers

  /** One row of the frame: the host's price, volume and indicator columns. `emaFast` and
      `emaSlow` are the two EMA columns an EMA-crossover strategy compares: `emaSlow` is the
      30-period "ema30"; `emaFast` is the 20-period EMA in the KAVA, SPELLUSDT and 00G_SOLUSDT
      classes (stored as "ema15" or "ema20") and the 15-period "ema15" in the GPT, 00_SL,
      00plus and 00plus1 classes. */
  datatype Candle = Candle(
    open: real, close: real, volume: real,
    rsi: real, rsi1h: real,
    emaShort: real, emaLong: real, macd: real, macdSignal: real, adx: real,
    fundingRate5m: real, ema20At15m: real, ema30At15m: real,
    emaFast: real, emaSlow: real)

  /** The columns the strategies write. */
  datatype Col =
    | EnterLong | EnterShort | ExitLong | ExitShort
    | Support | Resistance
    | ExitProfit(k: nat)    // "exit_profit_{k}"
    | Stoploss
    | ExitLong50 | ExitLong25 | ExitLong10

  datatype Cell = NaN | Num(v: real)

  /** The value 1 the masks write. */
  const One: Cell := Num(1.0)

  /** `a < b` between cells: false when either is NaN. */
  predicate Below(a: Cell, b: Cell) { a.Num? && b.Num? && a.v < b.v }
  predicate AtMost(a: Cell, b: Cell) { a.Num? && b.Num? && a.v <= b.v }

  /** `col` after `.loc[mask, col] = v`: masked rows take `v`, the others keep their value. */
  function Where(col: seq<Cell>, mask: seq<bool>, v: Cell): (r: seq<Cell>)
    requires |col| == |mask|
    ensures |r| == |col|
    ensures forall i :: 0 <= i < |r| ==> r[i] == if mask[i] then v else col[i]
  {
    seq(|col|, i requires 0 <= i < |col| => if mask[i] then v else col[i])
  }

  /** A column that does not exist yet reads as NaN everywhere. */
  function NaNs(n: nat): (r: seq<Cell>)
    ensures |r| == n && forall i :: 0 <= i < n ==> r[i] == NaN
  {
    seq(n, i => NaN)
  }

  /** `series > series.shift(1)` on volume: false on the first row, where the shifted value is NaN. */
  predicate VolumeRises(c: seq<Candle>, i: int)
    requires 0 <= i < |c|
  {
    i > 0 && c[i].volume > c[i - 1].volume
  }

  /** `close < close.shift(1)` and `close > close.shift(1)`. */
  predicate CloseFalls(c: seq<Candle>, i: int)
    requires 0 <= i < |c|
  {
    i > 0 && c[i].close < c[i - 1].close
  }

  predicate CloseRises(c: seq<Candle>, i: int)
    requires 0 <= i < |c|
  {
    i > 0 && c[i].close > c[i - 1].close
  }

  /** qtpylib's `crossed_above(fast, slow)` and `crossed_below(fast, slow)`: the fast EMA is
      above (below) the slow one on the row and was not on the row before; false on the first
      row, where the shifted series is NaN. */
  predicate CrossedAbove(c: seq<Candle>, i: int)
    requires 0 <= i < |c|
  {
    i > 0 && c[i].emaFast > c[i].emaSlow && c[i - 1].emaFast <= c[i - 1].emaSlow
  }

  predicate CrossedBelow(c: seq<Candle>, i: int)
    requires 0 <= i < |c|
  {
    i > 0 && c[i].emaFast < c[i].emaSlow && c[i - 1].emaFast >= c[i - 1].emaSlow
  }

  /** `close / open - 1 >= t` on a row, with pandas' float division: a zero open gives +inf for
      a positive close (which passes every threshold), -inf for a negative one and NaN for a
      zero one (which pass none). */
  predicate ProfitAtLeast(c: Candle, t: real) {
    if c.open != 0.0 then c.close / c.open - 1.0 >= t else c.close > 0.0
  }

  /** With a positive open, the profit mask is a price condition: the close is at least
      `(1 + t)` times the open. */
  lemma ProfitAtLeastIsPrice(c: Candle, t: real)
    requires c.open > 0.0
    ensures ProfitAtLeast(c, t) <==> c.close >= (1.0 + t) * c.open
  {
    ScaleBothSides(c.close / c.open, c.open, c.close, 1.0 + t);
  }

  /** A row that two `.loc[..] = 1` writes into fresh columns both set was in both masks. */
  lemma FreshWrites(n: nat, m1: seq<bool>, m2: seq<bool>, i: nat)
    requires |m1| == n && |m2| == n && i < n
    ensures Where(NaNs(n), m1, One)[i] == One <==> m1[i]
    ensures Where(NaNs(n), m1, One)[i] == One && Where(NaNs(n), m2, One)[i] == One ==> m1[i] && m2[i]
  {
  }

  class DataFrame {
    const candles: seq<Candle>
    var columns: map<Col, seq<Cell>>

    /** Every written column has one cell per candle. */
    ghost predicate Valid()
      reads this
    {
      forall c :: c in columns ==> |columns[c]| == |candles|
    }

    /** `dataframe[c]`, NaN everywhere when the column has not been written. */
    function Column(c: Col): (s: seq<Cell>)
      reads this
      requires Valid()
      ensures |s| == |candles|
    {
      if c in columns then columns[c] else NaNs(|candles|)
    }

    constructor (candles: seq<Candle>)
      ensures this.candles == candles && columns == map[] && Valid()
    {
      this.candles := candles;
      columns := map[];
    }

    /** `dataframe.loc[mask, c] = v`. */
    method Loc(mask: seq<bool>, c: Col, v: Cell)
      requires Valid() && |mask| == |candles|
      modifies this
      ensures Valid()
      ensures columns == old(columns)[c := Where(old(Column(c)), mask, v)]
    {
      columns := columns[c := Where(Column(c), mask, v)];
    }

    /** `dataframe[c] = values` for a whole column. */
    method Assign(c: Col, values: seq<Cell>)
      requires Valid() && |values| == |candles|
      modifies this
      ensures Valid()
      ensures columns == old(columns)[c := values]
    {
      columns := columns[c := values];
    }
  }
}
