/**
 * Strategy_Goal_Depth_Futures: long and short entries gated by a band on the bid/ask ratio
 * and by the funding rate, with a direction-aware break-even latch and take-profit ladder.
 * The funding rate comes from an `@informative("5m", candle_type="funding_rate")` method, whose
 * columns the merge suffixes with the timeframe: the merged column is `funding_rate_5m`, but
 * the entry masks read `funding_rate`. `EntryAsWritten` is the entry as it then runs;
 * `PopulateEntryTrend` reads the merged column.
 */
module GoalDepthFutures {
  import opened Wrappers
  import opened Trades
  import opened Actions
  import Ladder
  import Adjust
  import BreakEven
  import opened OrderBook
  import opened Frames

  /** A long needs bids/asks above 1.3, a short below 0.7, both over 7 levels; large orders
      are those of 500 or more on either side. */
  const DeltaLong: real := 1.3
  const DeltaShort: real := 0.7
  const DepthLong: int := 7
  const DepthShort: int := 7
  const VolumeThreshold: real := 500.0

  const Targets := Ladder.Config([Stage(0.03, 0.3), Stage(0.06, 0.3)], 0.10)

  /** Break-even at `target_percent * target_stage_1` = 0.003, direction-aware. */
  const Latch := BreakEven.Latch(0.10 * 0.03, false, true, 0.002)

  function LongEntries(c: seq<Candle>, depth: bool, large: bool): (m: seq<bool>)
    ensures |m| == |c|
  {
    seq(|c|, i requires 0 <= i < |c| => depth && large && VolumeRises(c, i) && CloseFalls(c, i) && c[i].fundingRate5m < 0.0)
  }

  function ShortEntries(c: seq<Candle>, depth: bool, large: bool): (m: seq<bool>)
    ensures |m| == |c|
  {
    seq(|c|, i requires 0 <= i < |c| => depth && large && VolumeRises(c, i) && CloseRises(c, i) && c[i].fundingRate5m > 0.0)
  }

  /** `populate_entry_trend`: each `.loc` evaluates its own depth check first, so a check that
      raises stops the method after the writes before it. */
  method PopulateEntryTrend(df: DataFrame, book: Book) returns (r: Result<()>)
    requires df.Valid()
    modifies df
    ensures df.Valid()
    ensures var large := LargeOrders(book, VolumeThreshold);
            var dl := BandDepth(book, DepthLong, DeltaLong, false);
            var ds := BandDepth(book, DepthShort, DeltaShort, true);
            var afterLong := if dl.Ok? then old(df.columns)[EnterLong := Where(old(df.Column(EnterLong)),
                                                            LongEntries(df.candles, dl.value, large), One)]
                             else old(df.columns);
            if dl.Raise? then r == Raise(dl.error) && df.columns == old(df.columns)
            else if ds.Raise? then r == Raise(ds.error) && df.columns == afterLong
            else r.Ok? && df.columns == afterLong[EnterShort := Where(old(df.Column(EnterShort)),
                                                   ShortEntries(df.candles, ds.value, large), One)]
  {
    var large := LargeOrders(book, VolumeThreshold);
    var dl := BandDepth(book, DepthLong, DeltaLong, false);
    if dl.Raise? {
      return Raise(dl.error);
    }
    df.Loc(LongEntries(df.candles, dl.value, large), EnterLong, One);
    var ds := BandDepth(book, DepthShort, DeltaShort, true);
    if ds.Raise? {
      return Raise(ds.error);
    }
    df.Loc(ShortEntries(df.candles, ds.value, large), EnterShort, One);
    return Ok(());
  }

  /** `populate_entry_trend` as written: the first mask evaluates the long depth check, which
      may raise, and then looks up the unsuffixed `funding_rate` column, which raises KeyError.
      Nothing is ever written. */
  function EntryAsWritten(book: Book): (r: Result<()>)
    ensures r.Raise?
    ensures r.error != KeyError <==> BandDepth(book, DepthLong, DeltaLong, false).Raise?
  {
    match BandDepth(book, DepthLong, DeltaLong, false)
    case Raise(e) => Raise(e)
    case Ok(_) => Raise(KeyError)
  }

  /** The method as written: the frame is not modified, and the call raises as `EntryAsWritten`
      says. */
  method PopulateEntryTrendAsWritten(df: DataFrame, book: Book) returns (r: Result<()>)
    requires df.Valid()
    ensures r == EntryAsWritten(book)
  {
    var dl := BandDepth(book, DepthLong, DeltaLong, false);
    if dl.Raise? {
      return Raise(dl.error);
    }
    return Raise(KeyError);
  }

  /** Seven bid levels of 1000 against seven ask levels of 500 pass the long depth check and
      hold a large order, so the corrected long mask is the candle conditions alone; the
      as-written call raises KeyError on that book. */
  lemma MissedEntryWitness()
    ensures var book := Book(seq(7, _ => Entry(1.0, 1000.0)), seq(7, _ => Entry(1.0, 500.0)));
            EntryAsWritten(book) == Raise(KeyError)
            && BandDepth(book, DepthLong, DeltaLong, false) == Ok(true)
            && LargeOrders(book, VolumeThreshold)
  {
    var book := Book(seq(7, _ => Entry(1.0, 1000.0)), seq(7, _ => Entry(1.0, 500.0)));
    SumsOfConstantLevels(Prefix(book.bids, DepthLong), 1000.0);
    SumsOfConstantLevels(Prefix(book.asks, DepthLong), 500.0);
    assert book.bids[0].size >= VolumeThreshold;
  }

  /** The long and short masks exclude each other on every row (close falling against rising,
      funding negative against positive), and with the same depth and positive ask total the
      two depth checks exclude each other too (the ratio cannot be above 1.3 and below 0.7). */
  lemma EntriesExclusive(book: Book, c: seq<Candle>, dl: bool, ds: bool, large: bool, i: nat)
    requires i < |c|
    ensures !(LongEntries(c, dl, large)[i] && ShortEntries(c, ds, large)[i])
    ensures BandDepth(book, DepthLong, DeltaLong, false) == Ok(true) ==> BandDepth(book, DepthShort, DeltaShort, true) == Ok(false)
  {
  }

  /** `leverage`: always 3, whatever is proposed. */
  function Leverage(proposed: real, maxLeverage: real): (l: real)
    ensures l == 3.0
  {
    3.0
  }

  method CustomStoploss(trade: Trade, currentRate: real, currentProfit: real, sfo: StopFromOpen)
    returns (r: Option<real>)
    modifies trade`customData
    ensures var c := BreakEven.Call(Latch, old(trade.customData), trade.openRate, currentRate, trade.isShort,
                                    currentProfit, trade.leverage, sfo);
            r == Caught(c.0) && trade.customData == c.1
  {
    var out := BreakEven.Apply(trade, Latch, currentRate, currentProfit, sfo);
    r := Caught(out);
  }

  method AdjustTradePosition(trade: Trade, currentRate: real) returns (r: Option<real>)
    modifies trade`customData
    ensures match PriceRate(trade.openRate, currentRate, trade.isShort)
            case Raise(_) => r.None? && trade.customData == old(trade.customData)
            case Ok(rate) =>
              var c := Adjust.Call([], Targets, old(trade.customData), rate, trade.stakeAmount, trade.stakeAmount);
              r == c.0 && trade.customData == c.1
  {
    var out := Adjust.Apply(trade, [], Targets, true, currentRate, trade.stakeAmount);
    r := Caught(out);
  }

  /** For a short with positive prices the ladder measures `open/current - 1`: the first stage
      sells exactly when the price has fallen to `open / 1.03` or below. */
  lemma ShortStageOne(store: map<Key, bool>, openRate: real, currentRate: real, stake: real)
    requires openRate > 0.0 && currentRate > 0.0 && !Flag(store, StageSold(1))
    ensures var rate := PriceRate(openRate, currentRate, true).value;
            Adjust.Decide([], Targets, store, rate) == Sell(1) <==> openRate >= 1.03 * currentRate
  {
    PriceRateReaches(openRate, currentRate, true, 0.03);
    var rate := PriceRate(openRate, currentRate, true).value;
    if rate >= 0.03 {
      assert Ladder.Eligible(Targets.stages, store, rate, 0);
    }
  }
}
