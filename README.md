# Position-management logic of the freqtrade strategies

This project models the decision logic of a set of freqtrade strategy classes, in Dafny.
Each class plugs into the freqtrade bot. The bot owns market data, indicators, order
execution and persistence. The strategies decide the rest:

- **Row-wise signal rules.** `populate_entry_trend` and `populate_exit_trend` write 0/1
  columns into the candle frame with `.loc[mask, column] = 1`. `custom_exit_signal` writes
  target flags and an ordered series of stop writes. The Resistance strategy writes rolling
  support and resistance columns.
- **Order-book checks.**
  - `check_depth_of_market` compares the summed sizes of the first `depth` bid and ask levels.
  - `analyze_large_orders` asks whether any level is at least a volume threshold.
- **Per-trade callbacks.** They remember milestones in a small per-trade flag store:
  - the break-even `custom_stoploss` latch;
  - the staged take-profit ladder and the DCA buy-in ladder of `adjust_trade_position`;
  - the best-price trailing partial exit;
  - the profit-target stoploss and sell tagging;
  - the trailing stop from the highest price.

Each file models one thing:

- `wrappers.dfy`: the failure-carrying results.
- `trades.dfy`: the trade and its flag store.
- `frames.dfy`: the candle frame.
- The shared machinery:
  - `order_book.dfy`: the order-book checks.
  - `actions.dfy`, `ladder.dfy`, `adjust.dfy` and `runs.dfy`: the take-profit and buy-in ladders.
  - `breakeven.dfy`: the break-even latch.
  - `trailing.dfy`: the best-price trailing exit.
- One file per strategy class. It holds that class's constants and its callbacks, each tied
  to the shared machinery.

Python behaviour is modelled explicitly:

- A division by zero, a float used as a slice bound, `.iloc[-1]` on an empty frame and a
  missing key are a `Raise` result.
- A callback wrapped in `try/except: return None` turns such a result into `None` and
  changes nothing.
- An absent flag reads as false.
- A comparison with a NaN cell of a written column is false. The first row of a `shift(1)`
  comparison is therefore false.

Prices are `real`.

## Model

| member | source | states |
|---|---|---|
| Wrappers.Div | user_data/strategies/Strategy_Goal_Depth_RSI_Futures_SUI.py:227-231 | Python division raises exactly on a zero divisor; otherwise the quotient times the divisor is the dividend |
| Wrappers.Caught | user_data/strategies/Strategy_Goal_Depth_RSI_Futures_SUI.py:212-214 | a body wrapped in `try/except: return None` turns any exception into None and passes a normal return through |
| Trades.PriceRate | user_data/strategies/Strategy_Goal_Depth_RSI_Futures_SUI.py:227-231 | the excursion `current/open - 1` (long) or `open/current - 1` (short) raises exactly when its divisor is zero |
| Trades.PriceRateReaches | user_data/strategies/Strategy_Goal_Depth_RSI_Futures_SUI.py:227-235 | for positive prices, reaching excursion t is the price condition `current >= (1+t)·open` (long) or `open >= (1+t)·current` (short), strict and non-strict |
| Trades.Trade.constructor | user_data/strategies/Strategy_SLpart_SPELLUSDT_leverage.py:151-153 | a new trade starts with no custom-data flag set and no best price stored (0), the defaults these reads fall back to |
| Actions.Mark | user_data/strategies/Strategy_Goal_Depth_RSI_Futures_SUI.py:237-241 | recording an action sets only that action's key to true, and every flag already set stays set |
| Actions.Payout | user_data/strategies/Strategy_Goal_Depth_RSI_Futures_SUI.py:238-247 | None exactly for Hold; a buy-in is non-negative, a partial sale non-positive, and a full exit is `-base` |
| OrderBook.Prefix | user_data/strategies/Strategy_Goal_Depth_RSI_Futures_SUI.py:173-174 | `xs[:n]` is the first n levels, all of them past the end, and all but the last -n for a negative n |
| OrderBook.SumSizes | user_data/strategies/Strategy_Goal_Depth_RSI_Futures_SUI.py:173-174 | the summed sizes are 0 for no levels and non-negative for non-negative sizes |
| OrderBook.LoggedDepth | user_data/strategies/Strategy_Goal_Depth.py:133-142 | false on a book shallower than depth; raises on a zero ask total, in the log line; true only on a deep book |
| OrderBook.GuardedDepth | user_data/strategies/Strategy_Goal_Vidra_RSI_EMA_MACD_INJ.py:174-187 | false on a shallow book; the entry ratio is 0 on a zero ask total, so the entry never raises and answers false for delta >= 0; the exit raises exactly on a zero bid total |
| OrderBook.BandDepth | user_data/strategies/Strategy_Goal_Depth_Futures.py:126-136 | false on a shallow book; otherwise raises exactly when the ask total is zero, and compares bids/asks above delta for a long and below it for a short |
| OrderBook.Slice | user_data/strategies/Strategy_Goal_Depth_RSI_Futures_SUI.py:173-174 | slicing with a float raises TypeError; with an int it is the prefix |
| OrderBook.DirectedDepth | user_data/strategies/Strategy_Goal_Depth_RSI_Futures_SUI.py:167-179 | false when either side has fewer levels than depth; with an integer depth, asks/bids for a short and bids/asks for a long, strictly above delta, raising on a zero divisor |
| OrderBook.FloatDepthNeverTrue | user_data/strategies/Strategy_Goal_Depth_RSI_Futures_SUI.py:167-179 | handed a float depth, the directed check never answers true, and it raises on any book at least that deep |
| OrderBook.Large | user_data/strategies/Strategy_Goal_Depth_RSI_Futures_SUI.py:182-183 | the comprehension keeps only levels of the list with size >= threshold, and keeps one exactly when one exists |
| OrderBook.LargeOrders | user_data/strategies/Strategy_Goal_Depth_RSI_Futures_SUI.py:181-185 | true iff some bid or some ask level has size >= threshold |
| OrderBook.DeeperLevelsIgnored | user_data/strategies/Strategy_Goal_Depth_RSI_Futures_SUI.py:173-174 | levels beyond depth change none of the depth checks |
| OrderBook.RatioAsProduct | user_data/strategies/Strategy_Goal_Depth.py:137-142 | with a positive ask total, every entry check is `bids > delta·asks`, and the three variants agree |
| Ladder.FirstOpenStage | user_data/strategies/Strategy_Goal_Depth_RSI_Futures_SUI.py:235-242 | the `if/elif` branch taken is the first stage that is unsold and reached; no earlier stage is eligible |
| Ladder.Decide | user_data/strategies/Strategy_Goal_Depth_RSI_Futures_SUI.py:235-247 | sells the lowest eligible stage; with none eligible, closes all exactly when the final target is reached, else holds; never buys |
| Ladder.LowestStageFirst | user_data/strategies/Strategy_Goal_Depth_RSI_Futures_SUI.py:235-242 | with ascending thresholds and nothing sold, any excursion reaching some stage sells stage 1 first |
| Adjust.FirstDueLevel | user_data/strategies/Strategy_Goal_Vidra_RSI_EMA_MACD_INJ.py:211-216 | the first level, from k on, that is unbought and reached by the drawdown; none before it is due |
| Adjust.ScanLevels | user_data/strategies/Strategy_Goal_Vidra_RSI_EMA_MACD_INJ.py:211-216 | the `for` loop with early return finds exactly the first due level |
| Adjust.Decide | user_data/strategies/Strategy_Goal_Vidra_RSI_EMA_MACD_INJ.py:210-231 | buys iff some level is due, and then the first due one; otherwise the ladder's decision |
| Adjust.Step | user_data/strategies/Strategy_Goal_Vidra_RSI_EMA_MACD_INJ.py:210-231 | the scan-then-ladder step on a flag store returns exactly the stake change and the new store of one call |
| Adjust.Apply | user_data/strategies/Strategy_Goal_Vidra_RSI_EMA_MACD_INJ.py:205-231 | on an exception the flags are unchanged; otherwise the return value and the new flags are those of one call on the computed excursion |
| Adjust.OneNewFlag | user_data/strategies/Strategy_Goal_Vidra_RSI_EMA_MACD_INJ.py:213-225 | a call acts only on a milestone whose flag was unset |
| Adjust.BuysInOrder | user_data/strategies/Strategy_Goal_Vidra_RSI_EMA_MACD_INJ.py:211-216 | with descending levels, level i is bought only when all earlier levels are already bought |
| Adjust.BuyBeforeSell | user_data/strategies/Strategy_Goal_Vidra_RSI_EMA_MACD_INJ.py:210-219 | when a level is due, the call buys (a level at or before it) and records the buy before any sell is considered |
| Adjust.LadderNeverBuys | user_data/strategies/Strategy_Goal_Depth_RSI_Futures_SUI.py:235-247 | without buy-in levels the call never returns a positive amount, and returns the whole base only at the final target |
| Runs.Run | user_data/strategies/Strategy_Goal_Depth_RSI_Futures_SUI.py:224-242 | successive calls on one trade, each seeing the flags the previous one left, one action per call |
| Runs.FlagsStaySet | user_data/strategies/Strategy_Goal_Vidra_RSI_EMA_MACD_INJ.py:215-225 | flags only move from false to true over any run of calls |
| Runs.AtMostOnce | user_data/strategies/Strategy_Goal_Depth_RSI_Futures_SUI.py:235-242 | each stage sale and each buy-in happens at most once per run, and never if already recorded |
| BreakEven.Call | user_data/strategies/Strategy_Goal_Depth_RSI_Futures_SUI.py:196-211 | raises exactly when the excursion does, changing nothing; returns the break-even stop iff the flag was set or the threshold is reached; the flag is set afterwards iff a stop is returned; no other key changes |
| BreakEven.Apply | user_data/strategies/Strategy_Goal_Depth_RSI_Futures_SUI.py:196-211 | the callback on a trade returns and stores exactly what one call decides |
| BreakEven.Sticky | user_data/strategies/Strategy_Goal_Depth_RSI_Futures_SUI.py:205-209 | once latched, every computable call returns the break-even stop whatever the price, and leaves the flags unchanged |
| BreakEven.Run | user_data/strategies/Strategy_Goal_Depth_RSI_Futures_SUI.py:196-211 | successive latch calls, one outcome per call |
| BreakEven.NeverReleases | user_data/strategies/Strategy_Goal_Depth_RSI_Futures_SUI.py:205-209 | after a call returns a stop, every later call that does not raise returns one too |
| BreakEven.LatchedStaysLatched | user_data/strategies/Strategy_Goal_Depth_RSI_Futures_SUI.py:205-209 | from a latched store, every call of a run that does not raise returns the stop |
| Trailing.DirectionOf | user_data/strategies/Strategy_SLpart_SPELLUSDT_leverage.py:162-172 | the direction is Long exactly for "long" and Short exactly for "short" |
| Trailing.Clear | user_data/strategies/Strategy_SLpart_SPELLUSDT_leverage.py:165-168 | clearing a partial-exit flag leaves it unset and every other key as it was |
| Trailing.PartialExit | user_data/strategies/Strategy_SLpart_SPELLUSDT_leverage.py:186-198 | drawdown beyond pl returns the whole stake and records nothing; a partial exit returns half the stake and sets one previously unset flag; no exit changes nothing |
| Trailing.Call | user_data/strategies/Strategy_SLpart_SPELLUSDT_leverage.py:151-198 | raises only for a short with a stored best price at a zero current price; with no best price, it stores the current price and returns None; an unknown direction changes nothing |
| Trailing.Apply | user_data/strategies/Strategy_SLpart_SPELLUSDT_leverage.py:151-198 | the step-by-step callback leaves the best price and flags that one call decides, or nothing on an exception |
| Trailing.BestIsMonotone | user_data/strategies/Strategy_SLpart_SPELLUSDT_leverage.py:162-179 | a long's best price never decreases and a short's never increases |
| Trailing.NewExtremeResets | user_data/strategies/Strategy_SLpart_SPELLUSDT_leverage.py:163-179 | a new extreme replaces the best price, returns None and clears both partial-exit flags |
| Trailing.DrawdownNonNegative | user_data/strategies/Strategy_SLpart_SPELLUSDT_leverage.py:171-181 | the drawdown from a positive best price is non-negative when no new extreme was set |
| Trailing.FullExitRepeats | user_data/strategies/Strategy_SLpart_SPELLUSDT_leverage.py:186-188 | the full exit records nothing, so a second call at the same drawdown returns the whole stake again |
| Trailing.AtMostTwoHalfExits | user_data/strategies/Strategy_SLpart_SPELLUSDT_leverage.py:189-198 | at an unchanged drawdown within pl, the third successive call returns nothing |
| Frames.Where | user_data/strategies/Strategy_Goal_Depth_RSI_Futures_SUI.py:131-134 | `.loc[mask, col] = v` gives masked rows v and keeps every other row |
| Frames.ProfitAtLeastIsPrice | user_data/strategies/Strategy00plus.py:80-84 | with a positive open, `close/open - 1 >= t` is `close >= (1+t)·open` |
| Frames.FreshWrites | user_data/strategies/Strategy_Goal_Depth_RSI_Futures_SUI.py:131-143 | a fresh column holds 1 on a row exactly when the mask held there |
| Frames.DataFrame.Loc | user_data/strategies/Strategy_Goal_Depth_RSI_Futures_SUI.py:131-134 | the masked write changes only its column, which becomes the Where of its old value |
| Frames.DataFrame.Assign | user_data/strategies/Strategy00G_SOLUSDT.py:104-107 | a whole-column assignment changes only that column |
| GoalDepthRsiFuturesSui.PopulateEntryTrend | user_data/strategies/Strategy_Goal_Depth_RSI_Futures_SUI.py:118-145 | as written, the depth check receives depth and delta swapped; on an exception nothing is written; otherwise both entry columns get their masks |
| GoalDepthRsiFuturesSui.PopulateEntryTrendIntended | user_data/strategies/Strategy_Goal_Depth_RSI_Futures_SUI.py:118-145 | the same entry with depth 15 and delta 1.3 where the parameters declare them |
| GoalDepthRsiFuturesSui.NoEntryAsWritten | user_data/strategies/Strategy_Goal_Depth_RSI_Futures_SUI.py:122-179 | as written, no row is ever marked for a long or a short entry |
| GoalDepthRsiFuturesSui.SwappedArgumentsWitness | user_data/strategies/Strategy_Goal_Depth_RSI_Futures_SUI.py:122-179 | on a 16-level book with bids twice the asks, the written call raises TypeError while the intended call answers true |
| OrderBook.SumsOfConstantLevels | user_data/strategies/Strategy_Goal_Depth_RSI_Futures_SUI.py:173-174 | n levels of size s sum to n·s |
| GoalDepthRsiFuturesSui.EntriesExclusive | user_data/strategies/Strategy_Goal_Depth_RSI_Futures_SUI.py:124-143 | no row is marked for both a long and a short entry (falling against rising close) |
| GoalDepthRsiFuturesSui.PopulateExitTrend | user_data/strategies/Strategy_Goal_Depth_RSI_Futures_SUI.py:148-164 | exit long above RSI 70 and exit short below RSI 35, written in that order |
| GoalDepthRsiFuturesSui.Leverage | user_data/strategies/Strategy_Goal_Depth_RSI_Futures_SUI.py:187-191 | always 4 |
| GoalDepthRsiFuturesSui.CustomStoploss | user_data/strategies/Strategy_Goal_Depth_RSI_Futures_SUI.py:193-214 | the direction-aware latch at 0.01; an exception yields None and no change |
| GoalDepthRsiFuturesSui.AdjustTradePosition | user_data/strategies/Strategy_Goal_Depth_RSI_Futures_SUI.py:216-249 | the two-stage ladder on the stake over the direction-aware excursion; an exception yields None and no change |
| GoalDepthRsiFuturesSui.StageOneFirst | user_data/strategies/Strategy_Goal_Depth_RSI_Futures_SUI.py:235-242 | with nothing sold, any excursion >= 0.01 sells 0.4 of the stake and records stage 1; below it nothing happens |
| GoalDepth.PopulateEntryTrend | user_data/strategies/Strategy_Goal_Depth.py:107-123 | the logged depth check runs first; on an exception nothing is written, otherwise the entry mask is written |
| GoalDepth.EntryNeedsAllConditions | user_data/strategies/Strategy_Goal_Depth.py:115-120 | a marked row had a deep, bid-heavy book, a large order, rising volume and a falling close |
| GoalDepth.CustomStoploss | user_data/strategies/Strategy_Goal_Depth.py:152-169 | the long-style latch at 0.10·0.03; an exception yields None and no change |
| GoalDepth.AdjustTradePosition | user_data/strategies/Strategy_Goal_Depth.py:171-199 | sells 0.3 of the stake once at 0.03 and 0.3 once at 0.06, the whole stake at 0.10, else None; an exception yields None |
| GoalDepth.LatchBeforeFirstStage | user_data/strategies/Strategy_Goal_Depth.py:160-186 | every excursion that sells stage 1 has already latched, and an excursion of 0.01 latches without selling |
| GoalDepthFutures.PopulateEntryTrend | user_data/strategies/Strategy_Goal_Depth_Futures.py:92-116 | reading the merged funding rate `funding_rate_5m`: each write evaluates its own band check first; a long check that raises writes nothing, a short check that raises keeps the long write |
| GoalDepthFutures.EntryAsWritten | user_data/strategies/Strategy_Goal_Depth_Futures.py:96-101 | as written, the call always raises: the long band check's ZeroDivisionError if it raises, otherwise KeyError for the unsuffixed `funding_rate` |
| GoalDepthFutures.PopulateEntryTrendAsWritten | user_data/strategies/Strategy_Goal_Depth_Futures.py:92-116 | the method as written modifies no column and raises as `EntryAsWritten` says |
| GoalDepthFutures.MissedEntryWitness | user_data/strategies/Strategy_Goal_Depth_Futures.py:96-101 | a book passing the long band check with a large order, on which the as-written call raises KeyError |
| GoalDepthFutures.EntriesExclusive | user_data/strategies/Strategy_Goal_Depth_Futures.py:96-136 | no row is both a long and a short entry, and the long band check passing makes the short one fail |
| GoalDepthFutures.Leverage | user_data/strategies/Strategy_Goal_Depth_Futures.py:144-148 | always 3 |
| GoalDepthFutures.CustomStoploss | user_data/strategies/Strategy_Goal_Depth_Futures.py:150-171 | the direction-aware latch at 0.10·0.03; an exception yields None and no change |
| GoalDepthFutures.AdjustTradePosition | user_data/strategies/Strategy_Goal_Depth_Futures.py:173-206 | the direction-aware two-stage ladder on the stake; an exception yields None and no change |
| GoalDepthFutures.ShortStageOne | user_data/strategies/Strategy_Goal_Depth_Futures.py:184-195 | a short with stage 1 unsold sells it exactly when `open >= 1.03·current` |
| GoalDepthRsiSui.BotStart | user_data/strategies/Strategy_Goal_Depth_RSI_SUI.py:80-83 | only "5m" loads settings (delta 1.3, depth 15, threshold 40000); any other configured timeframe raises KeyError |
| GoalDepthRsiSui.PopulateEntryTrend | user_data/strategies/Strategy_Goal_Depth_RSI_SUI.py:106-126 | with the settings `bot_start` loaded, the logged depth check runs first; on an exception nothing is written, otherwise the RSI-below-35 entry mask is written |
| GoalDepthRsiSui.PopulateExitTrend | user_data/strategies/Strategy_Goal_Depth_RSI_SUI.py:129-138 | exit where RSI is above 70 on a candle with volume |
| GoalDepthRsiSui.EntryAndExitExclusive | user_data/strategies/Strategy_Goal_Depth_RSI_SUI.py:118-142 | no row is both an entry and an exit, and an entry needs at least 15 levels a side |
| GoalDepthRsiSui.CustomStoploss | user_data/strategies/Strategy_Goal_Depth_RSI_SUI.py:162-179 | the latch at `current/open - 1 >= 0.02`; an exception yields None and no change |
| GoalDepthRsiSui.AdjustTradePosition | user_data/strategies/Strategy_Goal_Depth_RSI_SUI.py:181-209 | sells 0.2 once at 0.02 and 0.3 once at 0.04, the whole stake at 0.06; an exception yields None |
| GoalDepthRsiSui.LatchWithFirstStage | user_data/strategies/Strategy_Goal_Depth_RSI_SUI.py:173-196 | with stage 1 unsold, the ladder sells stage 1 exactly when the latch threshold is reached |
| GoalVidraInj.BotStart | user_data/strategies/Strategy_Goal_Vidra_RSI_EMA_MACD_INJ.py:88-91 | "5m" and "30m" give delta 1.3, depth 15 and threshold 500 or 1000; any other timeframe raises KeyError |
| GoalVidraInj.PopulateEntryTrend | user_data/strategies/Strategy_Goal_Vidra_RSI_EMA_MACD_INJ.py:117-155 | the zero-guarded depth check never raises; the mask is written, and the call raises IndexError iff the frame is empty |
| GoalVidraInj.PopulateExitTrend | user_data/strategies/Strategy_Goal_Vidra_RSI_EMA_MACD_INJ.py:157-172 | the exit mask is written, and the call raises IndexError iff the frame is empty |
| GoalVidraInj.EntryNeverExit | user_data/strategies/Strategy_Goal_Vidra_RSI_EMA_MACD_INJ.py:123-165 | a row marked for entry is never marked for exit |
| GoalVidraInj.AdjustTradePosition | user_data/strategies/Strategy_Goal_Vidra_RSI_EMA_MACD_INJ.py:198-234 | with `get_custom_value`/`set_custom_value` read as the custom data: the DCA scan, then the ladder selling parts of `trade.amount`; an exception yields None and no change |
| GoalVidraInj.AdjustAsWritten | user_data/strategies/Strategy_Goal_Vidra_RSI_EMA_MACD_INJ.py:205-234 | as written, the first flag read raises AttributeError inside the `try`: every call returns None |
| GoalVidraInj.MissedBuyIn | user_data/strategies/Strategy_Goal_Vidra_RSI_EMA_MACD_INJ.py:211-216 | at a drawdown of 2% or more a fresh trade buys 0.2 of the stake and records level 0, where the as-written call returns None |
| GoalVidraInj.LevelsInOrder | user_data/strategies/Strategy_Goal_Vidra_RSI_EMA_MACD_INJ.py:211-216 | level 1 is bought only after level 0 |
| GoalVidraInj.DeepDrawdown | user_data/strategies/Strategy_Goal_Vidra_RSI_EMA_MACD_INJ.py:211-216 | at a drawdown of 3.5% or more, three calls on a fresh trade buy level 0, then level 1, then hold |
| GoalVidraLimUni.PopulateEntryTrend | user_data/strategies/Strategy_Goal_Vidra_RSI_lim_UNI.py:98-118 | the logged depth check runs first; on an exception nothing is written, otherwise the hourly-RSI entry mask is written |
| GoalVidraLimUni.PopulateExitTrend | user_data/strategies/Strategy_Goal_Vidra_RSI_lim_UNI.py:120-126 | exit where the hourly RSI is above 70 |
| GoalVidraLimUni.EntryNeverExit | user_data/strategies/Strategy_Goal_Vidra_RSI_lim_UNI.py:110-124 | a row marked for entry is never marked for exit |
| GoalVidraLimUni.Call | user_data/strategies/Strategy_Goal_Vidra_RSI_lim_UNI.py:151-189 | with two days passed and stage 1 sold, the whole stake regardless of price; a zero open rate otherwise yields None and no change |
| GoalVidraLimUni.AdjustTradePosition | user_data/strategies/Strategy_Goal_Vidra_RSI_lim_UNI.py:151-189 | the callback returns and stores exactly what one call decides |
| GoalVidraLimUni.TimeExitFirst | user_data/strategies/Strategy_Goal_Vidra_RSI_lim_UNI.py:160-163 | the time exit wins even where a buy-in would be due |
| GoalVidraLimUni.NoTimeExitBefore | user_data/strategies/Strategy_Goal_Vidra_RSI_lim_UNI.py:160-187 | before two days, or before stage 1 is sold, a call is the DCA scan then the ladder |
| GoalVidraLimUni.LevelsInOrder | user_data/strategies/Strategy_Goal_Vidra_RSI_lim_UNI.py:169-173 | the four levels are bought in order |
| GoalVidraSuiEma30.PopulateEntryTrend | user_data/strategies/Strategy_Goal_Vidra_SUI_EMA_30.py:96-118 | the logged depth check runs first; on an exception nothing is written, otherwise the EMA-gated entry mask is written |
| GoalVidraSuiEma30.PopulateExitTrend | user_data/strategies/Strategy_Goal_Vidra_SUI_EMA_30.py:120-126 | exit where the 15-minute EMA30 is above the EMA20 |
| GoalVidraSuiEma30.EmaCrossSplitsRows | user_data/strategies/Strategy_Goal_Vidra_SUI_EMA_30.py:110-124 | no row is both an entry and an exit, and with the EMAs apart a row exits exactly when it fails the entry's EMA condition |
| GoalVidraSuiEma30.AdjustTradePosition | user_data/strategies/Strategy_Goal_Vidra_SUI_EMA_30.py:150-181 | with `custom_info` a working dictionary: the DCA scan then the ladder, recorded there; an exception yields None and no change |
| GoalVidraSuiEma30.AdjustAsWritten | user_data/strategies/Strategy_Goal_Vidra_SUI_EMA_30.py:154-181 | as written, the first `custom_info` read raises AttributeError inside the `try`: every call returns None |
| GoalVidraSuiEma30.FirstBuyIn | user_data/strategies/Strategy_Goal_Vidra_SUI_EMA_30.py:159-164 | on a fresh trade any drawdown of 2% or more buys 0.15 of the stake and records only level 0 |
| GoalVidraSuiEma30.LevelsInOrder | user_data/strategies/Strategy_Goal_Vidra_SUI_EMA_30.py:159-164 | the four levels are bought in order |
| GoalVidraSuiEma30.MissedBuyIn | user_data/strategies/Strategy_Goal_Vidra_SUI_EMA_30.py:159-164 | where a fresh trade's first buy-in of 0.15 of the stake is due, the as-written call returns None |
| GoalResistanceFuturesSol.MinClose | user_data/strategies/Strategy_Goal_Resistance_Futures_SOL.py:74 | the window minimum is at most every close in the window and equals one of them |
| GoalResistanceFuturesSol.MaxClose | user_data/strategies/Strategy_Goal_Resistance_Futures_SOL.py:75 | the window maximum is at least every close in the window and equals one of them |
| GoalResistanceFuturesSol.RollingMin | user_data/strategies/Strategy_Goal_Resistance_Futures_SOL.py:74 | `rolling(w).min()` is defined exactly from row w-1 on |
| GoalResistanceFuturesSol.RollingMax | user_data/strategies/Strategy_Goal_Resistance_Futures_SOL.py:75 | `rolling(w).max()` is defined exactly from row w-1 on |
| GoalResistanceFuturesSol.CloseWithinOwnWindow | user_data/strategies/Strategy_Goal_Resistance_Futures_SOL.py:74-75 | support <= close <= resistance on every row with a full window |
| GoalResistanceFuturesSol.BeyondWindow | user_data/strategies/Strategy_Goal_Resistance_Futures_SOL.py:74-75 | below the window minimum iff below every close in it; above the maximum iff above every close |
| GoalResistanceFuturesSol.PopulateIndicators | user_data/strategies/Strategy_Goal_Resistance_Futures_SOL.py:66-76 | writes the support and resistance columns over the whole frame |
| GoalResistanceFuturesSol.PopulateEntryTrend | user_data/strategies/Strategy_Goal_Resistance_Futures_SOL.py:79-97 | a missing support column raises KeyError before any write; a missing resistance column raises after the long write |
| GoalResistanceFuturesSol.NoEntriesAsWritten | user_data/strategies/Strategy_Goal_Resistance_Futures_SOL.py:74-93 | on the computed levels no row is ever a long or a short entry |
| GoalResistanceFuturesSol.PreviousMin | user_data/strategies/Strategy_Goal_Resistance_Futures_SOL.py:74 | the window of the 25 candles before the row |
| GoalResistanceFuturesSol.PreviousMax | user_data/strategies/Strategy_Goal_Resistance_Futures_SOL.py:75 | the window of the 25 candles before the row |
| GoalResistanceFuturesSol.PopulateEntryTrendIntended | user_data/strategies/Strategy_Goal_Resistance_Futures_SOL.py:79-97 | the entry against the previous window's levels |
| GoalResistanceFuturesSol.IntendedEntryIsBreakout | user_data/strategies/Strategy_Goal_Resistance_Futures_SOL.py:82-93 | with the previous window, a long enters iff the close is below all 25 closes before it and volume rises; a short iff above them all |
| GoalResistanceFuturesSol.PopulateExitTrend | user_data/strategies/Strategy_Goal_Resistance_Futures_SOL.py:100-114 | reads resistance then support; a missing column raises KeyError, keeping the writes before it |
| GoalResistanceFuturesSol.ExitAtWindowExtreme | user_data/strategies/Strategy_Goal_Resistance_Futures_SOL.py:102-111 | a long exits iff its close is the highest of its window and a short iff the lowest; nothing exits on the first 24 rows |
| GoalResistanceFuturesSol.Leverage | user_data/strategies/Strategy_Goal_Resistance_Futures_SOL.py:116-120 | always 4 |
| GoalResistanceFuturesSol.CustomStoploss | user_data/strategies/Strategy_Goal_Resistance_Futures_SOL.py:122-143 | the direction-aware latch at 0.01; an exception yields None and no change |
| GoalResistanceFuturesSol.AdjustTradePosition | user_data/strategies/Strategy_Goal_Resistance_Futures_SOL.py:145-178 | sells 0.33 once at 0.01 and 0.55 once at 0.02, the whole stake at 0.025; an exception yields None |
| GoalResistanceFuturesSol.LatchWithFirstStage | user_data/strategies/Strategy_Goal_Resistance_Futures_SOL.py:126-166 | with stage 1 unsold, stage 1 sells exactly when the latch threshold is reached |
| SlpartSpellusdt.PopulateEntryTrend | user_data/strategies/Strategy_SLpart_SPELLUSDT.py:84-95 | the EMA crossover entry mask |
| SlpartSpellusdt.PopulateExitTrend | user_data/strategies/Strategy_SLpart_SPELLUSDT.py:97-108 | the EMA crossunder exit mask |
| SlpartSpellusdt.CrossesSeparate | user_data/strategies/Strategy_SLpart_SPELLUSDT.py:84-108 | no row is both a crossover and a crossunder, and two crossovers are at least two rows apart |
| SlpartSpellusdt.CustomStoploss | user_data/strategies/Strategy_SLpart_SPELLUSDT.py:110-127 | the strict latch above 1%; an exception yields None and no change |
| SlpartSpellusdt.AdjustTradePosition | user_data/strategies/Strategy_SLpart_SPELLUSDT.py:129-174 | the long trailing exit with pl 0.03, which never raises |
| SlpartSpellusdt.ThreeQuarterThenHalf | user_data/strategies/Strategy_SLpart_SPELLUSDT.py:159-169 | at a 2.5% drawdown, a half sale marked "3/4", then a half sale marked "half", then nothing |
| SlpartSpellusdtLeverage.PopulateEntryTrend | user_data/strategies/Strategy_SLpart_SPELLUSDT_leverage.py:86-97 | the EMA crossover entry mask |
| SlpartSpellusdtLeverage.PopulateExitTrend | user_data/strategies/Strategy_SLpart_SPELLUSDT_leverage.py:99-110 | the EMA crossunder exit mask |
| SlpartSpellusdtLeverage.Leverage | user_data/strategies/Strategy_SLpart_SPELLUSDT_leverage.py:112-127 | always 3 |
| SlpartSpellusdtLeverage.CustomStoploss | user_data/strategies/Strategy_SLpart_SPELLUSDT_leverage.py:129-142 | the strict long-style latch with offset 0.003, exceptions passed to the host |
| SlpartSpellusdtLeverage.ShortLatchesOnRise | user_data/strategies/Strategy_SLpart_SPELLUSDT_leverage.py:132-138 | on a fresh short the latch fires exactly when the price has risen more than 1% above the open |
| SlpartSpellusdtLeverage.AdjustTradePosition | user_data/strategies/Strategy_SLpart_SPELLUSDT_leverage.py:144-198 | the trailing exit in `trade.trade_direction`, exceptions passed to the host |
| SlpartSpellusdtLeverage.ShortNeverRaisesOnPositivePrices | user_data/strategies/Strategy_SLpart_SPELLUSDT_leverage.py:181 | with positive prices the short call always returns |
| SlpartSpellusdtLeverage.ShortFullExit | user_data/strategies/Strategy_SLpart_SPELLUSDT_leverage.py:181-188 | a short at 1.03 times its best price gives back the whole stake and records nothing |
| GoalKavausdt.PopulateEntryTrend | user_data/strategies/Strategy_Goal_KAVAUSDT.py:79-90 | the EMA crossover entry mask |
| GoalKavausdt.PopulateExitTrend | user_data/strategies/Strategy_Goal_KAVAUSDT.py:92-103 | the EMA crossunder exit mask |
| GoalKavausdt.CustomStoploss | user_data/strategies/Strategy_Goal_KAVAUSDT.py:105-118 | the latch at 0.109·0.1, exceptions passed to the host |
| GoalKavausdt.AdjustTradePosition | user_data/strategies/Strategy_Goal_KAVAUSDT.py:120-144 | as written: raises on a zero open rate, otherwise the ladder's decision on flags it never changes |
| GoalKavausdt.StageOneRepeats | user_data/strategies/Strategy_Goal_KAVAUSDT.py:131-135 | with stage 1 unrecorded, every call at an excursion >= 0.0109 sells 0.3 of the stake again |
| GoalKavausdt.StageThreeAsWritten | user_data/strategies/Strategy_Goal_KAVAUSDT.py:139-141 | stage 3 gives back 0.3 of the stake as written, 0.25 as intended |
| GoalKavausdt.AdjustTradePositionIntended | user_data/strategies/Strategy_Goal_KAVAUSDT.py:120-144 | the ladder that records its flags and pays 0.25 at stage 3 |
| GoalKavausdt.IntendedSellsOnce | user_data/strategies/Strategy_Goal_KAVAUSDT.py:131-141 | as intended, each stage sells at most once over any run of calls |
| Strategy00gSolusdt.PopulateEntryTrend | user_data/strategies/Strategy00G_SOLUSDT.py:64-75 | the EMA crossover entry mask |
| Strategy00gSolusdt.PopulateExitTrend | user_data/strategies/Strategy00G_SOLUSDT.py:77-88 | the EMA crossunder exit mask |
| Strategy00gSolusdt.ZeroExitFlags | user_data/strategies/Strategy00G_SOLUSDT.py:104-107 | the four exit-profit columns become 0 and nothing else changes |
| Strategy00gSolusdt.WriteExitFlags | user_data/strategies/Strategy00G_SOLUSDT.py:104-112 | each exit-profit column is zeroed then set to 1 where the close reaches its target |
| Strategy00gSolusdt.WriteStops | user_data/strategies/Strategy00G_SOLUSDT.py:115-117 | the three stop writes, in order, on the stop column |
| Strategy00gSolusdt.CustomExitSignal | user_data/strategies/Strategy00G_SOLUSDT.py:90-119 | an empty frame raises IndexError before any write; otherwise the four flag columns and the stop column as written |
| Strategy00gSolusdt.ExitFlagIsReach | user_data/strategies/Strategy00G_SOLUSDT.py:104-112 | each flag cell is 1 exactly when the close reaches the target, else 0 |
| Strategy00gSolusdt.ExitFlagsNest | user_data/strategies/Strategy00G_SOLUSDT.py:98-112 | for a non-negative entry price, a higher target's flag implies every lower one |
| Strategy00gSolusdt.LastWriteWins | user_data/strategies/Strategy00G_SOLUSDT.py:115-117 | each row keeps the stop of the highest of the three targets it strictly passes, or its old stop |
| Strategy00gSolusdt.StopTrailsOneTarget | user_data/strategies/Strategy00G_SOLUSDT.py:98-117 | for a positive entry, a row past k targets gets the price one step below the k-th, at or above the entry and strictly below the close |
| Strategy00gSolusdtGpt.TrailedStop | user_data/strategies/Strategy00G_SOLUSDT_GPT.py:90-91 | raises exactly on a zero open rate, and is never below the initial stop |
| Strategy00gSolusdtGpt.CustomStoploss | user_data/strategies/Strategy00G_SOLUSDT_GPT.py:80-95 | the trailed stop iff some target is reached, else the initial stop, and never below it |
| Strategy00gSolusdtGpt.FirstTargetDecides | user_data/strategies/Strategy00G_SOLUSDT_GPT.py:84-88 | for a positive open, some target is reached iff the first one is |
| Strategy00gSolusdtGpt.RaisesOnZeroOpen | user_data/strategies/Strategy00G_SOLUSDT_GPT.py:87-91 | the call raises exactly when the open rate is zero and the current rate is not negative |
| Strategy00gSolusdtGpt.TrailsOnlyNearOpen | user_data/strategies/Strategy00G_SOLUSDT_GPT.py:90-91 | past the first target, the stop is above the initial one exactly while `0.95·current < 1.05·open` |
| Strategy00gSolusdtGpt.FirstUnhit | user_data/strategies/Strategy00G_SOLUSDT_GPT.py:103-105 | the first target that is reached and untagged; none before it qualifies |
| Strategy00gSolusdtGpt.CustomSell | user_data/strategies/Strategy00G_SOLUSDT_GPT.py:97-112 | with `custom_info` a working dictionary: the loop tags and records exactly the first reached, untagged target, or returns "none" with no change |
| Strategy00gSolusdtGpt.SellAsWritten | user_data/strategies/Strategy00G_SOLUSDT_GPT.py:103-105 | as written, raises AttributeError to the host once a target is reached; otherwise returns "none", as the corrected call does on any store |
| Strategy00gSolusdtGpt.RaisesFromFirstTarget | user_data/strategies/Strategy00G_SOLUSDT_GPT.py:103-105 | for a positive open, the as-written call raises exactly from the first target on, where a fresh trade's corrected call tags target 1 |
| Strategy00gSolusdtGpt.OneNewEntry | user_data/strategies/Strategy00G_SOLUSDT_GPT.py:105-109 | a call sets at most one previously unset entry, the one it tags |
| Strategy00gSolusdtGpt.SellRun | user_data/strategies/Strategy00G_SOLUSDT_GPT.py:97-112 | successive calls on one trade, one tag per call |
| Strategy00gSolusdtGpt.EachTagOnce | user_data/strategies/Strategy00G_SOLUSDT_GPT.py:105-109 | each target is tagged at most once over any run, and never if already recorded |
| Strategy00Sl.PopulateEntryTrend | user_data/strategies/Strategy00_SL.py:58-69 | the EMA crossover entry mask |
| Strategy00Sl.PopulateExitTrend | user_data/strategies/Strategy00_SL.py:71-82 | the EMA crossunder exit mask |
| Strategy00Sl.StopPrice | user_data/strategies/Strategy00_SL.py:91-94 | the stop price is at least the open and 96.5% of the highest price, and equals one of them |
| Strategy00Sl.CustomStoploss | user_data/strategies/Strategy00_SL.py:84-97 | the initial stop up to a profit of 1.5%; beyond it, raises exactly on a zero current rate |
| Strategy00Sl.StopAtStopPrice | user_data/strategies/Strategy00_SL.py:89-94 | once trailing, `current·(1 + r)` is exactly the stop price |
| Strategy00Sl.TrailingNeverLoosens | user_data/strategies/Strategy00_SL.py:89-94 | once trailing, the ratio is at least `open/current - 1` and never decreases as the highest price rises |
| Strategy00plus.PopulateEntryTrend | user_data/strategies/Strategy00plus.py:58-69 | the EMA crossover entry mask |
| Strategy00plus.PopulateExitTrend | user_data/strategies/Strategy00plus.py:71-100 | the three step flags at 1%, 2.5% and 4% of the candle's profit, in order |
| Strategy00plus.StepsArePriceLevels | user_data/strategies/Strategy00plus.py:80-98 | with a positive open, each step is the close at 1.01, 1.025 or 1.04 times the open |
| Strategy00plus.FreshStepsNest | user_data/strategies/Strategy00plus.py:80-98 | in fresh columns a full-exit row is a 25% row and a 25% row is a 50% row |
| Strategy00plus1.PopulateEntryTrend | user_data/strategies/Strategy00plus1.py:55-66 | the EMA crossover entry mask |
| Strategy00plus1.PopulateExitTrend | user_data/strategies/Strategy00plus1.py:68-90 | the 2% flag, three writes of the 10% column, then the 25.5% full exit |
| Strategy00plus1.OverwritesCollapse | user_data/strategies/Strategy00plus1.py:79-85 | the three writes into the 10% column equal the single write at 10% |
| Strategy00plus1.StepsArePriceLevels | user_data/strategies/Strategy00plus1.py:73-88 | with a positive open, each flag is a price level over the open, and a full-exit row is also a 10% and a 2% row |

## Left out

- Indicator values (RSI, EMA, MACD, ADX, funding rate) are inputs on each candle. The
  indicator library is not part of this model.
- `qtpylib.crossed_above` and `crossed_below` are modelled by their usual definition: above
  on the row, and not above on the row before. Their code is not part of this model.
- Host functions are parameters or inputs:
  - `stoploss_from_open` is a function parameter;
  - the order book is a parameter;
  - the highest price of a trade (`trade.max_rate`) is a parameter;
  - the whole days since a trade opened are a parameter, since the source reads the wall clock.
- The persistence of custom data is a map on the trade. Only its boolean flags and the best
  price are modelled.
- Three classes keep their flags through trade members that the host's `Trade` does not
  define: `get_custom_value`/`set_custom_value` (Strategy_Goal_Vidra_RSI_EMA_MACD_INJ.py:213-225)
  and `trade.custom_info` (Strategy_Goal_Vidra_SUI_EMA_30.py:161-173 and
  Strategy00G_SOLUSDT_GPT.py:105-107). The other classes use `get_custom_data` and
  `set_custom_data`.
  - `GoalVidraInj.AdjustTradePosition`, `GoalVidraSuiEma30.AdjustTradePosition` and
    `Strategy00gSolusdtGpt.CustomSell` read these members as a working per-trade flag store:
    the custom data for INJ, and a dictionary that starts empty for the other two.
  - Without them, every INJ and SUI_EMA_30 call past the excursion raises AttributeError inside
    the `try` and returns None, and GPT's `custom_sell` raises AttributeError once a target is
    reached. The as-written members in "## Findings" model this.
- Logging is left out, except where a log line raises.
- Floating-point rounding is left out: prices are exact reals.
- Python `int` overflow cannot occur and is not modelled.
- The informative-pair merges (hourly RSI, 15-minute EMAs, funding rate) are inputs on each
  candle, under the merged names the strategies read: `rsi_1h`, `ema20_15m`/`ema30_15m`, and
  `funding_rate_5m`.
- GoalDepthFutures.PopulateEntryTrend reads the merged `funding_rate_5m`. The source reads an
  unsuffixed `funding_rate`, which the merge does not produce; `EntryAsWritten` models that
  call, and "## Findings" records it.
- `bot_start` looks up the settings of the configured timeframe in five classes.
  - Strategy_Goal_Depth_RSI_Futures_SUI.py:92, Strategy_Goal_Vidra_RSI_lim_UNI.py:88 and
    Strategy_Goal_Vidra_SUI_EMA_30.py:83: each class declares `timeframe = "5m"` and holds
    "5m" settings. The model uses those settings as constants. A configuration that overrides
    the timeframe, making the lookup fail, is not modelled.
  - Strategy_Goal_Depth_RSI_SUI.py:83 and Strategy_Goal_Vidra_RSI_EMA_MACD_INJ.py:91: the
    class declares no timeframe, so the lookup depends on the configuration. It is modelled,
    with its KeyError, as `GoalDepthRsiSui.BotStart` and `GoalVidraInj.BotStart`.
- Some callbacks run only when the bot's configuration enables them, and the model describes
  what they do when they run.
  - Strategy_Goal_KAVAUSDT.py sets neither `position_adjustment_enable` nor
    `use_custom_stoploss`.
  - Strategy00G_SOLUSDT_GPT.py and Strategy00_SL.py do not set `use_custom_stoploss`.
  - Every other class with these callbacks enables them itself.
- Indicator warm-up rows are not represented. Indicator values are exact reals on every
  candle, but in the source an indicator is NaN until its period fills (e.g. the first 14
  rows of RSI). Every comparison on such a row is false there, so no entry or exit fires; the
  model assumes a value and may fire one. Only the Resistance class's rolling support and
  resistance carry their warm-up NaN.
- The SPELLUSDT "3/4" branch sells half the stake, as written. Its log message says three
  quarters, but the code, not the message, is modelled.
- The empty `populate_exit_trend` of Strategy_Goal_Depth_Futures.py is not modelled, since it
  writes nothing.
- The GPT file's `populate_entry_trend` calls an indicator-library crossover. It is not part
  of this model. Its `populate_exit_trend` writes a constant 0 column and is not modelled.
- The `custom_exit` of Strategy00G_SOLUSDT.py calls `execute_trade_exit`, which is not part of
  this model. `custom_exit_signal` is modelled: it writes the "exit_profit_k" columns that
  `custom_exit` reads. Nothing in the class calls it, though, and the host has no callback of
  that name, so in the source those columns are written by nothing and `custom_exit` finds
  none of them.
- Strategy00G_SOLUSDT_GPT.py: the `sell_ratio` of each profit target is not read by either
  callback. It is kept in the data but plays no part.
- The sell tag strings `sell_target{k}_hit` and `none` are the datatype `SellTag`.
- `SlpartSpellusdtLeverage.CustomStoploss` keeps the source's long-style excursion for shorts.
  `ShortLatchesOnRise` states what that means. It is not claimed as a finding, since the
  source's intent for shorts is not evident.
- Duplicate values in a `dca_levels` list would make `list.index` return an earlier stage.
  Every configured list has distinct values, so the model indexes levels by position.

## Findings

| source | as written | input that shows it | evidently intended | confidence | as-written member | corrected member |
|---|---|---|---|---|---|---|
| user_data/strategies/Strategy_Goal_Depth_RSI_Futures_SUI.py:122 | `check_depth_of_market(order_book, depth, delta)` against parameters declared `(bids_to_ask_delta, depth)`, so depth 1.3 slices the list | 16 bid levels of size 2, 16 ask levels of size 1: the call raises TypeError | the depth check with delta 1.3 over 15 levels, which answers true on that book | not executed | GoalDepthRsiFuturesSui.NoEntryAsWritten | GoalDepthRsiFuturesSui.PopulateEntryTrendIntended |
| user_data/strategies/Strategy_Goal_KAVAUSDT.py:134 | the stage flags are read with `get_custom_data` where they were to be set, so none is ever recorded | with position adjustment enabled by the configuration, any sequence of calls at an excursion of 0.0109 or more: each sells 0.3 of the stake | record each stage's flag so that each stage sells once | not executed | GoalKavausdt.StageOneRepeats | GoalKavausdt.IntendedSellsOnce |
| user_data/strategies/Strategy_Goal_KAVAUSDT.py:141 | stage 3 returns `stage_2_sell_amount` (0.3) | with position adjustment enabled by the configuration, stages 1 and 2 recorded, excursion 0.071: returns -0.3·stake | `stage_3_sell_amount` (0.25), returning -0.25·stake | not executed | GoalKavausdt.StageThreeAsWritten | GoalKavausdt.AdjustTradePositionIntended |
| user_data/strategies/Strategy_Goal_Resistance_Futures_SOL.py:74-75 | the rolling window includes the current close, which the entries compare against | any frame: no row has close below its own window minimum, so no entry is ever marked | compare against the previous 25 closes (`shift(1)`), a breakout entry | not executed | GoalResistanceFuturesSol.NoEntriesAsWritten | GoalResistanceFuturesSol.IntendedEntryIsBreakout |
| user_data/strategies/Strategy_Goal_Vidra_RSI_EMA_MACD_INJ.py:213 | the DCA flags are read and written with `get_custom_value`/`set_custom_value`, which the host's trade does not define | a call with a non-zero open rate and a drawdown of 2%: AttributeError inside the `try`, so None and no buy-in | the custom-data accessors `get_custom_data`/`set_custom_data` the other classes use, buying 0.2 of the stake | not executed | GoalVidraInj.AdjustAsWritten | GoalVidraInj.AdjustTradePosition |
| user_data/strategies/Strategy_Goal_Vidra_SUI_EMA_30.py:161 | the DCA and ladder flags are kept in `trade.custom_info`, which the host's trade does not define | a call with a non-zero open rate and a drawdown of 3%: AttributeError inside the `try`, so None and no buy-in | a per-trade flag store, buying 0.15 of the stake | not executed | GoalVidraSuiEma30.AdjustAsWritten | GoalVidraSuiEma30.AdjustTradePosition |
| user_data/strategies/Strategy00G_SOLUSDT_GPT.py:105 | the target tags are kept in `trade.custom_info`, which the host's trade does not define | a fresh trade with open 100 at current 102: AttributeError reaches the host | a per-trade flag store, tagging "sell_target1_hit" | not executed | Strategy00gSolusdtGpt.SellAsWritten | Strategy00gSolusdtGpt.CustomSell |
| user_data/strategies/Strategy_Goal_Depth_Futures.py:101 | the entry masks read `dataframe['funding_rate']`, but the `@informative` merge names the column `funding_rate_5m`, as it names `rsi_1h` and `ema20_15m` in the sibling classes | seven bid levels of 1000 against seven ask levels of 500: the long band check passes, then the lookup raises KeyError and no entry is written | read the merged `funding_rate_5m` | not executed | GoalDepthFutures.EntryAsWritten | GoalDepthFutures.PopulateEntryTrend |
