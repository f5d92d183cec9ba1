# Verified model of the trade-execution core of an FX (USD/JPY) backtesting system

This project models, in Dafny, the part of the backtesting system that turns
signals into trades and trades into money. It proves what that code promises.
Prices and money are `real`. Bars arrive with their signal columns already filled.

- **Positions and bar-replay engines.**
  - `BacktestPosition` models the backtest position.
  - `ExitCheck` is the per-bar exit check with the trailing stop.
  - `EngineCommon` holds the entry, equity and history rows the engines share.
  - `Backtest` is the base engine and its signal-reusing subclass.
  - `CustomEngine` and `EnhancedEngine` are the two stand-alone engines at the repository root.
  - `TradeStats` is their result summary and monthly table.
  - The engines are classes whose methods change balance, position lists and equity curve in place. Each bar loop is a `while` loop with its invariants.
  - The account invariant is that the balance equals the initial balance plus the realized profit of the closed positions.
- **Trade executor.** `Executor` models the position record and the executor account:
  - the position cap and the 80% margin limit;
  - closing at the take-profit before the stop-loss;
  - closing on a signal;
  - commissions;
  - the peak and the maximum drawdown;
  - win/loss streaks and statistics.
  Its invariant is balance = initial + total P&L − commissions.
- **Risk management.** `Risk` models the quality- and volatility-driven lot sizer, the adaptive stop/target levels, and the risk manager's drawdown, exposure and losing-streak gate and size factor.
- **Macro scorecard.** `MacroScorecard` covers indicator scores, regime-weighted currency scores, differentials and update frequencies.
- **Level clustering.** `LevelClustering` models the support/resistance clustering of swing prices.
- **Strategy money management.** `ProfitTargetV2` covers the trading hours, the lot rule and the risk gate. `IntegratedV1` covers the fixed reward-to-risk take-profit/stop rule.
- **Portfolio allocation.** `Portfolio` covers normalisation, risk-parity blending and rebalancing.
- **Shared pieces.** `Market` holds timestamps, bar rows, clamping and rounding. `Wrappers` holds the `Option` type.

Python's `None` returns and its division-by-zero crash paths become `Option` results or an `ok` flag rather than preconditions; the one `KeyError` the rebalance can raise is a precondition (see "Left out"). String-valued enumerations (exit reasons, strategy kinds, phases, regimes, market conditions, indicator names) become datatypes. A name the source does not know maps to the constructor that the source's default stands for.

Two engine paths crash as written, and the model repairs both crashes rather than modelling them:

- The constructor at `src/backtest/position.py:17-18` takes no `trailing_stop` argument. Yet `src/backtest/backtest_engine.py:188-197` passes one, so every entry there raises `TypeError`. The engine also reads trailing fields the class never sets. The model gives the position the two trailing fields, with the trailing price starting at the entry price.
- `position.py` defines no `calculate_profit`. Yet `custom_backtest_engine.py:206` and `enhanced_backtest_engine.py:225` call it for each open position when they record equity, so a bar with an open position raises `AttributeError`. The model computes unrealized profit with the base engine's formula. `BacktestPosition.UnrealizedIsRealizable` proves that formula equals what `close_position` would realize.

One unit differs between files:

- The executor (`src/backtest/trade_executor.py`) values a pip at 1,000 yen per lot. `position.py` values it at 10 yen per lot, so the same trade's yen result differs by a factor of 100. `Executor.PnlIsHundredfoldOfBacktest` states that relation.

## Model

| member | source | states |
|---|---|---|
| Market.MonthOf | custom_backtest_engine.py:85 | the month key of a timestamp is its year and month |
| Market.Clamp | src/strategies/integrated_strategy_v1.py:59 | the clamped value lies in [lo, hi], equals the input inside the range and the nearer end outside it |
| Market.ClampMono | src/strategies/integrated_strategy_v1.py:124 | clamping keeps the order of its inputs |
| Market.Round2 | src/backtest/trade_executor.py:229 | rounding to hundredths moves a value by at most half a hundredth |
| Market.Round1 | src/strategies/integrated_strategy_v1.py:139 | rounding to tenths moves a value by at most half a tenth |
| Market.Round2BelowGridPoint | src/strategies/profit_target_strategy_v2.py:431-433 | rounding to hundredths never passes a bound that lies on the hundredth grid |
| Market.TruncateTowardZero | src/backtest/trade_executor.py:243 | `int()` of a float: the whole part toward zero, within one of the input |
| BacktestPosition.StatusValue | src/backtest/position.py:6-10 | the label of a status is "オープン" exactly for the open status |
| BacktestPosition.ProfitPipsSign | src/backtest/position.py:70 | a long gains pips exactly when it exits above its entry, a short exactly when below; no move, no pips |
| BacktestPosition.ProfitJpySign | src/backtest/position.py:72-73 | with a positive lot the yen result has the sign of the pip result |
| BacktestPosition.Position.constructor | src/backtest/position.py:17-51 | a new position carries its arguments and is open with no exit time, exit price or profit |
| BacktestPosition.Position.ClosePosition | src/backtest/position.py:53-73 | records exit time, price and status; pips are the signed move times 100 and yen the pips times 10·lot; a non-open status leaves the position closed |
| BacktestPosition.Position.ToDict | src/backtest/position.py:75-96 | the row says 買い exactly for direction 1 (売り otherwise) and copies the exit and profit columns and the status label |
| BacktestPosition.ClosedRowConsistent | src/backtest/position.py:53-96 | the row of a closed position carries profits that its own entry, exit and lot produce, and its reason is not "オープン" |
| BacktestPosition.UnrealizedIsRealizable | src/backtest/backtest_engine.py:213 | the equity formula's unrealized profit of a position equals what `close_position` at that price would realize |
| EngineCommon.SpreadIsPaid | src/backtest/backtest_engine.py:178-182 | a buy enters half a spread above the quote and a sell half below: the two entries lie one spread apart and neither beats the quote |
| EngineCommon.NewPosition | src/backtest/backtest_engine.py:167-199 | the new position takes the bar's direction, stop, target and strategy, the spread-adjusted entry, the lot and trailing flag, and is open |
| EngineCommon.Rows | src/backtest/backtest_engine.py:101 | one `to_dict` row per position, in list order |
| EngineCommon.EquityIsLiquidationValue | src/backtest/backtest_engine.py:213-215 | the recorded unrealized profit is what closing every open position at the close would add to the balance |
| ExitCheck.TrailedStop | src/backtest/backtest_engine.py:121-140 | a long's stop only rises and a short's only falls; it moves only with an ATR, and then to high − ATR (resp. low + ATR) with the trailing price at that high (low), beyond the old trailing price |
| ExitCheck.ExitOf | src/backtest/backtest_engine.py:142-160 | a long exits exactly when the high reaches the target or the low the stop (a short mirrored); the exit is at the target or the stop, and the target wins when both are touched |
| ExitCheck.ExitProfitBetweenLevels | src/backtest/backtest_engine.py:142-160 | the pips realized at an exit lie between the target's and the stop's result |
| ExitCheck.TakeProfitIsAGain | src/backtest/backtest_engine.py:143-145 | a take-profit exit at a target on the profitable side of the entry gains pips |
| ExitCheck.PlannedStep | src/backtest/backtest_engine.py:120-160 | an exit is never the open status; a stop-loss exit is at the (trailed) stop; without trailing the stop and trailing price are unchanged |
| ExitCheck.Plan | src/backtest/backtest_engine.py:120 | one planned step per open position, read from the position before the loop moves it |
| ExitCheck.ExitFlags | src/backtest/backtest_engine.py:145 | a position is flagged exactly when its step exits |
| ExitCheck.ExitTradesBounded | src/backtest/backtest_engine.py:142-160 | one trade per closed position, each realizing an amount between its target's and its stop's yen result |
| ExitCheck.ExitOne | src/backtest/backtest_engine.py:120-160 | one loop iteration leaves the position with exactly the planned stop, trailing price and exit |
| ExitCheck.ExitPass | src/backtest/backtest_engine.py:118-164 | every position takes its planned step; those still open and those closed are returned in list order, distinct and together all the positions, and the closed ones became exactly the planned trades |
| ExitCheck.DroppedTrades | src/backtest/backtest_engine.py:142-163 | the closed positions become, in order, exactly the trades their planned exits describe |
| ExitCheck.ApplyExits | src/backtest/backtest_engine.py:118-160 | the loop carries out every planned step and collects exactly the positions the plan closes |
| ExitCheck.ExitAt | src/backtest/backtest_engine.py:120-160 | one iteration carries out the i-th step and extends the closed list exactly when it closes |
| ExitCheck.StillOpen | src/backtest/backtest_engine.py:162-164 | what the `remove` calls leave is exactly the positions the plan keeps, in list order |
| TradeStats.TradesOf | custom_backtest_engine.py:70-96 | one summary trade per closed position, in list order |
| TradeStats.RecordsAppend | custom_backtest_engine.py:152-153 | appending closed positions to the closed list appends their trades |
| TradeStats.NetProfitAppend | custom_backtest_engine.py:81 | the net profit of two runs of trades is the sum of their net profits |
| TradeStats.TakeProfitsAppend | enhanced_backtest_engine.py:134-160 | the take-profit count of two runs of trades is the sum of their counts |
| TradeStats.CountsBounded | custom_backtest_engine.py:70-72 | wins and take-profits never exceed the number of trades |
| TradeStats.NetIsGrossProfitMinusGrossLoss | custom_backtest_engine.py:76-81 | the net profit is the gross profit minus the gross loss, both non-negative |
| TradeStats.WinRateIsPercentage | custom_backtest_engine.py:74 | the win rate is 0 with no trade, otherwise scales the trade count to 100 × wins, and lies in [0, 100] when wins do not exceed trades |
| TradeStats.Summary | custom_backtest_engine.py:70-81 | trades are counted, wins and losses partition them, the win rate is a percentage (0 with no trade), the profit factor is infinite exactly when the gross loss is 0 and otherwise times the loss gives the profit, and the net profit is gross profit minus gross loss |
| TradeStats.Record | custom_backtest_engine.py:84-96 | recording a trade adds at most one entry to the table |
| TradeStats.RecordTotals | custom_backtest_engine.py:93-96 | recording a trade raises the table's trade total by one, its wins by the trade's win and its profit by the trade's profit |
| TradeStats.RecordMonths | custom_backtest_engine.py:85-91 | recording a trade adds only its month, and never a month twice |
| TradeStats.MonthsOf | custom_backtest_engine.py:83-96 | the month keys of the table, in order |
| TradeStats.MonthlyTotals | custom_backtest_engine.py:83-96 | the monthly table's trade, win and profit columns add up to the run's totals, no month appears twice, and its months are exactly the trades' exit months |
| TradeStats.MonthlyPerformance | custom_backtest_engine.py:83-96 | the loop builds the table of the trades taken in list order |
| TradeStats.RealizedTotal | custom_backtest_engine.py:136-150 | the amounts an exit pass adds to the balance total the net profit of the trades it closed |
| TradeStats.CountTakeProfits | enhanced_backtest_engine.py:140-158 | the counter of an exit pass grows by the number of take-profit closes |
| Backtest.BacktestEngine.constructor | src/backtest/backtest_engine.py:16-46 | the engine starts with the initial balance, no position and an empty curve, its invariant established |
| Backtest.BacktestEngine.CheckPositionsForExit | src/backtest/backtest_engine.py:104-165 | each open position trails and takes its planned exit; the closed ones move in list order to the closed list, the rest stay open, and the balance grows by exactly the closed trades' net profit |
| Backtest.BacktestEngine.MoveClosed | src/backtest/backtest_engine.py:162-165 | the closed positions are appended to the closed list, the open list becomes the survivors, and the balance gains their profit, keeping balance = initial + net profit |
| Backtest.BacktestEngine.OpenNewPosition | src/backtest/backtest_engine.py:167-199 | exactly one new position is appended, built from the bar with the engine's lot and the bar's trailing flag (False when absent) |
| Backtest.BacktestEngine.RecordEquity | src/backtest/backtest_engine.py:201-222 | one point is appended with the time, the balance, balance + unrealized profit at the close, and the open count |
| Backtest.BacktestEngine.ProcessBar | src/backtest/backtest_engine.py:90-99 | after the exits a position is opened exactly when the bar has a signal and fewer than `max_positions` remain; the balance grows by the exits' profit; one equity point is recorded |
| Backtest.BacktestEngine.ReplayBars | src/backtest/backtest_engine.py:90-99 | every bar adds one equity point stamped with its time, the closed list is only extended, and the account invariant holds throughout |
| Backtest.BacktestEngine.Run | src/backtest/backtest_engine.py:48-102 | after the replay the result is one `to_dict` row per closed position |
| Backtest.BacktestEngine.RunCustom | src/backtest/custom_backtest_engine.py:14-45 | the same replay; the frame is empty with the eleven history columns exactly when nothing closed, otherwise one row per closed position |
| CustomEngine.CustomBacktestEngine.constructor | custom_backtest_engine.py:14-47 | the engine starts with the initial balance, no position and an empty curve |
| CustomEngine.CustomBacktestEngine.CheckPositionsForExit | custom_backtest_engine.py:115-155 | target before stop, no trailing; closed positions move in list order and the balance grows by exactly their net profit |
| CustomEngine.CustomBacktestEngine.MoveClosed | custom_backtest_engine.py:152-155 | the closed positions are appended, the survivors stay open, and the balance gains their profit |
| CustomEngine.CustomBacktestEngine.OpenNewPosition | custom_backtest_engine.py:168-195 | exactly one new position is appended, sized by the bar's `position_size` when present, else by the engine's lot |
| CustomEngine.CustomBacktestEngine.RecordEquity | custom_backtest_engine.py:197-215 | one point with the time, the balance, balance + unrealized profit at the close, and the open count |
| CustomEngine.CustomBacktestEngine.ProcessBar | custom_backtest_engine.py:59-68 | a position is opened exactly when the bar has a signal and fewer than `max_positions` survive the exits; one equity point is recorded |
| CustomEngine.CustomBacktestEngine.ReplayBars | custom_backtest_engine.py:59-68 | one equity point per bar stamped with its time; the closed list is only extended |
| CustomEngine.CustomBacktestEngine.Run | custom_backtest_engine.py:49-113 | the statistics and monthly table are those of the closed trades, the trade count is the closed count, and the final balance is the initial balance plus the net profit |
| EnhancedEngine.Lot | enhanced_backtest_engine.py:197-202 | the increased lot at or above the threshold and the base lot below it; a `position_size` column overrides both and is doubled at the threshold |
| EnhancedEngine.LotMonotone | enhanced_backtest_engine.py:197-202 | a higher win rate never gives a smaller lot |
| EnhancedEngine.EnhancedBacktestEngine.WinRateBounds | enhanced_backtest_engine.py:151-178 | the running counters never count more wins than trades, and the running win rate lies in [0, 100] |
| EnhancedEngine.EnhancedBacktestEngine.constructor | enhanced_backtest_engine.py:14-57 | the engine starts with the initial balance, zero counters, a zero win rate and no position |
| EnhancedEngine.EnhancedBacktestEngine.CheckPositionsForExit | enhanced_backtest_engine.py:129-178 | closed positions move in list order, the balance grows by their net profit, every close counts as a trade and every take-profit close as a win |
| EnhancedEngine.EnhancedBacktestEngine.Book | enhanced_backtest_engine.py:150-178 | the closes are counted and moved: the trade counter equals the closed count and the win counter grows by the take-profit closes |
| EnhancedEngine.EnhancedBacktestEngine.MoveClosed | enhanced_backtest_engine.py:172-175 | the closed positions are appended, the survivors stay open, and the balance gains their profit |
| EnhancedEngine.EnhancedBacktestEngine.CountCloses | enhanced_backtest_engine.py:151-178 | one trade per close, one win per take-profit close; the win rate is recomputed from them once there is a trade |
| EnhancedEngine.EnhancedBacktestEngine.OpenNewPosition | enhanced_backtest_engine.py:180-214 | exactly one new position is appended, sized by `Lot` at the current win rate |
| EnhancedEngine.EnhancedBacktestEngine.RecordEquity | enhanced_backtest_engine.py:216-235 | one point with the time, balance, equity at the close, open count and the running win rate |
| EnhancedEngine.EnhancedBacktestEngine.CountLimit | enhanced_backtest_engine.py:75-76 | the cap counter grows by one exactly when at least `max_positions` positions are open |
| EnhancedEngine.EnhancedBacktestEngine.ExitBar | enhanced_backtest_engine.py:73-76 | the exits, then the cap counter, which grows exactly when at least `max_positions` positions survive |
| EnhancedEngine.EnhancedBacktestEngine.EnterBar | enhanced_backtest_engine.py:78-81 | a position is opened exactly when the bar has a signal and fewer than `max_positions` are open; one equity point is recorded |
| EnhancedEngine.EnhancedBacktestEngine.ProcessBar | enhanced_backtest_engine.py:69-81 | the cap counter grows exactly when at least `max_positions` survive the exits; a position opens exactly when the bar has a signal and fewer survive; one equity point is recorded |
| EnhancedEngine.EnhancedBacktestEngine.ReplayBars | enhanced_backtest_engine.py:69-81 | one equity point per bar stamped with its time, the closed list only extended, and the cap counted at most once per bar |
| EnhancedEngine.EnhancedBacktestEngine.Run | enhanced_backtest_engine.py:59-127 | the statistics and monthly table are those of the closed trades, the running trade counter equals the summary's count, and the final balance is the initial balance plus the net profit |
| Executor.Direction | src/backtest/trade_executor.py:285-294 | a buy is direction +1 and a sell −1, nothing else |
| Executor.PnlPipsSign | src/backtest/trade_executor.py:99-102 | a buy gains pips exactly when the exit is above the entry, a sell exactly when below; the two are mirror images |
| Executor.PnlIsHundredfoldOfBacktest | src/backtest/trade_executor.py:99-105 | the executor's pips equal the backtest position's, and its yen result is 100 times the backtest position's for the same trade |
| Executor.OrderLevels | src/backtest/trade_executor.py:284-294 | the entry pays the spread (above the price for a buy, below for a sell); with positive distances the stop and target lie on either side of the entry; closing at the stop loses exactly the stop pips and at the target gains exactly the target pips |
| Executor.Position.constructor | src/backtest/trade_executor.py:26-78 | a new position carries its arguments and is open with no exit data, zero P&L, commission and swap |
| Executor.Position.Close | src/backtest/trade_executor.py:80-105 | the position is closed with the exit price, time and reason, and realizes exactly its unrealized P&L at the exit price |
| Executor.Position.IsTpHit | src/backtest/trade_executor.py:107-112 | hit exactly when closing at the price gains at least the target's pips |
| Executor.Position.IsSlHit | src/backtest/trade_executor.py:114-119 | hit exactly when closing at the price gains at most the stop's pips |
| Executor.Position.GetUnrealizedPnl | src/backtest/trade_executor.py:121-127 | the P&L of the pips to the price at 1,000 yen per pip per lot; for a positive lot a gain exactly when the pips are positive |
| Executor.RecordOf | src/backtest/trade_executor.py:379-391 | the history row carries the position's id, P&L and exit reason, and says BUY exactly for a buy |
| Executor.ExitRecord | src/backtest/trade_executor.py:353-391 | the row a close at a price produces carries the position's unrealized P&L at that price |
| Executor.CountWithinRoom | src/backtest/trade_executor.py:243 | the truncated count of positions fits in the budget and one more does not |
| Executor.UsedMarginAppend | src/backtest/trade_executor.py:191-192 | the margin in use of one more position grows by that position's margin |
| Executor.WinCount | src/backtest/trade_executor.py:360-361 | no more wins than trades |
| Executor.StreaksExclusive | src/backtest/trade_executor.py:362-368 | a winning and a losing streak are never both running |
| Executor.RunsBounded | src/backtest/trade_executor.py:362-369 | the current streak never exceeds the longest, which never exceeds the number of trades |
| Executor.TalliesMatchRuns | src/backtest/trade_executor.py:359-369 | the counters kept trade by trade are the win count, the rest as losses, the runs ending the history and the longest runs in it |
| Executor.PeakAfter | src/backtest/trade_executor.py:372-373 | the peak never falls and is at least the new balance |
| Executor.DrawdownBounds | src/backtest/trade_executor.py:372-375 | the maximum drawdown never shrinks, and stays at most 1 while the balance is not negative |
| Executor.PeakFold | src/backtest/trade_executor.py:371-373 | the peak after a run of closes is at least the starting peak and, after at least one close, at least the final balance |
| Executor.DrawdownFold | src/backtest/trade_executor.py:374-375 | the maximum drawdown after a run of closes is at least the starting one |
| Executor.FoldStep | src/backtest/trade_executor.py:353-375 | one more close adds its result to the balance and takes one more peak and drawdown step at the new balance |
| Executor.DrawdownFoldBounded | src/backtest/trade_executor.py:372-375 | the maximum drawdown stays at most 1 over any run of closes none of which leaves a negative balance |
| Executor.HistoryOf | src/backtest/trade_executor.py:378-391 | one history row per position, in order, each that position's row |
| Executor.ExitRecordsStep | src/backtest/trade_executor.py:378-391 | closing one more position appends exactly its row to the rows of the closes so far |
| Executor.ExitedHistory | src/backtest/trade_executor.py:353-391 | positions closed at a price and time carry exactly the rows their closes produce |
| Executor.ExitPnlsStep | src/backtest/trade_executor.py:353-357 | closing one more position appends exactly its result to the results of the closes so far |
| Executor.ExitedPnls | src/backtest/trade_executor.py:353-357 | positions closed at a price carry exactly the results that price gives them |
| Executor.PnlsOf | src/backtest/trade_executor.py:432-433 | the P&L of each closed position, in order |
| Executor.Gains | src/backtest/trade_executor.py:432 | only positive results, with a non-negative sum |
| Executor.Losses | src/backtest/trade_executor.py:433 | only negative results, with a sum below 0 when there is any |
| Executor.Mean | src/backtest/trade_executor.py:435-436 | the mean times the count is the sum, 0 for no value, and it has the sum's sign |
| Executor.GrossLossOf | src/backtest/trade_executor.py:440 | positive; the size of the summed losses when any trade lost, else 1 |
| Executor.ProfitFactorOf | src/backtest/trade_executor.py:441 | times the gross loss gives the gross win; non-negative for a non-negative gross win |
| Executor.ReturnPercent | src/backtest/trade_executor.py:444 | times the initial balance gives 100 × the gain; non-negative exactly when the final balance is at least the initial one |
| Executor.MaxLotAsWritten | src/backtest/trade_executor.py:211-229 | as written (rounding to the nearest 0.01): never negative; `None` where the one-lot margin is zero |
| Executor.MaxLotAsWrittenExceedsLimit | src/backtest/trade_executor.py:226-229 | for initial balance 200,000, no position, price 100 and rate 1 the function returns 0.02 lots, whose margin exceeds 80% of the balance |
| Executor.Floor2 | src/backtest/trade_executor.py:228-229 | the largest 0.01 grid point not above the value; non-negative for a non-negative value |
| Executor.MaxLot | src/backtest/trade_executor.py:211-229 | never negative; `None` exactly when there is room and the one-lot margin is zero; the lot's margin fits within 80% of the initial balance, and one more 0.01 lot would not |
| Executor.LotWithinRoom | src/backtest/trade_executor.py:225-229 | the truncated lot's margin fits in the room left and 0.01 more does not |
| Executor.FindId | src/backtest/trade_executor.py:402-405 | an index holding the identifier, or `None` exactly when no open position has it |
| Executor.HitFlags | src/backtest/trade_executor.py:343-349 | a position is flagged exactly when its target or stop is hit |
| Executor.ReasonAt | src/backtest/trade_executor.py:344-349 | the reason is "tp" exactly when the target is hit, else "sl" |
| Executor.SumExtension | src/backtest/trade_executor.py:356-357 | the sum of an extended list is the old sum plus the sum of the extension |
| Executor.SweptExits | src/backtest/trade_executor.py:339-395 | after the loop, every position flagged as hit has exited at the loop's price and time |
| Executor.TradeExecutor.WinRateBounds | src/backtest/trade_executor.py:429 | wins never exceed the positions ever opened, so the win rate is a percentage |
| Executor.TradeExecutor.constructor | src/backtest/trade_executor.py:132-182 | the account starts at the initial balance with no position, id 1, peak at the balance, zero drawdown and one-point histories; its invariant holds |
| Executor.TradeExecutor.CanOpenPosition | src/backtest/trade_executor.py:184-203 | true exactly when the cap is not reached, the margin in use plus the new margin stays within 80% of the initial balance, and the free balance covers the new margin |
| Executor.TradeExecutor.CalculateMaxLotSize | src/backtest/trade_executor.py:211-229 | the corrected lot (see Findings): never negative, and its margin plus the margin in use stays within 80% of the initial balance |
| Executor.TradeExecutor.CalculateMaxPositions | src/backtest/trade_executor.py:231-246 | 0 for a non-positive margin per position; otherwise never more than the cap, the count fits within 80% of the initial balance and, below the cap, one more would not |
| Executor.TradeExecutor.OpenPosition | src/backtest/trade_executor.py:248-319 | `None` exactly on a zero signal or when the position does not fit, changing nothing; otherwise a new open USDJPY position under the next id, with the entry time, strategy, side, lot and order levels given, no exit and no P&L; its commission is charged, and the margin in use stays within 80% of the initial balance |
| Executor.TradeExecutor.Admit | src/backtest/trade_executor.py:309-317 | the position is registered under the next id, the trade count grows, and the balance falls by the commission, which the commission total gains |
| Executor.TradeExecutor.KeepOpen | src/backtest/trade_executor.py:394 | the open positions become the survivors, with the account invariant restored |
| Executor.TradeExecutor.Settle | src/backtest/trade_executor.py:351-391 | the position closes; the balance grows by its P&L; it joins the closed list and its row the history; the peak becomes the larger of the old peak and the new balance, and the maximum drawdown the larger of the old one and the new balance's drop below that peak (at most 1 while the balance is not negative) |
| Executor.TradeExecutor.Realize | src/backtest/trade_executor.py:353-357 | the position closes at the price with its unrealized P&L, joins the closed list, and the balance grows by that P&L |
| Executor.TradeExecutor.Bank | src/backtest/trade_executor.py:356-357 | the balance and the total P&L grow by the closed position's P&L, keeping balance = initial + total P&L − commissions |
| Executor.TradeExecutor.Tally | src/backtest/trade_executor.py:359-369 | the win/loss counts and the streaks stay the counters of the extended history |
| Executor.TradeExecutor.UpdatePeak | src/backtest/trade_executor.py:371-375 | the peak becomes the larger of the old peak and the new balance; the maximum drawdown becomes the larger of the old one and the new balance's drop below the new peak, so it never shrinks and stays at most 1 while the balance is not negative |
| Executor.TradeExecutor.CheckAt | src/backtest/trade_executor.py:339-395 | one iteration: the balance grows by the position's P&L exactly when its target or stop is hit, the loop state advances by one position, and the history, balance, peak and drawdown stay those of the closes so far |
| Executor.TradeExecutor.CloseAt | src/backtest/trade_executor.py:351-395 | a hit position is settled: it closes at the price with the P&L the price gives, the loop state advances, and the history gains exactly its row while the peak and drawdown take one more step |
| Executor.TradeExecutor.KeepAt | src/backtest/trade_executor.py:343-351 | a position whose target and stop are not hit stays open and joins the survivors, and the loop state advances |
| Executor.TradeExecutor.CheckPositions | src/backtest/trade_executor.py:321-397 | the positions hit close at the price (target first) in list order and join the closed list; the others stay open in order; the history gains exactly their rows, in order; the balance grows by exactly their results; the peak and the maximum drawdown are those the closes leave one after the other (`PeakFold`, `DrawdownFold`), so they never fall, and the drawdown stays at most 1 while no close leaves a negative balance |
| Executor.TradeExecutor.Retire | src/backtest/trade_executor.py:394 | after the loop, the hit positions are gone and the others stay open in their order |
| Executor.TradeExecutor.Sweep | src/backtest/trade_executor.py:339-395 | every position of the snapshot has been checked, in order; the history has gained one row per closed position, and the balance, peak and drawdown are those their closes leave one after the other |
| Executor.TradeExecutor.SweepComplete | src/backtest/trade_executor.py:339-395 | the hit positions are closed at the loop's price and time, and the others are distinct, still open and in their order |
| Executor.TradeExecutor.ClosedResults | src/backtest/trade_executor.py:355-382 | the results realized during the loop are those of the positions it closed, in order |
| Executor.TradeExecutor.ClosePositionBySignal | src/backtest/trade_executor.py:399-416 | `None` exactly for an unknown id, changing nothing; otherwise that position closes at the price for a signal, leaves the open positions and joins the closed ones, and the balance grows by its P&L; win and loss counts are untouched |
| Executor.TradeExecutor.Withdraw | src/backtest/trade_executor.py:405-414 | the found position closes for a signal and is removed; the other open positions keep their order; the balance grows by its P&L |
| Executor.TradeExecutor.WithdrawReady | src/backtest/trade_executor.py:405-414 | the found position is open and not yet closed, and the other open positions are distinct, open and different from it |
| Executor.TradeExecutor.UpdateEquity | src/backtest/trade_executor.py:418-425 | the equity is the balance plus the unrealized P&L of the open positions; it and the balance are appended to their histories |
| Executor.TradeExecutor.GetStatistics | src/backtest/trade_executor.py:427-463 | the win rate is a percentage of the positions ever opened, the average win is non-negative and the average loss non-positive, the profit factor is gross win over gross loss (1 when nothing lost), and the return is the net of P&L and commissions over the initial balance |
| Risk.DefaultSizer | src/risk_management/risk_manager.py:12-24 | the sizer's defaults are 0.01 lots and 2% risk per trade |
| Risk.VolatilityFactor | src/risk_management/risk_manager.py:51-52 | always in [0.5, 1.5]; 1 for a non-positive volatility; the reciprocal of the volatility when that lies in range |
| Risk.VolatilityFactorAntitone | src/risk_management/risk_manager.py:51-52 | a calmer market (smaller positive volatility) never gets a smaller factor |
| Risk.QualityFactor | src/risk_management/risk_manager.py:49 | for a quality in 0..3 the factor lies in [0.5, 1.5] |
| Risk.CalculatePositionSize | src/risk_management/risk_manager.py:26-64 | defined exactly for a non-zero stop; never below the base lot; it is the base lot, the adjusted lot or the risk cap; above the base lot it is at most both the adjusted lot and the cap; the adjusted lot when it lies between the base lot and the cap, and the cap when the cap lies between the base lot and the adjusted lot |
| Risk.DefaultLevelConfig | src/risk_management/risk_manager.py:74-89 | the defaults are a 10-pip stop, a 20-pip target and an ATR multiplier of 1.5 |
| Risk.EnvFactors | src/risk_management/risk_manager.py:119-128 | both multipliers are at least 1; a range market and an unknown environment both get (1, 1) |
| Risk.CalculateLevels | src/risk_management/risk_manager.py:91-150 | defined exactly for a non-zero stop distance; the stop is the larger of the adjusted base and half the ATR band; the target is the larger of its base and the band, widened to 1.5 times the stop, so the ratio is at least 1.5; for a negative stop the flipped ratio test makes the target the smaller of its base and 1.5 times the stop; a buy has its stop below and target above the entry, anything else the reverse |
| Risk.RatioBelow | src/risk_management/risk_manager.py:139-141 | for a positive divisor the ratio is below k exactly when the dividend is below k times the divisor |
| Risk.RatioBelowNegative | src/risk_management/risk_manager.py:139-141 | for a negative divisor the ratio is below k exactly when the dividend is above k times the divisor |
| Risk.LevelsDefinedForPositiveAtr | src/risk_management/risk_manager.py:136-141 | with a positive ATR and multiplier the levels exist, the stop is positive and the ratio at least 1.5 |
| Risk.UnknownEnvironmentIsRange | src/risk_management/risk_manager.py:126 | an environment outside the table gives exactly the range market's levels |
| Risk.Gate | src/risk_management/risk_manager.py:223-232 | allows exactly when drawdown, exposure and streak are all below their limits; otherwise refuses for the first limit reached, in that order |
| Risk.NextLosses | src/risk_management/risk_manager.py:217-221 | a win resets the streak, a loss extends it by one, no result keeps it |
| Risk.AdjustmentFactor | src/risk_management/risk_manager.py:248-254 | defined exactly for non-zero limits; lies in [0.125, 1]; is the drawdown factor times the streak factor; 1 with no drawdown and no loss |
| Risk.DrawdownFactor | src/risk_management/risk_manager.py:248-249 | in [0.25, 1], and 1 with no drawdown under a positive limit |
| Risk.StreakFactor | src/risk_management/risk_manager.py:251-252 | in [0.5, 1], and 1 with no loss |
| Risk.FactorProduct | src/risk_management/risk_manager.py:254 | the product of the two clamped factors lies in [0.125, 1] |
| Risk.DrawdownFactorAntitone | src/risk_management/risk_manager.py:248-249 | a deeper drawdown never gives a larger drawdown factor |
| Risk.AdjustmentFactorAntitone | src/risk_management/risk_manager.py:248-256 | a deeper drawdown never gives a larger size factor |
| Risk.RiskManager.constructor | src/risk_management/risk_manager.py:160-181 | the limits are set and the peak, drawdown, exposure and streak start at 0 |
| Risk.RiskManager.UpdateMetrics | src/risk_management/risk_manager.py:183-201 | the peak rises to a higher balance; the drawdown from a positive peak and the exposure of a positive balance are recomputed, otherwise kept; the drawdown stays within 100% for a non-negative balance |
| Risk.RiskManager.CanOpenPosition | src/risk_management/risk_manager.py:203-232 | the streak absorbs the last result first, then the answer is `Gate` on the updated metrics |
| Risk.RiskManager.AdjustPositionSize | src/risk_management/risk_manager.py:234-256 | defined exactly for non-zero limits; a non-negative size is scaled to between 12.5% and 100% of itself |
| Risk.DrawdownBounds | src/risk_management/risk_manager.py:197-198 | a drawdown from a peak at or above the balance is non-negative, and at most 100% for a non-negative balance |
| MacroScorecard.InflationScore | src/data/macro_economic_data_processor.py:209-223 | in [-5, 5]; the top score exactly within 0.5 points of the 2% target, the bottom score exactly beyond 4 points |
| MacroScorecard.InflationScoreMonotone | src/data/macro_economic_data_processor.py:209-223 | moving further from the target never raises the score |
| MacroScorecard.UnemploymentScore | src/data/macro_economic_data_processor.py:225-235 | in [-5, 5]; the top score exactly for a rate of at most 3% |
| MacroScorecard.TradeBalanceScore | src/data/macro_economic_data_processor.py:237-247 | in [-5, 5]; the top score exactly for a surplus of at least 3% |
| MacroScorecard.StepScoresMonotone | src/data/macro_economic_data_processor.py:225-247 | more unemployment never scores better; a larger trade surplus never scores worse |
| MacroScorecard.ScoreIndicator | src/data/macro_economic_data_processor.py:185-249 | every score lies in [-5, 5]; an indicator without a rule scores 0; in range, GDP growth scores 2.5 times its value and the interest rate its value |
| MacroScorecard.WeightTable | src/data/macro_economic_data_processor.py:49-71 | each regime's table has five non-negative weights over scored indicators that sum to 1 |
| MacroScorecard.Contribution | src/data/macro_economic_data_processor.py:176-181 | with a non-negative weight, an entry adds between -5 and 5 times its weight |
| MacroScorecard.ContributionOfValue | src/data/macro_economic_data_processor.py:178-181 | a country with a value gains its indicator score times the weight; one without gains nothing |
| MacroScorecard.RowSumOnce | src/data/macro_economic_data_processor.py:177-181 | when no country is listed twice, the inner loop adds a listed country's contribution exactly once and nothing to an unlisted one |
| MacroScorecard.AccumulatedIsWeighted | src/data/macro_economic_data_processor.py:175-181 | for distinct countries, the loops compute each listed country's weighted score |
| MacroScorecard.NoDataScoresZero | src/data/macro_economic_data_processor.py:166-183 | a country with no value for any weighted indicator keeps the starting score 0 |
| MacroScorecard.WeightedScoreBounded | src/data/macro_economic_data_processor.py:175-181 | with non-negative weights, a weighted score lies within five times the total weight either side of 0 |
| MacroScorecard.CurrencyScoreBounded | src/data/macro_economic_data_processor.py:150-183 | under every regime, a country listed once scores in [-5, 5] |
| MacroScorecard.CalculateCurrencyScore | src/data/macro_economic_data_processor.py:150-183 | returns a score for exactly the listed countries, each the accumulation over its regime's table |
| MacroScorecard.AddEntry | src/data/macro_economic_data_processor.py:176-181 | one table entry: every listed country gains that entry's contribution once per listing; no key is added or removed |
| MacroScorecard.AddCountry | src/data/macro_economic_data_processor.py:178-181 | one country gains its contribution; no other score changes |
| MacroScorecard.AllIndicators | src/data/macro_economic_data_processor.py:41-47 | eight distinct indicators are compared, all with names the processor knows |
| MacroScorecard.FromName | src/data/macro_economic_data_processor.py:41-47 | a name read from the data gives the known indicator it spells, and `Other` only for a name the processor does not know |
| MacroScorecard.NameRoundTrip | src/data/macro_economic_data_processor.py:41-47 | reading a name and writing it back gives the same name |
| MacroScorecard.IndicatorRoundTrip | src/data/macro_economic_data_processor.py:41-47 | a valid indicator written as its name and read back is the same indicator |
| MacroScorecard.CalculateDifferentials | src/data/macro_economic_data_processor.py:251-290 | empty unless exactly two countries are given; then one difference per compared indicator where both countries have data and no other, a minus b, and the currency score difference |
| MacroScorecard.ScoreDiffOfDistinctPair | src/data/macro_economic_data_processor.py:285-288 | for two distinct countries the score difference is between their weighted scores and lies in [-10, 10] |
| MacroScorecard.GetUpdateFrequency | src/data/macro_economic_data_processor.py:292-318 | event-based exactly for the interest rate, quarterly exactly for GDP growth, monthly exactly for the other six compared indicators, unknown exactly for anything not compared |
| LevelClustering.Insert | src/data/data_processor_enhanced.py:203 | inserting a point keeps every point and adds exactly that one |
| LevelClustering.InsertSorted | src/data/data_processor_enhanced.py:203 | inserting into an ascending list keeps it ascending |
| LevelClustering.SortPoints | src/data/data_processor_enhanced.py:203 | the sorted points are ascending and are a permutation of the input |
| LevelClustering.Groups | src/data/data_processor_enhanced.py:204-215 | the runs are non-empty, joined back in order they give the input, there are no more runs than points, and none only for no points |
| LevelClustering.GroupsSnoc | src/data/data_processor_enhanced.py:207-212 | one more point is one more loop step |
| LevelClustering.ExtendLast | src/data/data_processor_enhanced.py:208-212 | the next point joins the current run when it is less than the threshold above the run's last point and opens a new run otherwise |
| LevelClustering.ConcatLast | src/data/data_processor_enhanced.py:208 | the current run's last point is the last point seen |
| LevelClustering.ExtendKeepsCut | src/data/data_processor_enhanced.py:207-212 | one loop step keeps the cut rule: neighbours inside a run are closer than the threshold, and each run starts at least the threshold above the previous run's end |
| LevelClustering.GroupsCutRule | src/data/data_processor_enhanced.py:204-215 | every grouping the loop builds obeys the cut rule |
| LevelClustering.ExtendKeepsOrder | src/data/data_processor_enhanced.py:207-212 | over ascending points one loop step keeps every run ascending and the runs in order |
| LevelClustering.GroupsSorted | src/data/data_processor_enhanced.py:203-215 | over sorted points the runs are ascending and in order |
| LevelClustering.Means | src/data/data_processor_enhanced.py:211-215 | one level per run, each the run's mean |
| LevelClustering.MeansSnoc | src/data/data_processor_enhanced.py:211 | emitting a run appends its mean |
| LevelClustering.SumWithin | src/data/data_processor_enhanced.py:211 | the sum of n points in [lo, hi] lies in [n·lo, n·hi] |
| LevelClustering.MeanWithin | src/data/data_processor_enhanced.py:211 | the mean of an ascending run lies between its first and last point |
| LevelClustering.MeansInOrder | src/data/data_processor_enhanced.py:203-215 | the levels of sorted points come out in non-decreasing order |
| LevelClustering.ClusterRuns | src/data/data_processor_enhanced.py:204-215 | the loop emits exactly the mean of each run of the sorted points |
| LevelClustering.ClusterLevels | src/data/data_processor_enhanced.py:184-217 | no points give no levels; otherwise the means of the runs of the sorted points, at most one per point, in non-decreasing order |
| ProfitTargetV2.IsGoodTradingTime | src/strategies/profit_target_strategy_v2.py:78-106 | true exactly when the hour is in 9-11, 16-18 or 21-23 |
| ProfitTargetV2.TradingTimeByHour | src/strategies/profit_target_strategy_v2.py:92-106 | the answer depends only on the hour |
| ProfitTargetV2.NoTradingOffSession | src/strategies/profit_target_strategy_v2.py:92-106 | the hours before 9 and the gaps 12-15 and 19-20 never trade |
| ProfitTargetV2.CapCents | src/strategies/profit_target_strategy_v2.py:57-68 | every base lot times every phase multiplier is a whole number of hundredths of a lot, at most 1.70 |
| ProfitTargetV2.Round2OnGrid | src/strategies/profit_target_strategy_v2.py:433 | rounding to two places leaves a value that already has two places unchanged |
| ProfitTargetV2.Round2NonNegative | src/strategies/profit_target_strategy_v2.py:433 | rounding a non-negative lot to two places keeps it non-negative |
| ProfitTargetV2.CappedLot | src/strategies/profit_target_strategy_v2.py:427-433 | the lot never exceeds 2 nor the base lot times the multiplier; it equals the scaled base when the risk-based lot reaches the base, and otherwise the rounded risk lot times the multiplier, since that stays below 2 lots; it is non-negative for a non-negative risk lot |
| ProfitTargetV2.RiskLotNonNegative | src/strategies/profit_target_strategy_v2.py:420-424 | a non-negative balance and risk over a positive stop give a non-negative risk lot |
| ProfitTargetV2.RiskLimitsCheck | src/strategies/profit_target_strategy_v2.py:435-454 | refuses exactly when the daily loss reaches its limit or the drawdown from a non-zero peak reaches its limit; undefined only for a zero peak above the balance; allows otherwise |
| ProfitTargetV2.RiskLimitsAntitone | src/strategies/profit_target_strategy_v2.py:445-452 | a lower balance and a larger daily swing never turn a refusal into an allowance |
| ProfitTargetV2.RecordedDrawdownBounds | src/strategies/profit_target_strategy_v2.py:449-450 | the drawdown recorded for a non-negative balance under a positive peak lies in (0, 1] |
| ProfitTargetV2.ZeroCounts | src/strategies/profit_target_strategy_v2.py:75-76 | the three strategy counters, all 0 |
| ProfitTargetV2.ProfitTargetStrategyV2.constructor | src/strategies/profit_target_strategy_v2.py:18-76 | the parameters are stored; balance and peak start at the initial balance; P&L, drawdown and all counts start at 0 |
| ProfitTargetV2.ProfitTargetStrategyV2.CalculateOptimalLotSize | src/strategies/profit_target_strategy_v2.py:397-433 | defined exactly for a non-zero stop; at most 2 lots and at most the base lot times the phase multiplier; equal to that product when the risk-based lot reaches the base lot, and otherwise the risk-based lot times the multiplier rounded to hundredths; non-negative for a positive stop and non-negative balance and risk |
| ProfitTargetV2.ProfitTargetStrategyV2.CheckRiskLimits | src/strategies/profit_target_strategy_v2.py:435-454 | answers as `RiskLimitsCheck`; records the drawdown exactly when the daily check passes and the balance is below a non-zero peak; keeps the peak the highest balance |
| ProfitTargetV2.ProfitTargetStrategyV2.UpdateBalance | src/strategies/profit_target_strategy_v2.py:456-471 | balance, daily and monthly P&L all move by the amount; the peak becomes the larger of the old peak and the new balance, so it stays at or above the balance |
| ProfitTargetV2.ProfitTargetStrategyV2.ResetDailyStats | src/strategies/profit_target_strategy_v2.py:473-475 | the day's P&L is 0 |
| ProfitTargetV2.ProfitTargetStrategyV2.ResetMonthlyStats | src/strategies/profit_target_strategy_v2.py:477-481 | the month's P&L and every trade and win count are 0 |
| IntegratedV1.TargetRrRatio | src/strategies/integrated_strategy_v1.py:59 | the ratio lies in [2.5, 3.0]; a requested ratio in range is kept, others go to the nearer end |
| IntegratedV1.TargetRrRatioIdempotent | src/strategies/integrated_strategy_v1.py:59 | clamping a clamped ratio changes nothing |
| IntegratedV1.AtrBasedSl | src/strategies/integrated_strategy_v1.py:124 | the ATR stop lies in [8, 18] pips and is the ATR in pips whenever that is in range |
| IntegratedV1.SlPips | src/strategies/integrated_strategy_v1.py:121-132 | after the market-condition factor the stop lies in [7.2, 21.6] pips |
| IntegratedV1.SlPipsMonotone | src/strategies/integrated_strategy_v1.py:124-132 | a larger ATR never gives a tighter stop under the same condition |
| IntegratedV1.RoundedRatio | src/strategies/integrated_strategy_v1.py:137-139 | rounding stop and take-profit separately to a tenth keeps the take-profit within 0.2 pips of the ratio times the rounded stop |
| IntegratedV1.RoundedTpSl | src/strategies/integrated_strategy_v1.py:137-139 | the pair is the take-profit and stop each rounded to a tenth; the stop stays within (7.15, 21.65] and the take-profit within 0.2 pips of the ratio times it |
| IntegratedV1.IntegratedStrategyV1.constructor | src/strategies/integrated_strategy_v1.py:28-61 | the account is a fresh v2 account with the given parameters; the ratio is the clamped request; the base take-profit is the 12-pip base stop times the ratio |
| IntegratedV1.IntegratedStrategyV1.CalculateOptimizedTpSl | src/strategies/integrated_strategy_v1.py:93-139 | fewer than 14 bars or no ATR give the base pair unrounded; otherwise the rounded pair for the condition-adjusted ATR stop at the strategy's ratio |
| IntegratedV1.IntegratedStrategyV1.TpSlFollowsRatio | src/strategies/integrated_strategy_v1.py:93-139 | on every input the stop lies in (7.15, 21.65] pips and the take-profit within 0.2 pips of the ratio times the stop |
| Portfolio.Allocations | src/portfolio/portfolio_manager.py:66 | the allocation column, one entry per strategy in key order |
| Portfolio.InvVolatility | src/portfolio/portfolio_manager.py:78 | a known volatility, floored at 0.001, gives a positive inverse; an unknown one contributes 0 |
| Portfolio.InvVolWeights | src/portfolio/portfolio_manager.py:78-80 | the inverse-volatility column, one entry per strategy in key order |
| Portfolio.InvVolTotalPositive | src/portfolio/portfolio_manager.py:80-82 | one known volatility makes the inverse-volatility total positive, so the risk-parity division is defined |
| Portfolio.InvVolWeightsOfVolatility | src/portfolio/portfolio_manager.py:72-78 | normalising allocations leaves the inverse volatilities unchanged |
| Portfolio.RewriteAll | src/portfolio/portfolio_manager.py:73-93 | the loop over the table rewrites each listed record exactly once and leaves every other record and key as it was |
| Portfolio.WithAllocation | src/portfolio/portfolio_manager.py:86-92 | the record takes the new allocation and that share of the balance; volatility and drawdown are kept |
| Portfolio.AllocatedInfo | src/portfolio/portfolio_manager.py:62-93 | a non-positive total leaves the record unchanged; otherwise it holds its normalised, risk-parity-blended share and a balance of that share of the initial balance |
| Portfolio.NormalizedSumToOne | src/portfolio/portfolio_manager.py:72-75 | allocations divided by their positive total sum to 1 |
| Portfolio.RiskParityShares | src/portfolio/portfolio_manager.py:78-82 | with one known volatility the risk-parity shares are each inverse volatility over the total and sum to 1 |
| Portfolio.BlendedPointwise | src/portfolio/portfolio_manager.py:84-88 | each allocated share is 0.7 times the normalised allocation plus 0.3 times the risk-parity share |
| Portfolio.BlendedSumToOne | src/portfolio/portfolio_manager.py:77-89 | blending 70/30 two distributions that each sum to 1 gives allocations summing to 1 |
| Portfolio.AllocationsSumToOne | src/portfolio/portfolio_manager.py:62-89 | over a positive total the allocated shares sum to exactly 1, blended or not |
| Portfolio.AllocatedTableSumsToOne | src/portfolio/portfolio_manager.py:62-93 | a table of allocated records has allocations summing to 1 |
| Portfolio.Profits | src/portfolio/portfolio_manager.py:208 | the profit column of the performance table, in key order |
| Portfolio.WithStats | src/portfolio/portfolio_manager.py:214-226 | a strategy whose equity curve is present and non-empty takes that curve's volatility and drawdown; any other record is unchanged; allocation and balance are kept |
| Portfolio.ProfitContribution | src/portfolio/portfolio_manager.py:232 | under a positive total profit every contribution is non-negative |
| Portfolio.RawAllocations | src/portfolio/portfolio_manager.py:234-245 | each included strategy gets the 50/30/20 blend of risk parity, profit share and current allocation; the others get 0 |
| Portfolio.RebalancedInfo | src/portfolio/portfolio_manager.py:247-258 | an included strategy takes its blend over the blends' total and the others keep their allocation; the balance is that share of the new balance; volatility and drawdown are kept |
| Portfolio.IncludedAllocations | src/portfolio/portfolio_manager.py:234-253 | the allocations of the included strategies in key order, 0 for the others |
| Portfolio.RebalancedSumToOne | src/portfolio/portfolio_manager.py:247-253 | after renormalising, the included strategies' allocations sum to exactly 1 |
| Portfolio.NormalizeAllocations | src/portfolio/portfolio_manager.py:72-75 | under a total other than 1 every listed allocation is divided by it; nothing else changes |
| Portfolio.BlendRiskParity | src/portfolio/portfolio_manager.py:84-89 | every listed allocation becomes its 70/30 blend with its risk-parity share; nothing else changes |
| Portfolio.AssignBalances | src/portfolio/portfolio_manager.py:91-93 | every listed balance becomes the balance times the record's allocation; nothing else changes |
| Portfolio.StatsApplied | src/portfolio/portfolio_manager.py:214-226 | the table with each performance entry's equity statistics stored, the same keys and nothing else changed |
| Portfolio.StoreStats | src/portfolio/portfolio_manager.py:214-226 | the loop over the performance table produces exactly `StatsApplied` |
| Portfolio.Renormalize | src/portfolio/portfolio_manager.py:247-253 | every listed allocation becomes its rebalanced share; nothing else changes |
| Portfolio.ShareTable | src/portfolio/portfolio_manager.py:66-89 | over a positive total every record holds its allocated share and keeps its other fields |
| Portfolio.PortfolioManager.constructor | src/portfolio/portfolio_manager.py:18-60 | the balance starts at the initial balance, the allocations are computed, and every strategy gets a zeroed performance record |
| Portfolio.PortfolioManager.CalculateAllocations | src/portfolio/portfolio_manager.py:62-93 | every record becomes its `AllocatedInfo`; the key order is kept |
| Portfolio.PortfolioManager.RebalancePortfolio | src/portfolio/portfolio_manager.py:199-258 | no positive total profit changes nothing; otherwise the statistics are stored; it fails exactly when some strategy is included and the blends total 0; on success the balance is the initial balance plus the total profit and every record is its `RebalancedInfo` |

## Left out

- Signal generation is left out, along with all indicator pipelines (pandas, TA-Lib), machine-learning, sentiment, data loading, plotting and report code. Bars are given with `signal`, entry, stop, target and optional `atr`, `trailing_stop` and `position_size` columns.
- Logging and printing are I/O and are left out.
- Floating point is not modelled: prices and money are exact `real`s. `round(x, n)` is rounded half up on exact values (`Market.Round2`, `Market.Round1`), whereas Python rounds the binary float half to even. numpy's `NaN` values are not modelled; the `inf` profit factor is the `Infinite` constructor of `TradeStats.ProfitFactor`.
- `np.sort` is modelled by insertion sort (`LevelClustering.SortPoints`); only the result (sorted, a permutation) matters. `np.mean` is the exact mean.
- `TradeExecutor.get_monthly_performance` is not modelled. It is a pandas group-by over the trade history, and its summary statistics are already covered by `Executor.TradeExecutor.GetStatistics`.
- The trade history's timestamp formatting is left out. A history row keeps the identifier, strategy, side, prices, P&L and exit reason.
- Swap is always zero in the source and is kept as a field that stays zero.
- Executor.TradeExecutor.constructor: requires a positive initial balance, since the source's drawdown and return computations divide by it.
- Portfolio.PortfolioManager.RebalancePortfolio: requires every strategy with equity statistics to be in the strategy table. The source raises `KeyError` otherwise.
- Portfolio.PortfolioManager.RebalancePortfolio: the equity-curve statistics (return volatility, maximum drawdown) are taken as inputs, because they are pandas computations.
- Portfolio: `generate_signals`, `calculate_position_sizes`, the correlation and the performance bookkeeping of the portfolio manager are not part of this model (signal and pandas code).
- IntegratedV1.IntegratedStrategyV1.CalculateOptimizedTpSl: takes the ATR series as an input rather than computing it from the bars. `volatility_adjustment` is always true in the source, so only that branch is modelled.
- IntegratedV1: the balance, risk-gate, lot-size and reset methods of `integrated_strategy_v1.py` repeat the v2 code line for line. They are reached through the v2 account object.
- The strategies' RSI and Bollinger parameters and their signal methods belong to signal generation.
- ProfitTargetV2: `calculate_dynamic_tp_sl`, `check_trend_alignment` and the signal generators work on indicator series and are left out.
- MacroScorecard: loading, saving, manual updates, `should_update` (a clock) and the sample data are I/O. Each indicator's `{"value": …}` record is reduced to its value.
- Risk.CalculateLevels: takes the ATR as an optional input, with the source's default of 1% of the base stop when absent.
- Backtest.BacktestEngine.OpenNewPosition: models the evidently intended constructor call with the trailing fields. The `TypeError` that `src/backtest/backtest_engine.py:188-197` raises as written, against the constructor of `src/backtest/position.py:17-18`, is not modelled.
- CustomEngine.CustomBacktestEngine.RecordEquity: values open positions with the base engine's formula. The `AttributeError` that the undefined `calculate_profit` raises at `custom_backtest_engine.py:206` is not modelled.
- EnhancedEngine.EnhancedBacktestEngine.RecordEquity: the same repair for the `calculate_profit` call at `enhanced_backtest_engine.py:225`.
- CustomEngine: the text log that `_create_trade_log` appends to `trade_history` for each close (`custom_backtest_engine.py:155`, `217-243`) is formatted logging and is left out; the result's trade history is the closed-position list, as at line 110.
- CustomEngine.CustomBacktestEngine.CheckPositionsForExit: the optional strategy object is outside the model. The callback `update_consecutive_stats(profit_pips > 0, pattern_types)` after each close, and the pop of that entry time from its `active_trade_patterns` (`custom_backtest_engine.py:157-166`), change that foreign object's state only and are not modelled.
- Level clustering's swing-point detection, which feeds `_cluster_levels`, is left out as indicator code.

## Findings

| source | as written | input that shows it | evidently intended | confidence | as-written member | corrected member |
|---|---|---|---|---|---|---|
| src/backtest/trade_executor.py:229 | the maximum lot is the room left under 80% of the initial balance divided by one lot's margin, rounded to the NEAREST 0.01 lot | initial balance 200,000, no open position, price 100, margin rate 1: room 160,000, one lot needs 10,000,000, so 0.016 lots round to 0.02, whose margin of 200,000 exceeds the 160,000 limit | round down to the 0.01-lot grid so the lot always fits the 80% margin limit | not executed | Executor.MaxLotAsWrittenExceedsLimit | Executor.MaxLot |
