/**
 * The enhanced engine (enhanced_backtest_engine.py at the repository root):
 * the signal-replaying bar loop with running trade and take-profit counters,
 * a win rate that doubles the lot once it reaches a threshold, and a count
 * of the bars on which the position cap was reached.
 */
module EnhancedEngine {
  import opened Wrappers
  import opened Market
  import opened BacktestPosition
  import opened ExitCheck
  import opened EngineCommon
  import opened TradeStats

  /** An equity point that also carries the running win rate. */
  datatype RatedEquityPoint = RatedEquityPoint(time: Timestamp, balance: real, equity: real, openPositions: nat, winRate: real)

  /** What `run` returns: the summary of the base engines plus the cap counter. */
  datatype EnhancedResults = EnhancedResults(
    stats: Statistics,
    finalBalance: real,
    monthly: MonthTable,
    equityCurve: seq<RatedEquityPoint>,
    tradeHistory: seq<Position>,
    positionLimitReachedCount: nat)

  /**
   * The lot of a new position: the increased lot once the win rate reaches
   * the threshold, else the base lot; a `position_size` column overrides
   * both and is doubled at the threshold.
   */
  function Lot(winRate: real, threshold: real, baseLot: real, increasedLot: real, positionSize: Option<real>): (lot: real)
    ensures positionSize.None? && winRate >= threshold ==> lot == increasedLot
    ensures positionSize.None? && winRate < threshold ==> lot == baseLot
    ensures positionSize.Some? && winRate >= threshold ==> lot == 2.0 * positionSize.value
    ensures positionSize.Some? && winRate < threshold ==> lot == positionSize.value
  {
    var lot := if winRate >= threshold then increasedLot else baseLot;
    match positionSize
    case Some(size) => if winRate >= threshold then size * 2.0 else size
    case None => lot
  }

  /**
   * A higher win rate never gives a smaller lot, as long as the increased
   * lot is at least the base lot and sizes are non-negative.
   */
  lemma LotMonotone(r1: real, r2: real, threshold: real, baseLot: real, increasedLot: real, positionSize: Option<real>)
    requires r1 <= r2 && baseLot <= increasedLot
    requires positionSize.Some? ==> positionSize.value >= 0.0
    ensures Lot(r1, threshold, baseLot, increasedLot, positionSize) <= Lot(r2, threshold, baseLot, increasedLot, positionSize)
  {
  }

  class EnhancedBacktestEngine {
    const initialBalance: real
    const baseLotSize: real
    const increasedLotSize: real
    const maxPositions: int
    const spreadPips: real
    const winRateThreshold: real

    var balance: real
    var openPositions: seq<Position>
    var closedPositions: seq<Position>
    var equityCurve: seq<RatedEquityPoint>
    var totalTrades: nat
    var totalWins: nat
    var currentWinRate: real
    var positionLimitReachedCount: nat
    /** The trade each closed position became, in the order of `closedPositions`. */
    ghost var trades: seq<ClosedTrade>

    /** The running counters of the trades `ts`: every close counted, take-profits as wins, the rate as their percentage. */
    ghost predicate CountersFor(ts: seq<ClosedTrade>)
      reads this`totalTrades, this`totalWins, this`currentWinRate
    {
      && totalTrades == |ts|
      && totalWins == TakeProfits(ts)
      && currentWinRate == WinRate(totalWins, totalTrades)
    }

    /**
     * The account invariant of the base engines: distinct open positions,
     * closed ones recorded in `trades`, the cap, and the balance as initial
     * balance plus net profit.
     */
    ghost predicate BookValid()
      reads this`openPositions, this`closedPositions, this`trades, this`balance, openPositions, closedPositions
    {
      && Distinct(openPositions)
      && (forall p | p in openPositions :: p.IsOpen())
      && |trades| == |closedPositions|
      && (forall i | 0 <= i < |closedPositions| :: closedPositions[i].IsClosed() && TradeOf(closedPositions[i]) == trades[i])
      && (openPositions == [] || |openPositions| <= maxPositions)
      && balance == initialBalance + NetProfit(trades)
    }

    /** The account invariant and the counters. */
    ghost predicate Valid()
      reads this`openPositions, this`closedPositions, this`trades, this`balance, this`totalTrades, this`totalWins, this`currentWinRate, openPositions, closedPositions
    {
      BookValid() && CountersFor(trades)
    }

    /** The counters are consistent: no more wins than trades, and the win rate is a percentage. */
    lemma WinRateBounds()
      requires CountersFor(trades)
      ensures totalWins <= totalTrades
      ensures 0.0 <= currentWinRate <= 100.0
    {
      CountsBounded(trades);
      WinRateIsPercentage(totalWins, totalTrades);
    }

    constructor (initialBalance: real, baseLotSize: real, maxPositions: int, spreadPips: real,
                 winRateThreshold: real, increasedLotSize: real)
      ensures Valid()
      ensures this.initialBalance == initialBalance && this.baseLotSize == baseLotSize
      ensures this.increasedLotSize == increasedLotSize && this.winRateThreshold == winRateThreshold
      ensures this.maxPositions == maxPositions && this.spreadPips == spreadPips
      ensures balance == initialBalance
      ensures openPositions == [] && closedPositions == [] && equityCurve == []
      ensures totalTrades == 0 && totalWins == 0 && currentWinRate == 0.0 && positionLimitReachedCount == 0
    {
      this.initialBalance := initialBalance;
      this.baseLotSize := baseLotSize;
      this.increasedLotSize := increasedLotSize;
      this.maxPositions := maxPositions;
      this.spreadPips := spreadPips;
      this.winRateThreshold := winRateThreshold;
      balance := initialBalance;
      openPositions := [];
      closedPositions := [];
      equityCurve := [];
      totalTrades := 0;
      totalWins := 0;
      currentWinRate := 0.0;
      positionLimitReachedCount := 0;
      trades := [];
    }

    /**
     * `_check_positions_for_exit`: every open position is checked against
     * the bar; those closed move, in list order, to the closed list, the
     * balance gains exactly their profit, every close counts as a trade and
     * every take-profit close as a win.
     */
    method CheckPositionsForExit(bar: Bar)
      requires Valid()
      modifies this`balance, this`openPositions, this`closedPositions, this`trades, openPositions
      modifies this`totalTrades, this`totalWins, this`currentWinRate
      ensures Valid()
      ensures var plan := old(Plan(openPositions, bar, false));
        && (forall i | 0 <= i < |old(openPositions)| :: StepApplied(old(openPositions)[i], plan[i], bar.time))
        && openPositions == Kept(old(openPositions), plan)
        && closedPositions == old(closedPositions) + Dropped(old(openPositions), plan)
        && trades == old(trades) + ExitTrades(old(openPositions), plan, bar.time)
        && balance == old(balance) + NetProfit(ExitTrades(old(openPositions), plan, bar.time))
        && totalWins == old(totalWins) + TakeProfits(ExitTrades(old(openPositions), plan, bar.time))
      ensures totalTrades == |closedPositions|
      ensures forall p | p in openPositions :: p in old(openPositions)
    {
      assert forall i | 0 <= i < |closedPositions| :: closedPositions[i] !in openPositions;
      ghost var plan := Plan(openPositions, bar, false);
      var stillOpen, nowClosed := ExitPass(openPositions, bar.time, bar, false);
      assert Records(closedPositions, trades);
      Book(stillOpen, nowClosed, ExitTrades(old(openPositions), plan, bar.time));
    }

    /**
     * The engine's side of `_check_positions_for_exit`: the closed
     * positions are counted, move to the closed list and pay out.
     */
    method Book(stillOpen: seq<Position>, nowClosed: seq<Position>, ghost closing: seq<ClosedTrade>)
      requires Distinct(stillOpen) && |stillOpen| <= |openPositions|
      requires (openPositions == [] || |openPositions| <= maxPositions)
      requires forall p | p in stillOpen :: p.IsOpen()
      requires Records(closedPositions, trades) && Records(nowClosed, closing)
      requires balance == initialBalance + NetProfit(trades) && CountersFor(trades)
      modifies this`balance, this`openPositions, this`closedPositions, this`trades
      modifies this`totalTrades, this`totalWins, this`currentWinRate
      ensures Valid()
      ensures openPositions == stillOpen
      ensures closedPositions == old(closedPositions) + nowClosed
      ensures trades == old(trades) + closing
      ensures balance == old(balance) + NetProfit(closing)
      ensures totalWins == old(totalWins) + TakeProfits(closing)
      ensures totalTrades == |closedPositions|
    {
      CountCloses(nowClosed, trades, closing);
      MoveClosed(stillOpen, nowClosed, closing);
    }

    /**
     * The bookkeeping end of `_check_positions_for_exit`: the closed
     * positions move and pay out.
     */
    method MoveClosed(stillOpen: seq<Position>, nowClosed: seq<Position>, ghost closing: seq<ClosedTrade>)
      requires Distinct(stillOpen) && |stillOpen| <= |openPositions|
      requires (openPositions == [] || |openPositions| <= maxPositions)
      requires forall p | p in stillOpen :: p.IsOpen()
      requires Records(closedPositions, trades) && Records(nowClosed, closing)
      requires balance == initialBalance + NetProfit(trades)
      modifies this`balance, this`openPositions, this`closedPositions, this`trades
      ensures BookValid()
      ensures openPositions == stillOpen
      ensures closedPositions == old(closedPositions) + nowClosed
      ensures trades == old(trades) + closing
      ensures balance == old(balance) + NetProfit(closing)
    {
      var gain := RealizedTotal(nowClosed, closing);
      NetProfitAppend(trades, closing);
      RecordsAppend(closedPositions, trades, nowClosed, closing);
      balance, closedPositions, openPositions, trades :=
        balance + gain, closedPositions + nowClosed, stillOpen, trades + closing;
    }

    /**
     * The counters of `_check_positions_for_exit`: one trade per close, one
     * win per take-profit close, and the win rate recomputed once there is
     * a trade.
     */
    method CountCloses(nowClosed: seq<Position>, ghost before: seq<ClosedTrade>, ghost closing: seq<ClosedTrade>)
      requires CountersFor(before) && Records(nowClosed, closing)
      modifies this`totalTrades, this`totalWins, this`currentWinRate
      ensures CountersFor(before + closing)
      ensures totalTrades == old(totalTrades) + |nowClosed|
      ensures totalWins == old(totalWins) + TakeProfits(closing)
    {
      var wins := CountTakeProfits(nowClosed, closing);
      TakeProfitsAppend(before, closing);
      totalTrades, totalWins := totalTrades + |nowClosed|, totalWins + wins;
      if totalTrades > 0 {
        currentWinRate := totalWins as real / totalTrades as real * 100.0;
      }
      assert currentWinRate == WinRate(totalWins, totalTrades);
    }

    /**
     * `_open_new_position`: appends the position the bar's signal
     * describes, sized by `Lot` at the current win rate.
     */
    method OpenNewPosition(bar: Bar)
      requires Valid() && |openPositions| < maxPositions
      modifies this`openPositions
      ensures Valid()
      ensures |openPositions| == |old(openPositions)| + 1
      ensures openPositions[..|old(openPositions)|] == old(openPositions)
      ensures var p := openPositions[|old(openPositions)|];
        fresh(p) && OpenedFrom(p, bar, spreadPips, Lot(currentWinRate, winRateThreshold, baseLotSize, increasedLotSize, bar.positionSize), false)
      ensures forall i | 0 <= i < |openPositions| :: openPositions[i] in old(openPositions) || fresh(openPositions[i])
    {
      var lot := Lot(currentWinRate, winRateThreshold, baseLotSize, increasedLotSize, bar.positionSize);
      var p := NewPosition(bar, spreadPips, lot, false);
      openPositions := openPositions + [p];
      assert openPositions[..|old(openPositions)|] == old(openPositions);
    }

    /** `_record_equity`: one point with the balance, the equity at the bar's close and the win rate. */
    method RecordEquity(bar: Bar)
      modifies this`equityCurve
      ensures equityCurve == old(equityCurve)
        + [RatedEquityPoint(bar.time, balance, balance + SumUnrealized(openPositions, bar.close), |openPositions|, currentWinRate)]
    {
      var unrealized := SumUnrealized(openPositions, bar.close);
      equityCurve := equityCurve + [RatedEquityPoint(bar.time, balance, balance + unrealized, |openPositions|, currentWinRate)];
    }

    /** `run` counts a bar on which, after the exits, the cap is reached. */
    method CountLimit()
      modifies this`positionLimitReachedCount
      ensures positionLimitReachedCount == old(positionLimitReachedCount) + (if |openPositions| >= maxPositions then 1 else 0)
    {
      if |openPositions| >= maxPositions {
        positionLimitReachedCount := positionLimitReachedCount + 1;
      }
    }

    /**
     * The exit half of one iteration of `run`'s loop: the exit check, then
     * the cap counter, which grows exactly when at least `maxPositions`
     * positions remain open.
     */
    method ExitBar(bar: Bar)
      requires Valid()
      modifies this`balance, this`openPositions, this`closedPositions, this`trades, openPositions
      modifies this`totalTrades, this`totalWins, this`currentWinRate, this`positionLimitReachedCount
      ensures Valid()
      ensures var plan := old(Plan(openPositions, bar, false));
        && openPositions == Kept(old(openPositions), plan)
        && closedPositions == old(closedPositions) + Dropped(old(openPositions), plan)
        && balance == old(balance) + NetProfit(ExitTrades(old(openPositions), plan, bar.time))
      ensures positionLimitReachedCount == old(positionLimitReachedCount) + (if |openPositions| >= maxPositions then 1 else 0)
      ensures forall p | p in openPositions :: p in old(openPositions)
    {
      CheckPositionsForExit(bar);
      CountLimit();
    }

    /**
     * The entry half of one iteration of `run`'s loop: a position is opened
     * exactly when the bar carries a signal and fewer than `maxPositions`
     * are open; then exactly one equity point is recorded.
     */
    method EnterBar(bar: Bar)
      requires Valid()
      modifies this`openPositions, this`equityCurve
      ensures Valid()
      ensures if bar.signal != 0 && |old(openPositions)| < maxPositions then
             && |openPositions| == |old(openPositions)| + 1
             && openPositions[..|old(openPositions)|] == old(openPositions)
             && fresh(openPositions[|old(openPositions)|])
             && OpenedFrom(openPositions[|old(openPositions)|], bar, spreadPips,
                           Lot(currentWinRate, winRateThreshold, baseLotSize, increasedLotSize, bar.positionSize), false)
           else
             openPositions == old(openPositions)
      ensures equityCurve == old(equityCurve)
        + [RatedEquityPoint(bar.time, balance, balance + SumUnrealized(openPositions, bar.close), |openPositions|, currentWinRate)]
      ensures forall i | 0 <= i < |openPositions| :: openPositions[i] in old(openPositions) || fresh(openPositions[i])
    {
      if bar.signal != 0 && |openPositions| < maxPositions {
        OpenNewPosition(bar);
      }
      RecordEquity(bar);
    }

    /**
     * One iteration of `run`'s loop. The cap counter grows exactly when,
     * after the exits, at least `maxPositions` positions are open; a
     * position is opened exactly when the bar carries a signal and fewer
     * remain; exactly one equity point is recorded.
     */
    method ProcessBar(bar: Bar)
      requires Valid()
      modifies this`balance, this`openPositions, this`closedPositions, this`equityCurve, this`trades, openPositions
      modifies this`totalTrades, this`totalWins, this`currentWinRate, this`positionLimitReachedCount
      ensures Valid()
      ensures var survivors := Kept(old(openPositions), old(Plan(openPositions, bar, false)));
        && positionLimitReachedCount == old(positionLimitReachedCount) + (if |survivors| >= maxPositions then 1 else 0)
        && if bar.signal != 0 && |survivors| < maxPositions then
             && |openPositions| == |survivors| + 1
             && openPositions[..|survivors|] == survivors
             && fresh(openPositions[|survivors|])
             && OpenedFrom(openPositions[|survivors|], bar, spreadPips,
                           Lot(currentWinRate, winRateThreshold, baseLotSize, increasedLotSize, bar.positionSize), false)
           else
             openPositions == survivors
      ensures var plan := old(Plan(openPositions, bar, false));
        && closedPositions == old(closedPositions) + Dropped(old(openPositions), plan)
        && balance == old(balance) + NetProfit(ExitTrades(old(openPositions), plan, bar.time))
      ensures equityCurve == old(equityCurve)
        + [RatedEquityPoint(bar.time, balance, balance + SumUnrealized(openPositions, bar.close), |openPositions|, currentWinRate)]
      ensures forall i | 0 <= i < |openPositions| :: openPositions[i] in old(openPositions) || fresh(openPositions[i])
    {
      ExitBar(bar);
      EnterBar(bar);
    }

    /**
     * After replaying `bars` from an equity curve `curve0`, a closed list
     * `closed0` and a cap count `limit0`: one equity point per bar, stamped
     * with its time, the closed list only extended, and the cap counted at
     * most once per bar.
     */
    ghost predicate Replayed(curve0: seq<RatedEquityPoint>, closed0: seq<Position>, limit0: nat, bars: seq<Bar>)
      reads this`equityCurve, this`closedPositions, this`positionLimitReachedCount
    {
      && |equityCurve| == |curve0| + |bars|
      && curve0 <= equityCurve
      && (forall j | 0 <= j < |bars| :: equityCurve[|curve0| + j].time == bars[j].time)
      && closed0 <= closedPositions
      && limit0 <= positionLimitReachedCount <= limit0 + |bars|
    }

    /** The bar loop of `run`. */
    method ReplayBars(bars: seq<Bar>)
      requires Valid()
      modifies this`balance, this`openPositions, this`closedPositions, this`equityCurve, this`trades, openPositions
      modifies this`totalTrades, this`totalWins, this`currentWinRate, this`positionLimitReachedCount
      ensures Valid()
      ensures Replayed(old(equityCurve), old(closedPositions), old(positionLimitReachedCount), bars)
    {
      var i := 0;
      while i < |bars|
        invariant 0 <= i <= |bars| && Valid()
        invariant Replayed(old(equityCurve), old(closedPositions), old(positionLimitReachedCount), bars[..i])
        invariant forall i | 0 <= i < |openPositions| :: openPositions[i] in old(openPositions) || fresh(openPositions[i])
      {
        assert bars[..i + 1] == bars[..i] + [bars[i]];
        ProcessBar(bars[i]);
        i := i + 1;
      }
      assert bars[..i] == bars;
    }

    /**
     * `run`: replays the bars, then summarizes the closed positions. The
     * statistics and the monthly table are those of the closed trades, the
     * final balance is the initial balance plus the net profit, and the
     * running trade counter agrees with the summary's trade count.
     */
    method Run(bars: seq<Bar>) returns (r: EnhancedResults)
      requires Valid()
      modifies this`balance, this`openPositions, this`closedPositions, this`equityCurve, this`trades, openPositions
      modifies this`totalTrades, this`totalWins, this`currentWinRate, this`positionLimitReachedCount
      ensures Valid()
      ensures Replayed(old(equityCurve), old(closedPositions), old(positionLimitReachedCount), bars)
      ensures r.stats == Summary(trades) && r.monthly == Monthly(trades)
      ensures r.stats.trades == |closedPositions| == totalTrades
      ensures r.finalBalance == initialBalance + r.stats.netProfit
      ensures r.equityCurve == equityCurve && r.tradeHistory == closedPositions
      ensures r.positionLimitReachedCount == positionLimitReachedCount
    {
      ReplayBars(bars);
      var ts := TradesOf(closedPositions);
      assert ts == trades;
      var monthly := MonthlyPerformance(ts);
      r := EnhancedResults(Summary(ts), balance, monthly, equityCurve, closedPositions, positionLimitReachedCount);
    }
  }
}
