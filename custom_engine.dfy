/**
 * The standalone signal-replaying engine (custom_backtest_engine.py at the
 * repository root): the same bar loop as the base engine without a trailing
 * stop, lots taken from the bar's `position_size` column when present, and
 * a result summary with the trade statistics and the monthly table.
 */
module CustomEngine {
  import opened Wrappers
  import opened Market
  import opened BacktestPosition
  import opened ExitCheck
  import opened EngineCommon
  import opened TradeStats

  /** What `run` returns: the statistics, the final balance, the monthly table, the curve and the history. */
  datatype Results = Results(
    stats: Statistics,
    finalBalance: real,
    monthly: MonthTable,
    equityCurve: seq<EquityPoint>,
    tradeHistory: seq<Position>)

  class CustomBacktestEngine {
    const initialBalance: real
    const lotSize: real
    const maxPositions: int
    const spreadPips: real

    var balance: real
    var openPositions: seq<Position>
    var closedPositions: seq<Position>
    var equityCurve: seq<EquityPoint>
    /** The trade each closed position became, in the order of `closedPositions`. */
    ghost var trades: seq<ClosedTrade>

    /**
     * The account invariant: open positions are distinct and open, closed
     * ones are closed with their profit computed (recorded in `trades`),
     * the cap holds, and the balance is the initial balance plus the net
     * profit of every closed trade.
     */
    ghost predicate Valid()
      reads this, openPositions, closedPositions
    {
      && Distinct(openPositions)
      && (forall p | p in openPositions :: p.IsOpen())
      && |trades| == |closedPositions|
      && (forall i | 0 <= i < |closedPositions| :: closedPositions[i].IsClosed() && TradeOf(closedPositions[i]) == trades[i])
      && (openPositions == [] || |openPositions| <= maxPositions)
      && balance == initialBalance + NetProfit(trades)
    }

    constructor (initialBalance: real, lotSize: real, maxPositions: int, spreadPips: real)
      ensures Valid()
      ensures this.initialBalance == initialBalance && this.lotSize == lotSize
      ensures this.maxPositions == maxPositions && this.spreadPips == spreadPips
      ensures balance == initialBalance
      ensures openPositions == [] && closedPositions == [] && equityCurve == []
    {
      this.initialBalance := initialBalance;
      this.lotSize := lotSize;
      this.maxPositions := maxPositions;
      this.spreadPips := spreadPips;
      balance := initialBalance;
      openPositions := [];
      closedPositions := [];
      equityCurve := [];
      trades := [];
    }

    /**
     * `_check_positions_for_exit`: every open position is checked against
     * the bar (no trailing stop in this engine); those closed move, in list
     * order, to the closed list, and the balance gains exactly their profit.
     */
    method CheckPositionsForExit(bar: Bar)
      requires Valid()
      modifies this`balance, this`openPositions, this`closedPositions, this`trades, openPositions
      ensures Valid()
      ensures var plan := old(Plan(openPositions, bar, false));
        && (forall i | 0 <= i < |old(openPositions)| :: StepApplied(old(openPositions)[i], plan[i], bar.time))
        && openPositions == Kept(old(openPositions), plan)
        && closedPositions == old(closedPositions) + Dropped(old(openPositions), plan)
        && trades == old(trades) + ExitTrades(old(openPositions), plan, bar.time)
        && balance == old(balance) + NetProfit(ExitTrades(old(openPositions), plan, bar.time))
      ensures forall p | p in openPositions :: p in old(openPositions)
    {
      assert forall i | 0 <= i < |closedPositions| :: closedPositions[i] !in openPositions;
      ghost var plan := Plan(openPositions, bar, false);
      var stillOpen, nowClosed := ExitPass(openPositions, bar.time, bar, false);
      assert Records(closedPositions, trades);
      MoveClosed(stillOpen, nowClosed, ExitTrades(old(openPositions), plan, bar.time));
    }

    /** The bookkeeping end of `_check_positions_for_exit`: the closed positions move and pay out. */
    method MoveClosed(stillOpen: seq<Position>, nowClosed: seq<Position>, ghost closing: seq<ClosedTrade>)
      requires Distinct(stillOpen) && |stillOpen| <= |openPositions|
      requires (openPositions == [] || |openPositions| <= maxPositions)
      requires forall p | p in stillOpen :: p.IsOpen()
      requires Records(closedPositions, trades) && Records(nowClosed, closing)
      requires balance == initialBalance + NetProfit(trades)
      modifies this`balance, this`openPositions, this`closedPositions, this`trades
      ensures Valid()
      ensures openPositions == stillOpen
      ensures closedPositions == old(closedPositions) + nowClosed
      ensures trades == old(trades) + closing
      ensures balance == old(balance) + NetProfit(closing)
    {
      var gain := RealizedTotal(nowClosed, closing);
      NetProfitAppend(trades, closing);
      RecordsAppend(closedPositions, trades, nowClosed, closing);
      balance, closedPositions, openPositions, trades :=
        balance + gain, closedPositions + nowClosed, stillOpen, trades + closing;
    }

    /**
     * `_open_new_position`: appends the position the bar's signal describes,
     * sized by the bar's `position_size` column when it has one, else by the
     * engine's lot size.
     */
    method OpenNewPosition(bar: Bar)
      requires Valid() && |openPositions| < maxPositions
      modifies this`openPositions
      ensures Valid()
      ensures |openPositions| == |old(openPositions)| + 1
      ensures openPositions[..|old(openPositions)|] == old(openPositions)
      ensures var p := openPositions[|old(openPositions)|];
        fresh(p) && OpenedFrom(p, bar, spreadPips, bar.positionSize.GetOr(lotSize), false)
      ensures forall i | 0 <= i < |openPositions| :: openPositions[i] in old(openPositions) || fresh(openPositions[i])
    {
      var p := NewPosition(bar, spreadPips, bar.positionSize.GetOr(lotSize), false);
      openPositions := openPositions + [p];
      assert openPositions[..|old(openPositions)|] == old(openPositions);
    }

    /** `_record_equity`: one point with the balance and the equity at the bar's close. */
    method RecordEquity(bar: Bar)
      modifies this`equityCurve
      ensures equityCurve == old(equityCurve)
        + [EquityPoint(bar.time, balance, balance + SumUnrealized(openPositions, bar.close), |openPositions|)]
    {
      var unrealized := SumUnrealized(openPositions, bar.close);
      equityCurve := equityCurve + [EquityPoint(bar.time, balance, balance + unrealized, |openPositions|)];
    }

    /**
     * One iteration of the replay loop. A position is opened exactly when
     * the bar carries a signal and, after the exits, fewer than
     * `maxPositions` remain open; exactly one equity point is recorded.
     */
    method ProcessBar(bar: Bar)
      requires Valid()
      modifies this`balance, this`openPositions, this`closedPositions, this`equityCurve, this`trades, openPositions
      ensures Valid()
      ensures var survivors := Kept(old(openPositions), old(Plan(openPositions, bar, false)));
        if bar.signal != 0 && |survivors| < maxPositions then
          && |openPositions| == |survivors| + 1
          && openPositions[..|survivors|] == survivors
          && fresh(openPositions[|survivors|])
          && OpenedFrom(openPositions[|survivors|], bar, spreadPips, bar.positionSize.GetOr(lotSize), false)
        else
          openPositions == survivors
      ensures var plan := old(Plan(openPositions, bar, false));
        && closedPositions == old(closedPositions) + Dropped(old(openPositions), plan)
        && balance == old(balance) + NetProfit(ExitTrades(old(openPositions), plan, bar.time))
      ensures equityCurve == old(equityCurve)
        + [EquityPoint(bar.time, balance, balance + SumUnrealized(openPositions, bar.close), |openPositions|)]
      ensures forall i | 0 <= i < |openPositions| :: openPositions[i] in old(openPositions) || fresh(openPositions[i])
    {
      CheckPositionsForExit(bar);
      if bar.signal != 0 && |openPositions| < maxPositions {
        OpenNewPosition(bar);
      }
      RecordEquity(bar);
    }

    /**
     * After replaying `bars` from an equity curve `curve0` and a closed list
     * `closed0`: one equity point per bar, stamped with its time, appended to
     * `curve0`, and the closed list only extended.
     */
    ghost predicate Replayed(curve0: seq<EquityPoint>, closed0: seq<Position>, bars: seq<Bar>)
      reads this
    {
      && |equityCurve| == |curve0| + |bars|
      && curve0 <= equityCurve
      && (forall j | 0 <= j < |bars| :: equityCurve[|curve0| + j].time == bars[j].time)
      && closed0 <= closedPositions
    }

    /**
     * The bar loop of `run`. Closed positions are only ever appended, and
     * every bar adds one equity point stamped with its time.
     */
    method ReplayBars(bars: seq<Bar>)
      requires Valid()
      modifies this`balance, this`openPositions, this`closedPositions, this`equityCurve, this`trades, openPositions
      ensures Valid()
      ensures Replayed(old(equityCurve), old(closedPositions), bars)
    {
      var i := 0;
      while i < |bars|
        invariant 0 <= i <= |bars| && Valid() && Replayed(old(equityCurve), old(closedPositions), bars[..i])
        invariant forall i | 0 <= i < |openPositions| :: openPositions[i] in old(openPositions) || fresh(openPositions[i])
      {
        ProcessBar(bars[i]);
        assert bars[..i + 1] == bars[..i] + [bars[i]];
        i := i + 1;
      }
      assert bars[..i] == bars;
    }

    /**
     * `run`: replays the bars, then summarizes the closed positions. The
     * statistics and the monthly table are those of the closed trades, and
     * the final balance is the initial balance plus the net profit.
     */
    method Run(bars: seq<Bar>) returns (r: Results)
      requires Valid()
      modifies this`balance, this`openPositions, this`closedPositions, this`equityCurve, this`trades, openPositions
      ensures Valid()
      ensures Replayed(old(equityCurve), old(closedPositions), bars)
      ensures r.stats == Summary(trades) && r.monthly == Monthly(trades)
      ensures r.stats.trades == |closedPositions|
      ensures r.finalBalance == initialBalance + r.stats.netProfit
      ensures r.equityCurve == equityCurve && r.tradeHistory == closedPositions
    {
      ReplayBars(bars);
      var ts := TradesOf(closedPositions);
      assert ts == trades;
      var monthly := MonthlyPerformance(ts);
      r := Results(Summary(ts), balance, monthly, equityCurve, closedPositions);
    }
  }
}
