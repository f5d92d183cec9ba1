/**
 * The bar-replay backtest engine (src/backtest/backtest_engine.py) and its
 * signal-reusing subclass (src/backtest/custom_backtest_engine.py): for
 * each bar, close what the bar takes to its target or stop (after moving
 * trailing stops), open the bar's signal if the position cap allows, and
 * record the equity.
 */
module Backtest {
  import opened Wrappers
  import opened Market
  import opened BacktestPosition
  import opened ExitCheck
  import opened EngineCommon
  import opened TradeStats

  /** What the subclass's `run` returns: one row per closed position, or an empty typed frame. */
  datatype HistoryFrame = HistoryRows(rows: seq<PositionRow>) | EmptyFrame(columns: seq<string>)

  /** The columns of the empty history frame. */
  const HistoryColumns: seq<string> := ["entry_time", "exit_time", "direction", "entry_price", "exit_price",
                                        "sl_price", "tp_price", "profit_pips", "profit_jpy", "status", "strategy"]

  class BacktestEngine {
    const initialBalance: real
    const lotSize: real
    const maxPositions: int
    const spreadPips: real

    var balance: real
    var openPositions: seq<Position>
    var closedPositions: seq<Position>
    var equityCurve: seq<EquityPoint>
    /** The trade each closed position became, in the order of `closedPositions`. */
    ghost var trades: seq<ClosedTrade>

    /**
     * The account invariant: open positions are distinct and open, closed
     * ones are closed with their profit computed (recorded in `trades`),
     * the cap holds, and the balance is the initial balance plus the net
     * profit of every closed trade.
     */
    ghost predicate Valid()
      reads this, openPositions, closedPositions
    {
      && Distinct(openPositions)
      && (forall p | p in openPositions :: p.IsOpen())
      && |trades| == |closedPositions|
      && (forall i | 0 <= i < |closedPositions| :: closedPositions[i].IsClosed() && TradeOf(closedPositions[i]) == trades[i])
      && (openPositions == [] || |openPositions| <= maxPositions)
      && balance == initialBalance + NetProfit(trades)
    }

    constructor (initialBalance: real, lotSize: real, maxPositions: int, spreadPips: real)
      ensures Valid()
      ensures this.initialBalance == initialBalance && this.lotSize == lotSize
      ensures this.maxPositions == maxPositions && this.spreadPips == spreadPips
      ensures balance == initialBalance
      ensures openPositions == [] && closedPositions == [] && equityCurve == []
    {
      this.initialBalance := initialBalance;
      this.lotSize := lotSize;
      this.maxPositions := maxPositions;
      this.spreadPips := spreadPips;
      balance := initialBalance;
      openPositions := [];
      closedPositions := [];
      equityCurve := [];
      trades := [];
    }

    /**
     * `_check_positions_for_exit`: every open position trails (when it
     * asked to) and is checked against the bar; those closed move, in list
     * order, to the closed list, and the balance gains exactly their profit.
     */
    method CheckPositionsForExit(bar: Bar)
      requires Valid()
      modifies this`balance, this`openPositions, this`closedPositions, this`trades, openPositions
      ensures Valid()
      ensures var plan := old(Plan(openPositions, bar, true));
        && (forall i | 0 <= i < |old(openPositions)| :: StepApplied(old(openPositions)[i], plan[i], bar.time))
        && openPositions == Kept(old(openPositions), plan)
        && closedPositions == old(closedPositions) + Dropped(old(openPositions), plan)
        && trades == old(trades) + ExitTrades(old(openPositions), plan, bar.time)
        && balance == old(balance) + NetProfit(ExitTrades(old(openPositions), plan, bar.time))
      ensures forall p | p in openPositions :: p in old(openPositions)
    {
      assert forall i | 0 <= i < |closedPositions| :: closedPositions[i] !in openPositions;
      ghost var plan := Plan(openPositions, bar, true);
      var stillOpen, nowClosed := ExitPass(openPositions, bar.time, bar, true);
      assert Records(closedPositions, trades);
      MoveClosed(stillOpen, nowClosed, ExitTrades(old(openPositions), plan, bar.time));
    }

    /** The bookkeeping end of `_check_positions_for_exit`: the closed positions move and pay out. */
    method MoveClosed(stillOpen: seq<Position>, nowClosed: seq<Position>, ghost closing: seq<ClosedTrade>)
      requires Distinct(stillOpen) && |stillOpen| <= |openPositions|
      requires (openPositions == [] || |openPositions| <= maxPositions)
      requires forall p | p in stillOpen :: p.IsOpen()
      requires Records(closedPositions, trades) && Records(nowClosed, closing)
      requires balance == initialBalance + NetProfit(trades)
      modifies this`balance, this`openPositions, this`closedPositions, this`trades
      ensures Valid()
      ensures openPositions == stillOpen
      ensures closedPositions == old(closedPositions) + nowClosed
      ensures trades == old(trades) + closing
      ensures balance == old(balance) + NetProfit(closing)
    {
      var gain := RealizedTotal(nowClosed, closing);
      NetProfitAppend(trades, closing);
      RecordsAppend(closedPositions, trades, nowClosed, closing);
      balance, closedPositions, openPositions, trades :=
        balance + gain, closedPositions + nowClosed, stillOpen, trades + closing;
    }

    /** `_open_new_position`: appends the position the bar's signal describes. */
    method OpenNewPosition(bar: Bar)
      requires Valid() && |openPositions| < maxPositions
      modifies this`openPositions
      ensures Valid()
      ensures |openPositions| == |old(openPositions)| + 1
      ensures openPositions[..|old(openPositions)|] == old(openPositions)
      ensures var p := openPositions[|old(openPositions)|];
        fresh(p) && OpenedFrom(p, bar, spreadPips, lotSize, bar.trailingStop.GetOr(false))
      ensures forall i | 0 <= i < |openPositions| :: openPositions[i] in old(openPositions) || fresh(openPositions[i])
    {
      var p := NewPosition(bar, spreadPips, lotSize, bar.trailingStop.GetOr(false));
      openPositions := openPositions + [p];
      assert openPositions[..|old(openPositions)|] == old(openPositions);
    }

    /** `_record_equity`: one point with the balance and the equity at the bar's close. */
    method RecordEquity(bar: Bar)
      modifies this`equityCurve
      ensures equityCurve == old(equityCurve)
        + [EquityPoint(bar.time, balance, balance + SumUnrealized(openPositions, bar.close), |openPositions|)]
    {
      var unrealized := SumUnrealized(openPositions, bar.close);
      equityCurve := equityCurve + [EquityPoint(bar.time, balance, balance + unrealized, |openPositions|)];
    }

    /**
     * One iteration of the replay loop. A position is opened exactly when
     * the bar carries a signal and, after the exits, fewer than
     * `maxPositions` remain open; exactly one equity point is recorded.
     */
    method ProcessBar(bar: Bar)
      requires Valid()
      modifies this`balance, this`openPositions, this`closedPositions, this`equityCurve, this`trades, openPositions
      ensures Valid()
      ensures var survivors := Kept(old(openPositions), old(Plan(openPositions, bar, true)));
        if bar.signal != 0 && |survivors| < maxPositions then
          && |openPositions| == |survivors| + 1
          && openPositions[..|survivors|] == survivors
          && fresh(openPositions[|survivors|])
          && OpenedFrom(openPositions[|survivors|], bar, spreadPips, lotSize, bar.trailingStop.GetOr(false))
        else
          openPositions == survivors
      ensures var plan := old(Plan(openPositions, bar, true));
        && closedPositions == old(closedPositions) + Dropped(old(openPositions), plan)
        && balance == old(balance) + NetProfit(ExitTrades(old(openPositions), plan, bar.time))
      ensures equityCurve == old(equityCurve)
        + [EquityPoint(bar.time, balance, balance + SumUnrealized(openPositions, bar.close), |openPositions|)]
      ensures forall i | 0 <= i < |openPositions| :: openPositions[i] in old(openPositions) || fresh(openPositions[i])
    {
      CheckPositionsForExit(bar);
      if bar.signal != 0 && |openPositions| < maxPositions {
        OpenNewPosition(bar);
      }
      RecordEquity(bar);
    }

    /**
     * After replaying `bars` from an equity curve `curve0` and a closed list
     * `closed0`: one equity point per bar, stamped with its time, appended to
     * `curve0`, and the closed list only extended.
     */
    ghost predicate Replayed(curve0: seq<EquityPoint>, closed0: seq<Position>, bars: seq<Bar>)
      reads this
    {
      && |equityCurve| == |curve0| + |bars|
      && curve0 <= equityCurve
      && (forall j | 0 <= j < |bars| :: equityCurve[|curve0| + j].time == bars[j].time)
      && closed0 <= closedPositions
    }

    /**
     * The replay loop shared by both `run` methods. Closed positions are
     * only ever appended, and every bar adds one equity point stamped with
     * its time.
     */
    method ReplayBars(bars: seq<Bar>)
      requires Valid()
      modifies this`balance, this`openPositions, this`closedPositions, this`equityCurve, this`trades, openPositions
      ensures Valid()
      ensures Replayed(old(equityCurve), old(closedPositions), bars)
    {
      var i := 0;
      while i < |bars|
        invariant 0 <= i <= |bars| && Valid() && Replayed(old(equityCurve), old(closedPositions), bars[..i])
        invariant forall i | 0 <= i < |openPositions| :: openPositions[i] in old(openPositions) || fresh(openPositions[i])
      {
        ProcessBar(bars[i]);
        assert bars[..i + 1] == bars[..i] + [bars[i]];
        i := i + 1;
      }
      assert bars[..i] == bars;
    }

    /** `BacktestEngine.run` after signal generation: the trade history, one row per closed position. */
    method Run(bars: seq<Bar>) returns (rows: seq<PositionRow>)
      requires Valid()
      modifies this`balance, this`openPositions, this`closedPositions, this`equityCurve, this`trades, openPositions
      ensures Valid()
      ensures |equityCurve| == |old(equityCurve)| + |bars|
      ensures old(closedPositions) <= closedPositions
      ensures rows == Rows(closedPositions)
    {
      ReplayBars(bars);
      rows := Rows(closedPositions);
    }

    /**
     * `CustomBacktestEngine.run`: the same replay over bars whose signals
     * were produced beforehand; with no closed position the result is an
     * empty frame with the history columns.
     */
    method RunCustom(bars: seq<Bar>) returns (frame: HistoryFrame)
      requires Valid()
      modifies this`balance, this`openPositions, this`closedPositions, this`equityCurve, this`trades, openPositions
      ensures Valid()
      ensures |equityCurve| == |old(equityCurve)| + |bars|
      ensures frame.EmptyFrame? <==> closedPositions == []
      ensures frame.EmptyFrame? ==> frame.columns == HistoryColumns
      ensures frame.HistoryRows? ==> frame.rows == Rows(closedPositions)
    {
      ReplayBars(bars);
      if closedPositions != [] {
        frame := HistoryRows(Rows(closedPositions));
      } else {
        frame := EmptyFrame(HistoryColumns);
      }
    }
  }
}
