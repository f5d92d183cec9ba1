/**
 * The result summary the signal-replaying engines (custom_backtest_engine.py
 * and enhanced_backtest_engine.py) compute from their closed positions:
 * trade and win counts, win rate, gross profit and loss, profit factor, net
 * profit, and the per-month table keyed by the exit month.
 */
module TradeStats {
  import opened Wrappers
  import opened Market
  import opened BacktestPosition

  /** What the summary needs of one closed position. */
  datatype ClosedTrade = ClosedTrade(month: MonthKey, profitPips: real, profitJpy: real, status: PositionStatus)

  /** The summary view of a closed position: its exit month, its profits and its exit reason. */
  function TradeOf(p: Position): ClosedTrade
    reads p
    requires p.IsClosed()
  {
    ClosedTrade(MonthOf(p.exitTime.value), p.profitPips.value, p.profitJpy.value, p.status)
  }

  /** The trades of a list of closed positions, in list order. */
  function TradesOf(s: seq<Position>): (ts: seq<ClosedTrade>)
    reads s
    requires forall i | 0 <= i < |s| :: s[i].IsClosed()
    ensures |ts| == |s| && forall i | 0 <= i < |s| :: ts[i] == TradeOf(s[i])
  {
    seq(|s|, i requires 0 <= i < |s| && s[i].IsClosed() reads s => TradeOf(s[i]))
  }

  /** `s` are closed positions that became the trades `ts`, in order. */
  ghost predicate Records(s: seq<Position>, ts: seq<ClosedTrade>)
    reads s
  {
    |s| == |ts| && forall i | 0 <= i < |s| :: s[i].IsClosed() && TradeOf(s[i]) == ts[i]
  }

  /** Appending closed positions appends their trades. */
  lemma RecordsAppend(a: seq<Position>, ta: seq<ClosedTrade>, b: seq<Position>, tb: seq<ClosedTrade>)
    requires Records(a, ta) && Records(b, tb)
    ensures Records(a + b, ta + tb)
  {
    forall i | 0 <= i < |a + b|
      ensures (a + b)[i].IsClosed() && TradeOf((a + b)[i]) == (ta + tb)[i]
    {
      if i < |a| {
        assert (a + b)[i] == a[i] && (ta + tb)[i] == ta[i];
      } else {
        assert (a + b)[i] == b[i - |a|] && (ta + tb)[i] == tb[i - |a|];
      }
    }
  }

  /** `sum(pos.profit_jpy for pos in closed_positions)`. */
  function NetProfit(ts: seq<ClosedTrade>): real {
    if ts == [] then 0.0 else NetProfit(ts[..|ts| - 1]) + ts[|ts| - 1].profitJpy
  }

  lemma {:induction false} NetProfitAppend(a: seq<ClosedTrade>, b: seq<ClosedTrade>)
    ensures NetProfit(a + b) == NetProfit(a) + NetProfit(b)
  {
    if b != [] {
      assert (a + b)[..|a + b| - 1] == a + b[..|b| - 1];
      NetProfitAppend(a, b[..|b| - 1]);
    } else {
      assert a + b == a;
    }
  }

  /** `sum(1 for pos in closed_positions if pos.profit_pips > 0)`. */
  function Wins(ts: seq<ClosedTrade>): nat {
    if ts == [] then 0 else Wins(ts[..|ts| - 1]) + (if ts[|ts| - 1].profitPips > 0.0 then 1 else 0)
  }

  /** The number of trades closed at their take-profit. */
  function TakeProfits(ts: seq<ClosedTrade>): nat {
    if ts == [] then 0 else TakeProfits(ts[..|ts| - 1]) + (if ts[|ts| - 1].status == ClosedTakeProfit then 1 else 0)
  }

  lemma {:induction false} TakeProfitsAppend(a: seq<ClosedTrade>, b: seq<ClosedTrade>)
    ensures TakeProfits(a + b) == TakeProfits(a) + TakeProfits(b)
  {
    if b != [] {
      assert (a + b)[..|a + b| - 1] == a + b[..|b| - 1];
      TakeProfitsAppend(a, b[..|b| - 1]);
    } else {
      assert a + b == a;
    }
  }

  /** `sum(pos.profit_jpy for pos in closed_positions if pos.profit_jpy > 0)`. */
  function GrossProfit(ts: seq<ClosedTrade>): real {
    if ts == [] then 0.0
    else GrossProfit(ts[..|ts| - 1]) + (if ts[|ts| - 1].profitJpy > 0.0 then ts[|ts| - 1].profitJpy else 0.0)
  }

  /** `abs(sum(pos.profit_jpy for pos in closed_positions if pos.profit_jpy < 0))`. */
  function GrossLoss(ts: seq<ClosedTrade>): real {
    if ts == [] then 0.0
    else GrossLoss(ts[..|ts| - 1]) + (if ts[|ts| - 1].profitJpy < 0.0 then -ts[|ts| - 1].profitJpy else 0.0)
  }

  /** Every trade is either a win or a loss, and at most every trade is a take-profit. */
  lemma {:induction false} CountsBounded(ts: seq<ClosedTrade>)
    ensures Wins(ts) <= |ts|
    ensures TakeProfits(ts) <= |ts|
  {
    if ts != [] {
      CountsBounded(ts[..|ts| - 1]);
    }
  }

  /**
   * The net profit splits into the gross profit and the gross loss, both
   * non-negative: winners and losers add up to the account's result.
   */
  lemma {:induction false} NetIsGrossProfitMinusGrossLoss(ts: seq<ClosedTrade>)
    ensures GrossProfit(ts) >= 0.0 && GrossLoss(ts) >= 0.0
    ensures NetProfit(ts) == GrossProfit(ts) - GrossLoss(ts)
  {
    if ts != [] {
      NetIsGrossProfitMinusGrossLoss(ts[..|ts| - 1]);
    }
  }

  /**
   * A win rate: wins as a percentage of trades, 0 before the first trade
   * (the engines' `win_rate`, the enhanced engine's `current_win_rate` and
   * the executor's `win_rate`).
   */
  function WinRate(wins: nat, trades: nat): real {
    if trades == 0 then 0.0 else wins as real / trades as real * 100.0
  }

  /** The win rate scales the trade count to the win count, and is a percentage when wins do not exceed trades. */
  lemma WinRateIsPercentage(wins: nat, trades: nat)
    ensures trades == 0 ==> WinRate(wins, trades) == 0.0
    ensures trades > 0 ==> WinRate(wins, trades) * trades as real == wins as real * 100.0
    ensures wins <= trades ==> 0.0 <= WinRate(wins, trades) <= 100.0
  {
  }

  /** A profit factor: gross profit over gross loss, infinite with no loss. */
  datatype ProfitFactor = Finite(value: real) | Infinite

  /** The summary the engines' `run` returns besides the curves and tables. */
  datatype Statistics = Statistics(
    trades: nat,
    wins: nat,
    losses: int,
    winRate: real,
    grossProfit: real,
    grossLoss: real,
    profitFactor: ProfitFactor,
    netProfit: real)

  /**
   * The statistics of a list of closed trades: wins and losses partition
   * the trades, the win rate is a percentage (0 with no trade), the profit
   * factor is infinite exactly when there is no gross loss and otherwise
   * scales the loss to the profit, and the net profit is the gross profit
   * minus the gross loss.
   */
  function Summary(ts: seq<ClosedTrade>): (s: Statistics)
    ensures s.trades == |ts| && s.wins == Wins(ts)
    ensures s.losses >= 0 && s.wins + s.losses == s.trades
    ensures 0.0 <= s.winRate <= 100.0
    ensures s.trades == 0 ==> s.winRate == 0.0
    ensures s.trades > 0 ==> s.winRate * s.trades as real == s.wins as real * 100.0
    ensures s.profitFactor.Infinite? <==> s.grossLoss == 0.0
    ensures s.profitFactor.Finite? ==> s.profitFactor.value * s.grossLoss == s.grossProfit && s.profitFactor.value >= 0.0
    ensures s.netProfit == s.grossProfit - s.grossLoss && s.netProfit == NetProfit(ts)
  {
    CountsBounded(ts);
    NetIsGrossProfitMinusGrossLoss(ts);
    var trades := |ts|;
    var wins := Wins(ts);
    WinRateIsPercentage(wins, trades);
    var winRate := WinRate(wins, trades);
    var gp, gl := GrossProfit(ts), GrossLoss(ts);
    var pf := if gl > 0.0 then Finite(gp / gl) else Infinite;
    Statistics(trades, wins, trades - wins, winRate, gp, gl, pf, NetProfit(ts))
  }

  /** One month's row of `monthly_performance`. */
  datatype MonthStats = MonthStats(trades: nat, wins: nat, profit: real)

  /** `monthly_performance`, a dict kept in insertion order: one entry per exit month. */
  type MonthTable = seq<(MonthKey, MonthStats)>

  /** The table after counting one more trade in its month, opening the month's entry if needed. */
  function Record(table: MonthTable, t: ClosedTrade): (r: MonthTable)
    ensures |r| == |table| || |r| == |table| + 1
  {
    if table == [] then [(t.month, MonthStats(1, if t.profitPips > 0.0 then 1 else 0, t.profitJpy))]
    else if table[0].0 == t.month then
      var m := table[0].1;
      [(t.month, MonthStats(m.trades + 1, m.wins + (if t.profitPips > 0.0 then 1 else 0), m.profit + t.profitJpy))]
        + table[1..]
    else [table[0]] + Record(table[1..], t)
  }

  /** The table built from the trades in list order. */
  function Monthly(ts: seq<ClosedTrade>): MonthTable {
    if ts == [] then [] else Record(Monthly(ts[..|ts| - 1]), ts[|ts| - 1])
  }

  function TableTrades(table: MonthTable): nat {
    if table == [] then 0 else table[0].1.trades + TableTrades(table[1..])
  }

  function TableWins(table: MonthTable): nat {
    if table == [] then 0 else table[0].1.wins + TableWins(table[1..])
  }

  function TableProfit(table: MonthTable): real {
    if table == [] then 0.0 else table[0].1.profit + TableProfit(table[1..])
  }

  /** Recording a trade adds it to exactly one entry: the totals grow by exactly that trade. */
  lemma {:induction false} RecordTotals(table: MonthTable, t: ClosedTrade)
    ensures TableTrades(Record(table, t)) == TableTrades(table) + 1
    ensures TableWins(Record(table, t)) == TableWins(table) + (if t.profitPips > 0.0 then 1 else 0)
    ensures TableProfit(Record(table, t)) == TableProfit(table) + t.profitJpy
  {
    if table != [] && table[0].0 != t.month {
      RecordTotals(table[1..], t);
    }
  }

  /** Recording a trade adds only its month, and never a month twice. */
  lemma {:induction false} RecordMonths(table: MonthTable, t: ClosedTrade)
    ensures forall k :: k in MonthsOf(Record(table, t)) <==> k in MonthsOf(table) || k == t.month
    ensures Distinct(MonthsOf(table)) ==> Distinct(MonthsOf(Record(table, t)))
  {
    if table != [] && table[0].0 != t.month {
      RecordMonths(table[1..], t);
      DistinctCons(table[0].0, MonthsOf(table[1..]));
      DistinctCons(table[0].0, MonthsOf(Record(table[1..], t)));
    }
  }

  /** The month keys of a table, in order. */
  function MonthsOf(table: MonthTable): (ks: seq<MonthKey>)
    ensures |ks| == |table| && forall j | 0 <= j < |table| :: ks[j] == table[j].0
  {
    if table == [] then [] else [table[0].0] + MonthsOf(table[1..])
  }

  /**
   * The monthly table accounts for every trade exactly once: its trade,
   * win and profit columns add up to the run's totals, it has one entry
   * per month (no month twice) and its months are exactly the exit months
   * of the trades.
   */
  lemma {:induction false} MonthlyTotals(ts: seq<ClosedTrade>)
    ensures TableTrades(Monthly(ts)) == |ts|
    ensures TableWins(Monthly(ts)) == Wins(ts)
    ensures TableProfit(Monthly(ts)) == NetProfit(ts)
    ensures Distinct(MonthsOf(Monthly(ts)))
    ensures forall k :: k in MonthsOf(Monthly(ts)) <==> exists i | 0 <= i < |ts| :: ts[i].month == k
  {
    if ts != [] {
      var n := |ts| - 1;
      MonthlyTotals(ts[..n]);
      RecordTotals(Monthly(ts[..n]), ts[n]);
      RecordMonths(Monthly(ts[..n]), ts[n]);
      forall k | k in MonthsOf(Monthly(ts))
        ensures exists i | 0 <= i < |ts| :: ts[i].month == k
      {
        if k != ts[n].month {
          var i :| 0 <= i < n && ts[..n][i].month == k;
          assert ts[i].month == k;
        }
      }
      forall k, i | 0 <= i < |ts| && ts[i].month == k
        ensures k in MonthsOf(Monthly(ts))
      {
        if i < n {
          assert ts[..n][i].month == k;
        }
      }
    }
  }

  /** The loop of `run` that builds `monthly_performance` from the closed trades. */
  method MonthlyPerformance(ts: seq<ClosedTrade>) returns (table: MonthTable)
    ensures table == Monthly(ts)
  {
    table := [];
    var i := 0;
    while i < |ts|
      invariant 0 <= i <= |ts|
      invariant table == Monthly(ts[..i])
    {
      assert ts[..i + 1][..i] == ts[..i];
      table := Record(table, ts[i]);
      i := i + 1;
    }
    assert ts[..i] == ts;
  }

  /**
   * `balance += pos.profit_jpy` over the positions one exit pass closes:
   * the total added is the net profit of their trades.
   */
  method RealizedTotal(closed: seq<Position>, ghost trades: seq<ClosedTrade>) returns (total: real)
    requires Records(closed, trades)
    ensures total == NetProfit(trades)
  {
    total := 0.0;
    var k := 0;
    while k < |closed|
      invariant 0 <= k <= |closed|
      invariant total == NetProfit(trades[..k])
    {
      assert trades[..k + 1][..k] == trades[..k];
      total := total + closed[k].profitJpy.value;
      k := k + 1;
    }
    assert trades[..k] == trades;
  }

  /**
   * The take-profit counter of an exit pass (`total_wins += 1` on each
   * take-profit close): the number of take-profit trades among those closed.
   */
  method CountTakeProfits(closed: seq<Position>, ghost trades: seq<ClosedTrade>) returns (n: nat)
    requires Records(closed, trades)
    ensures n == TakeProfits(trades)
  {
    n := 0;
    var k := 0;
    while k < |closed|
      invariant 0 <= k <= |closed|
      invariant n == TakeProfits(trades[..k])
    {
      assert trades[..k + 1][..k] == trades[..k];
      if closed[k].status == ClosedTakeProfit {
        n := n + 1;
      }
      k := k + 1;
    }
    assert trades[..k] == trades;
  }
}
