/**
 * The trade-execution simulator (src/backtest/trade_executor.py): its own
 * position record with take-profit and stop-loss tests, and the executor
 * account that opens positions under a position cap and an 80% margin
 * limit, closes them on their levels or on a signal, and keeps the balance,
 * the realized P&L, commissions, the peak balance, the maximum drawdown and
 * the win and loss streaks.
 */
module Executor {
  import opened Wrappers
  import opened Market
  import opened TradeStats
  import BacktestPosition

  datatype OrderType = Buy | Sell
  datatype OrderStatus = Pending | Open | Closed | Cancelled
  datatype ExitReason = TakeProfitHit | StopLossHit | Manual | SignalExit

  /** +1 for a buy, -1 for a sell. */
  function Direction(t: OrderType): (d: int)
    ensures d == 1 || d == -1
  {
    if t == Buy then 1 else -1
  }

  /** Pips gained from entry to exit: 100 per yen moved in the position's favour. */
  function PnlPips(t: OrderType, entry: real, exit: real): real {
    match t
    case Buy => (exit - entry) * 100.0
    case Sell => (entry - exit) * 100.0
  }

  /** Yen for a pip result: one lot earns 1,000 yen per pip. */
  function PnlAmount(pips: real, lotSize: real): real {
    pips * lotSize * 1000.0
  }

  /** A buy gains when the price rises and a sell when it falls; the two are mirror images. */
  lemma PnlPipsSign(t: OrderType, entry: real, exit: real)
    ensures PnlPips(t, entry, exit) > 0.0 <==> (if t == Buy then exit > entry else exit < entry)
    ensures PnlPips(Buy, entry, exit) == -PnlPips(Sell, entry, exit)
  {
  }

  /**
   * The executor and the backtest engines' position agree on pips, but the
   * executor values a pip at 1,000 yen per lot where the engines' position
   * values it at 10 yen per lot: the same trade books 100 times the yen.
   */
  lemma PnlIsHundredfoldOfBacktest(t: OrderType, entry: real, exit: real, lotSize: real)
    ensures PnlPips(t, entry, exit) == BacktestPosition.ProfitPips(entry, exit, Direction(t))
    ensures PnlAmount(PnlPips(t, entry, exit), lotSize)
         == 100.0 * BacktestPosition.ProfitJpy(BacktestPosition.ProfitPips(entry, exit, Direction(t)), lotSize)
  {
    if t == Buy {
      assert Direction(t) as real == 1.0;
    } else {
      assert Direction(t) as real == -1.0;
    }
    var pips := PnlPips(t, entry, exit);
    assert BacktestPosition.PipValue(lotSize) == 10.0 * lotSize;
    assert 100.0 * (pips * (10.0 * lotSize)) == pips * lotSize * 1000.0;
  }

  /** Margin a position of `lotSize` lots needs at `price`: 100,000 units per lot. */
  function RequiredMargin(lotSize: real, price: real, marginRate: real): real {
    lotSize * 100000.0 * price * marginRate
  }

  /**
   * Entry, stop-loss and take-profit prices of a new order: the spread is
   * paid on entry, and the stop and target lie the given pip distances
   * from the entry.
   */
  function OrderLevels(signal: int, price: real, spreadPips: real, stopLossPips: real, takeProfitPips: real)
    : (levels: (real, real, real))
    ensures signal == 1 ==> levels.0 == price + spreadPips / 100.0
    ensures signal != 1 ==> levels.0 == price - spreadPips / 100.0
    ensures stopLossPips > 0.0 && takeProfitPips > 0.0 ==>
      if signal == 1 then levels.1 < levels.0 < levels.2 else levels.2 < levels.0 < levels.1
    ensures PnlPips(if signal == 1 then Buy else Sell, levels.0, levels.1) == -stopLossPips
    ensures PnlPips(if signal == 1 then Buy else Sell, levels.0, levels.2) == takeProfitPips
  {
    if signal == 1 then
      var entry := price + spreadPips / 100.0;
      (entry, entry - stopLossPips / 100.0, entry + takeProfitPips / 100.0)
    else
      var entry := price - spreadPips / 100.0;
      (entry, entry + stopLossPips / 100.0, entry - takeProfitPips / 100.0)
  }

  /** One row of `trade_history`. */
  datatype TradeRecord = TradeRecord(
    positionId: int,
    strategy: string,
    orderType: string,
    entryTime: Timestamp,
    entryPrice: real,
    exitTime: Option<Timestamp>,
    exitPrice: Option<real>,
    lotSize: real,
    pnlPips: real,
    pnlAmount: real,
    exitReason: Option<ExitReason>)

  class Position {
    const positionId: int
    const symbol: string
    const orderType: OrderType
    const entryPrice: real
    const lotSize: real
    const entryTime: Timestamp
    const stopLoss: real
    const takeProfit: real
    const strategy: string

    var status: OrderStatus
    var exitPrice: Option<real>
    var exitTime: Option<Timestamp>
    var exitReason: Option<ExitReason>
    var pnlPips: real
    var pnlAmount: real
    var commission: real
    var swap: real

    /** Still open. */
    ghost predicate IsOpen()
      reads this`status
    {
      status == Open
    }

    /** Closed, with its exit data and the result of the move from entry to exit. */
    ghost predicate IsClosed()
      reads this`status, this`exitPrice, this`exitTime, this`exitReason, this`pnlPips, this`pnlAmount
    {
      && status == Closed && exitPrice.Some? && exitTime.Some? && exitReason.Some?
      && pnlPips == PnlPips(orderType, entryPrice, exitPrice.value)
      && pnlAmount == PnlAmount(pnlPips, lotSize)
    }

    constructor (positionId: int, symbol: string, orderType: OrderType, entryPrice: real, lotSize: real,
                 entryTime: Timestamp, stopLoss: real, takeProfit: real, strategy: string)
      ensures IsOpen() && exitPrice == None && exitTime == None && exitReason == None && pnlPips == 0.0 && pnlAmount == 0.0
      ensures this.positionId == positionId && this.symbol == symbol && this.orderType == orderType
      ensures this.entryPrice == entryPrice && this.lotSize == lotSize && this.entryTime == entryTime
      ensures this.stopLoss == stopLoss && this.takeProfit == takeProfit && this.strategy == strategy
      ensures commission == 0.0 && swap == 0.0
    {
      this.positionId := positionId;
      this.symbol := symbol;
      this.orderType := orderType;
      this.entryPrice := entryPrice;
      this.lotSize := lotSize;
      this.entryTime := entryTime;
      this.stopLoss := stopLoss;
      this.takeProfit := takeProfit;
      this.strategy := strategy;
      status := Open;
      exitPrice := None;
      exitTime := None;
      exitReason := None;
      pnlPips := 0.0;
      pnlAmount := 0.0;
      commission := 0.0;
      swap := 0.0;
    }

    /** `close`: records the exit and realizes exactly the unrealized P&L at the exit price. */
    method Close(exitPrice: real, exitTime: Timestamp, reason: ExitReason)
      modifies this`status, this`exitPrice, this`exitTime, this`exitReason, this`pnlPips, this`pnlAmount
      ensures IsClosed()
      ensures this.exitPrice == Some(exitPrice) && this.exitTime == Some(exitTime) && exitReason == Some(reason)
      ensures pnlAmount == GetUnrealizedPnl(exitPrice)
    {
      this.exitPrice := Some(exitPrice);
      this.exitTime := Some(exitTime);
      exitReason := Some(reason);
      status := Closed;
      if orderType == Buy {
        pnlPips := (exitPrice - entryPrice) * 100.0;
      } else {
        pnlPips := (entryPrice - exitPrice) * 100.0;
      }
      pnlAmount := pnlPips * lotSize * 1000.0;
    }

    /** `is_tp_hit`: the price is at or beyond the target, so closing there gains at least the target's pips. */
    function IsTpHit(price: real): (hit: bool)
      ensures hit <==> PnlPips(orderType, entryPrice, price) >= PnlPips(orderType, entryPrice, takeProfit)
    {
      if orderType == Buy then price >= takeProfit else price <= takeProfit
    }

    /** `is_sl_hit`: the price is at or beyond the stop, so closing there gains at most the stop's pips. */
    function IsSlHit(price: real): (hit: bool)
      ensures hit <==> PnlPips(orderType, entryPrice, price) <= PnlPips(orderType, entryPrice, stopLoss)
    {
      if orderType == Buy then price <= stopLoss else price >= stopLoss
    }

    /** `get_unrealized_pnl`: what closing at `price` would realize; for a positive lot, a gain exactly when the pips are positive. */
    function GetUnrealizedPnl(price: real): (pnl: real)
      ensures pnl == PnlAmount(PnlPips(orderType, entryPrice, price), lotSize)
      ensures lotSize > 0.0 ==> (pnl > 0.0 <==> PnlPips(orderType, entryPrice, price) > 0.0)
    {
      var pips := if orderType == Buy then (price - entryPrice) * 100.0 else (entryPrice - price) * 100.0;
      assert lotSize > 0.0 ==> (pips > 0.0 ==> pips * lotSize > 0.0) && (pips <= 0.0 ==> pips * lotSize <= 0.0);
      pips * lotSize * 1000.0
    }
  }

  /** The `trade_history` row of a closed position. */
  function RecordOf(p: Position): (r: TradeRecord)
    reads p
    ensures r.positionId == p.positionId && r.pnlAmount == p.pnlAmount && r.exitReason == p.exitReason
    ensures r.orderType == "BUY" <==> p.orderType == Buy
  {
    TradeRecord(p.positionId, p.strategy, if p.orderType == Buy then "BUY" else "SELL",
                p.entryTime, p.entryPrice, p.exitTime, p.exitPrice, p.lotSize, p.pnlPips, p.pnlAmount, p.exitReason)
  }

  /** The `trade_history` row `p` gets when it is closed at `price` and `time` for `reason`. */
  function ExitRecord(p: Position, price: real, time: Timestamp, reason: ExitReason): (r: TradeRecord)
    ensures r.pnlAmount == p.GetUnrealizedPnl(price)
  {
    var pips := PnlPips(p.orderType, p.entryPrice, price);
    TradeRecord(p.positionId, p.strategy, if p.orderType == Buy then "BUY" else "SELL",
                p.entryTime, p.entryPrice, Some(time), Some(price), p.lotSize, pips, PnlAmount(pips, p.lotSize), Some(reason))
  }

  /** The margin arithmetic behind `CalculateMaxPositions`: the truncated count fits, one more does not. */
  lemma CountWithinRoom(budget: real, margin: real, ratio: real, count: int)
    requires margin > 0.0 && ratio == budget / margin && count == TruncateTowardZero(ratio)
    ensures budget >= 0.0 ==> count as real * margin <= budget < (count + 1) as real * margin
  {
    if budget >= 0.0 {
      DivNonNegative(ratio, budget, margin);
      DivCancel(ratio, budget, margin);
      BracketScaled(count as real, ratio, (count + 1) as real, margin);
      assert budget < (count + 1) as real * margin;
      assert count as real * margin <= budget;
    }
  }

  /** Margin the positions of `s` use at `price`. */
  function UsedMargin(s: seq<Position>, price: real, marginRate: real): real {
    if s == [] then 0.0 else UsedMargin(s[..|s| - 1], price, marginRate) + RequiredMargin(s[|s| - 1].lotSize, price, marginRate)
  }

  lemma UsedMarginAppend(s: seq<Position>, p: Position, price: real, marginRate: real)
    ensures UsedMargin(s + [p], price, marginRate) == UsedMargin(s, price, marginRate) + RequiredMargin(p.lotSize, price, marginRate)
  {
    assert (s + [p])[..|s + [p]| - 1] == s;
  }

  /** Unrealized P&L of the positions of `s` at `price`. */
  function UnrealizedTotal(s: seq<Position>, price: real): real {
    if s == [] then 0.0 else UnrealizedTotal(s[..|s| - 1], price) + s[|s| - 1].GetUnrealizedPnl(price)
  }

  /** A trade of the history counts as a win when it made money. */
  predicate IsWin(r: TradeRecord) {
    r.pnlAmount > 0.0
  }

  /** The number of winning trades in a history. */
  function WinCount(h: seq<TradeRecord>): (n: nat)
    ensures n <= |h|
  {
    if h == [] then 0 else WinCount(h[..|h| - 1]) + (if IsWin(h[|h| - 1]) then 1 else 0)
  }

  /** The length of the run of wins (`win`) or non-wins (`!win`) that ends the history. */
  function TrailingRun(h: seq<TradeRecord>, win: bool): nat {
    if h == [] || IsWin(h[|h| - 1]) != win then 0 else TrailingRun(h[..|h| - 1], win) + 1
  }

  /** The longest run of wins (`win`) or non-wins (`!win`) anywhere in the history. */
  function LongestRun(h: seq<TradeRecord>, win: bool): nat {
    if h == [] then 0
    else
      var before := LongestRun(h[..|h| - 1], win);
      if TrailingRun(h, win) > before then TrailingRun(h, win) else before
  }

  /** At most one of the two current streaks is running. */
  lemma StreaksExclusive(h: seq<TradeRecord>)
    ensures TrailingRun(h, true) == 0 || TrailingRun(h, false) == 0
  {
  }

  /** The current streak never exceeds the longest, and no run is longer than the history. */
  lemma {:induction false} RunsBounded(h: seq<TradeRecord>, win: bool)
    ensures TrailingRun(h, win) <= LongestRun(h, win) <= |h|
  {
    if h != [] {
      RunsBounded(h[..|h| - 1], win);
    }
  }

  /** The win and loss counters of the executor, with the current and the longest streaks. */
  datatype Tallies = Tallies(
    wins: nat,
    losses: nat,
    consecutiveWins: nat,
    consecutiveLosses: nat,
    maxConsecutiveWins: nat,
    maxConsecutiveLosses: nat)

  /**
   * The counters after one more closed trade: a win extends the winning
   * streak and ends the losing one, anything else the reverse, and each
   * longest streak keeps the larger of itself and the current one.
   */
  function TallyStep(t: Tallies, r: TradeRecord): Tallies {
    if IsWin(r) then
      var run := t.consecutiveWins + 1;
      t.(wins := t.wins + 1, consecutiveWins := run, consecutiveLosses := 0,
         maxConsecutiveWins := if t.maxConsecutiveWins >= run then t.maxConsecutiveWins else run)
    else
      var run := t.consecutiveLosses + 1;
      t.(losses := t.losses + 1, consecutiveLosses := run, consecutiveWins := 0,
         maxConsecutiveLosses := if t.maxConsecutiveLosses >= run then t.maxConsecutiveLosses else run)
  }

  /** The counters after the trades of a history, from all zero. */
  function TalliesOf(h: seq<TradeRecord>): Tallies {
    if h == [] then Tallies(0, 0, 0, 0, 0, 0) else TallyStep(TalliesOf(h[..|h| - 1]), h[|h| - 1])
  }

  /**
   * The counters kept step by step are the ones the history determines:
   * the number of wins, the rest as losses, the runs ending the history
   * and the longest runs in it.
   */
  lemma {:induction false} TalliesMatchRuns(h: seq<TradeRecord>)
    ensures TalliesOf(h) == Tallies(WinCount(h), |h| - WinCount(h), TrailingRun(h, true), TrailingRun(h, false),
                                    LongestRun(h, true), LongestRun(h, false))
  {
    if h != [] {
      TalliesMatchRuns(h[..|h| - 1]);
    }
  }

  /** The peak after a balance update never falls and is at least the new balance. */
  function PeakAfter(peak: real, balance: real): (r: real)
    ensures r >= peak && r >= balance
  {
    if balance > peak then balance else peak
  }

  /** The maximum drawdown after a balance update, measured from the updated peak. */
  function DrawdownAfter(maxDrawdown: real, peak: real, balance: real): real
    requires peak > 0.0
  {
    var drawdown := (peak - balance) / peak;
    if drawdown > maxDrawdown then drawdown else maxDrawdown
  }

  /**
   * The drawdown update is monotone and non-negative, and stays within
   * [0, 1] as long as the balance is not negative.
   */
  lemma DrawdownBounds(maxDrawdown: real, peak: real, balance: real)
    requires peak > 0.0 && maxDrawdown >= 0.0
    ensures DrawdownAfter(maxDrawdown, PeakAfter(peak, balance), balance) >= maxDrawdown
    ensures balance >= 0.0 && maxDrawdown <= 1.0 ==> DrawdownAfter(maxDrawdown, PeakAfter(peak, balance), balance) <= 1.0
  {
    var p := PeakAfter(peak, balance);
    if balance >= 0.0 {
      DivMono(p - balance, p, p);
      SelfOver(p);
    }
  }

  /**
   * The peak balance after closes with results `pnls`, in order, starting
   * at `peak` with the balance at `balance`: each close raises the peak to
   * the balance it leaves, if higher.
   */
  function PeakFold(peak: real, balance: real, pnls: seq<real>): (r: real)
    ensures r >= peak
    ensures pnls != [] ==> r >= balance + Sum(pnls)
  {
    if pnls == [] then peak else PeakAfter(PeakFold(peak, balance, pnls[..|pnls| - 1]), balance + Sum(pnls))
  }

  /**
   * The largest drawdown after the same closes: each close measures the
   * drop of the balance it leaves below the peak at that moment.
   */
  function DrawdownFold(maxDrawdown: real, peak: real, balance: real, pnls: seq<real>): (r: real)
    requires peak > 0.0
    ensures r >= maxDrawdown
  {
    if pnls == [] then maxDrawdown
    else DrawdownAfter(DrawdownFold(maxDrawdown, peak, balance, pnls[..|pnls| - 1]), PeakFold(peak, balance, pnls), balance + Sum(pnls))
  }

  /** One more close extends the balance, peak and drawdown folds by one step. */
  lemma FoldStep(maxDrawdown: real, peak: real, balance: real, pnls: seq<real>, x: real, extended: seq<real>, newBalance: real)
    requires peak > 0.0 && extended == pnls + [x] && newBalance == balance + Sum(pnls) + x
    ensures Sum(extended) == Sum(pnls) + x
    ensures PeakFold(peak, balance, extended) == PeakAfter(PeakFold(peak, balance, pnls), newBalance)
    ensures DrawdownFold(maxDrawdown, peak, balance, extended)
         == DrawdownAfter(DrawdownFold(maxDrawdown, peak, balance, pnls), PeakAfter(PeakFold(peak, balance, pnls), newBalance), newBalance)
  {
    assert extended[..|pnls|] == pnls;
  }

  /** No close of `pnls`, in order, leaves the balance that starts at `balance` negative. */
  ghost predicate NeverNegative(balance: real, pnls: seq<real>) {
    forall k | 0 < k <= |pnls| :: balance + Sum(pnls[..k]) >= 0.0
  }

  /**
   * The drawdown never exceeds the whole peak as long as no close leaves a
   * negative balance.
   */
  lemma {:induction false} DrawdownFoldBounded(maxDrawdown: real, peak: real, balance: real, pnls: seq<real>)
    requires peak > 0.0 && 0.0 <= maxDrawdown <= 1.0 && NeverNegative(balance, pnls)
    ensures DrawdownFold(maxDrawdown, peak, balance, pnls) <= 1.0
  {
    if pnls != [] {
      var init := pnls[..|pnls| - 1];
      forall k | 0 < k <= |init| ensures balance + Sum(init[..k]) >= 0.0 {
        assert init[..k] == pnls[..k];
      }
      DrawdownFoldBounded(maxDrawdown, peak, balance, init);
      assert pnls[..|pnls|] == pnls;
      DrawdownBounds(DrawdownFold(maxDrawdown, peak, balance, init), PeakFold(peak, balance, init), balance + Sum(pnls));
    }
  }

  /** The `trade_history` rows of the positions of `s`, in order. */
  function HistoryOf(s: seq<Position>): (rs: seq<TradeRecord>)
    reads s
    ensures |rs| == |s| && forall i | 0 <= i < |s| :: rs[i] == RecordOf(s[i])
  {
    if s == [] then []
    else
      var rs := HistoryOf(s[..|s| - 1]) + [RecordOf(s[|s| - 1])];
      assert forall i | 0 <= i < |s| - 1 :: s[..|s| - 1][i] == s[i];
      rs
  }

  /** The `trade_history` rows that closing the positions of `s` at `price` and `time` produces, in order. */
  function ExitRecords(s: seq<Position>, price: real, time: Timestamp): (rs: seq<TradeRecord>)
    ensures |rs| == |s|
  {
    if s == [] then [] else ExitRecords(s[..|s| - 1], price, time) + [ExitRecord(s[|s| - 1], price, time, ReasonAt(s[|s| - 1], price))]
  }

  /** The results that closing the positions of `s` at `price` produces, in order. */
  function ExitPnls(s: seq<Position>, price: real): (pnls: seq<real>)
    ensures |pnls| == |s|
  {
    if s == [] then [] else ExitPnls(s[..|s| - 1], price) + [s[|s| - 1].GetUnrealizedPnl(price)]
  }

  /** Closing one more position adds its result to the end of the results so far. */
  lemma ExitPnlsStep(s: seq<Position>, p: Position, price: real)
    ensures ExitPnls(s + [p], price) == ExitPnls(s, price) + [p.GetUnrealizedPnl(price)]
  {
    assert (s + [p])[..|s|] == s;
  }

  /** Positions that have exited at `price` carry exactly the results their closes produced. */
  lemma {:induction false} ExitedPnls(s: seq<Position>, price: real, time: Timestamp)
    requires forall p | p in s :: ExitedAt(p, price, time)
    ensures PnlsOf(s) == ExitPnls(s, price)
  {
    if s != [] {
      var init := s[..|s| - 1];
      assert forall p | p in init :: p in s;
      ExitedPnls(init, price, time);
      assert s[|s| - 1] in s;
    }
  }

  /** Closing one more position adds its row to the end of the rows so far. */
  lemma ExitRecordsStep(h0: seq<TradeRecord>, s: seq<Position>, p: Position, price: real, time: Timestamp)
    ensures h0 + ExitRecords(s + [p], price, time) == h0 + ExitRecords(s, price, time) + [ExitRecord(p, price, time, ReasonAt(p, price))]
  {
    assert (s + [p])[..|s|] == s;
  }

  /** Positions that have exited at `price` and `time` carry exactly the rows their closes produced. */
  lemma {:induction false} ExitedHistory(s: seq<Position>, price: real, time: Timestamp)
    requires forall p | p in s :: ExitedAt(p, price, time)
    ensures HistoryOf(s) == ExitRecords(s, price, time)
  {
    if s != [] {
      var init := s[..|s| - 1];
      assert forall p | p in init :: p in s;
      ExitedHistory(init, price, time);
      assert s[|s| - 1] in s;
    }
  }

  /** The P&L of each position of `s`, in order. */
  function PnlsOf(s: seq<Position>): (pnls: seq<real>)
    reads s
    ensures |pnls| == |s| && forall i | 0 <= i < |s| :: pnls[i] == s[i].pnlAmount
  {
    if s == [] then []
    else
      var pnls := PnlsOf(s[..|s| - 1]) + [s[|s| - 1].pnlAmount];
      assert forall i | 0 <= i < |s| - 1 :: s[..|s| - 1][i] == s[i];
      pnls
  }

  /** The gains of a list of results, in order. */
  function Gains(xs: seq<real>): (g: seq<real>)
    ensures forall i | 0 <= i < |g| :: g[i] > 0.0
    ensures Sum(g) >= 0.0
  {
    if xs == [] then []
    else
      var g := Gains(xs[..|xs| - 1]);
      if xs[|xs| - 1] > 0.0 then g + [xs[|xs| - 1]] else g
  }

  /** The losses of a list of results, in order. */
  function Losses(xs: seq<real>): (l: seq<real>)
    ensures forall i | 0 <= i < |l| :: l[i] < 0.0
    ensures Sum(l) <= 0.0 && (l != [] ==> Sum(l) < 0.0)
  {
    if xs == [] then []
    else
      var l := Losses(xs[..|xs| - 1]);
      if xs[|xs| - 1] < 0.0 then l + [xs[|xs| - 1]] else l
  }

  /** The mean of a list, 0 for the empty list; it has the sign of the sum. */
  function Mean(xs: seq<real>): (m: real)
    ensures xs != [] ==> m * |xs| as real == Sum(xs)
    ensures Sum(xs) >= 0.0 ==> m >= 0.0
    ensures Sum(xs) <= 0.0 ==> m <= 0.0
  {
    if xs == [] then 0.0
    else
      DivMono(0.0, if Sum(xs) >= 0.0 then Sum(xs) else 0.0, |xs| as real);
      DivMono(if Sum(xs) <= 0.0 then Sum(xs) else 0.0, 0.0, |xs| as real);
      Sum(xs) / |xs| as real
  }

  /** The executor's gross loss: the size of the summed losses, or 1 when no trade lost. */
  function GrossLossOf(pnls: seq<real>): (g: real)
    ensures g > 0.0
    ensures Losses(pnls) != [] ==> g == -Sum(Losses(pnls))
  {
    if Losses(pnls) != [] then -Sum(Losses(pnls)) else 1.0
  }

  /**
   * The executor's profit factor: it scales the gross loss to the gross
   * win.
   */
  function ProfitFactorOf(grossWin: real, grossLoss: real): (pf: real)
    requires grossLoss > 0.0
    ensures grossWin >= 0.0 ==> pf >= 0.0
    ensures pf * grossLoss == grossWin
  {
    DivMono(0.0, if grossWin >= 0.0 then grossWin else 0.0, grossLoss);
    DivMul(grossWin, grossLoss);
    grossWin / grossLoss
  }

  lemma DivMul(a: real, b: real)
    requires b != 0.0
    ensures a / b * b == a
  {
  }

  /** The return on the initial balance, as a percentage. */
  function ReturnPercent(initialBalance: real, finalBalance: real): (r: real)
    requires initialBalance > 0.0
    ensures r * initialBalance == (finalBalance - initialBalance) * 100.0
    ensures r >= 0.0 <==> finalBalance >= initialBalance
  {
    DivMono(0.0, if finalBalance >= initialBalance then finalBalance - initialBalance else 0.0, initialBalance);
    DivMono(if finalBalance >= initialBalance then 0.0 else finalBalance - initialBalance, 0.0, initialBalance);
    (finalBalance - initialBalance) / initialBalance * 100.0
  }

  /** What `get_statistics` returns. */
  datatype ExecStatistics = ExecStatistics(
    initialBalance: real,
    finalBalance: real,
    totalPnl: real,
    totalReturn: real,
    totalTrades: nat,
    winningTrades: nat,
    losingTrades: nat,
    winRate: real,
    avgWin: real,
    avgLoss: real,
    profitFactor: real,
    maxDrawdown: real,
    maxConsecutiveWins: nat,
    maxConsecutiveLosses: nat,
    totalCommission: real,
    peakBalance: real)

  /**
   * The largest lot `calculate_max_lot_size` allows AS WRITTEN: the room
   * left under 80% of the initial balance, in lots, rounded to the nearest
   * hundredth; `None` where the source divides by a zero one-lot margin.
   */
  function MaxLotAsWritten(initialBalance: real, usedMargin: real, price: real, marginRate: real): (r: Option<real>)
    ensures r.Some? ==> r.value >= 0.0
  {
    var available := initialBalance * 0.80 - usedMargin;
    if available <= 0.0 then Some(0.0)
    else
      var oneLotMargin := 100000.0 * price * marginRate;
      if oneLotMargin == 0.0 then None
      else Some(Max(0.0, Round2(available / oneLotMargin)))
  }

  /**
   * Rounding to the nearest hundredth can round the lot up past the room
   * left: with an initial balance of 200,000, no open position, price 100
   * and margin rate 1, the room is 160,000 (0.016 lots) and the function
   * returns 0.02 lots, whose margin of 200,000 exceeds the 80% limit.
   */
  lemma MaxLotAsWrittenExceedsLimit()
    ensures MaxLotAsWritten(200000.0, 0.0, 100.0, 1.0) == Some(0.02)
    ensures RequiredMargin(0.02, 100.0, 1.0) > 200000.0 * 0.80
  {
    assert 160000.0 / 10000000.0 == 0.016;
    assert (0.016 * 100.0 + 0.5).Floor == 2;
  }

  /** Truncation to the 0.01-lot grid, the minimum lot step. */
  function Floor2(x: real): (r: real)
    ensures r <= x < r + 0.01
    ensures x >= 0.0 ==> r >= 0.0
  {
    (x * 100.0).Floor as real / 100.0
  }

  /**
   * `calculate_max_lot_size` with the lot truncated to the 0.01 grid: the
   * lot never needs more margin than the room left under 80% of the
   * initial balance, and one more 0.01 lot would.
   */
  function MaxLot(initialBalance: real, usedMargin: real, price: real, marginRate: real): (r: Option<real>)
    ensures r.Some? ==> r.value >= 0.0
    ensures r.None? <==> initialBalance * 0.80 - usedMargin > 0.0 && price * marginRate == 0.0
    ensures r.Some? && r.value > 0.0 && price * marginRate > 0.0 ==>
      usedMargin + RequiredMargin(r.value, price, marginRate) <= initialBalance * 0.80
    ensures r.Some? && price * marginRate > 0.0 && initialBalance * 0.80 - usedMargin > 0.0 ==>
      usedMargin + RequiredMargin(r.value + 0.01, price, marginRate) > initialBalance * 0.80
  {
    var available := initialBalance * 0.80 - usedMargin;
    if available <= 0.0 then Some(0.0)
    else
      var oneLotMargin := 100000.0 * price * marginRate;
      if oneLotMargin == 0.0 then None
      else
        var lots := available / oneLotMargin;
        var r := Max(0.0, Floor2(lots));
        LotWithinRoom(available, oneLotMargin, r, lots);
        Some(r)
  }

  /** The margin arithmetic behind `MaxLot`. */
  lemma LotWithinRoom(available: real, oneLotMargin: real, r: real, lots: real)
    requires oneLotMargin != 0.0 && available > 0.0 && lots == available / oneLotMargin
    requires r == Max(0.0, Floor2(lots))
    ensures oneLotMargin > 0.0 && r > 0.0 ==> r * oneLotMargin <= available
    ensures oneLotMargin > 0.0 ==> (r + 0.01) * oneLotMargin > available
  {
    if oneLotMargin > 0.0 {
      DivNonNegative(lots, available, oneLotMargin);
      DivCancel(lots, available, oneLotMargin);
      assert r == Floor2(lots) && r <= lots < r + 0.01;
      BracketScaled(r, lots, r + 0.01, oneLotMargin);
      assert (r + 0.01) * oneLotMargin > available;
      assert r * oneLotMargin <= available;
    }
  }

  /** The position of `s` with identifier `id`, if any. */
  function FindId(s: seq<Position>, id: int): (r: Option<nat>)
    ensures r.Some? ==> r.value < |s| && s[r.value].positionId == id
    ensures r.None? <==> forall p | p in s :: p.positionId != id
  {
    if s == [] then None
    else if s[|s| - 1].positionId == id then Some(|s| - 1)
    else
      var r := FindId(s[..|s| - 1], id);
      assert forall p | p in s :: p in s[..|s| - 1] || p == s[|s| - 1];
      r
  }

  /** Whether the exit check closes `p` at `price`: its target or its stop is hit. */
  function Hit(p: Position, price: real): bool {
    p.IsTpHit(price) || p.IsSlHit(price)
  }

  /** The exit check's decision for each position of `s`. */
  function HitFlags(s: seq<Position>, price: real): (flags: seq<bool>)
    ensures |flags| == |s| && forall i | 0 <= i < |s| :: flags[i] == Hit(s[i], price)
  {
    seq(|s|, i requires 0 <= i < |s| => Hit(s[i], price))
  }

  /** The exit reason the exit check records: the target is checked before the stop. */
  function ReasonAt(p: Position, price: real): (r: ExitReason)
    ensures r == TakeProfitHit <==> p.IsTpHit(price)
    ensures r == TakeProfitHit || r == StopLossHit
  {
    if p.IsTpHit(price) then TakeProfitHit else StopLossHit
  }

  /** `p` was closed by the exit check at `price` and `time`. */
  ghost predicate ExitedAt(p: Position, price: real, time: Timestamp)
    reads p`status, p`exitPrice, p`exitTime, p`exitReason, p`pnlPips, p`pnlAmount
  {
    p.IsClosed() && p.exitPrice == Some(price) && p.exitTime == Some(time) && p.exitReason == Some(ReasonAt(p, price))
  }

  /**
   * The first `i` positions of `s` have been through the exit check at
   * `price` and `time` (closed if hit, open otherwise); the rest are open.
   */
  ghost predicate Swept(s: seq<Position>, price: real, time: Timestamp, i: nat)
    reads s`status, s`exitPrice, s`exitTime, s`exitReason, s`pnlPips, s`pnlAmount
  {
    && i <= |s|
    && (forall j | 0 <= j < i :: if Hit(s[j], price) then ExitedAt(s[j], price, time) else s[j].IsOpen())
    && (forall j | i <= j < |s| :: s[j].IsOpen())
  }

  /** The sum of an extended list is the sum of the original plus the sum of the extension. */
  lemma SumExtension(xs: seq<real>, ys: seq<real>)
    requires xs <= ys
    ensures Sum(ys) == Sum(xs) + Sum(ys[|xs|..])
  {
    SumAppend(xs, ys[|xs|..]);
    assert ys == xs + ys[|xs|..];
  }

  /** After a full sweep, every position selected as hit has exited at the sweep's price and time. */
  lemma SweptExits(s: seq<Position>, price: real, time: Timestamp)
    requires Swept(s, price, time, |s|)
    ensures forall p | p in Select(s, HitFlags(s, price), true) :: ExitedAt(p, price, time)
  {
    var flags := HitFlags(s, price);
    SelectMembers(s, flags, true);
    forall p | p in Select(s, flags, true)
      ensures ExitedAt(p, price, time)
    {
      var j :| 0 <= j < |s| && s[j] == p && flags[j];
    }
  }

  class TradeExecutor {
    const initialBalance: real
    const spreadPips: real
    const commissionPerLot: real
    const maxPositions: int
    const marginRate: real

    var balance: real
    /** The open positions, in the order they were opened (the id-keyed dictionary's order). */
    var positions: seq<Position>
    var closedPositions: seq<Position>
    var nextPositionId: int
    var totalTrades: nat
    var winningTrades: nat
    var losingTrades: nat
    var totalPnl: real
    var totalCommission: real
    var peakBalance: real
    var maxDrawdown: real
    var consecutiveWins: nat
    var consecutiveLosses: nat
    var maxConsecutiveWins: nat
    var maxConsecutiveLosses: nat
    var balanceHistory: seq<real>
    var equityHistory: seq<real>
    var tradeHistory: seq<TradeRecord>
    /** The realized P&L of each closed position, in the order of `closedPositions`. */
    ghost var realized: seq<real>

    /**
     * Money conservation: the balance is the initial balance plus the
     * total realized P&L minus the commissions, and the total P&L is the
     * sum of the closed positions' results.
     */
    ghost predicate MoneyValid()
      reads this`balance, this`totalPnl, this`totalCommission, this`realized, this`closedPositions
      reads closedPositions`status, closedPositions`pnlAmount
    {
      Conserved() && PnlIsRealized() && ClosedBook()
    }

    /** The balance is the initial balance plus the total P&L minus the commissions. */
    ghost predicate Conserved()
      reads this`balance, this`totalPnl, this`totalCommission
    {
      balance == initialBalance + totalPnl - totalCommission
    }

    /** The total P&L is the sum of the realized results. */
    ghost predicate PnlIsRealized()
      reads this`totalPnl, this`realized
    {
      totalPnl == Sum(realized)
    }

    /** Each closed position has the closed status, and its result is the matching entry of `realized`. */
    ghost predicate ClosedBook()
      reads this`realized, this`closedPositions
      reads closedPositions`status, closedPositions`pnlAmount
    {
      && |realized| == |closedPositions|
      && (forall i | 0 <= i < |closedPositions| :: closedPositions[i].status == Closed && closedPositions[i].pnlAmount == realized[i])
    }

    /** The open positions carry distinct identifiers, all below the next one. */
    ghost predicate IdsValid()
      reads this`positions, this`nextPositionId
    {
      && (forall p | p in positions :: p.positionId < nextPositionId)
      && (forall p, q | p in positions && q in positions && p != q :: p.positionId != q.positionId)
    }

    /** The position book: open positions are distinct, open, and respect the cap. */
    ghost predicate BookValid()
      reads this`positions, positions`status
    {
      && Distinct(positions)
      && (forall p | p in positions :: p.IsOpen())
      && (positions == [] || |positions| <= maxPositions)
    }

    /**
     * The exit-check statistics: the win and loss counts and the current
     * and longest streaks are the counters of the trade history.
     */
    ghost predicate StatsValid()
      reads this`tradeHistory, this`winningTrades, this`losingTrades,
            this`consecutiveWins, this`consecutiveLosses, this`maxConsecutiveWins, this`maxConsecutiveLosses
    {
      Tallies(winningTrades, losingTrades, consecutiveWins, consecutiveLosses, maxConsecutiveWins, maxConsecutiveLosses)
        == TalliesOf(tradeHistory)
    }

    /** The peak balance is at least the (positive) initial balance and the drawdown is non-negative. */
    ghost predicate PeakValid()
      reads this`peakBalance, this`maxDrawdown
    {
      initialBalance > 0.0 && peakBalance >= initialBalance && maxDrawdown >= 0.0
    }

    /**
     * The account invariant; besides the parts above, every position ever
     * opened is either open or closed.
     */
    ghost predicate Valid()
      reads this, positions`status
      reads closedPositions`status, closedPositions`pnlAmount
    {
      && MoneyValid() && IdsValid() && BookValid() && StatsValid() && PeakValid()
      && |tradeHistory| <= |closedPositions|
      && totalTrades == |positions| + |closedPositions|
    }

    /** The win count never exceeds the positions ever opened, so the win rate is a percentage. */
    lemma WinRateBounds()
      requires Valid()
      ensures winningTrades <= totalTrades
      ensures 0.0 <= WinRate(winningTrades, totalTrades) <= 100.0
    {
      TalliesMatchRuns(tradeHistory);
      WinRateIsPercentage(winningTrades, totalTrades);
    }

    constructor (initialBalance: real, spreadPips: real, commissionPerLot: real, maxPositions: int, marginRate: real)
      requires initialBalance > 0.0
      ensures Valid()
      ensures this.initialBalance == initialBalance && this.spreadPips == spreadPips
      ensures this.commissionPerLot == commissionPerLot && this.maxPositions == maxPositions && this.marginRate == marginRate
      ensures balance == initialBalance && positions == [] && closedPositions == [] && nextPositionId == 1
      ensures peakBalance == initialBalance && maxDrawdown == 0.0
      ensures balanceHistory == [initialBalance] && equityHistory == [initialBalance] && tradeHistory == []
    {
      this.initialBalance := initialBalance;
      this.spreadPips := spreadPips;
      this.commissionPerLot := commissionPerLot;
      this.maxPositions := maxPositions;
      this.marginRate := marginRate;
      balance := initialBalance;
      positions := [];
      closedPositions := [];
      nextPositionId := 1;
      totalTrades := 0;
      winningTrades := 0;
      losingTrades := 0;
      totalPnl := 0.0;
      totalCommission := 0.0;
      peakBalance := initialBalance;
      maxDrawdown := 0.0;
      consecutiveWins := 0;
      consecutiveLosses := 0;
      maxConsecutiveWins := 0;
      maxConsecutiveLosses := 0;
      balanceHistory := [initialBalance];
      equityHistory := [initialBalance];
      tradeHistory := [];
      realized := [];
    }

    /**
     * `can_open_position`: a new position of `lotSize` lots fits exactly
     * when the cap is not reached, the total margin stays within 80% of the
     * initial balance, and the free balance covers the new margin.
     */
    function CanOpenPosition(lotSize: real, price: real): (ok: bool)
      reads this`positions, this`balance
      ensures ok ==> |positions| < maxPositions
      ensures ok <==> (
        && |positions| < maxPositions
        && UsedMargin(positions, price, marginRate) + RequiredMargin(lotSize, price, marginRate) <= initialBalance * 0.80
        && balance - UsedMargin(positions, price, marginRate) >= RequiredMargin(lotSize, price, marginRate))
    {
      if |positions| >= maxPositions then false
      else
        var required := RequiredMargin(lotSize, price, marginRate);
        var used := UsedMargin(positions, price, marginRate);
        if used + required > initialBalance * 0.80 then false
        else balance - used >= required
    }

    /** `calculate_max_lot_size`, with the lot truncated to the 0.01 grid (see `MaxLot`). */
    function CalculateMaxLotSize(price: real): (r: Option<real>)
      reads this`positions
      ensures r.Some? ==> r.value >= 0.0
      ensures r.Some? && r.value > 0.0 && price * marginRate > 0.0 ==>
        UsedMargin(positions, price, marginRate) + RequiredMargin(r.value, price, marginRate) <= initialBalance * 0.80
    {
      MaxLot(initialBalance, UsedMargin(positions, price, marginRate), price, marginRate)
    }

    /**
     * `calculate_max_positions`: never more than the cap; for a positive
     * margin, as many positions as fit in 80% of the initial balance.
     */
    function CalculateMaxPositions(lotSize: real, price: real): (n: int)
      ensures n <= maxPositions || (n == 0 && RequiredMargin(lotSize, price, marginRate) <= 0.0)
      ensures RequiredMargin(lotSize, price, marginRate) <= 0.0 ==> n == 0
      ensures RequiredMargin(lotSize, price, marginRate) > 0.0 && initialBalance >= 0.0 && n >= 0 ==>
        n as real * RequiredMargin(lotSize, price, marginRate) <= initialBalance * 0.80
      ensures RequiredMargin(lotSize, price, marginRate) > 0.0 && initialBalance >= 0.0 && n < maxPositions ==>
        (n + 1) as real * RequiredMargin(lotSize, price, marginRate) > initialBalance * 0.80
    {
      var marginPerPosition := RequiredMargin(lotSize, price, marginRate);
      if marginPerPosition <= 0.0 then 0
      else
        var ratio := initialBalance * 0.80 / marginPerPosition;
        var theoretical := TruncateTowardZero(ratio);
        CountWithinRoom(initialBalance * 0.80, marginPerPosition, ratio, theoretical);
        if theoretical <= maxPositions then theoretical else maxPositions
    }

    /**
     * `open_position`: nothing happens on a zero signal or when the
     * position does not fit; otherwise a position with the next
     * identifier is opened at the spread-adjusted price, its commission is
     * charged, and the margin in use stays within 80% of the initial
     * balance.
     */
    method OpenPosition(signal: int, price: real, lotSize: real, stopLossPips: real, takeProfitPips: real,
                        timestamp: Timestamp, strategy: string) returns (r: Option<Position>)
      requires Valid()
      modifies this`balance, this`positions, this`nextPositionId, this`totalTrades, this`totalCommission
      ensures Valid()
      ensures r.None? <==> signal == 0 || !old(CanOpenPosition(lotSize, price))
      ensures r.None? ==> balance == old(balance) && positions == old(positions) && nextPositionId == old(nextPositionId)
      ensures r.Some? ==> var p := r.value;
        && fresh(p) && p.IsOpen()
        && positions == old(positions) + [p]
        && p.positionId == old(nextPositionId) && nextPositionId == old(nextPositionId) + 1
        && totalTrades == old(totalTrades) + 1
        && p.orderType == (if signal == 1 then Buy else Sell) && p.lotSize == lotSize
        && p.symbol == "USDJPY" && p.entryTime == timestamp && p.strategy == strategy
        && p.exitPrice.None? && p.exitTime.None? && p.exitReason.None? && p.pnlPips == 0.0 && p.pnlAmount == 0.0
        && (p.entryPrice, p.stopLoss, p.takeProfit) == OrderLevels(signal, price, spreadPips, stopLossPips, takeProfitPips)
        && p.commission == commissionPerLot * lotSize
        && balance == old(balance) - p.commission
        && totalCommission == old(totalCommission) + p.commission
        && UsedMargin(positions, price, marginRate) <= initialBalance * 0.80
    {
      if signal == 0 || !CanOpenPosition(lotSize, price) {
        return None;
      }
      var levels := OrderLevels(signal, price, spreadPips, stopLossPips, takeProfitPips);
      var orderType := if signal == 1 then Buy else Sell;
      var p := new Position(nextPositionId, "USDJPY", orderType, levels.0, lotSize, timestamp, levels.1, levels.2, strategy);
      p.commission := commissionPerLot * lotSize;
      UsedMarginAppend(positions, p, price, marginRate);
      Admit(p);
      r := Some(p);
    }

    /**
     * Books a new open position under the next identifier and charges its
     * commission: the balance falls by it and the commission total grows by it.
     */
    method Admit(p: Position)
      requires Valid() && p.IsOpen() && p !in positions
      requires p.positionId == nextPositionId && |positions| < maxPositions
      modifies this`positions, this`nextPositionId, this`totalTrades, this`balance, this`totalCommission
      ensures Valid()
      ensures positions == old(positions) + [p] && nextPositionId == old(nextPositionId) + 1
      ensures totalTrades == old(totalTrades) + 1
      ensures balance == old(balance) - p.commission && totalCommission == old(totalCommission) + p.commission
    {
      DistinctSnoc(positions, p);
      positions, nextPositionId, totalTrades := positions + [p], nextPositionId + 1, totalTrades + 1;
      balance, totalCommission := balance - p.commission, totalCommission + p.commission;
    }

    /**
     * Replaces the open positions by `remaining`, a list free of repetition
     * of open positions taken from them, once every other position has
     * been closed and settled.
     */
    method KeepOpen(remaining: seq<Position>)
      requires IdsValid() && (positions == [] || |positions| <= maxPositions)
      requires Distinct(remaining) && |remaining| <= |positions|
      requires forall p | p in remaining :: p in positions && p.IsOpen()
      requires MoneyValid() && StatsValid() && PeakValid() && |tradeHistory| <= |closedPositions|
      requires totalTrades == |remaining| + |closedPositions|
      modifies this`positions
      ensures Valid()
      ensures positions == remaining
    {
      positions := remaining;
    }

    /**
     * The bookkeeping of one close in `check_positions`: the balance and
     * total P&L grow by the position's result, the win and loss counts and
     * streaks follow the trade history, the peak never falls and the
     * maximum drawdown never shrinks (and stays at most 1 while the
     * balance is not negative).
     */
    method Settle(p: Position, price: real, time: Timestamp, reason: ExitReason)
      requires p.IsOpen() && p !in closedPositions
      requires MoneyValid() && StatsValid() && PeakValid() && |tradeHistory| <= |closedPositions|
      modifies p`status, p`exitPrice, p`exitTime, p`exitReason, p`pnlPips, p`pnlAmount
      modifies this`balance, this`totalPnl, this`realized, this`closedPositions, this`winningTrades, this`losingTrades
      modifies this`consecutiveWins, this`consecutiveLosses, this`maxConsecutiveWins, this`maxConsecutiveLosses
      modifies this`peakBalance, this`maxDrawdown, this`tradeHistory
      ensures MoneyValid() && StatsValid() && PeakValid() && p.IsClosed()
      ensures p.exitPrice == Some(price) && p.exitTime == Some(time) && p.exitReason == Some(reason)
      ensures balance == old(balance) + p.pnlAmount
      ensures closedPositions == old(closedPositions) + [p] && realized == old(realized) + [p.pnlAmount]
      ensures tradeHistory == old(tradeHistory) + [RecordOf(p)] && RecordOf(p) == ExitRecord(p, price, time, reason)
      ensures peakBalance == PeakAfter(old(peakBalance), balance)
      ensures maxDrawdown == DrawdownAfter(old(maxDrawdown), peakBalance, balance)
      ensures peakBalance >= old(peakBalance) && peakBalance >= balance
      ensures maxDrawdown >= old(maxDrawdown)
      ensures balance >= 0.0 && old(maxDrawdown) <= 1.0 ==> maxDrawdown <= 1.0
    {
      Tally(ExitRecord(p, price, time, reason));
      UpdatePeak(balance + p.GetUnrealizedPnl(price));
      Realize(p, price, time, reason);
    }

    /**
     * The money side of a close: the position is closed, joins the closed
     * list, and its result is banked.
     */
    method Realize(p: Position, price: real, time: Timestamp, reason: ExitReason)
      requires p.IsOpen() && p !in closedPositions && MoneyValid()
      modifies p`status, p`exitPrice, p`exitTime, p`exitReason, p`pnlPips, p`pnlAmount
      modifies this`balance, this`totalPnl, this`realized, this`closedPositions
      ensures MoneyValid() && p.IsClosed()
      ensures p.exitPrice == Some(price) && p.exitTime == Some(time) && p.exitReason == Some(reason)
      ensures p.pnlAmount == p.GetUnrealizedPnl(price) && RecordOf(p) == ExitRecord(p, price, time, reason)
      ensures balance == old(balance) + p.pnlAmount
      ensures closedPositions == old(closedPositions) + [p] && realized == old(realized) + [p.pnlAmount]
    {
      p.Close(price, time, reason);
      Bank(p);
    }

    /** Banks the result of the closed position `p`, which joins the closed list. */
    method Bank(p: Position)
      requires p.IsClosed() && MoneyValid()
      modifies this`balance, this`totalPnl, this`realized, this`closedPositions
      ensures MoneyValid()
      ensures balance == old(balance) + p.pnlAmount
      ensures closedPositions == old(closedPositions) + [p] && realized == old(realized) + [p.pnlAmount]
    {
      SumAppend(realized, [p.pnlAmount]);
      assert Sum([p.pnlAmount]) == p.pnlAmount;
      balance, totalPnl := balance + p.pnlAmount, totalPnl + p.pnlAmount;
      realized, closedPositions := realized + [p.pnlAmount], closedPositions + [p];
    }

    /** The statistics side of a close: the win or loss count and the streaks take one more trade. */
    method Tally(r: TradeRecord)
      requires StatsValid()
      modifies this`winningTrades, this`losingTrades, this`consecutiveWins, this`consecutiveLosses
      modifies this`maxConsecutiveWins, this`maxConsecutiveLosses, this`tradeHistory
      ensures StatsValid()
      ensures tradeHistory == old(tradeHistory) + [r]
    {
      var h := tradeHistory + [r];
      assert h[..|h| - 1] == tradeHistory;
      if r.pnlAmount > 0.0 {
        winningTrades, consecutiveWins, consecutiveLosses := winningTrades + 1, consecutiveWins + 1, 0;
        maxConsecutiveWins := if maxConsecutiveWins >= consecutiveWins then maxConsecutiveWins else consecutiveWins;
      } else {
        losingTrades, consecutiveLosses, consecutiveWins := losingTrades + 1, consecutiveLosses + 1, 0;
        maxConsecutiveLosses := if maxConsecutiveLosses >= consecutiveLosses then maxConsecutiveLosses else consecutiveLosses;
      }
      tradeHistory := h;
    }

    /** The peak and drawdown side of a close, measured at the new balance. */
    method UpdatePeak(newBalance: real)
      requires PeakValid()
      modifies this`peakBalance, this`maxDrawdown
      ensures PeakValid()
      ensures peakBalance >= old(peakBalance) && peakBalance >= newBalance
      ensures peakBalance == PeakAfter(old(peakBalance), newBalance)
      ensures maxDrawdown == DrawdownAfter(old(maxDrawdown), peakBalance, newBalance)
      ensures maxDrawdown >= old(maxDrawdown)
      ensures newBalance >= 0.0 && old(maxDrawdown) <= 1.0 ==> maxDrawdown <= 1.0
    {
      DrawdownBounds(maxDrawdown, peakBalance, newBalance);
      peakBalance := PeakAfter(peakBalance, newBalance);
      maxDrawdown := DrawdownAfter(maxDrawdown, peakBalance, newBalance);
    }

    /**
     * The loop state of `check_positions` after `i` positions of the
     * snapshot `s`: those hit have been closed and settled, in order, the
     * others and the rest are still open.
     */
    ghost predicate Scanned(s: seq<Position>, price: real, time: Timestamp, i: nat,
                            closed: seq<Position>, remaining: seq<Position>, closed0: seq<Position>)
      reads this`balance, this`totalPnl, this`totalCommission, this`realized, this`closedPositions
      reads closedPositions`status, closedPositions`pnlAmount
      reads s`status, s`exitPrice, s`exitTime, s`exitReason, s`pnlPips, s`pnlAmount
      reads this`tradeHistory, this`winningTrades, this`losingTrades, this`consecutiveWins, this`consecutiveLosses
      reads this`maxConsecutiveWins, this`maxConsecutiveLosses, this`peakBalance, this`maxDrawdown
    {
      && i <= |s| && Distinct(s)
      && closed == Select(s[..i], HitFlags(s, price)[..i], true)
      && remaining == Select(s[..i], HitFlags(s, price)[..i], false)
      && Swept(s, price, time, i)
      && closedPositions == closed0 + closed
      && MoneyValid() && StatsValid() && PeakValid() && |tradeHistory| <= |closedPositions|
    }

    /**
     * What `check_positions` has recorded since it began with history `h0`,
     * balance `balance0`, peak `peak0` and drawdown `drawdown0`: one history
     * row per closed position, in order, and the balance, peak and drawdown
     * its closes at `price` leave one after the other.
     */
    ghost predicate Tracked(price: real, time: Timestamp, closed: seq<Position>,
                            h0: seq<TradeRecord>, balance0: real, peak0: real, drawdown0: real)
      reads this`tradeHistory, this`balance, this`peakBalance, this`maxDrawdown
    {
      && peak0 > 0.0
      && tradeHistory == h0 + ExitRecords(closed, price, time)
      && balance == balance0 + Sum(ExitPnls(closed, price))
      && peakBalance == PeakFold(peak0, balance0, ExitPnls(closed, price))
      && maxDrawdown == DrawdownFold(drawdown0, peak0, balance0, ExitPnls(closed, price))
    }

    /** One iteration of `check_positions`: the target is checked before the stop. */
    method CheckAt(s: seq<Position>, price: real, time: Timestamp, i: nat,
                   closed: seq<Position>, remaining: seq<Position>, ghost closed0: seq<Position>,
                   ghost h0: seq<TradeRecord>, ghost balance0: real, ghost peak0: real, ghost drawdown0: real)
      returns (closed': seq<Position>, remaining': seq<Position>)
      requires i < |s|
      requires Scanned(s, price, time, i, closed, remaining, closed0)
      requires Tracked(price, time, closed, h0, balance0, peak0, drawdown0)
      modifies s[i], this`balance, this`totalPnl, this`realized, this`closedPositions, this`winningTrades, this`losingTrades
      modifies this`consecutiveWins, this`consecutiveLosses, this`maxConsecutiveWins, this`maxConsecutiveLosses
      modifies this`peakBalance, this`maxDrawdown, this`tradeHistory
      ensures Scanned(s, price, time, i + 1, closed', remaining', closed0)
      ensures Tracked(price, time, closed', h0, balance0, peak0, drawdown0)
      ensures old(realized) <= realized
      ensures balance == old(balance) + (if Hit(s[i], price) then s[i].pnlAmount else 0.0)
      ensures peakBalance >= old(peakBalance) && maxDrawdown >= old(maxDrawdown)
      ensures balance >= 0.0 && old(maxDrawdown) <= 1.0 ==> maxDrawdown <= 1.0
    {
      var p := s[i];
      if Hit(p, price) {
        CloseAt(s, price, time, i, closed, remaining, closed0);
        closed', remaining' := closed + [p], remaining;
        ExitRecordsStep(h0, closed, p, price, time);
        ExitPnlsStep(closed, p, price);
        FoldStep(drawdown0, peak0, balance0, ExitPnls(closed, price), p.pnlAmount, ExitPnls(closed', price), balance);
      } else {
        KeepAt(s, price, time, i, closed, remaining, closed0);
        closed', remaining' := closed, remaining + [p];
      }
    }

    /** The iteration of `check_positions` for a position whose target and stop are not hit: it stays open. */
    lemma KeepAt(s: seq<Position>, price: real, time: Timestamp, i: nat,
                 closed: seq<Position>, remaining: seq<Position>, closed0: seq<Position>)
      requires i < |s| && !Hit(s[i], price)
      requires Scanned(s, price, time, i, closed, remaining, closed0)
      ensures Scanned(s, price, time, i + 1, closed, remaining + [s[i]], closed0)
    {
      SelectStep(s, HitFlags(s, price), i, true);
      SelectStep(s, HitFlags(s, price), i, false);
      assert HitFlags(s, price)[..i + 1] == HitFlags(s, price)[..i] + [false];
    }

    /**
     * The iteration of `check_positions` for a position whose target or
     * stop is hit: it is settled, and the history gains the row of its close.
     */
    method CloseAt(s: seq<Position>, price: real, time: Timestamp, i: nat,
                   closed: seq<Position>, remaining: seq<Position>, ghost closed0: seq<Position>)
      requires i < |s| && Hit(s[i], price)
      requires Scanned(s, price, time, i, closed, remaining, closed0)
      modifies s[i], this`balance, this`totalPnl, this`realized, this`closedPositions, this`winningTrades, this`losingTrades
      modifies this`consecutiveWins, this`consecutiveLosses, this`maxConsecutiveWins, this`maxConsecutiveLosses
      modifies this`peakBalance, this`maxDrawdown, this`tradeHistory
      ensures Scanned(s, price, time, i + 1, closed + [s[i]], remaining, closed0)
      ensures balance == old(balance) + s[i].pnlAmount && realized == old(realized) + [s[i].pnlAmount]
      ensures s[i].pnlAmount == s[i].GetUnrealizedPnl(price)
      ensures tradeHistory == old(tradeHistory) + [ExitRecord(s[i], price, time, ReasonAt(s[i], price))]
      ensures peakBalance == PeakAfter(old(peakBalance), balance)
      ensures maxDrawdown == DrawdownAfter(old(maxDrawdown), peakBalance, balance)
      ensures balance >= 0.0 && old(maxDrawdown) <= 1.0 ==> maxDrawdown <= 1.0
    {
      var p := s[i];
      SelectStep(s, HitFlags(s, price), i, true);
      SelectStep(s, HitFlags(s, price), i, false);
      assert HitFlags(s, price)[..i + 1] == HitFlags(s, price)[..i] + [true];
      assert forall k | 0 <= k < |closedPositions| :: closedPositions[k] != p;
      assert forall j | 0 <= j < |s| && j != i :: s[j] != p;
      Settle(p, price, time, ReasonAt(p, price));
    }

    /**
     * `check_positions`: every open position whose target or stop the price
     * reaches is closed at that price (target first), settled in list order
     * and moved to the closed list; the others stay open. The balance grows
     * by exactly the closed positions' results.
     */
    method CheckPositions(price: real, timestamp: Timestamp) returns (closed: seq<Position>)
      requires Valid()
      modifies positions, this`positions, this`balance, this`totalPnl, this`realized, this`closedPositions
      modifies this`winningTrades, this`losingTrades, this`consecutiveWins, this`consecutiveLosses
      modifies this`maxConsecutiveWins, this`maxConsecutiveLosses, this`peakBalance, this`maxDrawdown, this`tradeHistory
      ensures Valid()
      ensures var flags := HitFlags(old(positions), price);
        && closed == Select(old(positions), flags, true)
        && positions == Select(old(positions), flags, false)
      ensures forall p | p in closed :: ExitedAt(p, price, timestamp)
      ensures closedPositions == old(closedPositions) + closed
      ensures tradeHistory == old(tradeHistory) + HistoryOf(closed)
      ensures realized == old(realized) + PnlsOf(closed)
      ensures balance == old(balance) + Sum(PnlsOf(closed))
      ensures peakBalance == PeakFold(old(peakBalance), old(balance), PnlsOf(closed))
      ensures maxDrawdown == DrawdownFold(old(maxDrawdown), old(peakBalance), old(balance), PnlsOf(closed))
      ensures peakBalance >= old(peakBalance) && maxDrawdown >= old(maxDrawdown)
      ensures old(maxDrawdown) <= 1.0 && NeverNegative(old(balance), PnlsOf(closed)) ==> maxDrawdown <= 1.0
    {
      var s := positions;
      assert Swept(s, price, timestamp, 0);
      var remaining;
      closed, remaining := Sweep(s, price, timestamp);
      Retire(s, price, timestamp, closed, remaining, old(closedPositions));
      ExitedHistory(closed, price, timestamp);
      ExitedPnls(closed, price, timestamp);
      ClosedResults(old(realized), old(closedPositions), closed);
      if old(maxDrawdown) <= 1.0 && NeverNegative(old(balance), PnlsOf(closed)) {
        DrawdownFoldBounded(old(maxDrawdown), old(peakBalance), old(balance), PnlsOf(closed));
      }
    }

    /** The results realized since the start of a sweep are those of the positions it closed, in order. */
    lemma ClosedResults(r0: seq<real>, closed0: seq<Position>, closed: seq<Position>)
      requires ClosedBook() && closedPositions == closed0 + closed && |r0| == |closed0| && r0 <= realized
      ensures realized == r0 + PnlsOf(closed)
    {
      assert realized == r0 + realized[|r0|..];
      forall k | 0 <= k < |closed| ensures realized[|r0|..][k] == PnlsOf(closed)[k] {
        assert closedPositions[|closed0| + k] == closed[k];
      }
    }

    /**
     * The end of `check_positions`: after a sweep of the open positions
     * `s`, those hit are gone and the others stay open, in their order.
     */
    method Retire(s: seq<Position>, price: real, timestamp: Timestamp, closed: seq<Position>, remaining: seq<Position>,
                  ghost closed0: seq<Position>)
      requires Scanned(s, price, timestamp, |s|, closed, remaining, closed0)
      requires positions == s && IdsValid() && (s == [] || |s| <= maxPositions) && totalTrades == |s| + |closed0|
      modifies this`positions
      ensures Valid()
      ensures closed == Select(s, HitFlags(s, price), true) && positions == Select(s, HitFlags(s, price), false)
      ensures forall p | p in closed :: ExitedAt(p, price, timestamp)
    {
      SweepComplete(s, price, timestamp, closed, remaining, closed0);
      KeepOpen(remaining);
    }

    /**
     * The loop of `check_positions` over the snapshot `s` of the open
     * positions: afterwards each of them has been checked, in order.
     */
    method Sweep(s: seq<Position>, price: real, timestamp: Timestamp) returns (closed: seq<Position>, remaining: seq<Position>)
      requires Distinct(s) && Swept(s, price, timestamp, 0)
      requires MoneyValid() && StatsValid() && PeakValid() && |tradeHistory| <= |closedPositions|
      modifies s, this`balance, this`totalPnl, this`realized, this`closedPositions
      modifies this`winningTrades, this`losingTrades, this`consecutiveWins, this`consecutiveLosses
      modifies this`maxConsecutiveWins, this`maxConsecutiveLosses, this`peakBalance, this`maxDrawdown, this`tradeHistory
      ensures Scanned(s, price, timestamp, |s|, closed, remaining, old(closedPositions))
      ensures Tracked(price, timestamp, closed, old(tradeHistory), old(balance), old(peakBalance), old(maxDrawdown))
      ensures old(realized) <= realized
    {
      closed := [];
      remaining := [];
      var i := 0;
      while i < |s|
        invariant Scanned(s, price, timestamp, i, closed, remaining, old(closedPositions))
        invariant Tracked(price, timestamp, closed, old(tradeHistory), old(balance), old(peakBalance), old(maxDrawdown))
        invariant old(realized) <= realized
      {
        closed, remaining := CheckAt(s, price, timestamp, i, closed, remaining, old(closedPositions),
                                     old(tradeHistory), old(balance), old(peakBalance), old(maxDrawdown));
        i := i + 1;
      }
    }

    /**
     * What a completed sweep leaves: the positions hit are closed at the
     * sweep's price and time, and the others are still open and in their order.
     */
    lemma SweepComplete(s: seq<Position>, price: real, time: Timestamp, closed: seq<Position>, remaining: seq<Position>,
                        closed0: seq<Position>)
      requires Scanned(s, price, time, |s|, closed, remaining, closed0)
      ensures closed == Select(s, HitFlags(s, price), true) && remaining == Select(s, HitFlags(s, price), false)
      ensures |closed| + |remaining| == |s| && Distinct(remaining)
      ensures forall p | p in remaining :: p in s && p.IsOpen()
      ensures forall p | p in closed :: ExitedAt(p, price, time)
    {
      var flags := HitFlags(s, price);
      assert s[..|s|] == s && flags[..|s|] == flags;
      SelectCounts(s, flags);
      SelectDistinct(s, flags, false);
      SelectMembers(s, flags, false);
      SweptExits(s, price, time);
    }

    /**
     * `close_position_by_signal`: nothing happens for an unknown
     * identifier; otherwise that position is closed at the price with the
     * reason "signal", leaves the open positions, joins the closed ones, and
     * the balance grows by its result. The win and loss statistics are not
     * updated.
     */
    method ClosePositionBySignal(positionId: int, price: real, timestamp: Timestamp) returns (r: Option<Position>)
      requires Valid()
      modifies positions, this`positions, this`balance, this`totalPnl, this`realized, this`closedPositions
      ensures Valid()
      ensures totalTrades == old(totalTrades)
      ensures r.None? <==> forall p | p in old(positions) :: p.positionId != positionId
      ensures r.None? ==> positions == old(positions) && balance == old(balance)
      ensures r.Some? ==> var p := r.value;
        && p in old(positions) && p.positionId == positionId
        && p.IsClosed() && p.exitPrice == Some(price) && p.exitTime == Some(timestamp) && p.exitReason == Some(SignalExit)
        && p !in positions && |positions| == |old(positions)| - 1
        && (forall q | q in old(positions) && q != p :: q in positions)
        && closedPositions == old(closedPositions) + [p]
        && balance == old(balance) + p.pnlAmount
    {
      var found := FindId(positions, positionId);
      if found.None? {
        return None;
      }
      var p := Withdraw(found.value, price, timestamp);
      r := Some(p);
    }

    /**
     * The close of `close_position_by_signal` once the position is found at
     * index `i`: it is closed at `price` for a signal, banked, and removed
     * from the open positions, which otherwise keep their order.
     */
    method Withdraw(i: nat, price: real, timestamp: Timestamp) returns (p: Position)
      requires Valid() && i < |positions|
      modifies positions[i], this`positions, this`balance, this`totalPnl, this`realized, this`closedPositions
      ensures Valid()
      ensures p == old(positions[i])
      ensures p.IsClosed() && p.exitPrice == Some(price) && p.exitTime == Some(timestamp) && p.exitReason == Some(SignalExit)
      ensures positions == old(positions[..i] + positions[i + 1..])
      ensures closedPositions == old(closedPositions) + [p]
      ensures balance == old(balance) + p.pnlAmount
    {
      p := positions[i];
      var rest := positions[..i] + positions[i + 1..];
      WithdrawReady(i);
      Realize(p, price, timestamp, SignalExit);
      KeepOpen(rest);
    }

    /**
     * The position at `i` is open and not among the closed ones; the
     * others are open, distinct and different from it.
     */
    lemma WithdrawReady(i: nat)
      requires Valid() && i < |positions|
      ensures positions[i].IsOpen() && positions[i] !in closedPositions
      ensures var rest := positions[..i] + positions[i + 1..];
        && Distinct(rest) && |rest| == |positions| - 1
        && forall q | q in rest :: q != positions[i] && q in positions && q.IsOpen()
    {
      var p := positions[i];
      assert p in positions;
      DistinctRemove(positions, i);
      assert forall k | 0 <= k < |closedPositions| :: closedPositions[k] != p;
    }

    /**
     * `update_equity`: the equity is the balance plus what closing every
     * open position at `price` would realize; it and the balance are
     * appended to their histories.
     */
    method UpdateEquity(price: real) returns (equity: real)
      modifies this`equityHistory, this`balanceHistory
      ensures equity == balance + UnrealizedTotal(positions, price)
      ensures equityHistory == old(equityHistory) + [equity]
      ensures balanceHistory == old(balanceHistory) + [balance]
    {
      var unrealized := 0.0;
      var k := 0;
      while k < |positions|
        invariant 0 <= k <= |positions|
        invariant unrealized == UnrealizedTotal(positions[..k], price)
      {
        assert positions[..k + 1][..k] == positions[..k];
        unrealized := unrealized + positions[k].GetUnrealizedPnl(price);
        k := k + 1;
      }
      assert positions[..k] == positions;
      equity := balance + unrealized;
      equityHistory := equityHistory + [equity];
      balanceHistory := balanceHistory + [balance];
    }

    /**
     * `get_statistics`. The win rate is a percentage of the positions ever
     * opened; the average win is non-negative and the average loss not
     * positive; the profit factor is the gross win over the gross loss,
     * which counts as 1 when nothing was lost; the total return is the net
     * of P&L and commissions as a percentage of the initial balance.
     */
    function GetStatistics(): (s: ExecStatistics)
      reads this, closedPositions
      requires initialBalance > 0.0
      ensures s.finalBalance == balance && s.totalPnl == totalPnl
      ensures s.totalTrades == totalTrades && s.winningTrades == winningTrades && s.losingTrades == losingTrades
      ensures s.winRate == WinRate(winningTrades, totalTrades)
      ensures s.avgWin >= 0.0 && s.avgLoss <= 0.0 && s.profitFactor >= 0.0
      ensures s.profitFactor == ProfitFactorOf(Sum(Gains(PnlsOf(closedPositions))), GrossLossOf(PnlsOf(closedPositions)))
      ensures Conserved() ==> s.totalReturn == ReturnPercent(initialBalance, initialBalance + totalPnl - totalCommission)
      ensures s.maxDrawdown == maxDrawdown * 100.0 && s.peakBalance == peakBalance
    {
      ExecStatistics(initialBalance, balance, totalPnl, ReturnPercent(initialBalance, balance), totalTrades,
                     winningTrades, losingTrades, WinRate(winningTrades, totalTrades),
                     Mean(Gains(PnlsOf(closedPositions))), Mean(Losses(PnlsOf(closedPositions))),
                     ProfitFactorOf(Sum(Gains(PnlsOf(closedPositions))), GrossLossOf(PnlsOf(closedPositions))),
                     maxDrawdown * 100.0, maxConsecutiveWins, maxConsecutiveLosses, totalCommission, peakBalance)
    }
  }
}
