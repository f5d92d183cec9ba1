/**
 * The money-management half of src/strategies/profit_target_strategy_v2.py:
 * the trading-hours filter, the lot-size rule with its phase multiplier
 * and 2-lot ceiling, the daily-loss and drawdown gate, and the balance
 * bookkeeping with its daily and monthly resets.
 */
module ProfitTargetV2 {
  import opened Wrappers
  import opened Market

  // ---------------------------------------------------------------------
  // Trading hours
  // ---------------------------------------------------------------------

  /** The hours the strategy trades in: Tokyo 9-11, London 16-18, New York 21-23. */
  const GoodHours: set<int> := {9, 10, 11, 16, 17, 18, 21, 22, 23}

  /** `is_good_trading_time`: three three-hour windows of the day. */
  function IsGoodTradingTime(t: Timestamp): (r: bool)
    ensures r <==> t.hour in GoodHours
  {
    (9 <= t.hour <= 11) || (16 <= t.hour <= 18) || (21 <= t.hour <= 23)
  }

  /** The window depends only on the hour: the same hour on any day gives the same answer. */
  lemma TradingTimeByHour(t: Timestamp, u: Timestamp)
    requires t.hour == u.hour
    ensures IsGoodTradingTime(t) == IsGoodTradingTime(u)
  {
  }

  /** Outside the session hours, and at midnight and in the morning before 9, there is no trading. */
  lemma NoTradingOffSession(t: Timestamp)
    requires t.hour < 9 || t.hour == 12 || 13 <= t.hour <= 15 || t.hour == 19 || t.hour == 20
    ensures !IsGoodTradingTime(t)
  {
  }

  // ---------------------------------------------------------------------
  // Lot size
  // ---------------------------------------------------------------------

  /** The keys of `base_lot_sizes`; any other strategy name falls back to the default. */
  datatype StrategyKind = CoreStrategy | AggressiveStrategy | StableStrategy | UnknownStrategy

  /** The keys of `lot_multipliers`; any other phase name falls back to the default. */
  datatype Phase = InitialPhase | GrowthPhase | StablePhase | UnknownPhase

  /** `base_lot_sizes.get(kind, 0.5)`, in hundredths of a lot. */
  function BaseLotCents(kind: StrategyKind): int {
    match kind
    case CoreStrategy => 50
    case AggressiveStrategy => 30
    case StableStrategy => 100
    case UnknownStrategy => 50
  }

  /** `lot_multipliers.get(phase, 0.6)`, in hundredths. */
  function MultiplierCents(phase: Phase): int {
    match phase
    case InitialPhase => 60
    case GrowthPhase => 100
    case StablePhase => 170
    case UnknownPhase => 60
  }

  function BaseLot(kind: StrategyKind): real {
    BaseLotCents(kind) as real / 100.0
  }

  function PhaseMultiplier(phase: Phase): real {
    MultiplierCents(phase) as real / 100.0
  }

  const MaxLot: real := 2.0
  const PipValuePerLot: real := 1000.0

  /**
   * Every base lot times every multiplier is a whole number of hundredths
   * of a lot below 2 lots, so rounding to two places keeps it exactly.
   */
  function CapCents(kind: StrategyKind, phase: Phase): (k: int)
    ensures BaseLot(kind) * PhaseMultiplier(phase) == k as real / 100.0
    ensures 0 < k <= 170
  {
    var b := BaseLotCents(kind);
    var m := MultiplierCents(phase);
    assert b * m % 100 == 0 && 0 < b * m <= 17000;
    assert BaseLot(kind) * PhaseMultiplier(phase) == (b * m) as real / 10000.0;
    b * m / 100
  }

  lemma Round2OnGrid(k: int)
    ensures Round2(k as real / 100.0) == k as real / 100.0
  {
    var x := k as real / 100.0;
    assert x * 100.0 == k as real;
    var y := x * 100.0 + 0.5;
    assert y == k as real + 0.5;
    assert k as real <= y < (k + 1) as real;
    assert y.Floor == k;
  }

  lemma Round2NonNegative(x: real)
    requires x >= 0.0
    ensures Round2(x) >= 0.0
  {
    assert (x * 100.0 + 0.5).Floor >= 0;
  }

  /** The lot that risks `risk` of `balance` over a stop of `stopLossPips`. */
  function RiskLot(balance: real, risk: real, stopLossPips: real): real
    requires stopLossPips != 0.0
  {
    balance * risk / (stopLossPips * PipValuePerLot)
  }

  /** The risk lot capped at the base lot, scaled, capped at 2 lots and rounded to hundredths. */
  function CappedLotSize(optimal: real, base: real, multiplier: real): real {
    Round2(Min(Min(optimal, base) * multiplier, MaxLot))
  }

  /**
   * Capping at the base lot, scaling by a multiplier whose product with
   * the base is a grid point below 2, capping at 2 and rounding: the
   * result never exceeds either cap and equals the scaled base whenever
   * the risk-based lot reaches the base.
   */
  lemma CappedLot(optimal: real, base: real, multiplier: real, k: int)
    requires base >= 0.0 && multiplier >= 0.0 && base * multiplier == k as real / 100.0 && 0 < k <= 170
    ensures var r := CappedLotSize(optimal, base, multiplier);
      && r <= MaxLot && r <= base * multiplier
      && (optimal >= base ==> r == base * multiplier)
      && (optimal < base ==> r == Round2(optimal * multiplier))
      && (optimal >= 0.0 ==> r >= 0.0)
  {
    var final := Min(Min(optimal, base) * multiplier, MaxLot);
    assert CappedLotSize(optimal, base, multiplier) == Round2(final);
    MulMono(Min(optimal, base), base, multiplier);
    Round2BelowGridPoint(final, 200);
    Round2BelowGridPoint(final, k);
    if optimal >= base {
      assert final == base * multiplier;
      Round2OnGrid(k);
    } else {
      assert Min(optimal, base) == optimal;
      assert optimal * multiplier <= k as real / 100.0 <= 1.7;
      assert final == optimal * multiplier;
    }
    if optimal >= 0.0 {
      assert Min(optimal, base) * multiplier >= 0.0;
      Round2NonNegative(final);
    }
  }

  /** The risk-based lot of a non-negative balance and risk over a positive stop is non-negative. */
  lemma RiskLotNonNegative(balance: real, risk: real, stopLossPips: real)
    requires balance >= 0.0 && risk >= 0.0 && stopLossPips > 0.0
    ensures RiskLot(balance, risk, stopLossPips) >= 0.0
  {
    assert balance * risk >= 0.0;
    assert stopLossPips * PipValuePerLot > 0.0;
  }

  // ---------------------------------------------------------------------
  // Risk gate
  // ---------------------------------------------------------------------

  /**
   * `check_risk_limits` as a value: `Some(false)` when the day's P&L has
   * reached `maxDailyLoss` of the balance, or when the balance is below
   * the peak and the drawdown from the peak has reached `maxDrawdown`;
   * `None` when that drawdown would divide by a zero peak; `Some(true)`
   * otherwise.
   */
  function RiskLimitsCheck(dailyPnl: real, balance: real, peak: real, maxDailyLoss: real, maxDrawdown: real): (r: Option<bool>)
    ensures r == None <==> Abs(dailyPnl) < balance * maxDailyLoss && balance < peak == 0.0
    ensures r == Some(false) <==>
      || Abs(dailyPnl) >= balance * maxDailyLoss
      || (balance < peak && peak != 0.0 && (peak - balance) / peak >= maxDrawdown)
    ensures r == Some(true) <==>
      && Abs(dailyPnl) < balance * maxDailyLoss
      && (balance >= peak || (peak != 0.0 && (peak - balance) / peak < maxDrawdown))
  {
    if Abs(dailyPnl) >= balance * maxDailyLoss then Some(false)
    else if balance < peak then
      if peak == 0.0 then None
      else if (peak - balance) / peak >= maxDrawdown then Some(false)
      else Some(true)
    else Some(true)
  }

  /**
   * The gate never reopens on worse numbers: with a positive peak and a
   * non-negative daily-loss limit, a lower balance and a larger daily P&L
   * swing keep a refusal a refusal.
   */
  lemma RiskLimitsAntitone(d1: real, b1: real, d2: real, b2: real, peak: real, maxDailyLoss: real, maxDrawdown: real)
    requires peak > 0.0 && maxDailyLoss >= 0.0 && b2 <= b1 && Abs(d1) <= Abs(d2)
    requires RiskLimitsCheck(d1, b1, peak, maxDailyLoss, maxDrawdown) == Some(false)
    ensures RiskLimitsCheck(d2, b2, peak, maxDailyLoss, maxDrawdown) == Some(false)
  {
    MulMono(b2, b1, maxDailyLoss);
    DivMono(peak - b1, peak - b2, peak);
  }

  /** The drawdown the gate records lies in (0, 1] for a non-negative balance under a positive peak. */
  lemma RecordedDrawdownBounds(balance: real, peak: real)
    requires 0.0 <= balance < peak
    ensures 0.0 < (peak - balance) / peak <= 1.0
  {
    DivMono(0.0, peak - balance, peak);
    DivMono(peak - balance, peak, peak);
  }

  // ---------------------------------------------------------------------
  // The strategy's account state
  // ---------------------------------------------------------------------

  /** The three strategy counters, all zero. */
  function ZeroCounts(): (m: map<StrategyKind, int>)
    ensures m.Keys == {CoreStrategy, AggressiveStrategy, StableStrategy}
    ensures forall k | k in m :: m[k] == 0
  {
    map[CoreStrategy := 0, AggressiveStrategy := 0, StableStrategy := 0]
  }

  class ProfitTargetStrategyV2 {
    const initialBalance: real
    const monthlyProfitTarget: real
    const maxRiskPerTrade: real
    const maxDailyLoss: real
    const maxDrawdown: real
    const scalingPhase: Phase

    var currentBalance: real
    var dailyPnl: real
    var monthlyPnl: real
    var peakBalance: real
    var currentDrawdown: real
    var tradeCount: map<StrategyKind, int>
    var winCount: map<StrategyKind, int>

    /** The peak is the highest balance seen, starting from the initial balance. */
    ghost predicate Valid()
      reads this
    {
      peakBalance >= currentBalance && peakBalance >= initialBalance
    }

    constructor (initialBalance: real, monthlyProfitTarget: real, maxRiskPerTrade: real,
                 maxDailyLoss: real, maxDrawdown: real, scalingPhase: Phase)
      ensures Valid()
      ensures this.initialBalance == initialBalance && this.monthlyProfitTarget == monthlyProfitTarget
      ensures this.maxRiskPerTrade == maxRiskPerTrade && this.maxDailyLoss == maxDailyLoss
      ensures this.maxDrawdown == maxDrawdown && this.scalingPhase == scalingPhase
      ensures currentBalance == initialBalance && peakBalance == initialBalance
      ensures dailyPnl == 0.0 && monthlyPnl == 0.0 && currentDrawdown == 0.0
      ensures tradeCount == ZeroCounts() && winCount == ZeroCounts()
    {
      this.initialBalance := initialBalance;
      this.monthlyProfitTarget := monthlyProfitTarget;
      this.maxRiskPerTrade := maxRiskPerTrade;
      this.maxDailyLoss := maxDailyLoss;
      this.maxDrawdown := maxDrawdown;
      this.scalingPhase := scalingPhase;
      currentBalance := initialBalance;
      dailyPnl := 0.0;
      monthlyPnl := 0.0;
      peakBalance := initialBalance;
      currentDrawdown := 0.0;
      tradeCount := ZeroCounts();
      winCount := ZeroCounts();
    }

    /**
     * `calculate_optimal_lot_size`: the lot that risks `maxRiskPerTrade`
     * of the balance over the stop, capped by the strategy's base lot,
     * scaled by the phase multiplier, capped at 2 lots and rounded to
     * hundredths. A zero stop divides by zero and gives `None`.
     */
    function CalculateOptimalLotSize(kind: StrategyKind, stopLossPips: real): (r: Option<real>)
      reads this
      ensures r.Some? <==> stopLossPips != 0.0
      ensures r.Some? ==> r.value <= MaxLot && r.value <= BaseLot(kind) * PhaseMultiplier(scalingPhase)
      ensures r.Some? && RiskLot(currentBalance, maxRiskPerTrade, stopLossPips) >= BaseLot(kind)
              ==> r.value == BaseLot(kind) * PhaseMultiplier(scalingPhase)
      ensures r.Some? && RiskLot(currentBalance, maxRiskPerTrade, stopLossPips) < BaseLot(kind)
              ==> r.value == Round2(RiskLot(currentBalance, maxRiskPerTrade, stopLossPips) * PhaseMultiplier(scalingPhase))
      ensures r.Some? && stopLossPips > 0.0 && currentBalance >= 0.0 && maxRiskPerTrade >= 0.0 ==> r.value >= 0.0
    {
      if stopLossPips == 0.0 then None
      else
        var optimal := RiskLot(currentBalance, maxRiskPerTrade, stopLossPips);
        CappedLot(optimal, BaseLot(kind), PhaseMultiplier(scalingPhase), CapCents(kind, scalingPhase));
        if stopLossPips > 0.0 && currentBalance >= 0.0 && maxRiskPerTrade >= 0.0 then
          RiskLotNonNegative(currentBalance, maxRiskPerTrade, stopLossPips);
          Some(CappedLotSize(optimal, BaseLot(kind), PhaseMultiplier(scalingPhase)))
        else Some(CappedLotSize(optimal, BaseLot(kind), PhaseMultiplier(scalingPhase)))
    }

    /**
     * `check_risk_limits`: answers as `RiskLimitsCheck`; when the daily
     * check passes and the balance is below a non-zero peak it records the
     * drawdown from the peak, and it changes nothing else.
     */
    method CheckRiskLimits() returns (r: Option<bool>)
      requires Valid()
      modifies this`currentDrawdown
      ensures Valid()
      ensures r == RiskLimitsCheck(dailyPnl, currentBalance, peakBalance, maxDailyLoss, maxDrawdown)
      ensures Abs(dailyPnl) < currentBalance * maxDailyLoss && currentBalance < peakBalance && peakBalance != 0.0
              ==> currentDrawdown == (peakBalance - currentBalance) / peakBalance
      ensures !(Abs(dailyPnl) < currentBalance * maxDailyLoss && currentBalance < peakBalance && peakBalance != 0.0)
              ==> currentDrawdown == old(currentDrawdown)
    {
      if Abs(dailyPnl) >= currentBalance * maxDailyLoss {
        return Some(false);
      }
      if currentBalance < peakBalance {
        if peakBalance == 0.0 {
          return None;
        }
        currentDrawdown := (peakBalance - currentBalance) / peakBalance;
        if currentDrawdown >= maxDrawdown {
          return Some(false);
        }
      }
      return Some(true);
    }

    /**
     * `update_balance`: the balance and the day's and month's P&L all move
     * by `pnl`, and the peak follows a new high, so it stays the highest
     * balance seen.
     */
    method UpdateBalance(pnl: real)
      requires Valid()
      modifies this`currentBalance, this`dailyPnl, this`monthlyPnl, this`peakBalance
      ensures Valid()
      ensures currentBalance == old(currentBalance) + pnl
      ensures dailyPnl == old(dailyPnl) + pnl && monthlyPnl == old(monthlyPnl) + pnl
      ensures peakBalance == Max(old(peakBalance), currentBalance)
    {
      currentBalance := currentBalance + pnl;
      dailyPnl := dailyPnl + pnl;
      monthlyPnl := monthlyPnl + pnl;
      if currentBalance > peakBalance {
        peakBalance := currentBalance;
      }
    }

    /** `reset_daily_stats`: the day's P&L starts again from zero. */
    method ResetDailyStats()
      requires Valid()
      modifies this`dailyPnl
      ensures Valid() && dailyPnl == 0.0
    {
      dailyPnl := 0.0;
    }

    /** `reset_monthly_stats`: the month's P&L and every trade and win count start again from zero. */
    method ResetMonthlyStats()
      requires Valid()
      modifies this`monthlyPnl, this`tradeCount, this`winCount
      ensures Valid() && monthlyPnl == 0.0
      ensures tradeCount == ZeroCounts() && winCount == ZeroCounts()
    {
      monthlyPnl := 0.0;
      tradeCount := ZeroCounts();
      winCount := ZeroCounts();
    }
  }
}
