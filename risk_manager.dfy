/**
 * The risk rules of src/risk_management/risk_manager.py: a lot sizer driven
 * by signal quality and volatility, adaptive stop-loss / take-profit levels,
 * and a risk manager that tracks drawdown, exposure and a losing streak and
 * gates and scales new positions by them.
 */
module Risk {
  import opened Wrappers
  import opened Market

  // ---------------------------------------------------------------------
  // DynamicPositionSizer
  // ---------------------------------------------------------------------

  /** `DynamicPositionSizer`: its two settings never change after construction. */
  datatype PositionSizer = PositionSizer(baseLotSize: real, maxRiskPerTrade: real)

  /** The sizer's defaults: 0.01 lots and 2% of the balance at risk. */
  function DefaultSizer(): (z: PositionSizer)
    ensures z.baseLotSize == 0.01 && z.maxRiskPerTrade == 0.02
  {
    PositionSizer(0.01, 0.02)
  }

  /** The volatility factor: the reciprocal of a positive volatility, else 1, clamped to [0.5, 1.5]. */
  function VolatilityFactor(marketVolatility: real): (r: real)
    ensures 0.5 <= r <= 1.5
    ensures marketVolatility <= 0.0 ==> r == 1.0
    ensures marketVolatility > 0.0 && 0.5 <= 1.0 / marketVolatility <= 1.5 ==> r == 1.0 / marketVolatility
  {
    Clamp(0.5, 1.5, if marketVolatility > 0.0 then 1.0 / marketVolatility else 1.0)
  }

  /** A calmer market never gets a smaller volatility factor. */
  lemma VolatilityFactorAntitone(a: real, b: real)
    requires 0.0 < a <= b
    ensures VolatilityFactor(b) <= VolatilityFactor(a)
  {
    assert 1.0 / b <= 1.0 / a by {
      RatioBelow(1.0, b, 1.0 / a);
      assert (1.0 / a) * a == 1.0;
    }
  }

  /** The quality factor `0.5 + quality / 3` (true division). */
  function QualityFactor(signalQuality: int): (r: real)
    ensures 0 <= signalQuality <= 3 ==> 0.5 <= r <= 1.5
  {
    0.5 + signalQuality as real / 3.0
  }

  /**
   * `calculate_position_size`: the quality- and volatility-adjusted base lot,
   * capped by the lot the risk budget allows, but never below the base lot.
   * A zero stop distance divides by zero in the source: None.
   */
  function CalculatePositionSize(z: PositionSizer, accountBalance: real, signalQuality: int,
                                 marketVolatility: real, slPips: real): (r: Option<real>)
    ensures r.Some? <==> slPips != 0.0
    ensures r.Some? ==> r.value >= z.baseLotSize
    ensures r.Some? ==> var adjusted := z.baseLotSize * QualityFactor(signalQuality) * VolatilityFactor(marketVolatility);
      var riskPerPip := if slPips > 0.0 then accountBalance * z.maxRiskPerTrade / slPips else accountBalance * z.maxRiskPerTrade;
      var cap := riskPerPip / (slPips * 100.0);
      && (r.value == z.baseLotSize || r.value == adjusted || r.value == cap)
      && (r.value > z.baseLotSize ==> r.value <= adjusted && r.value <= cap)
      && (z.baseLotSize <= adjusted <= cap ==> r.value == adjusted)
      && (z.baseLotSize <= cap <= adjusted ==> r.value == cap)
  {
    if slPips == 0.0 then None
    else
      var riskAmount := accountBalance * z.maxRiskPerTrade;
      var adjusted := z.baseLotSize * QualityFactor(signalQuality) * VolatilityFactor(marketVolatility);
      var riskPerPip := if slPips > 0.0 then riskAmount / slPips else riskAmount;
      var cap := riskPerPip / (slPips * 100.0);
      Some(Max(z.baseLotSize, Min(adjusted, cap)))
  }

  // ---------------------------------------------------------------------
  // AdaptiveStopLossTakeProfit
  // ---------------------------------------------------------------------

  /** `AdaptiveStopLossTakeProfit`: base distances in pips and the ATR multiplier. */
  datatype LevelConfig = LevelConfig(baseSlPips: real, baseTpPips: real, atrMultiplier: real)

  function DefaultLevelConfig(): (c: LevelConfig)
    ensures c.baseSlPips == 10.0 && c.baseTpPips == 20.0 && c.atrMultiplier == 1.5
  {
    LevelConfig(10.0, 20.0, 1.5)
  }

  /** The market environments the factor table knows: range, up, down, high volatility. */
  predicate KnownEnvironment(env: int) {
    0 <= env <= 3
  }

  /** The (SL, TP) multipliers of an environment; an unknown one is treated as a range (0). */
  function EnvFactors(env: int): (f: (real, real))
    ensures f.0 >= 1.0 && f.1 >= 1.0
    ensures env == 0 || !KnownEnvironment(env) ==> f == (1.0, 1.0)
  {
    var e := if KnownEnvironment(env) then env else 0;
    if e == 0 then (1.0, 1.0)
    else if e == 1 || e == 2 then (1.2, 1.5)
    else (1.5, 2.0)
  }

  /** The stop distance before the ATR floor: base, environment and quality factors. */
  function StopBase(c: LevelConfig, env: int, signalQuality: int): real {
    c.baseSlPips * EnvFactors(env).0 * (1.0 - signalQuality as real * 0.1)
  }

  /** The target distance before the ATR floor: base, environment and quality factors. */
  function TargetBase(c: LevelConfig, env: int, signalQuality: int): real {
    c.baseTpPips * EnvFactors(env).1 * (1.0 + signalQuality as real * 0.1)
  }

  /** The ATR converted to pips and scaled by the multiplier. */
  function AtrBand(c: LevelConfig, atr: real): real {
    atr * 100.0 * c.atrMultiplier
  }

  /** The four numbers `calculate_levels` returns. */
  datatype Levels = Levels(slPrice: real, tpPrice: real, slPips: real, tpPips: real)

  /**
   * `calculate_levels` on a row with entry price `entryPrice` and an `atr`
   * column that may be absent (then `base_sl_pips * 0.01`). The stop is at
   * least half the ATR band, the target at least the whole band, and the
   * target is widened to 1.5 times the stop when the reward-to-risk ratio
   * falls short. A negative stop (a negative base or ATR, or a signal
   * quality above 10) flips the ratio test, so the target becomes the
   * smaller of itself and 1.5 times the stop. Signal 1 buys; any other
   * signal is treated as a sell. A zero stop distance divides by zero: None.
   */
  function CalculateLevels(c: LevelConfig, entryPrice: real, atr: Option<real>, signal: int,
                           signalQuality: int, marketEnvironment: int): (r: Option<Levels>)
    ensures r.Some? <==> Max(StopBase(c, marketEnvironment, signalQuality), AtrBand(c, atr.GetOr(c.baseSlPips * 0.01)) * 0.5) != 0.0
    ensures r.Some? ==> var band := AtrBand(c, atr.GetOr(c.baseSlPips * 0.01));
      && r.value.slPips == Max(StopBase(c, marketEnvironment, signalQuality), band * 0.5)
      && (r.value.slPips > 0.0 ==>
            r.value.tpPips == Max(Max(TargetBase(c, marketEnvironment, signalQuality), band * 1.0), 1.5 * r.value.slPips))
      && (r.value.slPips < 0.0 ==>
            r.value.tpPips == Min(Max(TargetBase(c, marketEnvironment, signalQuality), band * 1.0), 1.5 * r.value.slPips))
    ensures r.Some? && r.value.slPips > 0.0 ==> r.value.tpPips >= 1.5 * r.value.slPips
    ensures r.Some? && signal == 1 ==>
      r.value.slPrice == entryPrice - r.value.slPips * 0.01 && r.value.tpPrice == entryPrice + r.value.tpPips * 0.01
    ensures r.Some? && signal != 1 ==>
      r.value.slPrice == entryPrice + r.value.slPips * 0.01 && r.value.tpPrice == entryPrice - r.value.tpPips * 0.01
    ensures r.Some? && r.value.slPips > 0.0 && signal == 1 ==> r.value.slPrice < entryPrice < r.value.tpPrice
    ensures r.Some? && r.value.slPips > 0.0 && signal != 1 ==> r.value.tpPrice < entryPrice < r.value.slPrice
  {
    var band := AtrBand(c, atr.GetOr(c.baseSlPips * 0.01));
    var sl := Max(StopBase(c, marketEnvironment, signalQuality), band * 0.5);
    var tp0 := Max(TargetBase(c, marketEnvironment, signalQuality), band * 1.0);
    if sl == 0.0 then None
    else
      var tp := if tp0 / sl < 1.5 then sl * 1.5 else tp0;
      assert sl > 0.0 ==> (tp0 / sl < 1.5 <==> tp0 < 1.5 * sl) by {
        if sl > 0.0 {
          RatioBelow(tp0, sl, 1.5);
        }
      }
      assert sl < 0.0 ==> (tp0 / sl < 1.5 <==> tp0 > 1.5 * sl) by {
        if sl < 0.0 {
          RatioBelowNegative(tp0, sl, 1.5);
        }
      }
      if signal == 1 then Some(Levels(entryPrice - sl * 0.01, entryPrice + tp * 0.01, sl, tp))
      else Some(Levels(entryPrice + sl * 0.01, entryPrice - tp * 0.01, sl, tp))
  }

  /** For a negative divisor, a ratio is below `k` exactly when the dividend is above `k` times the divisor. */
  lemma RatioBelowNegative(x: real, d: real, k: real)
    requires d < 0.0
    ensures x / d < k <==> x > k * d
  {
    var q := x / d;
    assert q * d == x;
    if q < k {
      assert (k - q) * d < 0.0;
    } else {
      assert (q - k) * d <= 0.0;
    }
  }

  /** For a positive divisor, a ratio is below `k` exactly when the dividend is below `k` times the divisor. */
  lemma RatioBelow(x: real, d: real, k: real)
    requires d > 0.0
    ensures x / d < k <==> x < k * d
  {
    var q := x / d;
    assert q * d == x;
    if q < k {
      assert (k - q) * d > 0.0;
    } else {
      assert (q - k) * d >= 0.0;
    }
  }

  /** The levels only exist when the stop distance is non-zero; it is always positive when the ATR is. */
  lemma LevelsDefinedForPositiveAtr(c: LevelConfig, entryPrice: real, atr: real, signal: int,
                                    signalQuality: int, marketEnvironment: int)
    requires atr > 0.0 && c.atrMultiplier > 0.0
    ensures var r := CalculateLevels(c, entryPrice, Some(atr), signal, signalQuality, marketEnvironment);
      r.Some? && r.value.slPips > 0.0 && r.value.tpPips >= 1.5 * r.value.slPips
  {
    assert AtrBand(c, atr) > 0.0;
  }

  /** An environment outside the table gives the same levels as a range market. */
  lemma UnknownEnvironmentIsRange(c: LevelConfig, entryPrice: real, atr: Option<real>, signal: int,
                                  signalQuality: int, marketEnvironment: int)
    requires !KnownEnvironment(marketEnvironment)
    ensures CalculateLevels(c, entryPrice, atr, signal, signalQuality, marketEnvironment)
         == CalculateLevels(c, entryPrice, atr, signal, signalQuality, 0)
  {
    assert StopBase(c, marketEnvironment, signalQuality) == StopBase(c, 0, signalQuality);
    assert TargetBase(c, marketEnvironment, signalQuality) == TargetBase(c, 0, signalQuality);
  }

  // ---------------------------------------------------------------------
  // RiskManager
  // ---------------------------------------------------------------------

  /** Why `can_open_position` refuses, in the order it checks. */
  datatype Refusal = MaxDrawdownReached | MaxExposureReached | LossStreakReached

  /**
   * The gate of `can_open_position` over the current metrics: None allows,
   * otherwise the first limit reached, checked as drawdown, exposure, streak.
   */
  function Gate(drawdownPct: real, exposurePct: real, losses: nat,
                maxDrawdownPct: real, maxExposurePct: real, maxLosses: int): (r: Option<Refusal>)
    ensures r.None? <==> drawdownPct < maxDrawdownPct && exposurePct < maxExposurePct && losses < maxLosses
    ensures r == Some(MaxDrawdownReached) <==> drawdownPct >= maxDrawdownPct
    ensures r == Some(MaxExposureReached) <==> drawdownPct < maxDrawdownPct && exposurePct >= maxExposurePct
    ensures r == Some(LossStreakReached) <==>
      drawdownPct < maxDrawdownPct && exposurePct < maxExposurePct && losses >= maxLosses
  {
    if drawdownPct >= maxDrawdownPct then Some(MaxDrawdownReached)
    else if exposurePct >= maxExposurePct then Some(MaxExposureReached)
    else if losses >= maxLosses then Some(LossStreakReached)
    else None
  }

  /** The loss streak after the optional last result: a win resets it, a loss extends it. */
  function NextLosses(losses: nat, isWinningLast: Option<bool>): (n: nat)
    ensures isWinningLast == Some(true) ==> n == 0
    ensures isWinningLast == Some(false) ==> n == losses + 1
    ensures isWinningLast.None? ==> n == losses
  {
    match isWinningLast
    case None => losses
    case Some(win) => if win then 0 else losses + 1
  }

  /**
   * The size factor of `adjust_position_size`: a drawdown factor clamped to
   * [0.25, 1] times a streak factor clamped to [0.5, 1]. A zero drawdown or
   * streak limit divides by zero: None.
   */
  function AdjustmentFactor(drawdownPct: real, losses: nat, maxDrawdownPct: real, maxLosses: int): (r: Option<real>)
    ensures r.Some? <==> maxDrawdownPct != 0.0 && maxLosses != 0
    ensures r.Some? ==> 0.125 <= r.value <= 1.0
    ensures r.Some? ==> r.value == DrawdownFactor(drawdownPct, maxDrawdownPct) * StreakFactor(losses, maxLosses)
    ensures r.Some? && maxDrawdownPct > 0.0 && maxLosses > 0 && drawdownPct <= 0.0 && losses == 0 ==> r.value == 1.0
  {
    if maxDrawdownPct == 0.0 || maxLosses == 0 then None
    else
      var dd := DrawdownFactor(drawdownPct, maxDrawdownPct);
      var streak := StreakFactor(losses, maxLosses);
      FactorProduct(dd, streak);
      Some(dd * streak)
  }

  /** The drawdown part of the adjustment, `1 - drawdown / limit` clamped to [0.25, 1]. */
  function DrawdownFactor(drawdownPct: real, maxDrawdownPct: real): (r: real)
    requires maxDrawdownPct != 0.0
    ensures 0.25 <= r <= 1.0
    ensures maxDrawdownPct > 0.0 && drawdownPct <= 0.0 ==> r == 1.0
  {
    var x := 1.0 - drawdownPct / maxDrawdownPct;
    assert maxDrawdownPct > 0.0 && drawdownPct <= 0.0 ==> x >= 1.0 by {
      if maxDrawdownPct > 0.0 && drawdownPct <= 0.0 {
        DivMono(drawdownPct, 0.0, maxDrawdownPct);
      }
    }
    Clamp(0.25, 1.0, x)
  }

  /** The streak part of the adjustment, `1 - losses / limit * 0.5` clamped to [0.5, 1]. */
  function StreakFactor(losses: nat, maxLosses: int): (r: real)
    requires maxLosses != 0
    ensures 0.5 <= r <= 1.0
    ensures losses == 0 ==> r == 1.0
  {
    Clamp(0.5, 1.0, 1.0 - losses as real / maxLosses as real * 0.5)
  }

  lemma FactorProduct(x: real, y: real)
    requires 0.25 <= x <= 1.0 && 0.5 <= y <= 1.0
    ensures 0.125 <= x * y <= 1.0
  {
    MulMono(0.25, x, y);
    MulMono(x, 1.0, y);
    var p := x * y;
    assert 0.125 <= 0.25 * y <= p;
    assert p <= y;
  }

  /** A deeper drawdown never gives a larger drawdown factor. */
  lemma DrawdownFactorAntitone(d1: real, d2: real, maxDrawdownPct: real)
    requires d1 <= d2 && maxDrawdownPct > 0.0
    ensures DrawdownFactor(d2, maxDrawdownPct) <= DrawdownFactor(d1, maxDrawdownPct)
  {
    DivMono(d1, d2, maxDrawdownPct);
    ClampMono(0.25, 1.0, 1.0 - d2 / maxDrawdownPct, 1.0 - d1 / maxDrawdownPct);
  }

  /** Two values obtained by scaling ordered numbers by the same non-negative factor stay ordered. */
  lemma ScaledOrder(p: real, q: real, x: real, y: real, s: real)
    requires x <= y && s >= 0.0 && p == x * s && q == y * s
    ensures p <= q
  {
    MulMono(x, y, s);
  }

  /** A deeper drawdown never allows a larger size factor. */
  lemma AdjustmentFactorAntitone(d1: real, d2: real, losses: nat, maxDrawdownPct: real, maxLosses: int)
    requires d1 <= d2 && maxDrawdownPct > 0.0 && maxLosses != 0
    ensures AdjustmentFactor(d2, losses, maxDrawdownPct, maxLosses).value
         <= AdjustmentFactor(d1, losses, maxDrawdownPct, maxLosses).value
  {
    DrawdownFactorAntitone(d1, d2, maxDrawdownPct);
    var s := StreakFactor(losses, maxLosses);
    var a1 := AdjustmentFactor(d1, losses, maxDrawdownPct, maxLosses).value;
    var a2 := AdjustmentFactor(d2, losses, maxDrawdownPct, maxLosses).value;
    ScaledOrder(a2, a1, DrawdownFactor(d2, maxDrawdownPct), DrawdownFactor(d1, maxDrawdownPct), s);
  }

  /**
   * `RiskManager`: the limits are set once; the peak balance, drawdown and
   * exposure percentages and the losing streak change as it is used.
   */
  class RiskManager {
    const maxDrawdownPct: real
    const maxExposurePct: real
    const maxConsecutiveLosses: int

    var peakBalance: real
    var currentDrawdownPct: real
    var currentExposurePct: real
    var consecutiveLosses: nat

    /** The peak starts at 0 and only rises, and the drawdown is measured from it. */
    ghost predicate Valid()
      reads this
    {
      peakBalance >= 0.0 && currentDrawdownPct >= 0.0
    }

    constructor (maxDrawdownPct: real, maxExposurePct: real, maxConsecutiveLosses: int)
      ensures Valid()
      ensures this.maxDrawdownPct == maxDrawdownPct && this.maxExposurePct == maxExposurePct
      ensures this.maxConsecutiveLosses == maxConsecutiveLosses
      ensures peakBalance == 0.0 && currentDrawdownPct == 0.0 && currentExposurePct == 0.0 && consecutiveLosses == 0
    {
      this.maxDrawdownPct := maxDrawdownPct;
      this.maxExposurePct := maxExposurePct;
      this.maxConsecutiveLosses := maxConsecutiveLosses;
      peakBalance := 0.0;
      currentDrawdownPct := 0.0;
      currentExposurePct := 0.0;
      consecutiveLosses := 0;
    }

    /**
     * `update_metrics`: the peak rises to a higher balance; the drawdown
     * from a positive peak and the exposure of a positive balance are
     * recomputed, otherwise kept.
     */
    method UpdateMetrics(currentBalance: real, openPositionsValue: real)
      requires Valid()
      modifies this`peakBalance, this`currentDrawdownPct, this`currentExposurePct
      ensures Valid()
      ensures peakBalance == Max(old(peakBalance), currentBalance)
      ensures peakBalance > 0.0 ==> currentDrawdownPct == (peakBalance - currentBalance) / peakBalance * 100.0
      ensures peakBalance <= 0.0 ==> currentDrawdownPct == old(currentDrawdownPct)
      ensures currentBalance > 0.0 ==> currentExposurePct == openPositionsValue / currentBalance * 100.0
      ensures currentBalance <= 0.0 ==> currentExposurePct == old(currentExposurePct)
      ensures peakBalance > 0.0 && currentBalance >= 0.0 ==> currentDrawdownPct <= 100.0
    {
      if currentBalance > peakBalance {
        peakBalance := currentBalance;
      }
      if peakBalance > 0.0 {
        DrawdownBounds(peakBalance, currentBalance);
        currentDrawdownPct := (peakBalance - currentBalance) / peakBalance * 100.0;
      }
      if currentBalance > 0.0 {
        currentExposurePct := openPositionsValue / currentBalance * 100.0;
      }
    }

    /**
     * `can_open_position`: first folds the optional last result into the
     * losing streak, then answers by `Gate` on the updated metrics.
     */
    method CanOpenPosition(isWinningLast: Option<bool>) returns (r: Option<Refusal>)
      requires Valid()
      modifies this`consecutiveLosses
      ensures Valid()
      ensures consecutiveLosses == NextLosses(old(consecutiveLosses), isWinningLast)
      ensures r == Gate(currentDrawdownPct, currentExposurePct, consecutiveLosses,
                        maxDrawdownPct, maxExposurePct, maxConsecutiveLosses)
    {
      if isWinningLast.Some? {
        if isWinningLast.value {
          consecutiveLosses := 0;
        } else {
          consecutiveLosses := consecutiveLosses + 1;
        }
      }
      if currentDrawdownPct >= maxDrawdownPct {
        return Some(MaxDrawdownReached);
      }
      if currentExposurePct >= maxExposurePct {
        return Some(MaxExposureReached);
      }
      if consecutiveLosses >= maxConsecutiveLosses {
        return Some(LossStreakReached);
      }
      return None;
    }

    /** `adjust_position_size`: the size scaled by the current adjustment factor. */
    function AdjustPositionSize(basePositionSize: real): (r: Option<real>)
      reads this
      ensures r.Some? <==> maxDrawdownPct != 0.0 && maxConsecutiveLosses != 0
      ensures r.Some? && basePositionSize >= 0.0 ==> 0.125 * basePositionSize <= r.value <= basePositionSize
    {
      match AdjustmentFactor(currentDrawdownPct, consecutiveLosses, maxDrawdownPct, maxConsecutiveLosses)
      case None => None
      case Some(f) =>
        assert basePositionSize >= 0.0 ==> 0.125 * basePositionSize <= basePositionSize * f <= basePositionSize;
        Some(basePositionSize * f)
    }
  }

  /** A drawdown from a peak at or above a non-negative balance is a percentage in [0, 100]. */
  lemma DrawdownBounds(peak: real, balance: real)
    requires peak > 0.0 && balance <= peak
    ensures (peak - balance) / peak * 100.0 >= 0.0
    ensures balance >= 0.0 ==> (peak - balance) / peak * 100.0 <= 100.0
  {
    assert (peak - balance) / peak * peak == peak - balance;
  }
}
