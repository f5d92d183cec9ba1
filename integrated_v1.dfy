/**
 * src/strategies/integrated_strategy_v1.py: the v2 money management with
 * a fixed reward-to-risk ratio. The ratio is clamped to [2.5, 3.0] when
 * the strategy is built, and take-profit distances follow the stop by
 * that ratio. The balance, risk-gate and lot-size code of the file is the
 * v2 code again and is reached through the v2 account object.
 */
module IntegratedV1 {
  import opened Market
  import opened ProfitTargetV2

  const MinRrRatio: real := 2.5
  const MaxRrRatio: real := 3.0
  const BaseSlPips: real := 12.0
  const SlRangeLow: real := 8.0
  const SlRangeHigh: real := 18.0
  /** Fewer bars than this leave the ATR undefined and the base levels in force. */
  const AtrPeriod: nat := 14

  /** `max(2.5, min(3.0, target_rr_ratio))`: a ratio in range is kept, others go to the nearer end. */
  function TargetRrRatio(requested: real): (r: real)
    ensures MinRrRatio <= r <= MaxRrRatio
    ensures MinRrRatio <= requested <= MaxRrRatio ==> r == requested
    ensures requested < MinRrRatio ==> r == MinRrRatio
    ensures requested > MaxRrRatio ==> r == MaxRrRatio
  {
    Clamp(MinRrRatio, MaxRrRatio, requested)
  }

  /** Clamping an already clamped ratio changes nothing. */
  lemma TargetRrRatioIdempotent(requested: real)
    ensures TargetRrRatio(TargetRrRatio(requested)) == TargetRrRatio(requested)
  {
  }

  /** The market conditions `calculate_optimized_tp_sl` tells apart; any other name counts as normal. */
  datatype MarketCondition = Volatile | Trending | Normal

  /** `max(8, min(18, atr·100))`: the ATR in pips, held inside the stop range. */
  function AtrBasedSl(currentAtr: real): (r: real)
    ensures SlRangeLow <= r <= SlRangeHigh
    ensures SlRangeLow <= currentAtr * 100.0 <= SlRangeHigh ==> r == currentAtr * 100.0
  {
    Clamp(SlRangeLow, SlRangeHigh, currentAtr * 100.0)
  }

  /** Volatile markets widen the stop by 20%, trending ones narrow it by 10%. */
  function ConditionFactor(condition: MarketCondition): real {
    match condition
    case Volatile => 1.2
    case Trending => 0.9
    case Normal => 1.0
  }

  /** The stop in pips before rounding. */
  function SlPips(currentAtr: real, condition: MarketCondition): (r: real)
    ensures 7.2 <= r <= 21.6
  {
    var sl := AtrBasedSl(currentAtr);
    ScaledBounds(sl * ConditionFactor(condition), sl, ConditionFactor(condition), SlRangeLow, SlRangeHigh);
    sl * ConditionFactor(condition)
  }

  /** A wider ATR never gives a tighter stop under the same market condition. */
  lemma SlPipsMonotone(atr1: real, atr2: real, condition: MarketCondition)
    requires atr1 <= atr2
    ensures SlPips(atr1, condition) <= SlPips(atr2, condition)
  {
    ClampMono(SlRangeLow, SlRangeHigh, atr1 * 100.0, atr2 * 100.0);
    MulMono(AtrBasedSl(atr1), AtrBasedSl(atr2), ConditionFactor(condition));
  }

  /**
   * Rounding the stop and the take-profit separately to a tenth of a pip
   * moves the take-profit at most 0.2 pips off the exact ratio to the
   * rounded stop.
   */
  lemma RoundedRatio(raw: real, rr: real)
    requires MinRrRatio <= rr <= MaxRrRatio
    ensures Round1(raw) * rr - 0.2 <= Round1(raw * rr) <= Round1(raw) * rr + 0.2
  {
    var e := Round1(raw) - raw;
    assert -0.05 <= e <= 0.05;
    ScaledBounds(e * rr, e, rr, -0.05, 0.05);
    assert Round1(raw) * rr == raw * rr + e * rr;
  }

  /** The take-profit lies within 0.2 pips of the ratio times the stop. */
  predicate NearRatio(tp: real, sl: real, rr: real) {
    sl * rr - 0.2 <= tp <= sl * rr + 0.2
  }

  /**
   * The (take-profit, stop) pair for a stop of `sl` pips at ratio `rr`,
   * each rounded to a tenth: the stop stays in its range and the
   * take-profit within 0.2 pips of the ratio times the rounded stop.
   */
  function RoundedTpSl(sl: real, rr: real): (r: (real, real))
    requires 7.2 <= sl <= 21.6 && MinRrRatio <= rr <= MaxRrRatio
    ensures r.1 == Round1(sl) && r.0 == Round1(sl * rr)
    ensures 7.15 < r.1 <= 21.65
    ensures NearRatio(r.0, r.1, rr)
  {
    RoundedRatio(sl, rr);
    (Round1(sl * rr), Round1(sl))
  }

  class IntegratedStrategyV1 {
    /** The v2 account state and its balance, risk-gate and lot-size operations. */
    const account: ProfitTargetStrategyV2
    const targetRrRatio: real
    const baseSlPips: real
    const baseTpPips: real

    /** The ratio is in range and the base take-profit is the base stop times the ratio. */
    ghost predicate Valid() {
      MinRrRatio <= targetRrRatio <= MaxRrRatio && baseSlPips == BaseSlPips && baseTpPips == baseSlPips * targetRrRatio
    }

    constructor (initialBalance: real, monthlyProfitTarget: real, maxRiskPerTrade: real,
                 maxDailyLoss: real, maxDrawdown: real, scalingPhase: Phase, targetRrRatio: real)
      ensures Valid() && fresh(account) && account.Valid()
      ensures account.initialBalance == initialBalance && account.currentBalance == initialBalance
      ensures account.peakBalance == initialBalance && account.scalingPhase == scalingPhase
      ensures account.maxRiskPerTrade == maxRiskPerTrade && account.maxDailyLoss == maxDailyLoss
      ensures account.maxDrawdown == maxDrawdown && account.monthlyProfitTarget == monthlyProfitTarget
      ensures this.targetRrRatio == TargetRrRatio(targetRrRatio)
    {
      account := new ProfitTargetStrategyV2(initialBalance, monthlyProfitTarget, maxRiskPerTrade,
                                            maxDailyLoss, maxDrawdown, scalingPhase);
      this.targetRrRatio := TargetRrRatio(targetRrRatio);
      baseSlPips := BaseSlPips;
      baseTpPips := BaseSlPips * TargetRrRatio(targetRrRatio);
    }

    /**
     * `calculate_optimized_tp_sl` over `barCount` bars whose ATR series is
     * `atr`: with fewer than 14 bars or no ATR the base (take-profit, stop)
     * pair, otherwise the ATR stop adjusted for the market condition and a
     * take-profit of the stop times the ratio, each rounded to a tenth.
     */
    function CalculateOptimizedTpSl(barCount: nat, atr: seq<real>, condition: MarketCondition): (r: (real, real))
      requires Valid()
      ensures barCount < AtrPeriod || atr == [] ==> r == (baseSlPips * targetRrRatio, baseSlPips)
      ensures barCount >= AtrPeriod && atr != [] ==> r == RoundedTpSl(SlPips(atr[|atr| - 1], condition), targetRrRatio)
    {
      if barCount < AtrPeriod || atr == [] then (baseTpPips, baseSlPips)
      else RoundedTpSl(SlPips(atr[|atr| - 1], condition), targetRrRatio)
    }

    /**
     * Whatever the data, the stop lies between 7.15 and 21.65 pips and
     * the take-profit within 0.2 pips of the ratio times the stop.
     */
    lemma TpSlFollowsRatio(barCount: nat, atr: seq<real>, condition: MarketCondition)
      requires Valid()
      ensures var r := CalculateOptimizedTpSl(barCount, atr, condition);
        7.15 < r.1 <= 21.65 && NearRatio(r.0, r.1, targetRrRatio)
    {
      var r := CalculateOptimizedTpSl(barCount, atr, condition);
      if barCount < AtrPeriod || atr == [] {
        assert r == (baseSlPips * targetRrRatio, baseSlPips);
      } else {
        var sl := SlPips(atr[|atr| - 1], condition);
        assert r == RoundedTpSl(sl, targetRrRatio);
      }
    }
  }
}
