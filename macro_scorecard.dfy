/**
 * The currency scorecard of src/data/macro_economic_data_processor.py:
 * each macro indicator is scored on a -5..+5 scale, a country's score is
 * the regime-weighted sum of its indicator scores, and a pair of countries
 * is compared indicator by indicator and by score.
 */
module MacroScorecard {
  import opened Wrappers
  import opened Market

  /**
   * The indicator names the processor knows; any other name is kept as
   * `Other`. Each known constructor stands for the snake-case name of the
   * source (`GdpGrowth` for "gdp_growth", and so on).
   */
  datatype Indicator =
    | GdpGrowth | InterestRate | InflationRate | UnemploymentRate | TradeBalance
    | IndustrialProduction | RetailSales | ConsumerConfidence
    | Other(name: string)

  /** The snake-case names of the known indicators, as the source spells them. */
  const KnownNames: seq<string> := ["gdp_growth", "interest_rate", "inflation_rate", "unemployment_rate",
                                    "trade_balance", "industrial_production", "retail_sales", "consumer_confidence"]

  /** An indicator as it can arise from data: `Other` never carries a known name. */
  predicate ValidIndicator(i: Indicator) {
    i.Other? ==> i.name !in KnownNames
  }

  /** The source's name of an indicator. */
  function NameOf(i: Indicator): string {
    match i
    case GdpGrowth => "gdp_growth"
    case InterestRate => "interest_rate"
    case InflationRate => "inflation_rate"
    case UnemploymentRate => "unemployment_rate"
    case TradeBalance => "trade_balance"
    case IndustrialProduction => "industrial_production"
    case RetailSales => "retail_sales"
    case ConsumerConfidence => "consumer_confidence"
    case Other(name) => name
  }

  /** The indicator a name in the data stands for. */
  function FromName(name: string): (i: Indicator)
    ensures ValidIndicator(i)
  {
    if name == "gdp_growth" then GdpGrowth
    else if name == "interest_rate" then InterestRate
    else if name == "inflation_rate" then InflationRate
    else if name == "unemployment_rate" then UnemploymentRate
    else if name == "trade_balance" then TradeBalance
    else if name == "industrial_production" then IndustrialProduction
    else if name == "retail_sales" then RetailSales
    else if name == "consumer_confidence" then ConsumerConfidence
    else Other(name)
  }

  /** Reading a name and writing it back gives the same name. */
  lemma NameRoundTrip(name: string)
    ensures NameOf(FromName(name)) == name
  {
  }

  /** A valid indicator written as its name and read back is the same indicator. */
  lemma IndicatorRoundTrip(i: Indicator)
    requires ValidIndicator(i)
    ensures FromName(NameOf(i)) == i
  {
  }

  /**
   * The loaded indicator data: for each indicator, its "values" entry if it
   * has one, mapping a country code to the indicator's value there.
   */
  type MacroData = map<Indicator, Option<map<string, real>>>

  // ---------------------------------------------------------------------
  // Scoring one indicator
  // ---------------------------------------------------------------------

  /** Inflation: a step function of the distance from the 2% target. */
  function InflationScore(value: real): (r: real)
    ensures -5.0 <= r <= 5.0
    ensures Abs(value - 2.0) <= 0.5 <==> r == 5.0
    ensures Abs(value - 2.0) > 4.0 <==> r == -5.0
  {
    var deviation := Abs(value - 2.0);
    if deviation <= 0.5 then 5.0
    else if deviation <= 1.0 then 3.0
    else if deviation <= 2.0 then 0.0
    else if deviation <= 4.0 then -3.0
    else -5.0
  }

  /** Moving further from the inflation target never raises the score. */
  lemma InflationScoreMonotone(v1: real, v2: real)
    requires Abs(v1 - 2.0) <= Abs(v2 - 2.0)
    ensures InflationScore(v2) <= InflationScore(v1)
  {
  }

  /** Unemployment: a step function falling as the rate rises. */
  function UnemploymentScore(value: real): (r: real)
    ensures -5.0 <= r <= 5.0
    ensures value <= 3.0 <==> r == 5.0
  {
    if value <= 3.0 then 5.0
    else if value <= 5.0 then 3.0
    else if value <= 7.0 then 0.0
    else if value <= 10.0 then -3.0
    else -5.0
  }

  /** Trade balance (percent of GDP): a step function rising with the surplus. */
  function TradeBalanceScore(value: real): (r: real)
    ensures -5.0 <= r <= 5.0
    ensures value >= 3.0 <==> r == 5.0
  {
    if value >= 3.0 then 5.0
    else if value >= 1.0 then 3.0
    else if value >= -1.0 then 0.0
    else if value >= -3.0 then -3.0
    else -5.0
  }

  /** A higher unemployment rate never scores better, a larger trade surplus never worse. */
  lemma StepScoresMonotone(v1: real, v2: real)
    requires v1 <= v2
    ensures UnemploymentScore(v2) <= UnemploymentScore(v1)
    ensures TradeBalanceScore(v1) <= TradeBalanceScore(v2)
  {
  }

  /** The indicators `_score_indicator` knows how to score. */
  predicate Scored(indicator: Indicator) {
    indicator in {GdpGrowth, InterestRate, InflationRate, UnemploymentRate, TradeBalance}
  }

  /**
   * `_score_indicator`: a score in [-5, 5]; GDP growth and the interest
   * rate are scaled (by 2.5 and 1) and clamped, the others are step
   * functions; an indicator without a rule scores 0. The country plays no part.
   */
  function ScoreIndicator(indicator: Indicator, value: real): (r: real)
    ensures -5.0 <= r <= 5.0
    ensures !Scored(indicator) ==> r == 0.0
    ensures indicator == GdpGrowth && -2.0 <= value <= 2.0 ==> r == value * 2.5
    ensures indicator == InterestRate && -5.0 <= value <= 5.0 ==> r == value
  {
    match indicator
    case GdpGrowth => Clamp(-5.0, 5.0, value * 2.5)
    case InterestRate => Clamp(-5.0, 5.0, value * 1.0)
    case InflationRate => InflationScore(value)
    case UnemploymentRate => UnemploymentScore(value)
    case TradeBalance => TradeBalanceScore(value)
    case _ => 0.0
  }

  // ---------------------------------------------------------------------
  // Weight tables
  // ---------------------------------------------------------------------

  /** A weight table, in the order of the source's dictionaries. */
  type Weights = seq<(Indicator, real)>

  function WeightSum(w: Weights): real {
    if w == [] then 0.0 else WeightSum(w[..|w| - 1]) + w[|w| - 1].1
  }

  predicate NonNegative(w: Weights) {
    forall k | 0 <= k < |w| :: w[k].1 >= 0.0
  }

  /**
   * The weights of a market regime: "trend" favours growth and rates,
   * "range" inflation and employment, anything else is the normal table.
   * Every table is non-negative and sums to 1.
   */
  function WeightTable(regime: string): (w: Weights)
    ensures NonNegative(w) && |w| == 5
    ensures WeightSum(w) == 1.0
    ensures forall k | 0 <= k < |w| :: Scored(w[k].0)
  {
    var w :=
      if regime == "trend" then
        [(GdpGrowth, 0.35), (InterestRate, 0.30), (InflationRate, 0.15),
         (UnemploymentRate, 0.10), (TradeBalance, 0.10)]
      else if regime == "range" then
        [(GdpGrowth, 0.25), (InterestRate, 0.20), (InflationRate, 0.25),
         (UnemploymentRate, 0.20), (TradeBalance, 0.10)]
      else
        [(GdpGrowth, 0.30), (InterestRate, 0.25), (InflationRate, 0.20),
         (UnemploymentRate, 0.15), (TradeBalance, 0.10)];
    WeightSumOfFive(w);
    w
  }

  /** A five-entry table weighs the sum of its five weights. */
  lemma WeightSumOfFive(w: Weights)
    requires |w| == 5
    ensures WeightSum(w) == w[0].1 + w[1].1 + w[2].1 + w[3].1 + w[4].1
  {
    assert WeightSum(w) == WeightSum(w[..4]) + w[4].1;
    assert w[..4][..3] == w[..3];
    assert WeightSum(w[..4]) == WeightSum(w[..3]) + w[3].1;
    assert w[..3][..2] == w[..2];
    assert WeightSum(w[..3]) == WeightSum(w[..2]) + w[2].1;
    assert w[..2][..1] == w[..1];
    assert WeightSum(w[..2]) == WeightSum(w[..1]) + w[1].1;
    assert w[..1][..0] == [];
    assert WeightSum(w[..1]) == w[0].1;
  }

  // ---------------------------------------------------------------------
  // Currency scores
  // ---------------------------------------------------------------------

  /** What one (indicator, weight) entry adds to a country's score: nothing without data. */
  function Contribution(data: MacroData, entry: (Indicator, real), country: string): (r: real)
    ensures entry.1 >= 0.0 ==> -5.0 * entry.1 <= r <= 5.0 * entry.1
  {
    if entry.0 in data && data[entry.0].Some? && country in data[entry.0].value then
      var s := ScoreIndicator(entry.0, data[entry.0].value[country]);
      if entry.1 >= 0.0 then
        ScaledBounds(s * entry.1, s, entry.1, -5.0, 5.0);
        s * entry.1
      else s * entry.1
    else 0.0
  }

  /** With a value present, the contribution is that value's score times the weight. */
  lemma ContributionOfValue(data: MacroData, entry: (Indicator, real), country: string, score: real)
    requires entry.0 in data && data[entry.0].Some?
    requires country in data[entry.0].value ==> score == ScoreIndicator(entry.0, data[entry.0].value[country])
    ensures country in data[entry.0].value ==> Contribution(data, entry, country) == score * entry.1
    ensures country !in data[entry.0].value ==> Contribution(data, entry, country) == 0.0
  {
  }

  /** A country's weighted score over a table: the sum of its contributions. */
  function WeightedScore(data: MacroData, w: Weights, country: string): real {
    if w == [] then 0.0 else WeightedScore(data, w[..|w| - 1], country) + Contribution(data, w[|w| - 1], country)
  }

  /** What one table entry adds to `country` in the inner loop over `countries`: once per occurrence. */
  function RowSum(data: MacroData, entry: (Indicator, real), countries: seq<string>, country: string): real {
    if countries == [] then 0.0
    else
      var last := if countries[|countries| - 1] == country then Contribution(data, entry, country) else 0.0;
      RowSum(data, entry, countries[..|countries| - 1], country) + last
  }

  /** The accumulated score of `country` after the loops over the table `w` and `countries`. */
  function Accumulated(data: MacroData, w: Weights, countries: seq<string>, country: string): real {
    if w == [] then 0.0 else Accumulated(data, w[..|w| - 1], countries, country) + RowSum(data, w[|w| - 1], countries, country)
  }

  /** The inner loop's sum grows by one listed country at a time. */
  lemma RowSumStep(data: MacroData, entry: (Indicator, real), countries: seq<string>, j: nat, c: string)
    requires j < |countries|
    ensures RowSum(data, entry, countries[..j + 1], c)
         == RowSum(data, entry, countries[..j], c) + (if countries[j] == c then Contribution(data, entry, c) else 0.0)
  {
    assert countries[..j + 1][..j] == countries[..j];
  }

  /** A country listed once receives each contribution exactly once. */
  lemma {:induction false} RowSumOnce(data: MacroData, entry: (Indicator, real), countries: seq<string>, country: string)
    requires Distinct(countries)
    ensures RowSum(data, entry, countries, country)
         == if country in countries then Contribution(data, entry, country) else 0.0
  {
    if countries != [] {
      var init := countries[..|countries| - 1];
      assert Distinct(init);
      RowSumOnce(data, entry, init, country);
      assert countries == init + [countries[|countries| - 1]];
      assert country in countries <==> country in init || country == countries[|countries| - 1];
    }
  }

  /** For a list of distinct countries, the accumulated score is the weighted score. */
  lemma {:induction false} AccumulatedIsWeighted(data: MacroData, w: Weights, countries: seq<string>, country: string)
    requires Distinct(countries) && country in countries
    ensures Accumulated(data, w, countries, country) == WeightedScore(data, w, country)
  {
    if w != [] {
      AccumulatedIsWeighted(data, w[..|w| - 1], countries, country);
      RowSumOnce(data, w[|w| - 1], countries, country);
    }
  }

  /** A country with no value for any indicator of the table scores 0. */
  lemma {:induction false} NoDataScoresZero(data: MacroData, w: Weights, countries: seq<string>, country: string)
    requires forall k | 0 <= k < |w| :: Contribution(data, w[k], country) == 0.0
    ensures Accumulated(data, w, countries, country) == 0.0
  {
    if w != [] {
      NoDataScoresZero(data, w[..|w| - 1], countries, country);
      RowSumZero(data, w[|w| - 1], countries, country);
    }
  }

  lemma {:induction false} RowSumZero(data: MacroData, entry: (Indicator, real), countries: seq<string>, country: string)
    requires Contribution(data, entry, country) == 0.0
    ensures RowSum(data, entry, countries, country) == 0.0
  {
    if countries != [] {
      RowSumZero(data, entry, countries[..|countries| - 1], country);
    }
  }

  /** A non-negative table bounds the weighted score by five times its total weight. */
  lemma {:induction false} WeightedScoreBounded(data: MacroData, w: Weights, country: string)
    requires NonNegative(w)
    ensures -5.0 * WeightSum(w) <= WeightedScore(data, w, country) <= 5.0 * WeightSum(w)
  {
    if w != [] {
      var init := w[..|w| - 1];
      assert NonNegative(init);
      WeightedScoreBounded(data, init, country);
    }
  }

  /**
   * The score of a country listed once, under any regime's table, lies in
   * [-5, 5]: every indicator score does and the weights sum to 1.
   */
  lemma CurrencyScoreBounded(data: MacroData, regime: string, countries: seq<string>, country: string)
    requires Distinct(countries) && country in countries
    ensures -5.0 <= Accumulated(data, WeightTable(regime), countries, country) <= 5.0
  {
    AccumulatedIsWeighted(data, WeightTable(regime), countries, country);
    WeightedScoreBounded(data, WeightTable(regime), country);
  }

  /** The scores `calculate_currency_score` returns: every listed country, accumulated over its regime's table. */
  function CurrencyScores(data: MacroData, regime: string, countries: seq<string>): map<string, real> {
    map c | c in countries :: Accumulated(data, WeightTable(regime), countries, c)
  }

  /**
   * `calculate_currency_score`: every listed country starts at 0, then for
   * each table entry with data, each listed country with a value gains its
   * weighted indicator score (once per time it is listed).
   */
  method CalculateCurrencyScore(data: MacroData, countries: seq<string>, regime: string) returns (scores: map<string, real>)
    ensures scores == CurrencyScores(data, regime, countries)
  {
    var weights := WeightTable(regime);
    scores := map c | c in countries :: 0.0;
    var i := 0;
    while i < |weights|
      invariant 0 <= i <= |weights|
      invariant scores.Keys == set c | c in countries
      invariant forall c | c in scores :: scores[c] == Accumulated(data, weights[..i], countries, c)
    {
      scores := AddEntry(data, weights[i], countries, scores);
      assert weights[..i + 1][..i] == weights[..i];
      i := i + 1;
    }
    assert weights[..i] == weights;
  }

  /**
   * One pass of the inner loop of `calculate_currency_score`: when the
   * entry's indicator has data, each listed country with a value gains the
   * entry's contribution, once per time it is listed.
   */
  method AddEntry(data: MacroData, entry: (Indicator, real), countries: seq<string>, scores: map<string, real>)
    returns (next: map<string, real>)
    requires forall c | c in countries :: c in scores
    ensures next.Keys == scores.Keys
    ensures forall c | c in next :: next[c] == scores[c] + RowSum(data, entry, countries, c)
  {
    next := scores;
    if entry.0 in data && data[entry.0].Some? {
      var j := 0;
      while j < |countries|
        invariant 0 <= j <= |countries|
        invariant next.Keys == scores.Keys
        invariant forall c | c in next :: next[c] == scores[c] + RowSum(data, entry, countries[..j], c)
      {
        ghost var prev := next;
        next := AddCountry(data, entry, countries[j], next);
        forall c | c in next
          ensures next[c] == scores[c] + RowSum(data, entry, countries[..j + 1], c)
        {
          RowSumStep(data, entry, countries, j, c);
        }
        j := j + 1;
      }
      assert countries[..j] == countries;
    } else {
      forall c | c in next
        ensures RowSum(data, entry, countries, c) == 0.0
      {
        RowSumZero(data, entry, countries, c);
      }
    }
  }

  /** The innermost step: a country with a value gains its weighted score; no other score moves. */
  method AddCountry(data: MacroData, entry: (Indicator, real), country: string, scores: map<string, real>)
    returns (next: map<string, real>)
    requires entry.0 in data && data[entry.0].Some? && country in scores
    ensures next.Keys == scores.Keys
    ensures forall c | c in next :: next[c] == scores[c] + (if c == country then Contribution(data, entry, country) else 0.0)
  {
    var indicator, weight := entry.0, entry.1;
    var values := data[indicator].value;
    next := scores;
    if country in values {
      var score := ScoreIndicator(indicator, values[country]);
      ContributionOfValue(data, entry, country, score);
      next := scores[country := scores[country] + score * weight];
    } else {
      ContributionOfValue(data, entry, country, 0.0);
    }
  }

  // ---------------------------------------------------------------------
  // Differentials
  // ---------------------------------------------------------------------

  /** The indicators compared between two countries: high importance, then medium. */
  function AllIndicators(): (r: seq<Indicator>)
    ensures |r| == 8 && Distinct(r)
    ensures forall k | 0 <= k < |r| :: !r[k].Other?
  {
    [InterestRate, GdpGrowth, InflationRate, UnemploymentRate,
     TradeBalance, IndustrialProduction, RetailSales, ConsumerConfidence]
  }

  /** Both countries have a value for the indicator. */
  predicate HasBoth(data: MacroData, indicator: Indicator, a: string, b: string) {
    indicator in data && data[indicator].Some? && a in data[indicator].value && b in data[indicator].value
  }

  /** The keys of the differentials: `<indicator>_diff`, and `currency_score_diff`. */
  datatype DiffKey = IndicatorDiff(indicator: Indicator) | CurrencyScoreDiff

  /**
   * `calculate_differentials`: nothing unless exactly two countries are
   * given; then `<indicator>_diff` = value(a) - value(b) for each compared
   * indicator where both have data, and `currency_score_diff` = score(a) -
   * score(b).
   */
  method CalculateDifferentials(data: MacroData, countries: seq<string>, regime: string) returns (r: map<DiffKey, real>)
    ensures |countries| != 2 ==> r == map[]
    ensures |countries| == 2 ==> var a, b := countries[0], countries[1];
      var scores := CurrencyScores(data, regime, countries);
      && CurrencyScoreDiff in r
      && r[CurrencyScoreDiff] == scores[a] - scores[b]
      && (forall ind | ind in AllIndicators() ::
            && (IndicatorDiff(ind) in r <==> HasBoth(data, ind, a, b))
            && (HasBoth(data, ind, a, b) ==> r[IndicatorDiff(ind)] == data[ind].value[a] - data[ind].value[b]))
      && (forall k | k in r :: k.CurrencyScoreDiff? || k.indicator in AllIndicators())
  {
    if |countries| != 2 {
      return map[];
    }
    var a, b := countries[0], countries[1];
    var all := AllIndicators();
    r := map[];
    var i := 0;
    while i < |all|
      invariant 0 <= i <= |all|
      invariant forall k | k in r :: k.IndicatorDiff? && k.indicator in all[..i]
      invariant forall ind | ind in all[..i] ::
        && (IndicatorDiff(ind) in r <==> HasBoth(data, ind, a, b))
        && (HasBoth(data, ind, a, b) ==> r[IndicatorDiff(ind)] == data[ind].value[a] - data[ind].value[b])
    {
      var ind := all[i];
      if HasBoth(data, ind, a, b) {
        r := r[IndicatorDiff(ind) := data[ind].value[a] - data[ind].value[b]];
      }
      assert all[..i + 1] == all[..i] + [ind];
      i := i + 1;
    }
    assert all[..i] == all;
    var scores := CalculateCurrencyScore(data, countries, regime);
    r := r[CurrencyScoreDiff := scores[a] - scores[b]];
  }

  /** With two distinct countries, the score difference compares their weighted scores. */
  lemma ScoreDiffOfDistinctPair(data: MacroData, regime: string, a: string, b: string)
    requires a != b
    ensures var scores := CurrencyScores(data, regime, [a, b]);
      && scores[a] == WeightedScore(data, WeightTable(regime), a)
      && scores[b] == WeightedScore(data, WeightTable(regime), b)
      && -10.0 <= scores[a] - scores[b] <= 10.0
  {
    CurrencyScoreBounded(data, regime, [a, b], a);
    CurrencyScoreBounded(data, regime, [a, b], b);
    AccumulatedIsWeighted(data, WeightTable(regime), [a, b], a);
    AccumulatedIsWeighted(data, WeightTable(regime), [a, b], b);
  }

  // ---------------------------------------------------------------------
  // Update frequency
  // ---------------------------------------------------------------------

  datatype Frequency = EventBased | Monthly | Quarterly | Unknown

  /**
   * `get_update_frequency`: the policy rate changes on events, GDP
   * quarterly, the other six compared indicators monthly; anything else
   * is unknown.
   */
  function GetUpdateFrequency(indicator: Indicator): (f: Frequency)
    ensures f == EventBased <==> indicator == InterestRate
    ensures f == Quarterly <==> indicator == GdpGrowth
    ensures f == Monthly <==> indicator in AllIndicators()[2..]
    ensures f == Unknown <==> indicator !in AllIndicators()
  {
    if indicator in [InterestRate] then EventBased
    else if indicator in [InflationRate, UnemploymentRate, TradeBalance,
                          IndustrialProduction, RetailSales, ConsumerConfidence] then Monthly
    else if indicator in [GdpGrowth] then Quarterly
    else Unknown
  }
}
