/**
 * src/portfolio/portfolio_manager.py: capital split across strategies.
 * Each strategy's record holds its allocation (a share of capital), its
 * volatility and drawdown when known, and its balance once allocated.
 * Allocations are normalised to sum to 1 and blended with inverse-
 * volatility ("risk parity") weights; a rebalance re-blends them with
 * profit contributions and renormalises.
 */
module Portfolio {
  import opened Wrappers
  import opened Market

  type Name = string

  /** The entries of `strategies[name]` that the allocation code reads and writes. */
  datatype StrategyInfo = StrategyInfo(
    allocation: real,
    volatility: Option<real>,
    maxDrawdown: Option<real>,
    balance: Option<real>)

  /** The zeroed counters of `strategy_performance[name]`. */
  datatype PerformanceRecord = PerformanceRecord(trades: int, wins: int, losses: int, profit: real, maxDrawdown: real)

  /** A dictionary's keys in insertion order: each key once, and nothing else. */
  ghost predicate KeyOrder<V>(names: seq<Name>, m: map<Name, V>) {
    Distinct(names) && (forall n :: n in m <==> n in names)
  }

  // ---------------------------------------------------------------------
  // Columns of the strategy table
  // ---------------------------------------------------------------------

  /** The allocations in key order. */
  function Allocations(names: seq<Name>, m: map<Name, StrategyInfo>): (r: seq<real>)
    requires forall n | n in names :: n in m
    ensures |r| == |names| && forall i | 0 <= i < |r| :: r[i] == m[names[i]].allocation
  {
    if names == [] then [] else Allocations(names[..|names| - 1], m) + [m[names[|names| - 1]].allocation]
  }

  /** Volatilities are floored at 0.001 before inverting. */
  const MinVolatility: real := 0.001

  /** `1 / max(0.001, volatility)` for a strategy with a volatility, 0 for one without. */
  function InvVolatility(s: StrategyInfo): (r: real)
    ensures s.volatility.Some? ==> r > 0.0
    ensures s.volatility.None? ==> r == 0.0
  {
    if s.volatility.Some? then 1.0 / Max(MinVolatility, s.volatility.value) else 0.0
  }

  /** The inverse volatilities in key order. */
  function InvVolWeights(names: seq<Name>, m: map<Name, StrategyInfo>): (r: seq<real>)
    requires forall n | n in names :: n in m
    ensures |r| == |names| && forall i | 0 <= i < |r| :: r[i] == InvVolatility(m[names[i]])
  {
    if names == [] then [] else InvVolWeights(names[..|names| - 1], m) + [InvVolatility(m[names[|names| - 1]])]
  }

  /** Some strategy with a volatility makes the inverse-volatility total positive. */
  lemma InvVolTotalPositive(names: seq<Name>, m: map<Name, StrategyInfo>, i: nat)
    requires forall n | n in names :: n in m
    requires i < |names| && m[names[i]].volatility.Some?
    ensures Sum(InvVolWeights(names, m)) > 0.0
  {
    SumPositive(InvVolWeights(names, m));
  }

  /** Tables whose volatilities agree have the same inverse-volatility column. */
  lemma InvVolWeightsOfVolatility(names: seq<Name>, m: map<Name, StrategyInfo>, m': map<Name, StrategyInfo>)
    requires forall n | n in names :: n in m && n in m' && m'[n].volatility == m[n].volatility
    ensures InvVolWeights(names, m') == InvVolWeights(names, m)
  {
  }

  // ---------------------------------------------------------------------
  // The rewriting loop
  // ---------------------------------------------------------------------

  /**
   * `for name, strategy_info in strategies.items(): strategy_info[...] = ...`:
   * each listed entry is rewritten once by `f` and every other entry is
   * kept.
   */
  method RewriteAll(names: seq<Name>, m: map<Name, StrategyInfo>, f: (Name, StrategyInfo) -> StrategyInfo)
    returns (r: map<Name, StrategyInfo>)
    requires Distinct(names)
    ensures r.Keys == m.Keys
    ensures forall n | n in m :: r[n] == if n in names then f(n, m[n]) else m[n]
  {
    r := m;
    var i := 0;
    while i < |names|
      invariant 0 <= i <= |names|
      invariant r.Keys == m.Keys
      invariant forall n | n in m :: r[n] == if n in names[..i] then f(n, m[n]) else m[n]
    {
      var n := names[i];
      assert names[..i + 1] == names[..i] + [n];
      assert n !in names[..i];
      if n in r {
        r := r[n := f(n, r[n])];
      }
      i := i + 1;
    }
    assert names[..i] == names;
  }

  // ---------------------------------------------------------------------
  // _calculate_allocations
  // ---------------------------------------------------------------------

  /** The strategies' volatilities are all known. */
  predicate AllHaveVolatility(names: seq<Name>, m: map<Name, StrategyInfo>)
    requires forall n | n in names :: n in m
  {
    forall n | n in names :: m[n].volatility.Some?
  }

  /** An allocation over a total other than 1 is divided by the total. */
  function Normalized(a: real, total: real): real
    requires total > 0.0
  {
    if total != 1.0 then a / total else a
  }

  /** The weight of the current allocation in the risk-parity blend. */
  const KeepWeight: real := 0.7
  const ParityWeight: real := 0.3

  /** The part of `balance` that an allocation of `share` gets. */
  function BalanceShare(balance: real, share: real): real {
    balance * share
  }

  /** The record with a new allocation and a balance of that share of `balance`. */
  function WithAllocation(s: StrategyInfo, a: real, balance: real): (r: StrategyInfo)
    ensures r.allocation == a && r.balance == Some(BalanceShare(balance, a))
    ensures r.volatility == s.volatility && r.maxDrawdown == s.maxDrawdown
  {
    s.(allocation := a, balance := Some(BalanceShare(balance, a)))
  }

  /** `0.7 · allocation + 0.3 · (inverse volatility / total inverse volatility)`. */
  function RiskParityBlend(a: real, invVol: real, totalInvVol: real): real
    requires totalInvVol != 0.0
  {
    Blend(KeepWeight, a, ParityWeight, invVol / totalInvVol)
  }

  /**
   * The allocation of `n` after `_calculate_allocations` over a positive
   * total: normalised, then blended 70/30 with its risk-parity weight when
   * every volatility is known.
   */
  function AllocatedShare(names: seq<Name>, m: map<Name, StrategyInfo>, n: Name): real
    requires forall k | k in names :: k in m
    requires n in names && Sum(Allocations(names, m)) > 0.0
  {
    var a := Normalized(m[n].allocation, Sum(Allocations(names, m)));
    if AllHaveVolatility(names, m) then
      InvVolTotalPositive(names, m, 0);
      RiskParityBlend(a, InvVolatility(m[n]), Sum(InvVolWeights(names, m)))
    else a
  }

  /**
   * The record of `n` after `_calculate_allocations`: unchanged when the
   * allocations do not add up to a positive total; otherwise it holds its
   * `AllocatedShare` and a balance of that share of the initial balance.
   */
  function AllocatedInfo(names: seq<Name>, m: map<Name, StrategyInfo>, initialBalance: real, n: Name): (r: StrategyInfo)
    requires forall k | k in names :: k in m
    requires n in names
    ensures Sum(Allocations(names, m)) <= 0.0 ==> r == m[n]
    ensures Sum(Allocations(names, m)) > 0.0 ==>
      && r.allocation == AllocatedShare(names, m, n)
      && r.balance == Some(BalanceShare(initialBalance, r.allocation))
      && r.volatility == m[n].volatility && r.maxDrawdown == m[n].maxDrawdown
  {
    if Sum(Allocations(names, m)) <= 0.0 then m[n]
    else WithAllocation(m[n], AllocatedShare(names, m, n), initialBalance)
  }

  /** Allocations normalised by their positive total add up to 1. */
  lemma NormalizedSumToOne(xs: seq<real>, norm: seq<real>)
    requires Sum(xs) > 0.0 && |norm| == |xs|
    requires forall i | 0 <= i < |xs| :: norm[i] == Normalized(xs[i], Sum(xs))
    ensures Sum(norm) == 1.0
  {
    if Sum(xs) != 1.0 {
      SharesSumToOne(xs, norm);
    } else {
      assert norm == xs;
    }
  }

  /** Some volatility known: each strategy's inverse volatility over their total, summing to 1. */
  lemma RiskParityShares(names: seq<Name>, m: map<Name, StrategyInfo>) returns (rp: seq<real>)
    requires forall n | n in names :: n in m
    requires exists j | 0 <= j < |names| :: m[names[j]].volatility.Some?
    ensures Sum(InvVolWeights(names, m)) > 0.0
    ensures |rp| == |names| && Sum(rp) == 1.0
    ensures forall j | 0 <= j < |rp| :: rp[j] == InvVolatility(m[names[j]]) / Sum(InvVolWeights(names, m))
  {
    var ws := InvVolWeights(names, m);
    var i :| 0 <= i < |names| && m[names[i]].volatility.Some?;
    InvVolTotalPositive(names, m, i);
    rp := seq(|ws|, j requires 0 <= j < |ws| => ws[j] / Sum(ws));
    SharesSumToOne(ws, rp);
  }

  /** Each allocated share is the 70/30 blend of the normalised allocation and the risk-parity share. */
  lemma BlendedPointwise(names: seq<Name>, m: map<Name, StrategyInfo>, norm: seq<real>, zs: seq<real>, rp: seq<real>)
    requires forall n | n in names :: n in m
    requires Sum(Allocations(names, m)) > 0.0 && AllHaveVolatility(names, m)
    requires |norm| == |names| && |zs| == |names| && |rp| == |names|
    requires forall j | 0 <= j < |norm| :: norm[j] == Normalized(m[names[j]].allocation, Sum(Allocations(names, m)))
    requires forall j | 0 <= j < |zs| :: zs[j] == AllocatedShare(names, m, names[j])
    requires Sum(InvVolWeights(names, m)) > 0.0
    requires forall j | 0 <= j < |rp| :: rp[j] == InvVolatility(m[names[j]]) / Sum(InvVolWeights(names, m))
    ensures forall j | 0 <= j < |zs| :: zs[j] == Blend(KeepWeight, norm[j], ParityWeight, rp[j])
  {
  }

  /** With every volatility known, the 70/30 blends of normalised allocations and risk-parity weights add up to 1. */
  lemma BlendedSumToOne(names: seq<Name>, m: map<Name, StrategyInfo>, norm: seq<real>, zs: seq<real>)
    requires forall n | n in names :: n in m
    requires Sum(Allocations(names, m)) > 0.0 && AllHaveVolatility(names, m)
    requires |norm| == |names| && Sum(norm) == 1.0
    requires forall j | 0 <= j < |norm| :: norm[j] == Normalized(m[names[j]].allocation, Sum(Allocations(names, m)))
    requires |zs| == |names| && forall j | 0 <= j < |zs| :: zs[j] == AllocatedShare(names, m, names[j])
    ensures Sum(zs) == 1.0
  {
    var rp := RiskParityShares(names, m);
    BlendedPointwise(names, m, norm, zs, rp);
    BlendSumToOne(norm, rp, zs, KeepWeight, ParityWeight);
  }

  /** Over a positive total the allocated shares add up to exactly 1. */
  lemma AllocationsSumToOne(names: seq<Name>, m: map<Name, StrategyInfo>, zs: seq<real>)
    requires forall n | n in names :: n in m
    requires Sum(Allocations(names, m)) > 0.0
    requires |zs| == |names| && forall j | 0 <= j < |zs| :: zs[j] == AllocatedShare(names, m, names[j])
    ensures Sum(zs) == 1.0
  {
    var xs := Allocations(names, m);
    var norm := seq(|xs|, i requires 0 <= i < |xs| => Normalized(xs[i], Sum(xs)));
    NormalizedSumToOne(xs, norm);
    if AllHaveVolatility(names, m) {
      BlendedSumToOne(names, m, norm, zs);
    } else {
      assert zs == norm;
    }
  }

  /**
   * A table of `AllocatedInfo` records over a positive total has
   * allocations summing to exactly 1.
   */
  lemma AllocatedTableSumsToOne(names: seq<Name>, m: map<Name, StrategyInfo>, initialBalance: real, r: map<Name, StrategyInfo>)
    requires forall n | n in names :: n in m && n in r
    requires Sum(Allocations(names, m)) > 0.0
    requires forall n | n in names :: r[n] == AllocatedInfo(names, m, initialBalance, n)
    ensures Sum(Allocations(names, r)) == 1.0
  {
    AllocationsSumToOne(names, m, Allocations(names, r));
  }

  // ---------------------------------------------------------------------
  // rebalance_portfolio
  // ---------------------------------------------------------------------

  /** Statistics of a strategy's equity curve (its return volatility and maximum drawdown). */
  datatype EquityStats = EquityStats(volatility: real, maxDrawdown: real)

  /** `performance[name]`: the profit, and the equity-curve statistics when the curve is present and non-empty. */
  datatype Performance = Performance(profit: real, equity: Option<EquityStats>)

  /** The profits in key order. */
  function Profits(names: seq<Name>, perf: map<Name, Performance>): (r: seq<real>)
    requires forall n | n in names :: n in perf
    ensures |r| == |names| && forall i | 0 <= i < |r| :: r[i] == perf[names[i]].profit
  {
    if names == [] then [] else Profits(names[..|names| - 1], perf) + [perf[names[|names| - 1]].profit]
  }

  /** The record after the equity-curve statistics of `n`, if any, are stored in it. */
  function WithStats(n: Name, s: StrategyInfo, perf: map<Name, Performance>): (r: StrategyInfo)
    ensures r.allocation == s.allocation && r.balance == s.balance
    ensures n in perf && perf[n].equity.Some? ==> r.volatility == Some(perf[n].equity.value.volatility)
    ensures !(n in perf && perf[n].equity.Some?) ==> r == s
  {
    if n in perf && perf[n].equity.Some? then
      s.(volatility := Some(perf[n].equity.value.volatility), maxDrawdown := Some(perf[n].equity.value.maxDrawdown))
    else s
  }

  /** A strategy takes part in the rebalance when its volatility is known and it has a performance entry. */
  predicate Included(n: Name, s: StrategyInfo, perf: map<Name, Performance>) {
    s.volatility.Some? && n in perf
  }

  /** Profits are floored at 0 and shared over the total profit, itself floored at 0.001. */
  function ProfitContribution(p: Performance, totalProfit: real): (r: real)
    ensures totalProfit > 0.0 ==> 0.0 <= r
  {
    Max(0.0, p.profit) / Max(0.001, totalProfit)
  }

  /** The 50/30/20 blend of risk parity, profit contribution and current allocation, before renormalising. */
  function RawAllocation(n: Name, s: StrategyInfo, perf: map<Name, Performance>, totalProfit: real, totalInvVol: real): real
    requires Included(n, s, perf) && totalInvVol != 0.0
  {
    0.5 * (InvVolatility(s) / totalInvVol) + 0.3 * ProfitContribution(perf[n], totalProfit) + 0.2 * s.allocation
  }

  /** The raw blend of each included strategy in key order, 0 for the others. */
  function RawAllocations(names: seq<Name>, m: map<Name, StrategyInfo>, perf: map<Name, Performance>,
                          totalProfit: real, totalInvVol: real): (r: seq<real>)
    requires forall n | n in names :: n in m
    ensures |r| == |names|
    ensures forall i | 0 <= i < |r| :: r[i] == if Included(names[i], m[names[i]], perf) && totalInvVol != 0.0
      then RawAllocation(names[i], m[names[i]], perf, totalProfit, totalInvVol) else 0.0
  {
    if names == [] then []
    else
      var n := names[|names| - 1];
      var last := if Included(n, m[n], perf) && totalInvVol != 0.0 then RawAllocation(n, m[n], perf, totalProfit, totalInvVol) else 0.0;
      RawAllocations(names[..|names| - 1], m, perf, totalProfit, totalInvVol) + [last]
  }

  /**
   * The allocation of `n` after a rebalance: an included strategy's raw
   * blend over the blends' total, the old allocation for the others. (The
   * division happens only for an included strategy, and then the blends'
   * total is non-zero or the rebalance stops before it.)
   */
  function RebalancedShare(n: Name, s: StrategyInfo, perf: map<Name, Performance>, totalProfit: real,
                           totalInvVol: real, totalNew: real): real
  {
    if Included(n, s, perf) && totalInvVol != 0.0 && totalNew != 0.0
    then RawAllocation(n, s, perf, totalProfit, totalInvVol) / totalNew
    else s.allocation
  }

  /** The record of `n` after a rebalance that leaves `newBalance` in the account. */
  function RebalancedInfo(n: Name, s: StrategyInfo, perf: map<Name, Performance>, totalProfit: real,
                          totalInvVol: real, totalNew: real, newBalance: real): (r: StrategyInfo)
    ensures r.volatility == s.volatility && r.maxDrawdown == s.maxDrawdown
    ensures !Included(n, s, perf) ==> r.allocation == s.allocation
    ensures r.allocation == RebalancedShare(n, s, perf, totalProfit, totalInvVol, totalNew)
    ensures r.balance == Some(BalanceShare(newBalance, r.allocation))
  {
    WithAllocation(s, RebalancedShare(n, s, perf, totalProfit, totalInvVol, totalNew), newBalance)
  }

  /** The allocations of the included strategies in key order, 0 for the others. */
  function IncludedAllocations(names: seq<Name>, m: map<Name, StrategyInfo>, perf: map<Name, Performance>): (r: seq<real>)
    requires forall n | n in names :: n in m
    ensures |r| == |names|
    ensures forall i | 0 <= i < |r| :: r[i] == if Included(names[i], m[names[i]], perf) then m[names[i]].allocation else 0.0
  {
    if names == [] then []
    else
      var n := names[|names| - 1];
      IncludedAllocations(names[..|names| - 1], m, perf) + [if Included(n, m[n], perf) then m[n].allocation else 0.0]
  }

  /** Some strategy of the table is included in the rebalance. */
  predicate AnyIncluded(names: seq<Name>, m: map<Name, StrategyInfo>, perf: map<Name, Performance>)
    requires forall n | n in names :: n in m
  {
    exists i | 0 <= i < |names| :: Included(names[i], m[names[i]], perf)
  }

  /** After the renormalisation the included strategies' allocations add up to exactly 1. */
  lemma RebalancedSumToOne(names: seq<Name>, m: map<Name, StrategyInfo>, perf: map<Name, Performance>, totalProfit: real,
                           newBalance: real, r: map<Name, StrategyInfo>, i: nat)
    requires forall n | n in names :: n in m && n in r
    requires i < |names| && Included(names[i], m[names[i]], perf)
    requires var w := Sum(InvVolWeights(names, m));
      && Sum(RawAllocations(names, m, perf, totalProfit, w)) != 0.0
      && forall n | n in names :: r[n] == RebalancedInfo(n, m[n], perf, totalProfit, w,
                                             Sum(RawAllocations(names, m, perf, totalProfit, w)), newBalance)
    ensures Sum(IncludedAllocations(names, r, perf)) == 1.0
  {
    var w := Sum(InvVolWeights(names, m));
    InvVolTotalPositive(names, m, i);
    var raw := RawAllocations(names, m, perf, totalProfit, w);
    var zs := IncludedAllocations(names, r, perf);
    forall j | 0 <= j < |zs|
      ensures zs[j] == raw[j] / Sum(raw)
    {
      var k := names[j];
      assert r[k].volatility == m[k].volatility;
      if Included(k, m[k], perf) {
        assert r[k].allocation == RawAllocation(k, m[k], perf, totalProfit, w) / Sum(raw);
        DivideEqual(raw[j], RawAllocation(k, m[k], perf, totalProfit, w), Sum(raw));
      } else {
        assert zs[j] == 0.0 && raw[j] == 0.0;
        ZeroOver(Sum(raw));
      }
    }
    SharesSumToOne(raw, zs);
  }

  // ---------------------------------------------------------------------
  // The loops over the table
  // ---------------------------------------------------------------------

  /** `strategy_info["allocation"] /= total_allocation` for every strategy, when the total is not 1. */
  method NormalizeAllocations(names: seq<Name>, m: map<Name, StrategyInfo>, total: real) returns (r: map<Name, StrategyInfo>)
    requires Distinct(names) && total > 0.0
    ensures r.Keys == m.Keys
    ensures forall n | n in m && n !in names :: r[n] == m[n]
    ensures forall n | n in m && n in names :: r[n] == m[n].(allocation := Normalized(m[n].allocation, total))
  {
    if total != 1.0 {
      r := RewriteAll(names, m, (n, s: StrategyInfo) => s.(allocation := s.allocation / total));
    } else {
      r := m;
    }
  }

  /** The 70/30 blend of every allocation with its inverse-volatility share of `totalInvVol`. */
  method BlendRiskParity(names: seq<Name>, m: map<Name, StrategyInfo>, totalInvVol: real) returns (r: map<Name, StrategyInfo>)
    requires Distinct(names) && totalInvVol != 0.0
    ensures r.Keys == m.Keys
    ensures forall n | n in m && n !in names :: r[n] == m[n]
    ensures forall n | n in m && n in names ::
      r[n] == m[n].(allocation := RiskParityBlend(m[n].allocation, InvVolatility(m[n]), totalInvVol))
  {
    r := RewriteAll(names, m, (n, s: StrategyInfo) =>
      s.(allocation := RiskParityBlend(s.allocation, InvVolatility(s), totalInvVol)));
  }

  /** `strategy_info["balance"] = balance * strategy_info["allocation"]` for every strategy. */
  method AssignBalances(names: seq<Name>, m: map<Name, StrategyInfo>, balance: real) returns (r: map<Name, StrategyInfo>)
    requires Distinct(names)
    ensures r.Keys == m.Keys
    ensures forall n | n in m && n !in names :: r[n] == m[n]
    ensures forall n | n in m && n in names :: r[n] == WithAllocation(m[n], m[n].allocation, balance)
  {
    r := RewriteAll(names, m, (n, s: StrategyInfo) => WithAllocation(s, s.allocation, balance));
  }

  /** The table with every performance entry's equity-curve statistics stored. */
  function StatsApplied(m: map<Name, StrategyInfo>, perf: map<Name, Performance>): (r: map<Name, StrategyInfo>)
    ensures r.Keys == m.Keys
    ensures forall n | n in m :: r[n] == WithStats(n, m[n], perf)
  {
    map n | n in m :: WithStats(n, m[n], perf)
  }

  /** The loop over `performance` that stores each equity curve's volatility and drawdown. */
  method StoreStats(perfNames: seq<Name>, m: map<Name, StrategyInfo>, perf: map<Name, Performance>) returns (r: map<Name, StrategyInfo>)
    requires KeyOrder(perfNames, perf)
    ensures r == StatsApplied(m, perf)
  {
    r := RewriteAll(perfNames, m, (n, s) => WithStats(n, s, perf));
  }

  /** `new_allocations[name] /= total_new_allocation`, written back for every included strategy. */
  method Renormalize(names: seq<Name>, m: map<Name, StrategyInfo>, perf: map<Name, Performance>, totalProfit: real,
                     totalInvVol: real, totalNew: real) returns (r: map<Name, StrategyInfo>)
    requires Distinct(names)
    ensures r.Keys == m.Keys
    ensures forall n | n in m && n !in names :: r[n] == m[n]
    ensures forall n | n in m && n in names ::
      r[n] == m[n].(allocation := RebalancedShare(n, m[n], perf, totalProfit, totalInvVol, totalNew))
  {
    r := RewriteAll(names, m, (n, s: StrategyInfo) => s.(allocation := RebalancedShare(n, s, perf, totalProfit, totalInvVol, totalNew)));
  }

  /**
   * The allocation steps of `_calculate_allocations` over a positive
   * total: normalise every allocation, then, when every volatility is
   * known, blend it 70/30 with its risk-parity weight. Each record then
   * holds its `AllocatedShare`.
   */
  method ShareTable(names: seq<Name>, m: map<Name, StrategyInfo>, total: real) returns (r: map<Name, StrategyInfo>)
    requires KeyOrder(names, m) && total == Sum(Allocations(names, m)) && total > 0.0
    ensures r.Keys == m.Keys
    ensures forall n | n in names :: r[n] == m[n].(allocation := AllocatedShare(names, m, n))
  {
    var m1 := NormalizeAllocations(names, m, total);
    InvVolWeightsOfVolatility(names, m, m1);
    assert AllHaveVolatility(names, m1) == AllHaveVolatility(names, m);
    if AllHaveVolatility(names, m1) {
      InvVolTotalPositive(names, m1, 0);
      r := BlendRiskParity(names, m1, Sum(InvVolWeights(names, m1)));
      forall n | n in names
        ensures r[n] == m[n].(allocation := AllocatedShare(names, m, n))
      {
        assert InvVolatility(m1[n]) == InvVolatility(m[n]);
      }
    } else {
      r := m1;
    }
  }

  // ---------------------------------------------------------------------
  // The manager
  // ---------------------------------------------------------------------

  function EmptyRecord(): PerformanceRecord {
    PerformanceRecord(0, 0, 0, 0.0, 0.0)
  }

  class PortfolioManager {
    const initialBalance: real
    /** The strategies' names in the order of the dictionary. */
    const names: seq<Name>
    var currentBalance: real
    var strategies: map<Name, StrategyInfo>
    var strategyPerformance: map<Name, PerformanceRecord>

    ghost predicate Valid()
      reads this
    {
      KeyOrder(names, strategies)
    }

    /** Builds the manager and runs `_calculate_allocations` over the given strategies. */
    constructor (names: seq<Name>, strategies: map<Name, StrategyInfo>, initialBalance: real)
      requires KeyOrder(names, strategies)
      ensures Valid() && this.names == names && this.initialBalance == initialBalance
      ensures currentBalance == initialBalance
      ensures forall n | n in names :: this.strategies[n] == AllocatedInfo(names, strategies, initialBalance, n)
      ensures strategyPerformance == map n | n in strategies :: EmptyRecord()
    {
      this.names := names;
      this.initialBalance := initialBalance;
      currentBalance := initialBalance;
      this.strategies := strategies;
      strategyPerformance := map n | n in strategies :: EmptyRecord();
      new;
      CalculateAllocations();
    }

    /**
     * `_calculate_allocations`: nothing changes when the allocations do
     * not sum to a positive total; otherwise every record becomes its
     * `AllocatedInfo`, so the allocations sum to 1 and each balance is
     * its share of the initial balance.
     */
    method CalculateAllocations()
      requires Valid()
      modifies this`strategies
      ensures Valid()
      ensures forall n | n in names :: strategies[n] == AllocatedInfo(names, old(strategies), initialBalance, n)
    {
      var total := Sum(Allocations(names, strategies));
      if total <= 0.0 {
        return;
      }
      var shares := ShareTable(names, strategies, total);
      strategies := AssignBalances(names, shares, initialBalance);
    }

    /**
     * `rebalance_portfolio`: with no positive total profit nothing
     * changes. Otherwise the equity-curve statistics are stored; when the
     * blends of the included strategies add up to 0 the renormalisation
     * divides by zero and `ok` is false. Else every record becomes its
     * `RebalancedInfo`: the included strategies share 1 in proportion to
     * their blends, the others keep their allocation, and the balance
     * becomes the initial balance plus the total profit, shared out by
     * allocation.
     */
    method RebalancePortfolio(perfNames: seq<Name>, performance: map<Name, Performance>) returns (ok: bool)
      requires Valid() && KeyOrder(perfNames, performance)
      requires forall n | n in performance && performance[n].equity.Some? :: n in strategies
      modifies this`strategies, this`currentBalance
      ensures Valid()
      ensures Sum(Profits(perfNames, performance)) <= 0.0 ==>
        ok && strategies == old(strategies) && currentBalance == old(currentBalance)
      ensures Sum(Profits(perfNames, performance)) > 0.0 ==>
        var totalProfit := Sum(Profits(perfNames, performance));
        var m1 := StatsApplied(old(strategies), performance);
        var w := Sum(InvVolWeights(names, m1));
        var totalNew := Sum(RawAllocations(names, m1, performance, totalProfit, w));
        && (!ok <==> totalNew == 0.0 && AnyIncluded(names, m1, performance))
        && (!ok ==> strategies == m1 && currentBalance == old(currentBalance))
        && (ok ==>
              && currentBalance == initialBalance + totalProfit
              && forall n | n in names ::
                   strategies[n] == RebalancedInfo(n, m1[n], performance, totalProfit, w, totalNew, currentBalance))
    {
      var totalProfit := Sum(Profits(perfNames, performance));
      if totalProfit <= 0.0 {
        return true;
      }
      var m1 := StoreStats(perfNames, strategies, performance);
      strategies := m1;
      var totalInvVol := Sum(InvVolWeights(names, m1));
      var totalNew := Sum(RawAllocations(names, m1, performance, totalProfit, totalInvVol));
      if totalNew == 0.0 && AnyIncluded(names, m1, performance) {
        return false;
      }
      var m2 := Renormalize(names, m1, performance, totalProfit, totalInvVol, totalNew);
      currentBalance := initialBalance + totalProfit;
      strategies := AssignBalances(names, m2, currentBalance);
      ok := true;
    }
  }
}
