/** The analytics panel of the portfolio: allocation, total return, best performer and the
    30-day value series. */
module PortfolioCharts {
  import opened Optional
  import opened Sums
  import opened Ascii
  import opened Portfolio

  // ---------------------------------------------------------------------------------------
  // Allocation

  /** One slice of the allocation pie. */
  datatype Allocation = Allocation(name: string, value: real, percentage: real)

  /** `allocationData`: one slice per lot, in portfolio order, named by the capitalised coin id;
      the percentage is the lot's share of `totalValue`, or 0 when `totalValue` is not positive. */
  function AllocationData(p: seq<Holding>, prices: Prices, totalValue: real): (a: seq<Allocation>)
    ensures |a| == |p|
    ensures forall i :: 0 <= i < |p| ==>
      && a[i].name == Capitalize(p[i].coinId)
      && a[i].value == Values(p, prices)[i]
      && (totalValue > 0.0 ==> a[i].percentage * totalValue == a[i].value * 100.0)
      && (totalValue <= 0.0 ==> a[i].percentage == 0.0)
  {
    seq(|p|, i requires 0 <= i < |p| =>
      var value := RowOf(p[i], prices).value;
      Allocation(Capitalize(p[i].coinId), value, if totalValue > 0.0 then value / totalValue * 100.0 else 0.0))
  }

  /** The percentages of a list of slices. */
  function Percentages(a: seq<Allocation>): (ps: seq<real>)
    ensures |ps| == |a| && forall i :: 0 <= i < |a| ==> ps[i] == a[i].percentage
  {
    seq(|a|, i requires 0 <= i < |a| => a[i].percentage)
  }

  /** When the total passed in is the portfolio's positive value, the (unrounded) slices add up to 100. */
  lemma AllocationsSumTo100(p: seq<Holding>, prices: Prices, totalValue: real)
    requires totalValue > 0.0 && totalValue == TotalValue(p, prices)
    ensures Sum(Percentages(AllocationData(p, prices, totalValue))) == 100.0
  {
    var ps, vs := Percentages(AllocationData(p, prices, totalValue)), Values(p, prices);
    PercentagesAreShares(p, prices, totalValue, ps, vs);
    SharesOfWholeSumTo100(vs, ps, totalValue);
  }

  lemma PercentagesAreShares(p: seq<Holding>, prices: Prices, totalValue: real, ps: seq<real>, vs: seq<real>)
    requires totalValue > 0.0
    requires ps == Percentages(AllocationData(p, prices, totalValue)) && vs == Values(p, prices)
    ensures |ps| == |vs| && forall i :: 0 <= i < |ps| ==> ps[i] * totalValue == vs[i] * 100.0
  {
    var a := AllocationData(p, prices, totalValue);
    forall i | 0 <= i < |ps| ensures ps[i] * totalValue == vs[i] * 100.0 {
      assert ps[i] == a[i].percentage;
      assert a[i].value == vs[i];
    }
  }

  // ---------------------------------------------------------------------------------------
  // Total return

  /** The three figure cards of the panel. */
  datatype Metrics = Metrics(profitLoss: real, profitLossPercent: real, best: Option<Holding>, assetCount: nat)

  /** The panel's figures for the totals it is given. The return percentage is 0 when the cost
      basis is not positive; otherwise it is the percentage that takes the cost to the value. */
  function PerformanceMetrics(p: seq<Holding>, prices: Prices, totalValue: real, totalCost: real): (m: Metrics)
    ensures m.profitLoss == totalValue - totalCost
    ensures totalCost <= 0.0 ==> m.profitLossPercent == 0.0
    ensures totalCost > 0.0 ==> totalValue == totalCost + totalCost * m.profitLossPercent / 100.0
    ensures m.assetCount == |p|
    ensures m.best == BestPerformer(p, prices) && (m.best.None? <==> p == [])
  {
    Metrics(totalValue - totalCost, ProfitLossPercent(totalValue, totalCost), BestPerformer(p, prices), |p|)
  }

  // ---------------------------------------------------------------------------------------
  // Best performer

  /** The outcome of a JavaScript division, where dividing by zero gives an infinity or NaN. */
  datatype Ext = Finite(r: real) | PosInfinity | NegInfinity | NotANumber

  /** `n / d` as JavaScript evaluates it. */
  function Div(n: real, d: real): (e: Ext)
    ensures d != 0.0 ==> e == Finite(n / d)
    ensures d == 0.0 ==>
      ((e == PosInfinity <==> n > 0.0) && (e == NegInfinity <==> n < 0.0) && (e == NotANumber <==> n == 0.0))
  {
    if d != 0.0 then Finite(n / d)
    else if n > 0.0 then PosInfinity
    else if n < 0.0 then NegInfinity
    else NotANumber
  }

  /** `e * 100`. */
  function Times100(e: Ext): Ext
  {
    match e
    case Finite(r) => Finite(r * 100.0)
    case _ => e
  }

  /** `x > e` for a finite `x`: nothing exceeds +Infinity, everything exceeds -Infinity, and
      every comparison with NaN is false. */
  predicate GreaterThan(x: real, e: Ext)
  {
    match e
    case Finite(r) => x > r
    case PosInfinity => false
    case NegInfinity => true
    case NotANumber => false
  }

  /** The candidate's gain, guarded: `buyPrice > 0 ? (price - buyPrice) / buyPrice * 100 : 0`. */
  function GainPercent(h: Holding, prices: Prices): real
  {
    if h.buyPrice > 0.0 then (CurrentPrice(prices, h.coinId) - h.buyPrice) / h.buyPrice * 100.0 else 0.0
  }

  /** The leader's gain, unguarded: `(price - buyPrice) / buyPrice * 100`. */
  function RawGainPercent(h: Holding, prices: Prices): (e: Ext)
    ensures h.buyPrice > 0.0 ==> e == Finite(GainPercent(h, prices))
  {
    Times100(Div(CurrentPrice(prices, h.coinId) - h.buyPrice, h.buyPrice))
  }

  /** One step of the reduce: the lot replaces the leader when its guarded gain is strictly
      greater than the leader's unguarded gain (-Infinity when there is no leader). */
  function Step(best: Option<Holding>, item: Holding, prices: Prices): Option<Holding>
  {
    var bestPercent := if best.Some? then RawGainPercent(best.value, prices) else NegInfinity;
    if GreaterThan(GainPercent(item, prices), bestPercent) then Some(item) else best
  }

  /** The reduce after its first n steps, started at `portfolio[0]`. */
  function Leader(p: seq<Holding>, prices: Prices, n: nat): Option<Holding>
    requires n <= |p|
  {
    if n == 0 then (if p == [] then None else Some(p[0]))
    else Step(Leader(p, prices, n - 1), p[n - 1], prices)
  }

  /** `bestPerformer`: the whole reduce; absent exactly for an empty portfolio. */
  function BestPerformer(p: seq<Holding>, prices: Prices): (r: Option<Holding>)
    ensures r.None? <==> p == []
  {
    LeaderIsSome(p, prices, |p|);
    Leader(p, prices, |p|)
  }

  lemma {:induction false} LeaderIsSome(p: seq<Holding>, prices: Prices, n: nat)
    requires n <= |p|
    ensures Leader(p, prices, n).None? <==> p == []
  {
    if n > 0 {
      LeaderIsSome(p, prices, n - 1);
    }
  }

  /** p[k] gains strictly more than every lot before it and at least as much as every lot of p[..n]. */
  predicate IsEarliestMaximum(p: seq<Holding>, prices: Prices, n: nat, k: nat)
    requires n <= |p| && k < |p|
  {
    (forall j :: 0 <= j < k ==> GainPercent(p[j], prices) < GainPercent(p[k], prices))
    && (forall j :: 0 <= j < n ==> GainPercent(p[j], prices) <= GainPercent(p[k], prices))
  }

  /** With every buy price positive, after n steps the leader is the first of p[..n] whose gain
      is maximal: p[k] for some k < n (k = 0 before any step). */
  lemma {:induction false} LeaderIsEarliestMaximum(p: seq<Holding>, prices: Prices, n: nat)
    requires 0 < |p| && n <= |p|
    requires forall i :: 0 <= i < |p| ==> p[i].buyPrice > 0.0
    ensures exists k: nat :: (k < |p| && (k < n || k == 0) && Leader(p, prices, n) == Some(p[k])
      && IsEarliestMaximum(p, prices, n, k))
  {
    if n == 0 {
      assert Leader(p, prices, 0) == Some(p[0]) && IsEarliestMaximum(p, prices, 0, 0);
    } else {
      LeaderIsEarliestMaximum(p, prices, n - 1);
      var k: nat :| k < |p| && (k < n - 1 || k == 0) && Leader(p, prices, n - 1) == Some(p[k])
        && IsEarliestMaximum(p, prices, n - 1, k);
      var gain := GainPercent(p[n - 1], prices);
      var leaderGain := GainPercent(p[k], prices);
      assert RawGainPercent(p[k], prices) == Finite(leaderGain);
      if gain > leaderGain {
        assert Leader(p, prices, n) == Some(p[n - 1]);
        assert IsEarliestMaximum(p, prices, n, n - 1);
      } else {
        assert Leader(p, prices, n) == Some(p[k]);
        assert IsEarliestMaximum(p, prices, n, k);
      }
    }
  }

  /** With every buy price positive, the best performer is a lot of maximal gain, and the first
      such lot: ties go to the earliest lot because the comparison is strict. */
  lemma BestPerformerIsEarliestMaximum(p: seq<Holding>, prices: Prices)
    requires forall i :: 0 <= i < |p| ==> p[i].buyPrice > 0.0
    ensures p == [] <==> BestPerformer(p, prices).None?
    ensures p != [] ==> exists k: nat :: (k < |p| && BestPerformer(p, prices) == Some(p[k])
      && (forall j :: 0 <= j < k ==> GainPercent(p[j], prices) < GainPercent(p[k], prices))
      && (forall j :: 0 <= j < |p| ==> GainPercent(p[j], prices) <= GainPercent(p[k], prices)))
  {
    if p != [] {
      LeaderIsEarliestMaximum(p, prices, |p|);
      var k: nat :| k < |p| && Leader(p, prices, |p|) == Some(p[k]) && IsEarliestMaximum(p, prices, |p|, k);
      assert BestPerformer(p, prices) == Some(p[k]);
    }
  }

  /** A leader bought at price 0 whose coin has a non-negative price is never replaced: its
      unguarded gain is +Infinity or NaN, and no comparison with either succeeds. */
  lemma {:induction false} ZeroBuyPriceLeaderStays(p: seq<Holding>, prices: Prices, n: nat, m: nat, b: Holding)
    requires n <= m <= |p|
    requires Leader(p, prices, n) == Some(b)
    requires b.buyPrice == 0.0 && CurrentPrice(prices, b.coinId) >= 0.0
    ensures Leader(p, prices, m) == Some(b)
    decreases m - n
  {
    if n < m {
      assert Leader(p, prices, n + 1) == Some(b);
      ZeroBuyPriceLeaderStays(p, prices, n + 1, m, b);
    }
  }

  /** A first lot bought at 0 stays best performer even when a later lot has doubled. */
  lemma ZeroBuyPriceExample()
    ensures var a := Holding("alpha", 1.0, 0.0);
            var b := Holding("beta", 1.0, 100.0);
            var prices := map["alpha" := 10.0, "beta" := 200.0];
            GainPercent(b, prices) == 100.0 > GainPercent(a, prices)
            && BestPerformer([a, b], prices) == Some(a)
  {
    var a := Holding("alpha", 1.0, 0.0);
    var b := Holding("beta", 1.0, 100.0);
    var prices := map["alpha" := 10.0, "beta" := 200.0];
    assert Leader([a, b], prices, 1) == Some(a);
  }

  /** `bestPerformerGain`: the leader's unguarded gain when there is a leader and its price is
      truthy (present and non-zero), and 0 otherwise. */
  function BestPerformerGain(best: Option<Holding>, prices: Prices): (e: Ext)
    ensures best.None? ==> e == Finite(0.0)
    ensures best.Some? && CurrentPrice(prices, best.value.coinId) == 0.0 ==> e == Finite(0.0)
    ensures best.Some? && CurrentPrice(prices, best.value.coinId) != 0.0 && best.value.buyPrice > 0.0
      ==> e == Finite(GainPercent(best.value, prices))
  {
    if best.Some? && CurrentPrice(prices, best.value.coinId) != 0.0 then RawGainPercent(best.value, prices)
    else Finite(0.0)
  }

  // ---------------------------------------------------------------------------------------
  // The 30-day value series

  /** One point of the value chart: `daysAgo` days before today. */
  datatype HistoryPoint = HistoryPoint(daysAgo: nat, value: real, cost: real)

  const Days: nat := 30

  /** The simulated value `daysAgo` days back: the cost basis, a trend rising 10% over the
      window, and a variance of ±10% drawn from `random` (a draw of `Math.random()`). */
  function SimulatedValue(totalCost: real, random: real, daysAgo: nat): real
  {
    var variance := 1.0 + (random - 0.5) * 0.2;
    totalCost * variance * (1.0 + (Days - daysAgo) as real / Days as real * 0.1)
  }

  /** For a non-negative cost basis and a draw in [0, 1), the simulated value lies within ±10% of
      the trend line, and the trend line between the cost basis and 10% above it. */
  lemma SimulatedValueWithinTenPercent(totalCost: real, random: real, daysAgo: nat)
    requires totalCost >= 0.0 && 0.0 <= random < 1.0 && daysAgo <= Days
    ensures var trend := totalCost * (1.0 + (Days - daysAgo) as real / Days as real * 0.1);
      && totalCost <= trend <= totalCost * 1.1
      && trend * 0.9 <= SimulatedValue(totalCost, random, daysAgo) <= trend * 1.1
  {
    var f := 1.0 + (Days - daysAgo) as real / Days as real * 0.1;
    var variance := 1.0 + (random - 0.5) * 0.2;
    assert 1.0 <= f <= 1.1;
    assert 0.9 <= variance <= 1.1;
    var trend := totalCost * f;
    assert SimulatedValue(totalCost, random, daysAgo) == trend * variance;
    ProductNonNegative(totalCost, f);
    ProductNonNegative(trend, variance - 0.9);
    ProductNonNegative(trend, 1.1 - variance);
    ProductNonNegative(totalCost, f - 1.0);
    ProductNonNegative(totalCost, 1.1 - f);
  }

  lemma ProductNonNegative(x: real, y: real)
    requires x >= 0.0 && y >= 0.0
    ensures x * y >= 0.0
  {
  }

  /** `generateHistoricalData`: 31 points from 30 days ago to today, all with the cost basis as
      `cost`; every point but the last carries a simulated value, and today's carries the live value.
      `randoms` are the successive draws of `Math.random()`. */
  method GenerateHistoricalData(totalValue: real, totalCost: real, randoms: seq<real>) returns (data: seq<HistoryPoint>)
    requires |randoms| == Days + 1
    ensures |data| == Days + 1
    ensures forall k :: 0 <= k < |data| ==> data[k].cost == totalCost && data[k].daysAgo == Days - k
    ensures forall k :: 0 <= k < Days ==> data[k].value == SimulatedValue(totalCost, randoms[k], Days - k)
    ensures data[Days].value == totalValue
  {
    data := [];
    var i: int := Days;
    while i >= 0
      invariant -1 <= i <= Days
      invariant |data| == Days - i
      invariant forall k :: 0 <= k < |data| ==>
        data[k] == HistoryPoint(Days - k, SimulatedValue(totalCost, randoms[k], Days - k), totalCost)
    {
      data := data + [HistoryPoint(i, SimulatedValue(totalCost, randoms[Days - i], i), totalCost)];
      i := i - 1;
    }
    data := data[Days := data[Days].(value := totalValue)];
  }
}
