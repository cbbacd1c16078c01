/**
 * The Monte Carlo layer of the simulator: `getGrowthRate`, `getTotalIncome`,
 * `createSummary`, `runMultipulSimulation` and the pooling of the
 * per-chart summaries in `runSimulation`.
 *
 * An economy chart names one business-cycle correction per macro period;
 * one iteration builds fresh assets and runs a `PERIOD`-day short
 * simulation per period, in chart order, on the same assets. A summary
 * adds up, over the iterations, the final amounts of all assets and the
 * final price of each asset.
 */
module Aggregation {
  import opened Sums
  import opened Config
  import opened Wrappers
  import opened Assets
  import opened ShortSimulation

  /** An economy chart: its label and the business-cycle correction of each macro period. */
  datatype EconomyChart = EconomyChart(name: string, periods: seq<real>)

  /** `Math.round` on a real: the nearest integer, halves rounded up. */
  function Round(x: real): (r: int)
    ensures r as real - 0.5 <= x < r as real + 0.5
  {
    (x + 0.5).Floor
  }

  /**
   * `getGrowthRate`: the growth from `first` to `current`, in whole percent.
   * A zero `first` gives no number (the source divides by zero).
   */
  function GetGrowthRate(current: real, first: real): (r: Option<int>)
    ensures r.None? <==> first == 0.0
    ensures r.Some? ==> r.value as real - 0.5 <= (current - first) / first * 100.0 < r.value as real + 0.5
  {
    if first == 0.0 then None else Some(Round((current - first) / first * 100.0))
  }

  /** No change is no growth, and doubling is 100% growth. */
  lemma GrowthRateExamples(first: real)
    requires first != 0.0
    ensures GetGrowthRate(first, first) == Some(0)
    ensures GetGrowthRate(2.0 * first, first) == Some(100)
  {
    assert (first - first) / first * 100.0 == 0.0;
    assert (2.0 * first - first) / first * 100.0 == 100.0;
  }

  /** For a positive starting value, more at the end never reports less growth. */
  lemma GrowthRateMonotone(c1: real, c2: real, first: real)
    requires 0.0 < first && c1 <= c2
    ensures GetGrowthRate(c1, first).value <= GetGrowthRate(c2, first).value
  {
    var x1 := (c1 - first) / first * 100.0;
    var x2 := (c2 - first) / first * 100.0;
    assert x1 <= x2 by {
      assert (c2 - first) / first - (c1 - first) / first == (c2 - c1) / first;
    }
  }

  /** `getTotalIncome`: the income paid in over `NUM_PERIODS` runs of `PERIOD` days. */
  function GetTotalIncome(): real
  {
    INCOME * PERIOD as real / 30.0 * NUM_PERIODS as real
  }

  /** The total income of a simulation: 25 a month for 180 months. */
  lemma TotalIncomeValue()
    ensures GetTotalIncome() == 4500.0
  {
  }

  /** `getTotalIncome()` counts one payment of `INCOME` on each income day of each of the `NUM_PERIODS` runs. */
  lemma TotalIncomeOfRuns()
    ensures GetTotalIncome() == NUM_PERIODS as real * (IncomeDays(PERIOD) as real * INCOME)
  {
    IncomeDaysOfWholeMonths(PERIOD);
  }

  /** The income credited over `k` runs of `PERIOD` days; the day counter restarts with each run. */
  function LifetimeIncome(ps: seq<Profile>, k: nat): real
  {
    if k == 0 then 0.0 else LifetimeIncome(ps, k - 1) + Income(ps, PERIOD)
  }

  /** With weights summing to 10, the income credited over `NUM_PERIODS` runs is `getTotalIncome()`. */
  lemma TotalIncomeCredited(ps: seq<Profile>)
    requires Sum(Weights(ps)) == 10.0
    ensures LifetimeIncome(ps, NUM_PERIODS) == GetTotalIncome()
  {
    IncomeOfRun(ps, PERIOD);
    TotalIncomeOfRuns();
    assert LifetimeIncome(ps, 1) == Income(ps, PERIOD);
    assert LifetimeIncome(ps, 2) == LifetimeIncome(ps, 1) + Income(ps, PERIOD);
    assert LifetimeIncome(ps, 3) == LifetimeIncome(ps, 2) + Income(ps, PERIOD);
  }

  /** Stream values one `PERIOD`-day short simulation uses. */
  function Span(ps: seq<Profile>): nat
  {
    Offset(0, PERIOD, Trials(ps))
  }

  /** Stream values one iteration over the chart `periods` uses. */
  function LifeSpan(ps: seq<Profile>, periods: seq<real>): nat
  {
    Offset(0, |periods|, Span(ps))
  }

  /** The book after a short simulation of `PERIOD` days for each period of the chart, in order. */
  function Periods(ps: seq<Profile>, b: Book, periods: seq<real>, rand: nat -> real, start: nat): (r: Book)
    requires Fits(ps, b)
    ensures Fits(ps, r)
  {
    if |periods| == 0 then b
    else
      var n := |periods| - 1;
      ShortSim(ps, Periods(ps, b, periods[..n], rand, start), PERIOD, PERIOD, REBALANCE_INTERVAL,
               periods[n], rand, Offset(start, n, Span(ps)))
  }

  /** Period `j` of a chart runs on the book the periods before it leave, from its own stretch of the stream. */
  lemma PeriodsStep(ps: seq<Profile>, b: Book, periods: seq<real>, rand: nat -> real, start: nat, j: nat)
    requires Fits(ps, b) && j < |periods|
    ensures Periods(ps, b, periods[..j + 1], rand, start)
         == ShortSim(ps, Periods(ps, b, periods[..j], rand, start), Iterations(PERIOD), PERIOD, REBALANCE_INTERVAL,
                     periods[j], rand, Offset(start, j, Span(ps)))
  {
    assert periods[..j + 1][..j] == periods[..j];
  }

  /** A `PERIOD`-day short simulation from position `x` ends `Span(ps)` values on. */
  lemma SpanAfter(ps: seq<Profile>, x: nat)
    ensures Offset(x, Iterations(PERIOD), Trials(ps)) == x + Span(ps)
  {
  }

  /** What `createAssets` builds: nothing invested, every price at `FIRST_CHART_PRICE`. */
  function InitialBook(n: nat): (b: Book)
    ensures |b.amounts| == n && |b.prices| == n
  {
    Book(Fill(n, 0.0), Fill(n, FIRST_CHART_PRICE))
  }

  /** The book at the end of one iteration over the chart `periods`. */
  function Lifetime(ps: seq<Profile>, periods: seq<real>, rand: nat -> real, start: nat): (r: Book)
    ensures Fits(ps, r)
  {
    Periods(ps, InitialBook(|ps|), periods, rand, start)
  }

  /** The books at the end of iterations `0..n-1`; each iteration reads from its own stretch of the stream. */
  function Lifetimes(ps: seq<Profile>, periods: seq<real>, rand: nat -> real, start: nat, n: nat): (bs: seq<Book>)
    ensures |bs| == n
    ensures forall k :: 0 <= k < n ==> bs[k] == Lifetime(ps, periods, rand, Offset(start, k, LifeSpan(ps, periods)))
  {
    seq(n, k requires 0 <= k < n => Lifetime(ps, periods, rand, Offset(start, k, LifeSpan(ps, periods))))
  }

  /** The amounts of all the books, summed. */
  function TotalOf(bs: seq<Book>): real
  {
    if |bs| == 0 then 0.0 else TotalOf(bs[..|bs| - 1]) + Sum(bs[|bs| - 1].amounts)
  }

  /** The price lists of the books, summed element-wise. */
  function PricesOf(bs: seq<Book>, width: nat): (r: seq<real>)
    requires forall k :: 0 <= k < |bs| ==> |bs[k].prices| == width
    ensures |r| == width
  {
    if |bs| == 0 then Fill(width, 0.0) else Plus(PricesOf(bs[..|bs| - 1], width), bs[|bs| - 1].prices)
  }

  /** `summary.total` after `n` iterations. */
  function MultiTotal(ps: seq<Profile>, periods: seq<real>, rand: nat -> real, start: nat, n: nat): real
  {
    TotalOf(Lifetimes(ps, periods, rand, start, n))
  }

  /** `summary.lastChartPrices` after `n` iterations. */
  function MultiPrices(ps: seq<Profile>, periods: seq<real>, rand: nat -> real, start: nat, n: nat): (r: seq<real>)
    ensures |r| == |ps|
  {
    PricesOf(Lifetimes(ps, periods, rand, start, n), |ps|)
  }

  /** Iteration `n` adds its final amounts to the total and its final prices to the price list. */
  lemma MultiStep(ps: seq<Profile>, periods: seq<real>, rand: nat -> real, start: nat, n: nat)
    ensures MultiTotal(ps, periods, rand, start, n + 1)
         == MultiTotal(ps, periods, rand, start, n) + Sum(Lifetime(ps, periods, rand, Offset(start, n, LifeSpan(ps, periods))).amounts)
    ensures MultiPrices(ps, periods, rand, start, n + 1)
         == Plus(MultiPrices(ps, periods, rand, start, n), Lifetime(ps, periods, rand, Offset(start, n, LifeSpan(ps, periods))).prices)
  {
    var bs := Lifetimes(ps, periods, rand, start, n + 1);
    assert bs[..n] == Lifetimes(ps, periods, rand, start, n);
  }

  /** Stream values the first `k` charts use, `numLoop` iterations each. */
  function ChartsSpan(ps: seq<Profile>, charts: seq<EconomyChart>, numLoop: nat, k: nat): nat
    requires k <= |charts|
  {
    if k == 0 then 0
    else ChartsSpan(ps, charts, numLoop, k - 1) + Offset(0, numLoop, LifeSpan(ps, charts[k - 1].periods))
  }

  /** The pooled total of the first `k` charts: the totals of their summaries, summed. */
  function PoolTotal(ps: seq<Profile>, charts: seq<EconomyChart>, numLoop: nat, rand: nat -> real, start: nat, k: nat): real
    requires k <= |charts|
  {
    if k == 0 then 0.0
    else
      PoolTotal(ps, charts, numLoop, rand, start, k - 1)
        + MultiTotal(ps, charts[k - 1].periods, rand, start + ChartsSpan(ps, charts, numLoop, k - 1), numLoop)
  }

  /** The pooled prices of the first `k` charts: the price lists of their summaries, summed element-wise. */
  function PoolPrices(ps: seq<Profile>, charts: seq<EconomyChart>, numLoop: nat, rand: nat -> real, start: nat, k: nat): (r: seq<real>)
    requires k <= |charts|
    ensures |r| == |ps|
  {
    if k == 0 then Fill(|ps|, 0.0)
    else
      Plus(PoolPrices(ps, charts, numLoop, rand, start, k - 1),
           MultiPrices(ps, charts[k - 1].periods, rand, start + ChartsSpan(ps, charts, numLoop, k - 1), numLoop))
  }

  /** Chart `j` reads the stream right after the values of the charts before it. */
  lemma SpanStep(ps: seq<Profile>, charts: seq<EconomyChart>, numLoop: nat, start: nat, j: nat, next: nat, next': nat)
    requires j < |charts|
    requires next == start + ChartsSpan(ps, charts, numLoop, j)
    requires next' == next + Offset(0, numLoop, LifeSpan(ps, charts[j].periods))
    ensures next' == start + ChartsSpan(ps, charts, numLoop, j + 1)
  {
  }

  /** Adding chart `j`'s total to the pooled total of the charts before it gives that of the first `j + 1`. */
  lemma PoolTotalStep(ps: seq<Profile>, charts: seq<EconomyChart>, numLoop: nat, rand: nat -> real, start: nat, j: nat,
                      next: nat, total: real, total': real)
    requires j < |charts|
    requires next == start + ChartsSpan(ps, charts, numLoop, j)
    requires total == PoolTotal(ps, charts, numLoop, rand, start, j)
    requires total' == total + MultiTotal(ps, charts[j].periods, rand, next, numLoop)
    ensures total' == PoolTotal(ps, charts, numLoop, rand, start, j + 1)
  {
  }

  /** Iterations starting at equal positions of the stream end with equal prices. */
  lemma MultiPricesAt(ps: seq<Profile>, periods: seq<real>, rand: nat -> real, x: nat, y: nat, n: nat)
    requires x == y
    ensures MultiPrices(ps, periods, rand, x, n) == MultiPrices(ps, periods, rand, y, n)
  {
  }

  /** Adding chart `j`'s prices `multi` to the pooled prices of the charts before it gives those of the first `j + 1`. */
  lemma PoolPricesStep(ps: seq<Profile>, charts: seq<EconomyChart>, numLoop: nat, rand: nat -> real, start: nat, j: nat,
                       prices: seq<real>, multi: seq<real>, prices': seq<real>)
    requires j < |charts|
    requires prices == PoolPrices(ps, charts, numLoop, rand, start, j)
    requires multi == MultiPrices(ps, charts[j].periods, rand, start + ChartsSpan(ps, charts, numLoop, j), numLoop)
    requires prices' == Plus(prices, multi)
    ensures prices' == PoolPrices(ps, charts, numLoop, rand, start, j + 1)
  {
  }

  /** A summary of simulation results: the money and the prices reached, summed over iterations. */
  class Summary {
    const name: string
    /** The weights pattern the summary is for (`null` in the source when none is given). */
    const balance: Option<seq<real>>
    var total: real
    var lastChartPrices: seq<real>

    /** `createSummary`: nothing summed yet, one zero price slot per asset `createAssets` builds. */
    constructor (name: string, balance: Option<seq<real>>)
      ensures this.name == name && this.balance == balance
      ensures total == 0.0
      ensures lastChartPrices == Fill(NUM_ASSETS, 0.0)
    {
      var probe := CreateAssets(None);
      this.name := name;
      this.balance := balance;
      total := 0.0;
      lastChartPrices := Fill(|probe|, 0.0);
    }

    /** The loop that closes an iteration of `runMultipulSimulation`: add the assets' amounts and prices in. */
    method Accumulate(assets: seq<Asset>)
      requires |lastChartPrices| == |assets|
      modifies this
      ensures total == old(total) + Sum(Amounts(assets))
      ensures lastChartPrices == Plus(old(lastChartPrices), Prices(assets))
    {
      var sum, prices := total, lastChartPrices;
      var i := 0;
      while i < |assets|
        invariant 0 <= i <= |assets|
        invariant |prices| == |assets|
        invariant sum == total + Sum(Amounts(assets)[..i])
        invariant forall k :: 0 <= k < i ==> prices[k] == lastChartPrices[k] + assets[k].lastChartPrice
        invariant forall k :: i <= k < |assets| ==> prices[k] == lastChartPrices[k]
      {
        assert Amounts(assets)[..i + 1][..i] == Amounts(assets)[..i];
        sum := sum + assets[i].amount;
        prices := prices[i := prices[i] + assets[i].lastChartPrice];
        i := i + 1;
      }
      assert Amounts(assets)[..|assets|] == Amounts(assets);
      PlusIs(prices, lastChartPrices, Prices(assets));
      total, lastChartPrices := sum, prices;
    }

    /**
     * The pooling step of `runSimulation`: add another summary's total and
     * prices in. Adding a summary to itself doubles it, as in the source.
     */
    method Add(sub: Summary)
      requires |sub.lastChartPrices| == |lastChartPrices|
      modifies this
      ensures total == old(total) + old(sub.total)
      ensures lastChartPrices == Plus(old(lastChartPrices), old(sub.lastChartPrices))
    {
      total := total + sub.total;
      ghost var prices0 := lastChartPrices;
      ghost var subPrices := sub.lastChartPrices;
      var i := 0;
      while i < |sub.lastChartPrices|
        invariant 0 <= i <= |prices0|
        invariant total == old(total) + old(sub.total)
        invariant |lastChartPrices| == |prices0| && |sub.lastChartPrices| == |prices0|
        invariant forall k :: 0 <= k < i ==> lastChartPrices[k] == prices0[k] + subPrices[k]
        invariant forall k :: i <= k < |prices0| ==> lastChartPrices[k] == prices0[k] && sub.lastChartPrices[k] == subPrices[k]
      {
        lastChartPrices := lastChartPrices[i := lastChartPrices[i] + sub.lastChartPrices[i]];
        i := i + 1;
      }
      assert lastChartPrices == Plus(prices0, subPrices);
    }
  }

  /** The `forEach` over a chart in `runMultipulSimulation`: one `PERIOD`-day short simulation per period. */
  method RunPeriods(assets: seq<Asset>, periods: seq<real>, rand: nat -> real, start: nat) returns (next: nat)
    requires Distinct(assets)
    requires UnitStream(rand)
    modifies Elements(assets)`amount, Elements(assets)`lastChartPrice
    ensures Profiles(assets) == old(Profiles(assets))
    ensures BookOf(assets) == Periods(Profiles(assets), old(BookOf(assets)), periods, rand, start)
    ensures next == start + LifeSpan(Profiles(assets), periods)
  {
    ghost var ps := Profiles(assets);
    ghost var b0 := BookOf(assets);
    next := start;
    var j := 0;
    while j < |periods|
      invariant 0 <= j <= |periods|
      invariant Profiles(assets) == ps
      invariant next == Offset(start, j, Span(ps))
      invariant BookOf(assets) == Periods(ps, b0, periods[..j], rand, start)
    {
      PeriodsStep(ps, b0, periods, rand, start, j);
      SpanAfter(ps, next);
      OffsetStep(start, j, Span(ps));
      next := RunShortSimulation(PERIOD, assets, REBALANCE_INTERVAL, periods[j], rand, next);
      j := j + 1;
    }
    assert periods[..|periods|] == periods;
  }

  /** The close of an iteration: the assets, whose final book is `life`, are added into `summary`. */
  method AddLifetime(summary: Summary, assets: seq<Asset>, ghost life: Book)
    requires BookOf(assets) == life
    requires |summary.lastChartPrices| == |assets|
    modifies summary
    ensures summary.total == old(summary.total) + Sum(life.amounts)
    ensures summary.lastChartPrices == Plus(old(summary.lastChartPrices), life.prices)
  {
    summary.Accumulate(assets);
    assert BookOf(assets) == life;
  }

  /**
   * One pass of the `for` loop of `runMultipulSimulation`: fresh assets run
   * through every period of the chart, then are added into `summary`.
   */
  method RunIteration(summary: Summary, periods: seq<real>, balances: Option<seq<real>>,
                      rand: nat -> real, start: nat) returns (next: nat)
    requires FitsAssets(balances)
    requires UnitStream(rand)
    requires |summary.lastChartPrices| == NUM_ASSETS
    modifies summary
    ensures summary.total == old(summary.total) + Sum(Lifetime(InitialProfiles(balances), periods, rand, start).amounts)
    ensures summary.lastChartPrices
         == Plus(old(summary.lastChartPrices), Lifetime(InitialProfiles(balances), periods, rand, start).prices)
    ensures next == start + LifeSpan(InitialProfiles(balances), periods)
  {
    var assets := CreateAssets(balances);
    ghost var ps := InitialProfiles(balances);
    assert BookOf(assets) == InitialBook(|ps|);
    next := RunPeriods(assets, periods, rand, start);
    AddLifetime(summary, assets, Lifetime(ps, periods, rand, start));
  }

  /**
   * `runMultipulSimulation`: `numLoop` iterations, each on fresh assets with
   * the weights `balances`, summed into a new summary.
   */
  method RunMultipulSimulation(chart: EconomyChart, balances: Option<seq<real>>, numLoop: int,
                               rand: nat -> real, start: nat) returns (summary: Summary, next: nat)
    requires FitsAssets(balances)
    requires UnitStream(rand)
    ensures fresh(summary)
    ensures summary.name == chart.name && summary.balance == balances
    ensures summary.total == MultiTotal(InitialProfiles(balances), chart.periods, rand, start, Iterations(numLoop))
    ensures summary.lastChartPrices == MultiPrices(InitialProfiles(balances), chart.periods, rand, start, Iterations(numLoop))
    ensures next == Offset(start, Iterations(numLoop), LifeSpan(InitialProfiles(balances), chart.periods))
  {
    ghost var ps := InitialProfiles(balances);
    summary := new Summary(chart.name, balances);
    next := start;
    var num := 0;
    while num < numLoop
      invariant 0 <= num <= Iterations(numLoop)
      invariant fresh(summary)
      invariant summary.name == chart.name && summary.balance == balances
      invariant |summary.lastChartPrices| == NUM_ASSETS
      invariant summary.total == MultiTotal(ps, chart.periods, rand, start, num)
      invariant summary.lastChartPrices == MultiPrices(ps, chart.periods, rand, start, num)
      invariant next == Offset(start, num, LifeSpan(ps, chart.periods))
    {
      next := RunIteration(summary, chart.periods, balances, rand, next);
      MultiStep(ps, chart.periods, rand, start, num);
      OffsetStep(start, num, LifeSpan(ps, chart.periods));
      num := num + 1;
    }
    assert num == Iterations(numLoop);
  }

  /** One pass of the pooling loop: run `chart` and add its summary into `all`. */
  method PoolChart(all: Summary, chart: EconomyChart, balances: Option<seq<real>>, numLoop: int,
                   rand: nat -> real, start: nat) returns (next: nat)
    requires FitsAssets(balances)
    requires UnitStream(rand)
    requires |all.lastChartPrices| == NUM_ASSETS
    modifies all
    ensures all.total == old(all.total) + MultiTotal(InitialProfiles(balances), chart.periods, rand, start, Iterations(numLoop))
    ensures all.lastChartPrices
         == Plus(old(all.lastChartPrices), MultiPrices(InitialProfiles(balances), chart.periods, rand, start, Iterations(numLoop)))
    ensures next == start + Offset(0, Iterations(numLoop), LifeSpan(InitialProfiles(balances), chart.periods))
  {
    var sub;
    sub, next := RunMultipulSimulation(chart, balances, numLoop, rand, start);
    all.Add(sub);
  }

  /**
   * The pooling loop of `runSimulation` for one weights pattern: run every
   * chart and add each chart's summary into one overall summary.
   */
  method PoolSummaries(charts: seq<EconomyChart>, balances: Option<seq<real>>, numLoop: int,
                       rand: nat -> real, start: nat) returns (all: Summary, next: nat)
    requires FitsAssets(balances)
    requires UnitStream(rand)
    ensures fresh(all)
    ensures all.name == "全平均" && all.balance == balances
    ensures all.total == PoolTotal(InitialProfiles(balances), charts, Iterations(numLoop), rand, start, |charts|)
    ensures all.lastChartPrices == PoolPrices(InitialProfiles(balances), charts, Iterations(numLoop), rand, start, |charts|)
    ensures next == start + ChartsSpan(InitialProfiles(balances), charts, Iterations(numLoop), |charts|)
  {
    ghost var ps := InitialProfiles(balances);
    ghost var loops := Iterations(numLoop);
    all := new Summary("全平均", balances);
    next := start;
    var j := 0;
    while j < |charts|
      invariant 0 <= j <= |charts|
      invariant fresh(all)
      invariant all.name == "全平均" && all.balance == balances
      invariant |all.lastChartPrices| == NUM_ASSETS
      invariant all.total == PoolTotal(ps, charts, loops, rand, start, j)
      invariant all.lastChartPrices == PoolPrices(ps, charts, loops, rand, start, j)
      invariant next == start + ChartsSpan(ps, charts, loops, j)
    {
      ghost var total, prices, before := all.total, all.lastChartPrices, next;
      next := PoolChart(all, charts[j], balances, numLoop, rand, next);
      SpanStep(ps, charts, loops, start, j, before, next);
      PoolTotalStep(ps, charts, loops, rand, start, j, before, total, all.total);
      MultiPricesAt(ps, charts[j].periods, rand, before, start + ChartsSpan(ps, charts, loops, j), loops);
      PoolPricesStep(ps, charts, loops, rand, start, j, prices, MultiPrices(ps, charts[j].periods, rand, before, loops), all.lastChartPrices);
      j := j + 1;
    }
  }

  /** The assets `createAssets` builds can move: no flat-market lemma below applies to them. */
  lemma CreatedAssetsMove(balances: Option<seq<real>>)
    requires FitsAssets(balances)
    ensures !Flat(InitialProfiles(balances))
  {
    assert InitialProfiles(balances)[0].updown == 6.0;
  }

  /** A running sum that has added `x` `n - 1` times and then once more holds `n` copies of `x`. */
  lemma MulStep(n: nat, x: real, before: real, after: real)
    requires n > 0
    requires before == (n - 1) as real * x && after == before + x
    ensures after == n as real * x
  {
  }

  /** With prices that cannot move and weights summing to 10, the chart's runs only add their income. */
  lemma {:induction false} FlatPeriods(ps: seq<Profile>, b: Book, periods: seq<real>, rand: nat -> real, start: nat)
    requires Fits(ps, b) && Flat(ps)
    requires Sum(Weights(ps)) == 10.0
    ensures Periods(ps, b, periods, rand, start).prices == b.prices
    ensures Sum(Periods(ps, b, periods, rand, start).amounts) == Sum(b.amounts) + LifetimeIncome(ps, |periods|)
  {
    if |periods| > 0 {
      var n := |periods| - 1;
      var before := Periods(ps, b, periods[..n], rand, start);
      FlatPeriods(ps, b, periods[..n], rand, start);
      FlatShortSim(ps, before, PERIOD, PERIOD, REBALANCE_INTERVAL, periods[n], rand, Offset(start, n, Span(ps)));
    }
  }

  /**
   * With prices that cannot move, weights summing to 10 and `NUM_PERIODS`
   * periods, an iteration ends holding exactly `getTotalIncome()`, every
   * price still at `FIRST_CHART_PRICE`.
   */
  lemma FlatLifetime(ps: seq<Profile>, periods: seq<real>, rand: nat -> real, start: nat)
    requires Flat(ps) && Sum(Weights(ps)) == 10.0
    requires |periods| == NUM_PERIODS
    ensures Sum(Lifetime(ps, periods, rand, start).amounts) == GetTotalIncome()
    ensures Lifetime(ps, periods, rand, start).prices == Fill(|ps|, FIRST_CHART_PRICE)
  {
    FlatPeriods(ps, InitialBook(|ps|), periods, rand, start);
    SumFill(|ps|, 0.0);
    TotalIncomeCredited(ps);
  }

  /** Every book holds `g` in total and `p` in each of its `width` price slots. */
  predicate AllSteady(bs: seq<Book>, width: nat, g: real, p: real)
  {
    forall k :: 0 <= k < |bs| ==> Sum(bs[k].amounts) == g && bs[k].prices == Fill(width, p)
  }

  /** Books that each hold `g` in total add up to `n` times `g`. */
  lemma {:induction false} SteadyTotal(bs: seq<Book>, n: nat, width: nat, g: real, p: real)
    requires |bs| == n && AllSteady(bs, width, g, p)
    ensures TotalOf(bs) == n as real * g
  {
    if n > 0 {
      var front := bs[..n - 1];
      assert forall k :: 0 <= k < n - 1 ==> front[k] == bs[k];
      SteadyTotal(front, n - 1, width, g, p);
      MulStep(n, g, TotalOf(front), TotalOf(bs));
    }
  }

  /** Books with `p` in price slot `i` add up to `n` times `p` in that slot. */
  lemma {:induction false} SteadySlot(bs: seq<Book>, n: nat, width: nat, g: real, p: real, i: nat)
    requires |bs| == n && AllSteady(bs, width, g, p) && i < width
    ensures forall k :: 0 <= k < n ==> |bs[k].prices| == width
    ensures PricesOf(bs, width)[i] == n as real * p
  {
    if n > 0 {
      var front := bs[..n - 1];
      assert forall k :: 0 <= k < n - 1 ==> front[k] == bs[k];
      SteadySlot(front, n - 1, width, g, p, i);
      assert bs[n - 1].prices[i] == p;
      MulStep(n, p, PricesOf(front, width)[i], PricesOf(bs, width)[i]);
    }
  }

  /** Books with `p` in each of their `width` price slots add up to `n` times `p` in every slot. */
  lemma SteadyPrices(bs: seq<Book>, n: nat, width: nat, g: real, p: real)
    requires |bs| == n && AllSteady(bs, width, g, p)
    ensures forall k :: 0 <= k < n ==> |bs[k].prices| == width
    ensures PricesOf(bs, width) == Fill(width, n as real * p)
  {
    forall i | 0 <= i < width
      ensures PricesOf(bs, width)[i] == n as real * p
    {
      SteadySlot(bs, n, width, g, p, i);
    }
  }

  /** In a flat market with weights summing to 10 and `NUM_PERIODS` periods, every iteration's book is the same. */
  lemma FlatLifetimes(ps: seq<Profile>, periods: seq<real>, rand: nat -> real, start: nat, n: nat)
    requires Flat(ps) && Sum(Weights(ps)) == 10.0
    requires |periods| == NUM_PERIODS
    ensures AllSteady(Lifetimes(ps, periods, rand, start, n), |ps|, GetTotalIncome(), FIRST_CHART_PRICE)
  {
    var bs := Lifetimes(ps, periods, rand, start, n);
    forall k | 0 <= k < n
      ensures Sum(bs[k].amounts) == GetTotalIncome() && bs[k].prices == Fill(|ps|, FIRST_CHART_PRICE)
    {
      FlatLifetime(ps, periods, rand, Offset(start, k, LifeSpan(ps, periods)));
    }
  }

  /** Equal amounts make equal multiples. */
  lemma MulCongruent(n: nat, x: real, y: real)
    requires x == y
    ensures n as real * x == n as real * y
  {
  }

  /** Iterations that all end with the same book contents sum to `n` copies of them. */
  lemma SteadyMulti(ps: seq<Profile>, periods: seq<real>, rand: nat -> real, start: nat, n: nat, g: real, p: real)
    requires AllSteady(Lifetimes(ps, periods, rand, start, n), |ps|, g, p)
    ensures MultiTotal(ps, periods, rand, start, n) == n as real * g
    ensures MultiPrices(ps, periods, rand, start, n) == Fill(|ps|, n as real * p)
  {
    SteadyTotal(Lifetimes(ps, periods, rand, start, n), n, |ps|, g, p);
    SteadyPrices(Lifetimes(ps, periods, rand, start, n), n, |ps|, g, p);
  }

  /**
   * In the same flat market, `n` iterations sum to `n` times `getTotalIncome()`
   * and every price slot to `n` times `FIRST_CHART_PRICE`.
   */
  lemma FlatMulti(ps: seq<Profile>, periods: seq<real>, rand: nat -> real, start: nat, n: nat)
    requires Flat(ps) && Sum(Weights(ps)) == 10.0
    requires |periods| == NUM_PERIODS
    ensures MultiTotal(ps, periods, rand, start, n) == n as real * GetTotalIncome()
    ensures MultiPrices(ps, periods, rand, start, n) == Fill(|ps|, n as real * FIRST_CHART_PRICE)
  {
    var g := GetTotalIncome();
    FlatLifetimes(ps, periods, rand, start, n);
    SteadyMulti(ps, periods, rand, start, n, g, FIRST_CHART_PRICE);
    MulCongruent(n, g, GetTotalIncome());
  }
}
