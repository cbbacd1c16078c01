/**
 * One macro period of the simulation (`runShortSimulation`): every day each
 * asset's amount and price move by the same random rate, income is paid in
 * every 30th day, and the portfolio is rebalanced on schedule.
 *
 * The `Math.random()` values are a stream `rand` indexed from a start
 * position. A day consumes `Trials(ps)` values (each asset takes
 * `max(1, volatility)` of them, in asset order), so day `d` of a run that
 * starts at `start` reads from `start + d * Trials(ps)`.
 */
module ShortSimulation {
  import opened Sums
  import opened Config
  import opened DailyReturn
  import opened Assets

  /** The amount and price of every asset: the part of the state a day changes. */
  datatype Book = Book(amounts: seq<real>, prices: seq<real>)

  ghost function BookOf(assets: seq<Asset>): (b: Book)
    reads Elements(assets)`amount, Elements(assets)`lastChartPrice
    ensures b.amounts == Amounts(assets) && b.prices == Prices(assets)
  {
    Book(Amounts(assets), Prices(assets))
  }

  /** A book with one amount and one price per profile. */
  predicate Fits(ps: seq<Profile>, b: Book)
  {
    |b.amounts| == |ps| && |b.prices| == |ps|
  }

  /** Every value of the stream lies in [0, 1). */
  ghost predicate UnitStream(rand: nat -> real)
  {
    forall k: nat :: 0.0 <= rand(k) < 1.0
  }

  /** The `n` stream values from position `start` on. */
  function Window(rand: nat -> real, start: nat, n: nat): (w: seq<real>)
    ensures |w| == n
    ensures forall k :: 0 <= k < n ==> w[k] == rand(start + k)
  {
    seq(n, k requires 0 <= k < n => rand(start + k))
  }

  lemma WindowIsUnit(rand: nat -> real, start: nat, n: nat)
    requires UnitStream(rand)
    ensures UnitSamples(Window(rand, start, n))
  {
  }

  /** Stream values one day consumes: `max(1, volatility)` per asset. */
  function Trials(ps: seq<Profile>): nat
  {
    if |ps| == 0 then 0 else Trials(ps[..|ps| - 1]) + NumTrials(ps[|ps| - 1].volatility)
  }

  /** The multiplier `getUpdownRate(...) / 100 + 1` of one asset. */
  function Rate(p: Profile, keikiHosei: real, draws: seq<real>): real
    requires |draws| == NumTrials(p.volatility)
  {
    UpdownRate(keikiHosei, p.updown, p.volatility, p.positive, draws) / 100.0 + 1.0
  }

  /** The day's multiplier of every asset; asset `i` reads after the values assets `0..i-1` used. */
  function DayRates(ps: seq<Profile>, keikiHosei: real, rand: nat -> real, start: nat): (r: seq<real>)
    ensures |r| == |ps|
  {
    if |ps| == 0 then []
    else
      var n := |ps| - 1;
      DayRates(ps[..n], keikiHosei, rand, start)
        + [Rate(ps[n], keikiHosei, Window(rand, start + Trials(ps[..n]), NumTrials(ps[n].volatility)))]
  }

  /** Asset `i`'s multiplier is drawn from the window right after the values of assets `0..i-1`. */
  lemma {:induction false} DayRateAt(ps: seq<Profile>, keikiHosei: real, rand: nat -> real, start: nat, i: nat)
    requires i < |ps|
    ensures DayRates(ps, keikiHosei, rand, start)[i]
         == Rate(ps[i], keikiHosei, Window(rand, start + Trials(ps[..i]), NumTrials(ps[i].volatility)))
  {
    var n := |ps| - 1;
    if i < n {
      var front := ps[..n];
      assert front[i] == ps[i];
      assert front[..i] == ps[..i];
      DayRateAt(front, keikiHosei, rand, start, i);
    }
  }

  /** Income is paid in on day 0 and every 30th day after it. */
  predicate IsIncomeDay(day: int)
  {
    day % INCOME_INTERVAL == 0
  }

  /**
   * Rebalance on a multiple of `interval` or on the last day, never on day 0.
   * `day % 0` is NaN in the source, which never equals 0.
   */
  predicate IsRebalanceDay(day: int, days: int, interval: int)
  {
    day != 0 && ((interval != 0 && day % interval == 0) || day == days - 1)
  }

  /** The income credited on `day`: the monthly income split by weight, summed. */
  function DayIncome(ps: seq<Profile>, day: int): real
  {
    if IsIncomeDay(day) then Sum(Split(Weights(ps), INCOME)) else 0.0
  }

  /** One day: grow by the day's rates, pay in income, rebalance, in that order. */
  function Day(ps: seq<Profile>, b: Book, day: int, days: int, interval: int,
               keikiHosei: real, rand: nat -> real, start: nat): (r: Book)
    requires Fits(ps, b)
    ensures Fits(ps, r)
  {
    var rates := DayRates(ps, keikiHosei, rand, start);
    var grown := Scale(b.amounts, rates);
    var funded := if IsIncomeDay(day) then Plus(grown, Split(Weights(ps), INCOME)) else grown;
    var settled := if IsRebalanceDay(day, days, interval) then Split(Weights(ps), Sum(funded)) else funded;
    Book(settled, Scale(b.prices, rates))
  }

  /** The stream position `d` blocks of `t` values after `start`. */
  function Offset(start: nat, d: nat, t: nat): nat
  {
    start + d * t
  }

  /** One more block of `t` values moves the position on by `t`. */
  lemma OffsetStep(start: nat, d: nat, t: nat)
    ensures Offset(start, d + 1, t) == Offset(start, d, t) + t
  {
  }

  /** The book after the first `n` days of a run of `days` days. */
  function ShortSim(ps: seq<Profile>, b: Book, n: nat, days: int, interval: int,
                    keikiHosei: real, rand: nat -> real, start: nat): (r: Book)
    requires Fits(ps, b)
    ensures Fits(ps, r)
  {
    if n == 0 then b
    else Day(ps, ShortSim(ps, b, n - 1, days, interval, keikiHosei, rand, start), n - 1, days, interval,
             keikiHosei, rand, Offset(start, n - 1, Trials(ps)))
  }

  /** Day `n` runs on the book the days before it leave, from its own stretch of the stream. */
  lemma ShortSimStep(ps: seq<Profile>, b: Book, n: nat, days: int, interval: int,
                     keikiHosei: real, rand: nat -> real, start: nat)
    requires Fits(ps, b)
    ensures ShortSim(ps, b, n + 1, days, interval, keikiHosei, rand, start)
         == Day(ps, ShortSim(ps, b, n, days, interval, keikiHosei, rand, start), n, days, interval,
                keikiHosei, rand, Offset(start, n, Trials(ps)))
  {
  }

  /** The number of days the `for` loop of `runShortSimulation` runs. */
  function Iterations(days: int): nat
  {
    if days < 0 then 0 else days
  }

  /** The number of income days among days `0..n-1`. */
  function IncomeDays(n: nat): nat
  {
    if n == 0 then 0 else IncomeDays(n - 1) + (if IsIncomeDay(n - 1) then 1 else 0)
  }

  /**
   * The rate of asset `i` of a portfolio with profiles `ps` whose day reads
   * from `dayStart`: `getUpdownRate(...) / 100 + 1` on the asset's share of
   * the stream, which starts at `start`.
   */
  method AssetRate(updown: real, volatility: int, positive: bool, keikiHosei: real, rand: nat -> real,
                   ghost ps: seq<Profile>, ghost i: nat, ghost dayStart: nat, start: nat)
      returns (rate: real, next: nat)
    requires UnitStream(rand)
    requires i < |ps| && ps[i].updown == updown && ps[i].volatility == volatility && ps[i].positive == positive
    requires start == dayStart + Trials(ps[..i])
    ensures next == dayStart + Trials(ps[..i + 1])
    ensures rate == DayRates(ps, keikiHosei, rand, dayStart)[i]
  {
    var trials := NumTrials(volatility);
    WindowIsUnit(rand, start, trials);
    var r := GetUpdownRate(keikiHosei, updown, volatility, positive, Window(rand, start, trials));
    rate := r / 100.0 + 1.0;
    next := start + trials;
    DayRateAt(ps, keikiHosei, rand, dayStart, i);
    assert ps[..i + 1][..i] == ps[..i];
  }

  /** Multiply asset `i`'s amount and price by `rate`, leaving every other asset as it was. */
  method GrowAsset(assets: seq<Asset>, i: nat, rate: real)
    requires Distinct(assets) && i < |assets|
    modifies {assets[i]}`amount, {assets[i]}`lastChartPrice
    ensures assets[i].amount == Moved(old(assets[i].amount), rate)
    ensures assets[i].lastChartPrice == Moved(old(assets[i].lastChartPrice), rate)
    ensures forall k :: 0 <= k < |assets| && k != i ==>
      assets[k].amount == old(assets[k].amount) && assets[k].lastChartPrice == old(assets[k].lastChartPrice)
  {
    assets[i].amount := Moved(assets[i].amount, rate);
    assets[i].lastChartPrice := Moved(assets[i].lastChartPrice, rate);
  }

  /**
   * The loop of the first `forEach` of a day, asset by asset: `ps` lists the
   * assets' parameters, and asset `k` moves by slot `k` of the day's rates.
   */
  method GrowEach(assets: seq<Asset>, keikiHosei: real, rand: nat -> real, start: nat, ghost ps: seq<Profile>)
    returns (next: nat)
    requires Distinct(assets) && UnitStream(rand) && |ps| == |assets|
    requires forall k :: 0 <= k < |assets| ==>
      ps[k].updown == assets[k].updown && ps[k].volatility == assets[k].volatility && ps[k].positive == assets[k].positive
    modifies Elements(assets)`amount, Elements(assets)`lastChartPrice
    ensures next == start + Trials(ps)
    ensures forall k :: 0 <= k < |assets| ==>
      assets[k].amount == Moved(old(assets[k].amount), DayRates(ps, keikiHosei, rand, start)[k])
      && assets[k].lastChartPrice == Moved(old(assets[k].lastChartPrice), DayRates(ps, keikiHosei, rand, start)[k])
  {
    ghost var rates := DayRates(ps, keikiHosei, rand, start);
    next := start;
    var i := 0;
    while i < |assets|
      invariant 0 <= i <= |assets|
      invariant next == start + Trials(ps[..i])
      invariant forall k :: 0 <= k < i ==>
        assets[k].amount == Moved(old(assets[k].amount), rates[k])
        && assets[k].lastChartPrice == Moved(old(assets[k].lastChartPrice), rates[k])
      invariant forall k :: i <= k < |assets| ==>
        assets[k].amount == old(assets[k].amount) && assets[k].lastChartPrice == old(assets[k].lastChartPrice)
    {
      var rate;
      rate, next := AssetRate(assets[i].updown, assets[i].volatility, assets[i].positive, keikiHosei, rand, ps, i, start, next);
      GrowAsset(assets, i, rate);
      i := i + 1;
    }
    assert ps[..|assets|] == ps;
  }

  /**
   * The first `forEach` of a day in `runShortSimulation`: multiply every
   * asset's amount and price by its rate for the day.
   */
  method GrowAll(assets: seq<Asset>, keikiHosei: real, rand: nat -> real, start: nat) returns (next: nat)
    requires Distinct(assets)
    requires UnitStream(rand)
    modifies Elements(assets)`amount, Elements(assets)`lastChartPrice
    ensures next == start + Trials(old(Profiles(assets)))
    ensures Amounts(assets) == Scale(old(Amounts(assets)), DayRates(old(Profiles(assets)), keikiHosei, rand, start))
    ensures Prices(assets) == Scale(old(Prices(assets)), DayRates(old(Profiles(assets)), keikiHosei, rand, start))
  {
    ghost var ps := Profiles(assets);
    ghost var amounts, prices := Amounts(assets), Prices(assets);
    next := GrowEach(assets, keikiHosei, rand, start, ps);
    AmountsAre(assets, Scale(amounts, DayRates(ps, keikiHosei, rand, start)));
    PricesAre(assets, Scale(prices, DayRates(ps, keikiHosei, rand, start)));
  }

  /** Add `x` to asset `i`'s amount, leaving every other asset as it was. */
  method Credit(assets: seq<Asset>, i: nat, x: real)
    requires Distinct(assets) && i < |assets|
    modifies {assets[i]}`amount
    ensures assets[i].amount == old(assets[i].amount) + x
    ensures forall k :: 0 <= k < |assets| && k != i ==> assets[k].amount == old(assets[k].amount)
  {
    assets[i].amount := assets[i].amount + x;
  }

  /** The loop of the income step: add slot `i` of `balances` to asset `i`. */
  method AddBalances(assets: seq<Asset>, balances: array<real>)
    requires Distinct(assets) && balances.Length == |assets|
    modifies Elements(assets)`amount
    ensures Amounts(assets) == Plus(old(Amounts(assets)), balances[..])
    ensures Profiles(assets) == old(Profiles(assets)) && Prices(assets) == old(Prices(assets))
  {
    var i := 0;
    while i < |assets|
      invariant 0 <= i <= |assets|
      invariant forall k :: 0 <= k < i ==> assets[k].amount == old(assets[k].amount) + balances[k]
      invariant forall k :: i <= k < |assets| ==> assets[k].amount == old(assets[k].amount)
    {
      Credit(assets, i, balances[i]);
      i := i + 1;
    }
    AmountsAre(assets, Plus(old(Amounts(assets)), balances[..]));
    assert Profiles(assets) == old(Profiles(assets));
    assert Prices(assets) == old(Prices(assets));
  }

  /** The income step of `runShortSimulation`: add the monthly income, split by weight. */
  method DepositIncome(assets: seq<Asset>)
    requires Distinct(assets)
    modifies Elements(assets)`amount
    ensures Amounts(assets) == Plus(old(Amounts(assets)), Split(Weights(Profiles(assets)), INCOME))
    ensures Profiles(assets) == old(Profiles(assets)) && Prices(assets) == old(Prices(assets))
  {
    var balances := DivideAssets(assets, INCOME);
    AddBalances(assets, balances);
  }

  /** A day ends with the amounts `amounts` and the prices `prices` when they are what its three steps leave. */
  lemma DayIs(ps: seq<Profile>, b: Book, day: int, days: int, interval: int, keikiHosei: real,
              rand: nat -> real, start: nat, grown: seq<real>, funded: seq<real>, amounts: seq<real>, prices: seq<real>)
    requires Fits(ps, b)
    requires grown == Scale(b.amounts, DayRates(ps, keikiHosei, rand, start))
    requires funded == if IsIncomeDay(day) then Plus(grown, Split(Weights(ps), INCOME)) else grown
    requires amounts == if IsRebalanceDay(day, days, interval) then Split(Weights(ps), Sum(funded)) else funded
    requires prices == Scale(b.prices, DayRates(ps, keikiHosei, rand, start))
    ensures Day(ps, b, day, days, interval, keikiHosei, rand, start) == Book(amounts, prices)
  {
  }

  /** The income step of a day: on every 30th day, pay `INCOME` in across the assets by weight. */
  method FundOnIncomeDay(assets: seq<Asset>, day: int)
    requires Distinct(assets)
    modifies Elements(assets)`amount
    ensures Amounts(assets) == if IsIncomeDay(day) then Plus(old(Amounts(assets)), Split(Weights(Profiles(assets)), INCOME))
                               else old(Amounts(assets))
    ensures Profiles(assets) == old(Profiles(assets)) && Prices(assets) == old(Prices(assets))
  {
    if IsIncomeDay(day) {
      DepositIncome(assets);
    }
  }

  /** The rebalance step of a day: on a rebalance day, split the pooled amounts by weight. */
  method SettleOnRebalanceDay(assets: seq<Asset>, day: int, days: int, interval: int)
    requires Distinct(assets)
    modifies Elements(assets)`amount
    ensures Amounts(assets) == if IsRebalanceDay(day, days, interval) then Split(Weights(Profiles(assets)), Sum(old(Amounts(assets))))
                               else old(Amounts(assets))
    ensures Profiles(assets) == old(Profiles(assets)) && Prices(assets) == old(Prices(assets))
  {
    if IsRebalanceDay(day, days, interval) {
      var history := Rebalance(assets);
    }
  }

  /** One pass of the `for` loop of `runShortSimulation`: grow, pay in income on every 30th day, rebalance on schedule. */
  method RunDay(assets: seq<Asset>, day: int, days: int, interval: int, keikiHosei: real,
                rand: nat -> real, start: nat) returns (next: nat)
    requires Distinct(assets)
    requires UnitStream(rand)
    modifies Elements(assets)`amount, Elements(assets)`lastChartPrice
    ensures Profiles(assets) == old(Profiles(assets))
    ensures BookOf(assets) == Day(Profiles(assets), old(BookOf(assets)), day, days, interval, keikiHosei, rand, start)
    ensures next == start + Trials(Profiles(assets))
  {
    ghost var ps := Profiles(assets);
    ghost var b := BookOf(assets);
    next := GrowAll(assets, keikiHosei, rand, start);
    ghost var grown, prices := Amounts(assets), Prices(assets);
    FundOnIncomeDay(assets, day);
    ghost var funded := Amounts(assets);
    SettleOnRebalanceDay(assets, day, days, interval);
    DayIs(ps, b, day, days, interval, keikiHosei, rand, start, grown, funded, Amounts(assets), prices);
  }

  /**
   * `runShortSimulation`: run `days` days in one economy. Returns the
   * stream position after the last value used.
   */
  method RunShortSimulation(days: int, assets: seq<Asset>, interval: int, keikiHosei: real,
                            rand: nat -> real, start: nat) returns (next: nat)
    requires Distinct(assets)
    requires UnitStream(rand)
    modifies Elements(assets)`amount, Elements(assets)`lastChartPrice
    ensures Profiles(assets) == old(Profiles(assets))
    ensures BookOf(assets) == ShortSim(Profiles(assets), old(BookOf(assets)), Iterations(days), days, interval,
                                       keikiHosei, rand, start)
    ensures next == Offset(start, Iterations(days), Trials(Profiles(assets)))
  {
    ghost var ps := Profiles(assets);
    ghost var b0 := BookOf(assets);
    next := start;
    var day := 0;
    while day < days
      invariant 0 <= day <= Iterations(days)
      invariant Profiles(assets) == ps
      invariant next == Offset(start, day, Trials(ps))
      invariant BookOf(assets) == ShortSim(ps, b0, day, days, interval, keikiHosei, rand, start)
    {
      ShortSimStep(ps, b0, day, days, interval, keikiHosei, rand, start);
      next := RunDay(assets, day, days, interval, keikiHosei, rand, next);
      OffsetStep(start, day, Trials(ps));
      day := day + 1;
    }
    assert day == Iterations(days);
  }

  /** Rebalancing is never done on day 0, always on the last day of a run longer than a day, and otherwise only on multiples of `interval`. */
  lemma RebalanceSchedule(day: int, days: int, interval: int)
    ensures !IsRebalanceDay(0, days, interval)
    ensures days > 1 ==> IsRebalanceDay(days - 1, days, interval)
    ensures 0 < day < days - 1 ==> (IsRebalanceDay(day, days, interval) <==> interval != 0 && day % interval == 0)
    ensures interval == 0 ==> (IsRebalanceDay(day, days, interval) <==> day != 0 && day == days - 1)
  {
  }

  /** Income is paid on day 0, then again exactly every 30 days, and never in between. */
  lemma IncomeSchedule(day: int)
    ensures IsIncomeDay(0)
    ensures IsIncomeDay(day) <==> IsIncomeDay(day + INCOME_INTERVAL)
    ensures 0 < day < INCOME_INTERVAL ==> !IsIncomeDay(day)
  {
  }

  /** Days `0..n-1` hold `ceil(n / 30)` income days. */
  lemma {:induction false} IncomeDaysCount(n: nat)
    ensures IncomeDays(n) == (n + INCOME_INTERVAL - 1) / INCOME_INTERVAL
  {
    if n > 0 {
      IncomeDaysCount(n - 1);
      var m := n - 1;
      var q := m / 30;
      var r := m % 30;
      assert m == 30 * q + r;
      if r == 0 {
        assert (m + 29) / 30 == q;
        assert (n + 29) / 30 == q + 1;
      } else {
        assert (m + 29) / 30 == q + 1;
        assert (n + 29) / 30 == q + 1;
      }
    }
  }

  /** A run whose length is a multiple of 30 holds exactly `days / 30` income days. */
  lemma IncomeDaysOfWholeMonths(days: nat)
    requires days % INCOME_INTERVAL == 0
    ensures IncomeDays(days) == days / INCOME_INTERVAL
  {
    IncomeDaysCount(days);
  }

  /** The income credited over days `0..n-1` of a run. */
  function Income(ps: seq<Profile>, n: nat): real
  {
    if n == 0 then 0.0 else Income(ps, n - 1) + DayIncome(ps, n - 1)
  }

  /** With weights summing to 10, a run of `n` days credits `INCOME` on each of its income days. */
  lemma {:induction false} IncomeOfRun(ps: seq<Profile>, n: nat)
    requires Sum(Weights(ps)) == 10.0
    ensures Income(ps, n) == IncomeDays(n) as real * INCOME
  {
    if n > 0 {
      IncomeOfRun(ps, n - 1);
      DayIncomeIsIncome(ps, n - 1);
    }
  }

  /** With weights summing to 10 an income day credits exactly `INCOME`. */
  lemma DayIncomeIsIncome(ps: seq<Profile>, day: int)
    requires Sum(Weights(ps)) == 10.0
    ensures DayIncome(ps, day) == (if IsIncomeDay(day) then INCOME else 0.0)
  {
    SplitConserves(Weights(ps), INCOME);
  }

  /**
   * With weights summing to 10, a day's income step and rebalance together
   * add exactly the day's income to the grown portfolio.
   */
  lemma DayTotal(ps: seq<Profile>, b: Book, day: int, days: int, interval: int,
                 keikiHosei: real, rand: nat -> real, start: nat)
    requires Fits(ps, b)
    requires Sum(Weights(ps)) == 10.0
    ensures Sum(Day(ps, b, day, days, interval, keikiHosei, rand, start).amounts)
         == Sum(Scale(b.amounts, DayRates(ps, keikiHosei, rand, start))) + DayIncome(ps, day)
  {
    var grown := Scale(b.amounts, DayRates(ps, keikiHosei, rand, start));
    var funded := if IsIncomeDay(day) then Plus(grown, Split(Weights(ps), INCOME)) else grown;
    SumPlus(grown, Split(Weights(ps), INCOME));
    assert Sum(funded) == Sum(grown) + DayIncome(ps, day);
    SplitConserves(Weights(ps), Sum(funded));
  }

  /** Every asset's largest daily move is 0: its price never moves. */
  predicate Flat(ps: seq<Profile>)
  {
    forall i :: 0 <= i < |ps| ==> ps[i].updown == 0.0
  }

  /** With no movement allowed, every day's rate is exactly 1. */
  lemma FlatRates(ps: seq<Profile>, keikiHosei: real, rand: nat -> real, start: nat)
    requires Flat(ps)
    ensures forall i :: 0 <= i < |ps| ==> DayRates(ps, keikiHosei, rand, start)[i] == 1.0
  {
    forall i | 0 <= i < |ps|
      ensures DayRates(ps, keikiHosei, rand, start)[i] == 1.0
    {
      assert Hosei(keikiHosei, ps[i].updown, ps[i].positive) == 0.0;
    }
  }

  /** With prices that cannot move and weights summing to 10, a day only adds its income. */
  lemma FlatDay(ps: seq<Profile>, b: Book, day: int, days: int, interval: int,
                keikiHosei: real, rand: nat -> real, start: nat)
    requires Fits(ps, b) && Flat(ps)
    requires Sum(Weights(ps)) == 10.0
    ensures Day(ps, b, day, days, interval, keikiHosei, rand, start).prices == b.prices
    ensures Sum(Day(ps, b, day, days, interval, keikiHosei, rand, start).amounts) == Sum(b.amounts) + DayIncome(ps, day)
  {
    FlatRates(ps, keikiHosei, rand, start);
    ScaleByOne(b.amounts, DayRates(ps, keikiHosei, rand, start));
    ScaleByOne(b.prices, DayRates(ps, keikiHosei, rand, start));
    DayTotal(ps, b, day, days, interval, keikiHosei, rand, start);
  }

  /**
   * With prices that cannot move and weights summing to 10, a run of `n`
   * days leaves prices as they were and adds exactly the income of its
   * income days to the portfolio's total.
   */
  lemma {:induction false} FlatShortSim(ps: seq<Profile>, b: Book, n: nat, days: int, interval: int,
                                        keikiHosei: real, rand: nat -> real, start: nat)
    requires Fits(ps, b) && Flat(ps)
    requires Sum(Weights(ps)) == 10.0
    ensures ShortSim(ps, b, n, days, interval, keikiHosei, rand, start).prices == b.prices
    ensures Sum(ShortSim(ps, b, n, days, interval, keikiHosei, rand, start).amounts) == Sum(b.amounts) + Income(ps, n)
  {
    if n > 0 {
      var before := ShortSim(ps, b, n - 1, days, interval, keikiHosei, rand, start);
      var at := Offset(start, n - 1, Trials(ps));
      assert ShortSim(ps, b, n, days, interval, keikiHosei, rand, start)
          == Day(ps, before, n - 1, days, interval, keikiHosei, rand, at);
      FlatShortSim(ps, b, n - 1, days, interval, keikiHosei, rand, start);
      FlatDay(ps, before, n - 1, days, interval, keikiHosei, rand, at);
    }
  }
}
