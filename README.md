# Investment simulator core in Dafny

This project models the bookkeeping core of `invest-simulator.js`. That file is a Monte Carlo simulator for a two-asset portfolio:

- a stock ("株式1");
- an asset that moves against the economy ("逆相関2").

Money is paid in every 30 days and split across the assets by target weights, given in tenths. Each day every asset's amount and price move by one random percentage. The portfolio is rebalanced every `REBALANCE_INTERVAL` days and on the last day of a macro period.

An economy chart lists one business-cycle correction per macro period. One iteration runs a `PERIOD`-day simulation for each correction of a chart, in order, on fresh assets. Many iterations are summed into a summary, and the summaries of all charts are pooled into one overall summary.

Modules, one per layer of the program:

- `Wrappers`: the `Option` type, for a `null` argument and for a result that cannot be computed.
- `Config`: the fixed constants (lines 1-9).
- `Sums`: real sums, the weight split `d * w / 10` and element-wise sums.
- `DailyReturn`: `getUpdownRate`. The `Math.random()` samples are a sequence of reals in [0, 1).
- `Assets`:
  - the asset object (`createAsset`) as a class whose `balance`, `amount` and `lastChartPrice` change in place;
  - `createAssets`, `divideAssets` and `rebalance`.
- `ShortSimulation`: `runShortSimulation`. It is proved against the pure functions `Day` and `ShortSim` over a `Book` of amounts and prices.
- `Aggregation`:
  - `getGrowthRate`, `getTotalIncome`, `createSummary` (the `Summary` class) and `runMultipulSimulation`;
  - the pooling loop of `runSimulation`.
  - These are proved against `Lifetime`, `MultiTotal`, `MultiPrices`, `PoolTotal` and `PoolPrices`.

The random values are a stream `rand: nat -> real` with every value in [0, 1), and each operation takes its start position in the stream:

- one day of a portfolio uses `Trials(ps)` values: `max(1, volatility)` per asset, in asset order;
- each method returns the position after the last value it used;
- so the model fixes which value feeds which trial, as the single `Math.random()` sequence of the program does.

Amounts and prices are exact reals.

The rebalance condition `day !== 0 && (day % interval === 0 || day === days-1)` is modelled with JavaScript's behaviour for an `interval` of 0: `day % 0` is `NaN`, so the `day % interval` clause never fires, but the last-day clause still does.

## Model

| member | source | states |
|---|---|---|
| DailyReturn.NumTrials | invest-simulator.js:31 | the number of samples is `max(1, numTry)`: at least 1, at least `numTry`, and one of the two |
| DailyReturn.GetUpdownRate | invest-simulator.js:20-37 | the loop's average of `draws[i] * (max - min) + min` equals the closed form `UpdownRate`: the mean sample mapped onto [min, max). The rate lies in [-updown + hosei, updown + hosei], open at the top for a positive `updown` and mirrored for a negative one |
| DailyReturn.Hosei | invest-simulator.js:23-26 | the economy correction `keikiHosei * updown`, negated for an asset that moves against the economy (a definition; its effect is stated by `UpdownBand` and `InverseCorrelation`) |
| DailyReturn.UpdownBand | invest-simulator.js:23-36 | for any samples in [0, 1), `UpdownRate` lies in the band `[-updown + hosei, updown + hosei]`, with `hosei = keikiHosei * updown` negated for an inverse asset |
| DailyReturn.InverseCorrelation | invest-simulator.js:23-26 | an inversely correlated asset's rate equals a correlated asset's rate under the negated correction |
| DailyReturn.ShiftedSumClosed | invest-simulator.js:32-35 | the loop's running sum equals `width * Sum(draws) + n * min` |
| DailyReturn.SampleSumBounds | invest-simulator.js:34 | a sum of `n` samples from [0, 1) lies in [0, n) |
| DailyReturn.MeanBounds | invest-simulator.js:36 | the mean of samples from [0, 1) lies in [0, 1) |
| Sums.SplitSum | invest-simulator.js:56-62 | a split by weights hands out the amount times the weight total over 10 |
| Sums.SplitConserves | invest-simulator.js:56-62 | when the weights sum to 10, a split hands out exactly the amount split |
| Sums.SumPlus | invest-simulator.js:129-131 | adding one sequence into another slot by slot adds their totals |
| Assets.Asset.constructor | invest-simulator.js:102-115 | a new asset has the given label, weight, updown, volatility and correlation; amount 0; first and last price `FIRST_CHART_PRICE`; empty histories |
| Assets.InitialProfiles | invest-simulator.js:186-195 | `createAssets` builds two assets, both with updown 6 and volatility 10, the first correlated and the second inverse; each has weight `balances[i]` where given and 0 otherwise |
| Assets.CreateAssets | invest-simulator.js:186-197 | two fresh, distinct assets named "株式1" and "逆相関2" with the initial profiles, every amount 0 and every price `FIRST_CHART_PRICE` |
| Assets.DivideAssets | invest-simulator.js:56-62 | a fresh array of one slot per asset, where slot `i` is `dealAmount * balance_i / 10`. When the weights sum to 10, the slots sum to `dealAmount` |
| Assets.TotalAmount | invest-simulator.js:72-75 | the loop's result is the sum of all amounts |
| Assets.ApplyBalances | invest-simulator.js:81-88 | every amount is set to its slot of `balances`, and only amounts change. One history entry per asset, in order: price, the difference bought or sold, and the new amount |
| Assets.Rebalance | invest-simulator.js:70-89 | every new amount is the old total times `balance_i / 10`. With weights summing to 10 the total is unchanged. Weights, profiles and prices are untouched. The history has one entry per asset, in index order |
| ShortSimulation.DayRateAt | invest-simulator.js:120-121 | the rate of asset `i` is `getUpdownRate(...) / 100 + 1`, drawn from the stream right after the values of assets `0..i-1` |
| ShortSimulation.AssetRate | invest-simulator.js:121 | the computed rate is asset `i`'s slot of `DayRates`, and the position moves past the asset's `max(1, volatility)` values |
| ShortSimulation.GrowAsset | invest-simulator.js:122-123 | asset `i`'s amount and price are both multiplied by the same rate; every other asset is unchanged |
| ShortSimulation.GrowEach | invest-simulator.js:120-124 | the loop over the assets: asset `k` moves by slot `k` of the day's rates, computed from the parameters `ps` that the assets carry |
| ShortSimulation.GrowAll | invest-simulator.js:120-124 | every amount and every price is multiplied by that asset's rate of the day, and the day uses `Trials(ps)` stream values |
| ShortSimulation.Credit | invest-simulator.js:130 | asset `i`'s amount grows by `x`; every other asset is unchanged |
| ShortSimulation.AddBalances | invest-simulator.js:129-131 | the amounts become the old amounts plus `balances`, slot by slot; profiles and prices are unchanged |
| ShortSimulation.DepositIncome | invest-simulator.js:127-131 | the amounts grow by `INCOME` split by weight; profiles and prices are unchanged |
| ShortSimulation.FundOnIncomeDay | invest-simulator.js:126-131 | income is added exactly on days with `day % 30 == 0` (day 0 included); otherwise the amounts are unchanged |
| ShortSimulation.SettleOnRebalanceDay | invest-simulator.js:141-148 | on a rebalance day the amounts become the pooled total split by weight; on any other day they are unchanged |
| ShortSimulation.IsIncomeDay | invest-simulator.js:127 | the income condition `day % 30 == 0` (a definition; `IncomeSchedule` states its schedule) |
| ShortSimulation.IncomeSchedule | invest-simulator.js:127 | income is paid on day 0, again exactly every 30 days, and never on days 1 to 29 |
| ShortSimulation.IsRebalanceDay | invest-simulator.js:142 | the rebalance condition: not day 0, and either a multiple of a non-zero `interval` or the last day (a definition; `RebalanceSchedule` states its schedule) |
| ShortSimulation.RebalanceSchedule | invest-simulator.js:142 | never on day 0; always on day `days - 1` when `days > 1`; on the days in between, exactly on multiples of `interval`; with `interval` 0, exactly on the last day, if it is not day 0 |
| ShortSimulation.RunDay | invest-simulator.js:118-149 | one pass of the loop takes the book to `Day(...)`: grow, then income, then rebalance. Profiles are unchanged, and the stream moves on by one day's values |
| ShortSimulation.RunShortSimulation | invest-simulator.js:117-150 | after the loop the book is `ShortSim` after `max(0, days)` days, day `d` reading its values at `start + d * Trials(ps)`; profiles are unchanged |
| ShortSimulation.ShortSimStep | invest-simulator.js:118 | day `n` runs on the book the first `n` days leave |
| ShortSimulation.DayTotal | invest-simulator.js:126-148 | with weights summing to 10, a day's income step and rebalance together add exactly that day's income to the grown total |
| ShortSimulation.IncomeDaysCount | invest-simulator.js:127 | days `0..n-1` hold `ceil(n / 30)` income days |
| ShortSimulation.IncomeDaysOfWholeMonths | invest-simulator.js:127 | a run whose length is a multiple of 30 holds `days / 30` income days |
| ShortSimulation.DayIncomeIsIncome | invest-simulator.js:127-131 | with weights summing to 10, an income day credits exactly `INCOME` and any other day credits nothing |
| ShortSimulation.IncomeOfRun | invest-simulator.js:118-131 | with weights summing to 10, a run of `n` days credits `INCOME` once per income day |
| ShortSimulation.FlatRates | invest-simulator.js:121 | with every `updown` 0, every rate is exactly 1 |
| ShortSimulation.FlatDay | invest-simulator.js:118-148 | in a flat market with weights summing to 10, a day keeps every price and adds exactly its income to the total |
| ShortSimulation.FlatShortSim | invest-simulator.js:117-150 | in a flat market with weights summing to 10, a run keeps every price and adds exactly the income of its income days |
| Aggregation.Round | invest-simulator.js:47 | `Math.round` gives the integer within half a unit, halves rounded up |
| Aggregation.GetGrowthRate | invest-simulator.js:46-48 | there is no result exactly when `first` is 0. Otherwise the result is within a half of the percentage growth `(current - first) / first * 100` |
| Aggregation.GrowthRateExamples | invest-simulator.js:46-48 | no change is 0% growth and doubling is 100% |
| Aggregation.GrowthRateMonotone | invest-simulator.js:46-48 | for a positive `first`, a larger `current` never reports less growth |
| Aggregation.GetTotalIncome | invest-simulator.js:156-158 | `(INCOME * PERIOD / 30) * NUM_PERIODS` (a definition; `TotalIncomeValue`, `TotalIncomeOfRuns` and `TotalIncomeCredited` state what it is) |
| Aggregation.TotalIncomeValue | invest-simulator.js:156-158 | `getTotalIncome()` is 4500 |
| Aggregation.TotalIncomeOfRuns | invest-simulator.js:156-158 | `getTotalIncome()` equals `NUM_PERIODS` times one payment of `INCOME` per income day of a `PERIOD`-day run |
| Aggregation.TotalIncomeCredited | invest-simulator.js:156-158 | with weights summing to 10, the income credited over `NUM_PERIODS` runs of `PERIOD` days, each restarting the day counter, is `getTotalIncome()` |
| Aggregation.PeriodsStep | invest-simulator.js:175-177 | period `j` of a chart runs a `PERIOD`-day short simulation on the book the earlier periods leave |
| Aggregation.RunPeriods | invest-simulator.js:175-177 | the `forEach` over the chart takes the book to `Periods(...)`: one `PERIOD`-day run per correction, in order, on the same assets |
| Aggregation.Summary.constructor | invest-simulator.js:160-169 | a new summary has the given label and weights, total 0, and one zero price slot per asset `createAssets` builds |
| Aggregation.Summary.Accumulate | invest-simulator.js:178-181 | the total grows by the sum of the assets' amounts, and price slot `i` grows by asset `i`'s price |
| Aggregation.AddLifetime | invest-simulator.js:178-181 | adding assets whose book is `life` adds `life`'s total and prices to the summary |
| Aggregation.RunIteration | invest-simulator.js:173-182 | one iteration on fresh assets adds the final book `Lifetime(...)` of the chart to the summary |
| Aggregation.MultiStep | invest-simulator.js:173-182 | iteration `n` adds its final total to `summary.total` and its final prices to `summary.lastChartPrices` |
| Aggregation.RunMultipulSimulation | invest-simulator.js:171-184 | a fresh summary labelled with the chart's name. Its total is the sum, over `max(0, numLoop)` iterations, of the final amounts of all assets; price slot `i` is the sum of asset `i`'s final prices |
| Aggregation.Summary.Add | invest-simulator.js:247-250 | the total grows by the other summary's total and the prices grow by its prices, element-wise |
| Aggregation.PoolChart | invest-simulator.js:245-250 | one pass of the pooling loop adds the chart's sub-summary total and prices into the overall summary |
| Aggregation.SpanStep | invest-simulator.js:245-246 | chart `j` reads the stream right after the values of the charts before it |
| Aggregation.PoolTotalStep | invest-simulator.js:247 | adding chart `j`'s total to the pooled total of the earlier charts gives the pooled total of the first `j + 1` |
| Aggregation.PoolPricesStep | invest-simulator.js:248-250 | adding chart `j`'s prices to the pooled prices of the earlier charts gives the pooled prices of the first `j + 1` |
| Aggregation.PoolSummaries | invest-simulator.js:244-250 | the overall summary "全平均" holds the sum of the charts' sub-summary totals, and the element-wise sum of their price lists |
| Aggregation.CreatedAssetsMove | invest-simulator.js:188-189 | the assets `createAssets` builds move by up to 6% a day, so they never form a flat market |
| Aggregation.FlatPeriods | invest-simulator.js:175-177 | in a flat market with weights summing to 10, a chart's runs keep every price and add one run's income per period |
| Aggregation.FlatLifetime | invest-simulator.js:156-158 | in a flat market with weights summing to 10 and `NUM_PERIODS` periods, an iteration ends with exactly `getTotalIncome()`, every price at `FIRST_CHART_PRICE` |
| Aggregation.FlatMulti | invest-simulator.js:171-184 | in the same flat market, `n` iterations sum to `n * getTotalIncome()`, and every price slot to `n * FIRST_CHART_PRICE` |

## Left out

- `Math.random()` is replaced by the input stream `rand`, whose values are required to lie in [0, 1). The model fixes the order in which the program draws values; no distribution is modelled.
- Floating point: amounts, prices and rates are exact reals.
  - IEEE rounding is not modelled.
  - Neither is `NaN` from a weight that is not a number.
- Console output, `printSummary`, `printTitle`, `getBalanceLabel` and the top-level call of `runSimulation()` are reporting only.
  - The same goes for the `NUM_LOOP === 1` logging inside `runShortSimulation`.
  - The history strings of `rebalance` are modelled as `Trade` records with exact values, without the `Math.round` of their text.
- `NUM_LOOP`, the economy-chart table and the balance patterns are parameters: `numLoop`, `charts` and `balances`.
  - The outer loop of `runSimulation` over the balance patterns is `PoolSummaries`, called once per pattern.
  - `INVEST_LIMIT` is never used.
- Default parameter values of `getUpdownRate` and `createAsset` are not modelled; every caller in the file passes every argument.
- `investHistory` and `chartPriceHistory` are created empty and never used, so they are constant fields.
- Assets.CreateAssets: requires at most two weights (`FitsAssets`). With more, the program writes to `assets[2]`, which is undefined, and throws.
- Aggregation.GetGrowthRate: a zero `first` gives `None` rather than JavaScript's `Infinity` or `NaN`.
- Portfolios are `seq<Asset>` of distinct objects (`Distinct`), not arrays that may alias. The program only passes arrays that `createAssets` builds, which are distinct.
- Summaries hold `lastChartPrices` as a `seq<real>` field that the methods reassign.
- Aggregation.Summary.Add requires equal price-list lengths. Every summary in the program has one slot per asset of `createAssets`.
- Aggregation.Summary.Accumulate requires one price slot per asset, for the same reason.
- ShortSimulation.FlatShortSim, Aggregation.FlatPeriods, Aggregation.FlatLifetime and Aggregation.FlatMulti hold only when every `updown` is 0. With real price moves the final amounts depend on the draws, and only the equations to `ShortSim`, `Lifetime` and `MultiTotal` are stated.
  - `createAssets` always builds assets with `updown` 6, so no profile list `InitialProfiles` returns satisfies `Flat`. These lemmas describe `ShortSim`, `Lifetime` and `MultiTotal` for profiles the program never builds, never a result of `RunIteration`, `RunMultipulSimulation` or `PoolSummaries`.
- DailyReturn.NumTrials: the trial count (`numTry`, an asset's `volatility`) is an integer. In JavaScript any number is accepted; 2.5, for example, takes 3 draws and divides their sum by 2.5. Every caller in the file passes 10.
