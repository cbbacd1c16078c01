/**
 * The simulator's fixed parameters. The Monte Carlo iteration count, the
 * economy charts and the balance patterns are parameters of the operations
 * instead of constants (see module Aggregation).
 */
module Config {

  /** Years covered by one macro period. */
  const YEARS: nat := 5

  /** Monthly income paid into the portfolio. */
  const INCOME: real := 25.0

  /** Every asset's price at the start of an iteration; only growth relative to it is reported. */
  const FIRST_CHART_PRICE: real := 100.0

  /** Days in one macro period (a year is 360 days). */
  const PERIOD: nat := 360 * YEARS

  /** Number of macro periods per economy chart, as used by the total-income figure. */
  const NUM_PERIODS: nat := 3

  /** Days between rebalances. */
  const REBALANCE_INTERVAL: int := 30 * 12

  /** Days between income payments. */
  const INCOME_INTERVAL: nat := 30

  /** Number of assets `createAssets` builds, and the length of a summary's price list. */
  const NUM_ASSETS: nat := 2
}
