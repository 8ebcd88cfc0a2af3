/**
 * The shapes of the metrics response. Decimal amounts and floating-point ratios are
 * both exact reals; dates are day numbers.
 */
module MetricsTypes {
  import opened Wrappers

  /** The fixed capital daily returns and the drawdown percentage are measured against. */
  const BaseCapital: real := 5000.0

  /** Trading days per year, used to scale the risk-free rate and the Sharpe ratio. */
  const TradingDays: real := 252.0

  datatype DrawdownMetrics = DrawdownMetrics(
    maxDdAbs: real,
    maxDdPctBase: real,
    peakDate: Option<int>,
    troughDate: Option<int>,
    recoveryDays: Option<int>)

  datatype SharpeMetrics = SharpeMetrics(
    sharpe: Option<real>,
    meanDaily: Option<real>,
    volDaily: Option<real>,
    rfAnnual: real,
    sampleDays: nat)

  datatype ProfitFactorMetrics = ProfitFactorMetrics(
    profitFactor: Option<real>,
    grossProfit: real,
    grossLoss: real,
    wins: nat,
    losses: nat,
    tradeCount: nat)

  datatype ExpectancyMetrics = ExpectancyMetrics(
    expectancyUsd: real,
    medianUsd: real,
    winRate: Option<real>,
    avgWin: real,
    avgLoss: real,
    tradeCount: nat)

  datatype RecoveryFactorMetrics = RecoveryFactorMetrics(
    recoveryFactor: Option<real>,
    netProfit: real,
    referenceMaxDd: real)

  datatype MetricsResponseBody = MetricsResponseBody(
    from: int,
    to: int,
    drawdown: DrawdownMetrics,
    sharpe: SharpeMetrics,
    expectancy: ExpectancyMetrics,
    recovery: RecoveryFactorMetrics,
    profitFactor: ProfitFactorMetrics)
}
