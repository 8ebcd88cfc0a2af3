/**
 * The two ratio metrics and the metrics handler after its database fetch: the closed
 * trades of the window go through every computation and come back as one response.
 */
module MetricsService {
  import opened Wrappers
  import opened MetricsTypes
  import opened Series
  import opened Metrics
  import opened Drawdown
  import opened Sharpe
  import opened Expectancy

  /** A present ratio times its denominator gives back its numerator. */
  predicate IsRatio(q: Option<real>, numerator: real, denominator: real)
  {
    q.Some? ==> q.value * denominator == numerator
  }

  /**
   * `compute_profit_factor`: gross profit over gross loss, present only when there is a
   * loss; the gross figures and the counts pass through.
   */
  function ComputeProfitFactor(winsSum: real, lossesSumAbs: real, winsCount: nat, lossesCount: nat, tradeCount: nat): (r: ProfitFactorMetrics)
    ensures r.profitFactor.Some? <==> lossesSumAbs > 0.0
    ensures r.grossProfit == winsSum && r.grossLoss == lossesSumAbs
    ensures r.profitFactor.Some? ==> r.profitFactor.value * r.grossLoss == r.grossProfit
    ensures IsRatio(r.profitFactor, r.grossProfit, r.grossLoss)
    ensures r.wins == winsCount && r.losses == lossesCount && r.tradeCount == tradeCount
  {
    var profitFactor :=
      if lossesSumAbs > 0.0 then Some(winsSum / lossesSumAbs)
      else if winsSum > 0.0 && tradeCount > 0 then None
      else None;
    ProfitFactorMetrics(profitFactor, winsSum, lossesSumAbs, winsCount, lossesCount, tradeCount)
  }

  /** `compute_recovery`: net profit over the maximum drawdown, present only for a positive drawdown. */
  function ComputeRecovery(netProfit: real, maxDd: real): (r: RecoveryFactorMetrics)
    ensures r.recoveryFactor.Some? <==> maxDd > 0.0
    ensures r.netProfit == netProfit && r.referenceMaxDd == maxDd
    ensures r.recoveryFactor.Some? ==> r.recoveryFactor.value * r.referenceMaxDd == r.netProfit
    ensures IsRatio(r.recoveryFactor, r.netProfit, r.referenceMaxDd)
  {
    var recoveryFactor := if maxDd > 0.0 then Some(netProfit / maxDd) else None;
    RecoveryFactorMetrics(recoveryFactor, netProfit, maxDd)
  }

  /**
   * The trade `max_by_key` on the exit time picks: one with the latest exit, and among
   * equally late ones the last in the list.
   */
  function LatestExit(rows: seq<Trade>): (r: Option<nat>)
    ensures r.None? <==> |rows| == 0
    ensures r.Some? ==> r.value < |rows|
    ensures r.Some? ==> forall j :: 0 <= j < |rows| ==> rows[j].exitTime <= rows[r.value].exitTime
    ensures r.Some? ==> forall j :: r.value < j < |rows| ==> rows[j].exitTime < rows[r.value].exitTime
  {
    if rows == [] then None
    else
      var last := |rows| - 1;
      match LatestExit(rows[..last])
      case None => Some(last)
      case Some(i) => if rows[last].exitTime >= rows[i].exitTime then Some(last) else Some(i)
  }

  /** The risk-free rate of the latest trade's account, zero with no trades. */
  function RiskFreeAnnual(rows: seq<Trade>): (rf: real)
    ensures |rows| == 0 ==> rf == 0.0
    ensures |rows| > 0 ==>
      exists i :: 0 <= i < |rows| && rf == rows[i].riskFreeAnnual && (forall j :: 0 <= j < |rows| ==> rows[j].exitTime <= rows[i].exitTime)
  {
    match LatestExit(rows)
    case None => 0.0
    case Some(i) => rows[i].riskFreeAnnual
  }

  /** When every trade exits inside the window, the window's net is the net of all trades. */
  lemma {:induction false} WindowNetOfWindowRows(rows: seq<Trade>, fromDay: int, toDay: int)
    requires forall i :: 0 <= i < |rows| ==> fromDay <= ExitDay(rows[i]) <= toDay
    ensures WindowNet(rows, fromDay, toDay) == Sum(Nets(rows))
  {
    if rows != [] {
      var init := rows[..|rows| - 1];
      WindowNetOfWindowRows(init, fromDay, toDay);
      assert Nets(rows)[..|rows| - 1] == Nets(init);
    }
  }

  /** An equity curve built over a window has one strictly later day after another. */
  lemma WindowCurveDaysIncrease(fromDay: int, toDay: int, rows: seq<Trade>)
    ensures DaysIncreasing(EquitySeries(DailySeries(fromDay, toDay, rows)))
  {
  }

  /**
   * Where the drawdown of a window's curve puts its dates, day `fromDay + k` being
   * position `k`: the trough on the first position attaining the maximum drawdown, the
   * peak on the last new high up to it, and the recovery on the first later return to
   * the peak value.
   */
  ghost predicate DrawdownDates(equity: seq<DayValue>, fromDay: int, d: DrawdownMetrics)
  {
    (d.troughDate.Some? <==> d.maxDdAbs > 0.0) &&
    (d.troughDate.Some? ==>
      var t := d.troughDate.value - fromDay;
      0 <= t < |equity| &&
      DrawdownAt(equity, t) == d.maxDdAbs &&
      (forall j :: 0 <= j < t ==> DrawdownAt(equity, j) < d.maxDdAbs) &&
      (d.peakDate.Some? <==> LastNewHigh(equity, t + 1).Some?) &&
      (d.peakDate.Some? ==>
        var p := d.peakDate.value - fromDay;
        p == LastNewHigh(equity, t + 1).value && 0 <= p < t &&
        d.recoveryDays == RecoveryFrom(equity, t, equity[p].value))) &&
    (d.troughDate.None? ==> d.peakDate.None?) &&
    (d.peakDate.None? ==> d.recoveryDays.None?)
  }

  /**
   * The drawdown of a window's equity curve: its dates lie in the window, the trough is
   * the first deepest day, the peak the last new high before it, and a recovery is the
   * first return to the peak, at least one day later.
   */
  method WindowDrawdown(fromDay: int, toDay: int, rows: seq<Trade>, equity: seq<DayValue>) returns (drawdown: DrawdownMetrics)
    requires equity == EquitySeries(DailySeries(fromDay, toDay, rows))
    ensures drawdown.maxDdAbs == MaxDrawdown(equity, |equity|)
    ensures drawdown.maxDdPctBase == drawdown.maxDdAbs / BaseCapital
    ensures DrawdownDates(equity, fromDay, drawdown)
    ensures drawdown.troughDate.Some? ==> fromDay <= drawdown.troughDate.value <= toDay
    ensures drawdown.peakDate.Some? ==> drawdown.troughDate.Some? && fromDay <= drawdown.peakDate.value < drawdown.troughDate.value
    ensures drawdown.recoveryDays.Some? ==> drawdown.peakDate.Some? && drawdown.recoveryDays.value >= 1
  {
    WindowCurveDaysIncrease(fromDay, toDay, rows);
    ghost var peakIdx, troughIdx;
    drawdown, peakIdx, troughIdx := ComputeDrawdown(equity);
    if troughIdx.Some? {
      assert drawdown.troughDate.value == equity[troughIdx.value].day == fromDay + troughIdx.value;
    }
    if peakIdx.Some? {
      assert drawdown.peakDate.value == equity[peakIdx.value].day == fromDay + peakIdx.value;
    }
  }

  /** The expectancy block of a list of nets, with strict wins and strict losses. */
  function ExpectancyOfNets(nets: seq<real>): (r: ExpectancyMetrics)
    ensures r.tradeCount == |nets| && r.medianUsd == Median(nets)
  {
    ComputeExpectancy(nets, SumWhere(nets, Positive), CountWhere(nets, Positive), -SumWhere(nets, Negative), CountWhere(nets, Negative))
  }

  /** The profit-factor block of a list of nets, with strict wins and strict losses. */
  function ProfitFactorOfNets(nets: seq<real>): ProfitFactorMetrics
  {
    ComputeProfitFactor(SumWhere(nets, Positive), -SumWhere(nets, Negative), CountWhere(nets, Positive), CountWhere(nets, Negative), |nets|)
  }

  /** A nets summary whose totals and counts are those of its own nets, as `derive_nets` returns it. */
  predicate ConsistentSummary(summary: NetsSummary)
  {
    summary.winsSum == SumWhere(summary.nets, Positive) && summary.winsCount == CountWhere(summary.nets, Positive) &&
    summary.lossesSumAbs == -SumWhere(summary.nets, Negative) && summary.lossesCount == CountWhere(summary.nets, Negative)
  }

  /** The expectancy block from a nets summary. */
  method SummaryExpectancy(summary: NetsSummary) returns (expectancy: ExpectancyMetrics)
    requires ConsistentSummary(summary)
    ensures expectancy == ExpectancyOfNets(summary.nets)
  {
    expectancy := ComputeExpectancy(summary.nets, summary.winsSum, summary.winsCount, summary.lossesSumAbs, summary.lossesCount);
  }

  /** The profit-factor block from a nets summary. */
  method SummaryProfitFactor(summary: NetsSummary) returns (pf: ProfitFactorMetrics)
    requires ConsistentSummary(summary)
    ensures pf == ProfitFactorOfNets(summary.nets)
    ensures pf.tradeCount == |summary.nets| && pf.wins + pf.losses <= |summary.nets|
    ensures pf.grossProfit - pf.grossLoss == Sum(summary.nets)
    ensures pf.profitFactor.Some? <==> pf.losses > 0
    ensures IsRatio(pf.profitFactor, pf.grossProfit, pf.grossLoss)
  {
    WinsAndLosses(summary.nets);
    pf := ComputeProfitFactor(summary.winsSum, summary.lossesSumAbs, summary.winsCount, summary.lossesCount, |summary.nets|);
  }

  /**
   * The metrics of the trade list alone: expectancy and profit factor over the nets of
   * every fetched trade, from one pass of `derive_nets`.
   */
  method NetMetrics(rows: seq<Trade>) returns (expectancy: ExpectancyMetrics, pf: ProfitFactorMetrics)
    ensures expectancy == ExpectancyOfNets(Nets(rows))
    ensures expectancy.tradeCount == |rows| && expectancy.medianUsd == Median(Nets(rows))
    ensures pf == ProfitFactorOfNets(Nets(rows))
    ensures pf.tradeCount == |rows| && pf.wins + pf.losses <= |rows|
    ensures pf.grossProfit - pf.grossLoss == Sum(Nets(rows))
    ensures pf.profitFactor.Some? <==> pf.losses > 0
    ensures IsRatio(pf.profitFactor, pf.grossProfit, pf.grossLoss)
  {
    var summary := DeriveNets(rows);
    expectancy := SummaryExpectancy(summary);
    pf := SummaryProfitFactor(summary);
  }

  /**
   * The metrics of the window's daily series: drawdown of its equity curve, Sharpe at the
   * latest trade's risk-free rate, and the recovery factor on the final equity.
   */
  method WindowMetrics(fromDay: int, toDay: int, rows: seq<Trade>, sqrt: real -> real)
    returns (drawdown: DrawdownMetrics, sharpe: SharpeMetrics, recovery: RecoveryFactorMetrics)
    ensures drawdown.maxDdAbs == MaxDrawdown(EquitySeries(DailySeries(fromDay, toDay, rows)), WindowDays(fromDay, toDay))
    ensures drawdown.maxDdPctBase == drawdown.maxDdAbs / BaseCapital
    ensures DrawdownDates(EquitySeries(DailySeries(fromDay, toDay, rows)), fromDay, drawdown)
    ensures drawdown.troughDate.Some? ==> fromDay <= drawdown.troughDate.value <= toDay
    ensures drawdown.peakDate.Some? ==> drawdown.troughDate.Some? && fromDay <= drawdown.peakDate.value < drawdown.troughDate.value
    ensures drawdown.recoveryDays.Some? ==> drawdown.peakDate.Some? && drawdown.recoveryDays.value >= 1
    ensures sharpe == ComputeSharpe(DailySeries(fromDay, toDay, rows), RiskFreeAnnual(rows), sqrt)
    ensures recovery == ComputeRecovery(WindowNet(rows, fromDay, toDay), drawdown.maxDdAbs)
    ensures IsRatio(recovery.recoveryFactor, recovery.netProfit, drawdown.maxDdAbs)
  {
    var daily := DailyFromRows(fromDay, toDay, rows);
    var equity := EquityFromDaily(daily);
    drawdown := WindowDrawdown(fromDay, toDay, rows, equity);
    var rfAnnual := match LatestExit(rows) case None => 0.0 case Some(i) => rows[i].riskFreeAnnual;
    sharpe := ComputeSharpe(daily, rfAnnual, sqrt);
    var netProfit := if |equity| > 0 then equity[|equity| - 1].value else 0.0;
    assert netProfit == FinalEquity(equity);
    FinalEquityIsTotal(daily);
    DailyTotal(fromDay, toDay, rows);
    recovery := ComputeRecovery(netProfit, drawdown.maxDdAbs);
  }

  /**
   * The metrics handler once the closed trades of `[fromDay, toDay]` are fetched: nets,
   * daily series and equity, then drawdown, Sharpe (at the latest trade's risk-free
   * rate), expectancy, profit factor and recovery factor (on the final equity).
   */
  method ComputeMetrics(fromDay: int, toDay: int, rows: seq<Trade>, sqrt: real -> real) returns (body: MetricsResponseBody)
    ensures body.from == fromDay && body.to == toDay
    // the trade-list metrics
    ensures body.expectancy == ExpectancyOfNets(Nets(rows))
    ensures body.expectancy.tradeCount == |rows| && body.expectancy.medianUsd == Median(Nets(rows))
    ensures body.profitFactor == ProfitFactorOfNets(Nets(rows))
    ensures body.profitFactor.tradeCount == |rows| && body.profitFactor.wins + body.profitFactor.losses <= |rows|
    ensures body.profitFactor.grossProfit - body.profitFactor.grossLoss == Sum(Nets(rows))
    ensures body.profitFactor.profitFactor.Some? <==> body.profitFactor.losses > 0
    ensures IsRatio(body.profitFactor.profitFactor, body.profitFactor.grossProfit, body.profitFactor.grossLoss)
    // the window metrics
    ensures body.sharpe == ComputeSharpe(DailySeries(fromDay, toDay, rows), RiskFreeAnnual(rows), sqrt)
    ensures body.sharpe.sampleDays == WindowDays(fromDay, toDay) && body.sharpe.rfAnnual == RiskFreeAnnual(rows)
    ensures body.drawdown.maxDdAbs == MaxDrawdown(EquitySeries(DailySeries(fromDay, toDay, rows)), WindowDays(fromDay, toDay))
    ensures DrawdownDates(EquitySeries(DailySeries(fromDay, toDay, rows)), fromDay, body.drawdown)
    ensures body.drawdown.troughDate.Some? ==> fromDay <= body.drawdown.troughDate.value <= toDay
    ensures body.drawdown.peakDate.Some? ==> body.drawdown.troughDate.Some? && fromDay <= body.drawdown.peakDate.value < body.drawdown.troughDate.value
    ensures body.drawdown.recoveryDays.Some? ==> body.drawdown.peakDate.Some? && body.drawdown.recoveryDays.value >= 1
    ensures body.recovery == ComputeRecovery(WindowNet(rows, fromDay, toDay), body.drawdown.maxDdAbs)
    ensures IsRatio(body.recovery.recoveryFactor, body.recovery.netProfit, body.drawdown.maxDdAbs)
    // with every trade inside the window, the net profit is the trades' total
    ensures (forall i :: 0 <= i < |rows| ==> fromDay <= ExitDay(rows[i]) <= toDay) ==>
      body.recovery.netProfit == body.profitFactor.grossProfit - body.profitFactor.grossLoss
  {
    var expectancy, pf := NetMetrics(rows);
    var drawdown, sharpe, recovery := WindowMetrics(fromDay, toDay, rows, sqrt);
    if forall i :: 0 <= i < |rows| ==> fromDay <= ExitDay(rows[i]) <= toDay {
      WindowNetOfWindowRows(rows, fromDay, toDay);
    }
    body := MetricsResponseBody(fromDay, toDay, drawdown, sharpe, expectancy, recovery, pf);
  }
}
