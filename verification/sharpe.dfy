/**
 * `compute_sharpe`: daily excess returns on the base capital, their mean and sample
 * standard deviation, and the annualised Sharpe ratio when the deviation is positive.
 * The square root is a parameter.
 */
module Sharpe {
  import opened Wrappers
  import opened MetricsTypes
  import opened Series
  import opened Metrics

  /** Each day's total as a return on the base capital, less the daily share of the risk-free rate. */
  function ExcessReturns(daily: seq<DayValue>, rfAnnual: real): seq<real>
  {
    seq(|daily|, i requires 0 <= i < |daily| => daily[i].value / BaseCapital - rfAnnual / TradingDays)
  }

  function Mean(xs: seq<real>): real
    requires |xs| > 0
  {
    Sum(xs) / |xs| as real
  }

  /** The sum of squared distances from `m`. */
  function SquaredDeviations(xs: seq<real>, m: real): real
  {
    if xs == [] then 0.0
    else SquaredDeviations(xs[..|xs| - 1], m) + (xs[|xs| - 1] - m) * (xs[|xs| - 1] - m)
  }

  /** The sample variance, with the `n - 1` denominator. */
  function SampleVariance(xs: seq<real>): real
    requires |xs| >= 2
  {
    SquaredDeviations(xs, Mean(xs)) / (|xs| as real - 1.0)
  }

  /**
   * The Sharpe metrics of a daily series. The ratio, the mean and the volatility are
   * present together: only with at least two days and a positive standard deviation.
   */
  function ComputeSharpe(daily: seq<DayValue>, rfAnnual: real, sqrt: real -> real): (r: SharpeMetrics)
    ensures r.sampleDays == |daily| && r.rfAnnual == rfAnnual
    ensures r.sharpe.Some? == r.meanDaily.Some? == r.volDaily.Some?
    ensures r.sharpe.Some? <==> |daily| >= 2 && sqrt(SampleVariance(ExcessReturns(daily, rfAnnual))) > 0.0
    ensures r.volDaily.Some? ==> r.volDaily.value > 0.0
    ensures r.volDaily.Some? ==> r.volDaily.value == sqrt(SampleVariance(ExcessReturns(daily, rfAnnual)))
    ensures r.meanDaily.Some? ==> r.meanDaily.value * |daily| as real == Sum(ExcessReturns(daily, rfAnnual))
    ensures r.sharpe.Some? ==> r.sharpe.value == r.meanDaily.value / r.volDaily.value * sqrt(TradingDays)
  {
    var sampleDays := |daily|;
    var tuple: Option<(real, real, real)> :=
      if sampleDays >= 2 then
        var excess := ExcessReturns(daily, rfAnnual);
        var mean := Mean(excess);
        var std := sqrt(SquaredDeviations(excess, mean) / (sampleDays as real - 1.0));
        if std > 0.0 then Some((mean / std * sqrt(TradingDays), mean, std)) else None
      else None;
    match tuple
    case Some((s, m, v)) => SharpeMetrics(Some(s), Some(m), Some(v), rfAnnual, sampleDays)
    case None => SharpeMetrics(None, None, None, rfAnnual, sampleDays)
  }

  lemma {:induction false} SquaredDeviationsNonNegative(xs: seq<real>, m: real)
    ensures SquaredDeviations(xs, m) >= 0.0
  {
    if xs != [] {
      SquaredDeviationsNonNegative(xs[..|xs| - 1], m);
      var d := xs[|xs| - 1] - m;
      assert d * d >= 0.0;
    }
  }

  /** The sample variance is never negative. */
  lemma SampleVarianceNonNegative(xs: seq<real>)
    requires |xs| >= 2
    ensures SampleVariance(xs) >= 0.0
  {
    SquaredDeviationsNonNegative(xs, Mean(xs));
  }

  lemma {:induction false} SquaredDeviationsAtConstant(xs: seq<real>, c: real)
    requires forall i :: 0 <= i < |xs| ==> xs[i] == c
    ensures SquaredDeviations(xs, c) == 0.0
  {
    if xs != [] {
      SquaredDeviationsAtConstant(xs[..|xs| - 1], c);
    }
  }

  /**
   * A series whose days all carry the same total has zero variance, so with a square
   * root that maps zero to zero there is no Sharpe ratio, mean or volatility.
   */
  lemma ConstantSeriesHasNoSharpe(daily: seq<DayValue>, rfAnnual: real, sqrt: real -> real)
    requires forall i :: 0 <= i < |daily| ==> daily[i].value == daily[0].value
    requires sqrt(0.0) == 0.0
    ensures ComputeSharpe(daily, rfAnnual, sqrt).sharpe.None?
    ensures ComputeSharpe(daily, rfAnnual, sqrt).volDaily.None?
  {
    if |daily| >= 2 {
      var xs := ExcessReturns(daily, rfAnnual);
      var c := daily[0].value / BaseCapital - rfAnnual / TradingDays;
      assert forall i :: 0 <= i < |xs| ==> xs[i] == c;
      SumConstant(xs, c);
      var n := |xs| as real;
      assert n > 0.0;
      assert Mean(xs) == (n * c) / n;
      DivCancel(n, c);
      SquaredDeviationsAtConstant(xs, c);
      assert SampleVariance(xs) == 0.0;
      assert sqrt(SampleVariance(xs)) == 0.0;
    }
  }

  lemma DivCancel(n: real, c: real)
    requires n > 0.0
    ensures (n * c) / n == c
  {
  }

  lemma DivAdd(a: real, b: real, n: real)
    requires n > 0.0
    ensures (a + b) / n == a / n + b / n
  {
  }

  lemma {:induction false} SumShift(xs: seq<real>, ys: seq<real>, delta: real)
    requires |xs| == |ys|
    requires forall i :: 0 <= i < |xs| ==> ys[i] == xs[i] + delta
    ensures Sum(ys) == Sum(xs) + |xs| as real * delta
  {
    if xs != [] {
      SumShift(xs[..|xs| - 1], ys[..|ys| - 1], delta);
    }
  }

  lemma {:induction false} SquaredDeviationsShift(xs: seq<real>, ys: seq<real>, m: real, delta: real)
    requires |xs| == |ys|
    requires forall i :: 0 <= i < |xs| ==> ys[i] == xs[i] + delta
    ensures SquaredDeviations(ys, m + delta) == SquaredDeviations(xs, m)
  {
    if xs != [] {
      SquaredDeviationsShift(xs[..|xs| - 1], ys[..|ys| - 1], m, delta);
    }
  }

  /**
   * The risk-free rate shifts every excess return by the same amount, so it moves the
   * mean but leaves the volatility, and whether the ratio exists, unchanged.
   */
  lemma VolatilityIgnoresRiskFree(daily: seq<DayValue>, rf1: real, rf2: real, sqrt: real -> real)
    ensures ComputeSharpe(daily, rf1, sqrt).volDaily == ComputeSharpe(daily, rf2, sqrt).volDaily
    ensures ComputeSharpe(daily, rf1, sqrt).sharpe.Some? == ComputeSharpe(daily, rf2, sqrt).sharpe.Some?
  {
    if |daily| >= 2 {
      var xs := ExcessReturns(daily, rf1);
      var ys := ExcessReturns(daily, rf2);
      var delta := rf1 / TradingDays - rf2 / TradingDays;
      assert forall i :: 0 <= i < |xs| ==> ys[i] == xs[i] + delta;
      SumShift(xs, ys, delta);
      var n := |xs| as real;
      assert Mean(ys) == Mean(xs) + delta by {
        assert Sum(ys) == Sum(xs) + n * delta;
        DivAdd(Sum(xs), n * delta, n);
        DivCancel(n, delta);
      }
      SquaredDeviationsShift(xs, ys, Mean(xs), delta);
    }
  }
}
