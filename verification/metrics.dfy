/**
 * The inputs of the trade-performance metrics: the net result of every closed trade,
 * the zero-filled daily totals over the requested window, and the equity curve.
 */
module Metrics {
  import opened Wrappers
  import opened Series

  /** Microseconds in a UTC day: a `TIMESTAMPTZ` column resolves instants to the microsecond. */
  const MicrosPerDay: int := 86_400_000_000

  /**
   * The fields of a closed strategy the metrics read: its exit instant in microseconds
   * since the Unix epoch, its gross result and fee, and the annual risk-free rate of its account.
   */
  datatype Trade = Trade(exitTime: int, pnl: real, fee: real, riskFreeAnnual: real)

  /** A trade's net result: what it made after its fee. */
  function Net(t: Trade): (r: real)
    ensures r > 0.0 <==> t.pnl > t.fee
    ensures r < 0.0 <==> t.pnl < t.fee
  {
    t.pnl - t.fee
  }

  /** The UTC calendar day of the exit, as a day number (flooring, also before the epoch). */
  function ExitDay(t: Trade): (d: int)
    ensures d * MicrosPerDay <= t.exitTime < (d + 1) * MicrosPerDay
  {
    t.exitTime / MicrosPerDay
  }

  /** The net result of every trade, in input order. */
  function Nets(rows: seq<Trade>): (nets: seq<real>)
    ensures |nets| == |rows|
    ensures forall i :: 0 <= i < |rows| ==> nets[i] == Net(rows[i])
  {
    if rows == [] then [] else Nets(rows[..|rows| - 1]) + [Net(rows[|rows| - 1])]
  }

  datatype NetsSummary = NetsSummary(
    nets: seq<real>,
    winsSum: real,
    lossesSumAbs: real,
    winsCount: nat,
    lossesCount: nat)

  /** What the split into wins and losses adds up to, for any list of nets. */
  lemma WinsAndLosses(nets: seq<real>)
    ensures CountWhere(nets, Positive) + CountWhere(nets, Negative) <= |nets|
    ensures SumWhere(nets, Positive) + SumWhere(nets, Negative) == Sum(nets)
    ensures SumWhere(nets, Positive) >= 0.0 && -SumWhere(nets, Negative) >= 0.0
    ensures SumWhere(nets, Positive) > 0.0 <==> CountWhere(nets, Positive) > 0
    ensures -SumWhere(nets, Negative) > 0.0 <==> CountWhere(nets, Negative) > 0
  {
    SignPartition(nets);
    PositiveSum(nets);
    NegativeSum(nets);
  }

  /**
   * `derive_nets`: one net per trade, and the strictly positive and strictly negative
   * nets summed and counted separately; a zero net is in neither bucket.
   */
  method DeriveNets(rows: seq<Trade>) returns (r: NetsSummary)
    ensures r.nets == Nets(rows)
    ensures r.winsSum == SumWhere(r.nets, Positive) && r.winsCount == CountWhere(r.nets, Positive)
    ensures r.lossesSumAbs == -SumWhere(r.nets, Negative) && r.lossesCount == CountWhere(r.nets, Negative)
    ensures r.winsCount + r.lossesCount <= |rows|
    ensures r.winsSum - r.lossesSumAbs == Sum(r.nets)
    ensures r.winsSum >= 0.0 && r.lossesSumAbs >= 0.0
    ensures r.winsSum > 0.0 <==> r.winsCount > 0
    ensures r.lossesSumAbs > 0.0 <==> r.lossesCount > 0
  {
    var nets: seq<real> := [];
    var winsSum := 0.0;
    var lossesSumAbs := 0.0;
    var winsCount: nat := 0;
    var lossesCount: nat := 0;
    for i := 0 to |rows|
      invariant nets == Nets(rows[..i])
      invariant winsSum == SumWhere(nets, Positive) && winsCount == CountWhere(nets, Positive)
      invariant lossesSumAbs == -SumWhere(nets, Negative) && lossesCount == CountWhere(nets, Negative)
    {
      var net := Net(rows[i]);
      if net > 0.0 {
        winsSum := winsSum + net;
        winsCount := winsCount + 1;
      } else if net < 0.0 {
        lossesSumAbs := lossesSumAbs + -net;
        lossesCount := lossesCount + 1;
      }
      assert rows[..i + 1][..i] == rows[..i];
      nets := nets + [net];
      assert nets[..|nets| - 1] == Nets(rows[..i]);
    }
    assert rows[..|rows|] == rows;
    WinsAndLosses(nets);
    r := NetsSummary(nets, winsSum, lossesSumAbs, winsCount, lossesCount);
  }

  /** A day of a date-keyed series. */
  datatype DayValue = DayValue(day: int, value: real)

  /** The sum of the nets of the trades that exit on day `d`. */
  function DayNet(rows: seq<Trade>, d: int): real
  {
    if rows == [] then 0.0
    else DayNet(rows[..|rows| - 1], d) + (if ExitDay(rows[|rows| - 1]) == d then Net(rows[|rows| - 1]) else 0.0)
  }

  /** The number of days from `from` to `to`, both included; none when `from` is after `to`. */
  function WindowDays(fromDay: int, toDay: int): nat
  {
    if fromDay <= toDay then toDay - fromDay + 1 else 0
  }

  /** The daily totals as a definition: every day of the window, in order, with its net. */
  function DailySeries(fromDay: int, toDay: int, rows: seq<Trade>): seq<DayValue>
  {
    seq(WindowDays(fromDay, toDay), k => DayValue(fromDay + k, DayNet(rows, fromDay + k)))
  }

  /**
   * `daily_from_rows`: a zero for every day of the window, then each trade's net added
   * to the day it exits on, if that day is in the window.
   */
  method DailyFromRows(fromDay: int, toDay: int, rows: seq<Trade>) returns (daily: seq<DayValue>)
    ensures daily == DailySeries(fromDay, toDay, rows)
    ensures |daily| == WindowDays(fromDay, toDay)
    ensures forall k :: 0 <= k < |daily| ==> daily[k].day == fromDay + k
  {
    daily := [];
    var d := fromDay;
    while d <= toDay
      invariant fromDay <= d && (fromDay <= toDay ==> d <= toDay + 1) && (fromDay > toDay ==> d == fromDay)
      invariant |daily| == d - fromDay
      invariant forall k :: 0 <= k < |daily| ==> daily[k] == DayValue(fromDay + k, 0.0)
      decreases toDay - d
    {
      daily := daily + [DayValue(d, 0.0)];
      d := d + 1;
    }
    assert |daily| == WindowDays(fromDay, toDay);
    for i := 0 to |rows|
      invariant |daily| == WindowDays(fromDay, toDay)
      invariant forall k :: 0 <= k < |daily| ==> daily[k] == DayValue(fromDay + k, DayNet(rows[..i], fromDay + k))
    {
      assert rows[..i + 1][..i] == rows[..i];
      var day := ExitDay(rows[i]);
      if fromDay <= day <= toDay {
        var k := day - fromDay;
        daily := daily[k := DayValue(day, daily[k].value + Net(rows[i]))];
      }
    }
    assert rows[..|rows|] == rows;
  }

  /** The sum of the values of a series. */
  function SumValues(s: seq<DayValue>): real
  {
    if s == [] then 0.0 else SumValues(s[..|s| - 1]) + s[|s| - 1].value
  }

  /** The sum of the nets of the trades whose exit day lies in the window. */
  function WindowNet(rows: seq<Trade>, fromDay: int, toDay: int): real
  {
    if rows == [] then 0.0
    else
      var t := rows[|rows| - 1];
      WindowNet(rows[..|rows| - 1], fromDay, toDay) + (if fromDay <= ExitDay(t) <= toDay then Net(t) else 0.0)
  }

  /** Adding `delta` to one day of a series adds `delta` to its sum. */
  lemma {:induction false} SumValuesBump(a: seq<DayValue>, b: seq<DayValue>, j: int, delta: real)
    requires |a| == |b|
    requires forall k :: 0 <= k < |a| ==> b[k].value == a[k].value + (if k == j then delta else 0.0)
    ensures SumValues(b) == SumValues(a) + (if 0 <= j < |a| then delta else 0.0)
  {
    if a != [] {
      SumValuesBump(a[..|a| - 1], b[..|b| - 1], j, delta);
    }
  }

  lemma {:induction false} SumValuesZeros(s: seq<DayValue>)
    requires forall k :: 0 <= k < |s| ==> s[k].value == 0.0
    ensures SumValues(s) == 0.0
  {
    if s != [] {
      SumValuesZeros(s[..|s| - 1]);
    }
  }

  /** A trade exiting outside the window leaves the daily series as it was. */
  lemma DailyIgnoresOutside(fromDay: int, toDay: int, rows: seq<Trade>, t: Trade)
    requires ExitDay(t) < fromDay || ExitDay(t) > toDay
    ensures DailySeries(fromDay, toDay, rows + [t]) == DailySeries(fromDay, toDay, rows)
  {
    assert (rows + [t])[..|rows|] == rows;
    forall k | 0 <= k < WindowDays(fromDay, toDay)
      ensures DailySeries(fromDay, toDay, rows + [t])[k] == DailySeries(fromDay, toDay, rows)[k]
    {
      assert DayNet(rows + [t], fromDay + k) == DayNet(rows, fromDay + k);
    }
  }

  /** The daily totals add up to the net of the trades exiting inside the window. */
  lemma {:induction false} DailyTotal(fromDay: int, toDay: int, rows: seq<Trade>)
    ensures SumValues(DailySeries(fromDay, toDay, rows)) == WindowNet(rows, fromDay, toDay)
  {
    if rows != [] {
      var init := rows[..|rows| - 1];
      var t := rows[|rows| - 1];
      DailyTotal(fromDay, toDay, init);
      forall k | 0 <= k < WindowDays(fromDay, toDay)
        ensures DailySeries(fromDay, toDay, rows)[k].value
             == DailySeries(fromDay, toDay, init)[k].value + (if k == ExitDay(t) - fromDay then Net(t) else 0.0)
      {
        assert DayNet(rows, fromDay + k) == DayNet(init, fromDay + k) + (if ExitDay(t) == fromDay + k then Net(t) else 0.0);
      }
      SumValuesBump(DailySeries(fromDay, toDay, init), DailySeries(fromDay, toDay, rows), ExitDay(t) - fromDay, Net(t));
    } else {
      forall k | 0 <= k < WindowDays(fromDay, toDay)
        ensures DailySeries(fromDay, toDay, rows)[k].value == 0.0
      {
        assert DayNet(rows, fromDay + k) == 0.0;
      }
      SumValuesZeros(DailySeries(fromDay, toDay, rows));
    }
  }

  /** The equity curve as a definition: each day with the running total up to and including it. */
  function EquitySeries(daily: seq<DayValue>): seq<DayValue>
  {
    seq(|daily|, k requires 0 <= k < |daily| => DayValue(daily[k].day, SumValues(daily[..k + 1])))
  }

  /** `equity_from_daily`: the cumulative sum of the daily totals, day by day. */
  method EquityFromDaily(daily: seq<DayValue>) returns (equity: seq<DayValue>)
    ensures equity == EquitySeries(daily)
    ensures |equity| == |daily|
    ensures forall k :: 0 <= k < |daily| ==> equity[k].day == daily[k].day
  {
    equity := [];
    var cum := 0.0;
    for i := 0 to |daily|
      invariant |equity| == i
      invariant cum == SumValues(daily[..i])
      invariant forall k :: 0 <= k < i ==> equity[k] == DayValue(daily[k].day, SumValues(daily[..k + 1]))
    {
      assert daily[..i + 1][..i] == daily[..i];
      cum := cum + daily[i].value;
      equity := equity + [DayValue(daily[i].day, cum)];
    }
  }

  /** The last equity value, or zero for an empty curve. */
  function FinalEquity(equity: seq<DayValue>): real
  {
    if equity == [] then 0.0 else equity[|equity| - 1].value
  }

  /** Each equity value is the previous one plus that day's total; the first is the first day's total. */
  lemma EquitySteps(daily: seq<DayValue>, k: int)
    requires 0 <= k < |daily|
    ensures EquitySeries(daily)[k].value == (if k == 0 then 0.0 else EquitySeries(daily)[k - 1].value) + daily[k].value
  {
    assert daily[..k + 1][..k] == daily[..k];
    assert EquitySeries(daily)[k].value == SumValues(daily[..k + 1]) == SumValues(daily[..k]) + daily[k].value;
    if k == 0 {
      assert daily[..0] == [];
    } else {
      assert EquitySeries(daily)[k - 1].value == SumValues(daily[..k]);
    }
  }

  /** The final equity is the sum of all daily totals, zero when there are no days. */
  lemma FinalEquityIsTotal(daily: seq<DayValue>)
    ensures FinalEquity(EquitySeries(daily)) == SumValues(daily)
  {
    if daily != [] {
      assert daily[..|daily|] == daily;
    }
  }
}
