/**
 * `compute_drawdown`: one pass over the equity curve for the deepest fall from a running
 * peak that starts at zero, then a date lookup for how long the curve took to regain it.
 */
module Drawdown {
  import opened Wrappers
  import opened MetricsTypes
  import opened Metrics

  /** The running peak before position `k`: the largest of zero and the first `k` equity values. */
  function Peak(equity: seq<DayValue>, k: nat): real
    requires k <= |equity|
  {
    if k == 0 then 0.0
    else
      var p := Peak(equity, k - 1);
      if equity[k - 1].value > p then equity[k - 1].value else p
  }

  /** The peak bounds zero and every value seen, and is zero or one of those values. */
  lemma {:induction false} PeakIsMax(equity: seq<DayValue>, k: nat)
    requires k <= |equity|
    ensures Peak(equity, k) >= 0.0
    ensures forall i :: 0 <= i < k ==> equity[i].value <= Peak(equity, k)
    ensures Peak(equity, k) == 0.0 || exists i :: 0 <= i < k && equity[i].value == Peak(equity, k)
  {
    if k > 0 {
      PeakIsMax(equity, k - 1);
    }
  }

  /** How far the value at `i` lies below the peak up to and including `i`. */
  function DrawdownAt(equity: seq<DayValue>, i: nat): real
    requires i < |equity|
  {
    Peak(equity, i + 1) - equity[i].value
  }

  /** The deepest drawdown among the first `k` positions, and zero. */
  function MaxDrawdown(equity: seq<DayValue>, k: nat): real
    requires k <= |equity|
  {
    if k == 0 then 0.0
    else
      var m := MaxDrawdown(equity, k - 1);
      if DrawdownAt(equity, k - 1) > m then DrawdownAt(equity, k - 1) else m
  }

  /** The maximum drawdown bounds every drawdown and zero, and is zero or attained. */
  lemma {:induction false} MaxDrawdownIsMax(equity: seq<DayValue>, k: nat)
    requires k <= |equity|
    ensures MaxDrawdown(equity, k) >= 0.0
    ensures forall i :: 0 <= i < k ==> DrawdownAt(equity, i) <= MaxDrawdown(equity, k)
    ensures MaxDrawdown(equity, k) == 0.0 || exists i :: 0 <= i < k && DrawdownAt(equity, i) == MaxDrawdown(equity, k)
  {
    if k > 0 {
      MaxDrawdownIsMax(equity, k - 1);
    }
  }

  /** The last position among the first `k` where the value rose strictly above the running peak. */
  function LastNewHigh(equity: seq<DayValue>, k: nat): Option<nat>
    requires k <= |equity|
  {
    if k == 0 then None
    else if equity[k - 1].value > Peak(equity, k - 1) then Some(k - 1)
    else LastNewHigh(equity, k - 1)
  }

  /**
   * There is a last new high exactly when the peak has left zero; it is where the
   * current peak value was reached.
   */
  lemma {:induction false} LastNewHighIsPeak(equity: seq<DayValue>, k: nat)
    requires k <= |equity|
    ensures LastNewHigh(equity, k).None? <==> Peak(equity, k) == 0.0
    ensures LastNewHigh(equity, k).Some? ==>
      LastNewHigh(equity, k).value < k && equity[LastNewHigh(equity, k).value].value == Peak(equity, k)
  {
    if k > 0 {
      LastNewHighIsPeak(equity, k - 1);
      PeakIsMax(equity, k - 1);
    }
  }

  /** The first position at or after `from` whose value reaches `threshold`. */
  function FirstAtLeast(equity: seq<DayValue>, from: nat, threshold: real): (r: Option<nat>)
    ensures r.Some? ==> from <= r.value < |equity| && equity[r.value].value >= threshold
    ensures r.Some? ==> forall i :: from <= i < r.value ==> equity[i].value < threshold
    ensures r.None? ==> forall i :: from <= i < |equity| ==> equity[i].value < threshold
    decreases |equity| - from
  {
    if from >= |equity| then None
    else if equity[from].value >= threshold then Some(from)
    else FirstAtLeast(equity, from + 1, threshold)
  }

  /** Days strictly increase along the curve, as they do for a curve built from a daily series. */
  predicate DaysIncreasing(equity: seq<DayValue>)
  {
    forall i, j :: 0 <= i < j < |equity| ==> equity[i].day < equity[j].day
  }

  /** The day at an optional position. */
  function DayOf(equity: seq<DayValue>, idx: Option<nat>): Option<int>
    requires idx.Some? ==> idx.value < |equity|
  {
    match idx
    case None => None
    case Some(i) => Some(equity[i].day)
  }

  /** The recovery time the lookup should find: from the trough to the first return to the peak value. */
  function RecoveryFrom(equity: seq<DayValue>, trough: nat, peakValue: real): Option<int>
  {
    match FirstAtLeast(equity, trough, peakValue)
    case None => None
    case Some(j) => Some(j - trough)
  }

  /**
   * The single pass: the running peak starts at zero and moves only on a strictly higher
   * value, and the maximum drawdown moves only on a strictly deeper one, so the trough
   * is the first position attaining it. The ghost results are the positions behind the dates.
   */
  method ScanPeakTrough(equity: seq<DayValue>) returns (maxDd: real, peakDate: Option<int>, troughDate: Option<int>, ghost peakIdx: Option<nat>, ghost troughIdx: Option<nat>)
    ensures maxDd == MaxDrawdown(equity, |equity|)
    ensures troughIdx.Some? <==> maxDd > 0.0
    ensures troughIdx.Some? ==> troughIdx.value < |equity| && DrawdownAt(equity, troughIdx.value) == maxDd
    ensures troughIdx.Some? ==> forall j :: 0 <= j < troughIdx.value ==> DrawdownAt(equity, j) < maxDd
    ensures troughIdx.Some? ==> peakIdx == LastNewHigh(equity, troughIdx.value + 1)
    ensures troughIdx.None? ==> peakIdx.None?
    ensures peakIdx.Some? ==> peakIdx.value < |equity|
    ensures troughDate == DayOf(equity, troughIdx)
    ensures peakDate == DayOf(equity, peakIdx)
  {
    var peak := 0.0;
    var curPeakDate: Option<int> := None;
    ghost var curPeak: Option<nat> := None;
    maxDd := 0.0;
    peakDate := None;
    troughDate := None;
    peakIdx := None;
    troughIdx := None;

    for i := 0 to |equity|
      invariant peak == Peak(equity, i)
      invariant curPeak == LastNewHigh(equity, i) && (curPeak.Some? ==> curPeak.value < i)
      invariant curPeakDate == DayOf(equity, curPeak)
      invariant maxDd == MaxDrawdown(equity, i)
      invariant troughIdx.Some? <==> maxDd > 0.0
      invariant troughIdx.Some? ==> troughIdx.value < i && DrawdownAt(equity, troughIdx.value) == maxDd
      invariant troughIdx.Some? ==> forall j :: 0 <= j < troughIdx.value ==> DrawdownAt(equity, j) < maxDd
      invariant troughIdx.Some? ==> peakIdx == LastNewHigh(equity, troughIdx.value + 1)
      invariant troughIdx.None? ==> peakIdx.None?
      invariant peakIdx.Some? ==> peakIdx.value < i
      invariant troughDate == DayOf(equity, troughIdx)
      invariant peakDate == DayOf(equity, peakIdx)
    {
      MaxDrawdownIsMax(equity, i);
      var eq := equity[i].value;
      if eq > peak {
        peak := eq;
        curPeakDate := Some(equity[i].day);
        curPeak := Some(i);
      }
      var dd := peak - eq;
      if dd > maxDd {
        maxDd := dd;
        peakDate := curPeakDate;
        troughDate := Some(equity[i].day);
        peakIdx := curPeak;
        troughIdx := Some(i);
      }
    }
  }

  /**
   * The first half of the recovery lookup: walk the curve, remember the value on the
   * peak day, and stop at the trough day. With increasing days it finds both positions.
   */
  method LocateTrough(equity: seq<DayValue>, peakDay: int, troughDay: int, ghost p: nat, ghost t: nat)
    returns (troughAt: Option<nat>, priorPeakVal: real)
    ensures troughAt.Some? ==> troughAt.value < |equity| && equity[troughAt.value].day == troughDay
    ensures troughAt.None? ==> forall i :: 0 <= i < |equity| ==> equity[i].day != troughDay
    ensures DaysIncreasing(equity) && p < t < |equity| && equity[p].day == peakDay && equity[t].day == troughDay ==>
      troughAt == Some(t) && priorPeakVal == equity[p].value
  {
    troughAt := None;
    priorPeakVal := 0.0;
    ghost var located := DaysIncreasing(equity) && p < t < |equity| && equity[p].day == peakDay && equity[t].day == troughDay;
    for idx := 0 to |equity|
      invariant troughAt.None?
      invariant forall i :: 0 <= i < idx ==> equity[i].day != troughDay
      invariant located ==> idx <= t
      invariant located ==> priorPeakVal == (if p < idx then equity[p].value else 0.0)
    {
      if equity[idx].day == peakDay {
        priorPeakVal := equity[idx].value;
      }
      if equity[idx].day == troughDay {
        troughAt := Some(idx);
        break;
      }
    }
  }

  /** The second half: the distance from the trough to the first value back at the peak value. */
  method ScanRecovery(equity: seq<DayValue>, trough: nat, peakValue: real) returns (rec: Option<int>)
    ensures rec == RecoveryFrom(equity, trough, peakValue)
  {
    rec := None;
    var j := trough;
    while j < |equity|
      invariant trough <= j
      invariant FirstAtLeast(equity, j, peakValue) == FirstAtLeast(equity, trough, peakValue)
    {
      if equity[j].value >= peakValue {
        rec := Some(j - trough);
        return;
      }
      j := j + 1;
    }
  }

  /**
   * The drawdown metrics of an equity curve. The ghost results name the positions of
   * the peak and the trough that `peak_date` and `trough_date` report.
   */
  method ComputeDrawdown(equity: seq<DayValue>) returns (r: DrawdownMetrics, ghost peakIdx: Option<nat>, ghost troughIdx: Option<nat>)
    ensures r.maxDdAbs == MaxDrawdown(equity, |equity|)
    ensures r.maxDdAbs >= 0.0 && forall i :: 0 <= i < |equity| ==> DrawdownAt(equity, i) <= r.maxDdAbs
    ensures r.maxDdPctBase == r.maxDdAbs / BaseCapital
    // the trough is the first position attaining the maximum, and exists only for a positive one
    ensures troughIdx.Some? <==> r.maxDdAbs > 0.0
    ensures troughIdx.Some? ==> troughIdx.value < |equity| && DrawdownAt(equity, troughIdx.value) == r.maxDdAbs
    ensures troughIdx.Some? ==> forall i :: 0 <= i < troughIdx.value ==> DrawdownAt(equity, i) < r.maxDdAbs
    ensures r.troughDate == DayOf(equity, troughIdx)
    // the peak is the last new high up to the trough, strictly before it; none when measured from zero
    ensures peakIdx.Some? ==> troughIdx.Some? && peakIdx.value < troughIdx.value
    ensures troughIdx.Some? ==> peakIdx == LastNewHigh(equity, troughIdx.value + 1)
    ensures peakIdx.Some? ==> equity[peakIdx.value].value == Peak(equity, troughIdx.value + 1)
    ensures troughIdx.Some? ==> (peakIdx.None? <==> Peak(equity, troughIdx.value + 1) == 0.0)
    ensures r.peakDate == DayOf(equity, peakIdx)
    ensures DaysIncreasing(equity) && r.peakDate.Some? ==> r.peakDate.value < r.troughDate.value
    // recovery
    ensures r.peakDate.None? ==> r.recoveryDays.None?
    ensures r.recoveryDays.Some? ==> r.recoveryDays.value >= 0
    ensures DaysIncreasing(equity) && peakIdx.Some? ==>
      r.recoveryDays == RecoveryFrom(equity, troughIdx.value, equity[peakIdx.value].value)
    ensures DaysIncreasing(equity) && r.recoveryDays.Some? ==> r.recoveryDays.value >= 1
  {
    var maxDd, peakDate, troughDate;
    maxDd, peakDate, troughDate, peakIdx, troughIdx := ScanPeakTrough(equity);
    MaxDrawdownIsMax(equity, |equity|);
    if troughIdx.Some? {
      TroughAfterPeak(equity, troughIdx.value);
    }

    var recoveryDays: Option<int> := None;
    if peakDate.Some? && troughDate.Some? {
      var troughAt, priorPeakVal := LocateTrough(equity, peakDate.value, troughDate.value, peakIdx.value, troughIdx.value);
      if troughAt.Some? {
        recoveryDays := ScanRecovery(equity, troughAt.value, priorPeakVal);
      }
    }

    var pct := if BaseCapital > 0.0 then maxDd / BaseCapital else 0.0;
    r := DrawdownMetrics(maxDd, pct, peakDate, troughDate, recoveryDays);
  }

  /**
   * At the trough of a positive drawdown the value lies below the peak, so the last new
   * high is strictly earlier and holds the peak value.
   */
  lemma TroughAfterPeak(equity: seq<DayValue>, t: nat)
    requires t < |equity| && DrawdownAt(equity, t) > 0.0
    ensures LastNewHigh(equity, t + 1) == LastNewHigh(equity, t)
    ensures LastNewHigh(equity, t + 1).Some? ==> LastNewHigh(equity, t + 1).value < t
    ensures LastNewHigh(equity, t + 1).Some? ==> equity[LastNewHigh(equity, t + 1).value].value == Peak(equity, t + 1)
    ensures LastNewHigh(equity, t + 1).None? <==> Peak(equity, t + 1) == 0.0
    ensures LastNewHigh(equity, t + 1).Some? ==> equity[t].value < equity[LastNewHigh(equity, t + 1).value].value
  {
    LastNewHighIsPeak(equity, t + 1);
    LastNewHighIsPeak(equity, t);
  }

  /**
   * Net +50 on one day and -30 the next: the curve rises to 50 and falls to 20, a drawdown
   * of 30 from the first day to the second that the window never recovers.
   */
  lemma RiseThenFallExample()
    ensures MaxDrawdown([DayValue(1, 50.0), DayValue(2, 20.0)], 2) == 30.0
    ensures LastNewHigh([DayValue(1, 50.0), DayValue(2, 20.0)], 2) == Some(0)
    ensures RecoveryFrom([DayValue(1, 50.0), DayValue(2, 20.0)], 1, 50.0) == None
  {
  }

  /** The peak starts at zero, so a window that opens with a loss is at once in drawdown, with no peak day. */
  lemma NegativeStartExample()
    ensures MaxDrawdown([DayValue(1, -10.0)], 1) == 10.0
    ensures LastNewHigh([DayValue(1, -10.0)], 1) == None
  {
  }
}
