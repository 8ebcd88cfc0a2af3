/**
 * `compute_expectancy`: the mean and median net per trade, the win rate, and the average
 * win and loss.
 */
module Expectancy {
  import opened Wrappers
  import opened MetricsTypes
  import opened Series

  predicate SortedAsc(s: seq<real>)
  {
    forall i, j :: 0 <= i < j < |s| ==> s[i] <= s[j]
  }

  /** A sorted list with a head no larger than any of its elements stays sorted. */
  lemma ConsSorted(h: real, t: seq<real>)
    requires SortedAsc(t)
    requires forall i :: 0 <= i < |t| ==> h <= t[i]
    ensures SortedAsc([h] + t)
  {
    var r := [h] + t;
    forall i, j | 0 <= i < j < |r|
      ensures r[i] <= r[j]
    {
      if i > 0 {
        assert r[i] == t[i - 1] && r[j] == t[j - 1];
      } else {
        assert r[j] == t[j - 1];
      }
    }
  }

  /** Every element of a list holding the same amounts as a sorted tail and a larger `x` is at least the head. */
  lemma LowerBound(h: real, tail: seq<real>, x: real, rest: seq<real>)
    requires forall i :: 0 <= i < |tail| ==> h <= tail[i]
    requires h <= x
    requires multiset(rest) == multiset(tail) + multiset{x}
    ensures forall i :: 0 <= i < |rest| ==> h <= rest[i]
  {
    forall i | 0 <= i < |rest|
      ensures h <= rest[i]
    {
      assert rest[i] in multiset(rest);
      if rest[i] != x {
        assert rest[i] in multiset(tail);
      }
    }
  }

  /** Inserting into a sorted list keeps it sorted and adds exactly the new amount. */
  function Insert(x: real, s: seq<real>): (r: seq<real>)
    requires SortedAsc(s)
    ensures SortedAsc(r)
    ensures multiset(r) == multiset(s) + multiset{x}
    ensures |r| == |s| + 1
  {
    if s == [] then [x]
    else if x <= s[0] then
      ConsSorted(x, s);
      [x] + s
    else
      var tail := s[1..];
      var rest := Insert(x, tail);
      assert s == [s[0]] + tail;
      LowerBound(s[0], tail, x, rest);
      ConsSorted(s[0], rest);
      [s[0]] + rest
  }

  /** The amounts in ascending order: `sort` on the nets. */
  function SortAsc(s: seq<real>): (r: seq<real>)
    ensures SortedAsc(r)
    ensures multiset(r) == multiset(s)
    ensures |r| == |s|
  {
    if s == [] then []
    else
      assert s == s[..|s| - 1] + [s[|s| - 1]];
      Insert(s[|s| - 1], SortAsc(s[..|s| - 1]))
  }

  /** The middle of a sorted list, or the mean of the two middle amounts for an even length. */
  function MedianOfSorted(s: seq<real>): (m: real)
    requires |s| > 0
    ensures SortedAsc(s) ==> s[(|s| - 1) / 2] <= m <= s[|s| / 2]
  {
    var mid := |s| / 2;
    if |s| % 2 == 1 then s[mid] else (s[mid - 1] + s[mid]) / 2.0
  }

  function Below(m: real): real -> bool
  {
    x => x < m
  }

  function Above(m: real): real -> bool
  {
    x => x > m
  }

  /** Nothing at or after the middle of a sorted list lies below the median. */
  lemma MedianBelowSorted(s: seq<real>)
    requires |s| > 0 && SortedAsc(s)
    ensures CountWhere(s, Below(MedianOfSorted(s))) <= |s| / 2
  {
    var m := MedianOfSorted(s);
    var mid := |s| / 2;
    assert m <= s[mid];
    var lo, hi := s[..mid], s[mid..];
    assert s == lo + hi;
    assert forall i :: 0 <= i < |hi| ==> !Below(m)(hi[i]) by {
      forall i | 0 <= i < |hi|
        ensures !Below(m)(hi[i])
      {
        assert hi[i] == s[mid + i] >= s[mid];
      }
    }
    CountWhereAppend(lo, hi, Below(m));
    CountWhereNone(hi, Below(m));
    CountWhereAtMost(lo, Below(m));
  }

  /** Nothing up to the middle of a sorted list lies above the median. */
  lemma MedianAboveSorted(s: seq<real>)
    requires |s| > 0 && SortedAsc(s)
    ensures CountWhere(s, Above(MedianOfSorted(s))) <= |s| / 2
  {
    var m := MedianOfSorted(s);
    var mid := |s| / 2;
    var cut := if |s| % 2 == 1 then mid + 1 else mid;
    assert s[cut - 1] <= m;
    var lo, hi := s[..cut], s[cut..];
    assert s == lo + hi;
    assert forall i :: 0 <= i < |lo| ==> !Above(m)(lo[i]) by {
      forall i | 0 <= i < |lo|
        ensures !Above(m)(lo[i])
      {
        assert lo[i] == s[i] <= s[cut - 1];
      }
    }
    CountWhereAppend(lo, hi, Above(m));
    CountWhereNone(lo, Above(m));
    CountWhereAtMost(hi, Above(m));
  }

  /** The median as the source takes it: zero with no trades. */
  function Median(nets: seq<real>): (m: real)
    ensures |nets| == 0 ==> m == 0.0
    ensures |nets| > 0 ==> exists i :: 0 <= i < |nets| && nets[i] <= m
    ensures |nets| > 0 ==> exists j :: 0 <= j < |nets| && m <= nets[j]
  {
    if |nets| == 0 then 0.0
    else
      var s := SortAsc(nets);
      SortedElementIsNet(nets, (|s| - 1) / 2);
      SortedElementIsNet(nets, |s| / 2);
      MedianOfSorted(s)
  }

  /** Every element of the sorted copy is one of the nets. */
  lemma SortedElementIsNet(nets: seq<real>, k: nat)
    requires k < |nets|
    ensures exists i :: 0 <= i < |nets| && nets[i] == SortAsc(nets)[k]
  {
    var s := SortAsc(nets);
    assert s[k] in multiset(s);
    assert s[k] in nets;
  }

  /** The median splits the nets themselves, in any order: counting ignores the sort. */
  lemma MedianSplits(nets: seq<real>)
    requires |nets| > 0
    ensures CountWhere(nets, Below(Median(nets))) <= |nets| / 2
    ensures CountWhere(nets, Above(Median(nets))) <= |nets| / 2
  {
    var s := SortAsc(nets);
    MedianBelowSorted(s);
    MedianAboveSorted(s);
    CountWherePermutation(s, nets, Below(Median(nets)));
    CountWherePermutation(s, nets, Above(Median(nets)));
  }

  /** A total divided by a count, or zero when the count is zero. */
  function Average(total: real, count: nat): (r: real)
    ensures count > 0 ==> r * count as real == total
    ensures count == 0 ==> r == 0.0
    ensures total <= 0.0 ==> r <= 0.0
    ensures total >= 0.0 ==> r >= 0.0
  {
    if count > 0 then total / count as real else 0.0
  }

  /** A count of at most `count` items, averaged over `count`, is at most one. */
  lemma AverageAtMostOne(part: real, count: nat)
    ensures part <= count as real ==> Average(part, count) <= 1.0
  {
    var r := Average(part, count);
    var c := count as real;
    if count > 0 && part <= c && r > 1.0 {
      assert (r - 1.0) * c > 0.0;
      assert r * c > c;
    }
  }

  /**
   * The expectancy metrics of the trade nets and the win and loss totals. Every average
   * is zero when there is nothing to average, and the win rate is absent with no trades.
   */
  function ComputeExpectancy(nets: seq<real>, winsSum: real, winsCount: nat, lossesSumAbs: real, lossesCount: nat): (r: ExpectancyMetrics)
    ensures r.tradeCount == |nets|
    ensures r.expectancyUsd == Average(Sum(nets), |nets|)
    ensures r.medianUsd == Median(nets)
    ensures r.winRate.None? <==> |nets| == 0
    ensures r.winRate.Some? ==> r.winRate.value == Average(winsCount as real, |nets|)
    ensures r.avgWin == Average(winsSum, winsCount)
    ensures r.avgLoss == Average(-lossesSumAbs, lossesCount)
    ensures winsSum >= 0.0 ==> r.avgWin >= 0.0
    ensures lossesSumAbs >= 0.0 ==> r.avgLoss <= 0.0
    ensures winsCount <= |nets| && r.winRate.Some? ==> 0.0 <= r.winRate.value <= 1.0
  {
    var tradeCount := |nets|;
    var expectancy := Average(Sum(nets), tradeCount);
    var median := Median(nets);
    var winRate := if tradeCount > 0 then Some(Average(winsCount as real, tradeCount)) else None;
    var avgWin := Average(winsSum, winsCount);
    var avgLoss := Average(-lossesSumAbs, lossesCount);
    AverageAtMostOne(winsCount as real, tradeCount);
    ExpectancyMetrics(expectancy, median, winRate, avgWin, avgLoss, tradeCount)
  }

  lemma SortOfOne()
    ensures SortAsc([20.0]) == [20.0]
  {
    assert [20.0][..0] == [];
  }

  lemma SortOfTwo()
    ensures SortAsc([20.0, -10.0]) == [-10.0, 20.0]
  {
    assert [20.0, -10.0][..1] == [20.0];
    SortOfOne();
  }

  lemma InsertFive()
    ensures Insert(5.0, [-10.0, 20.0]) == [-10.0, 5.0, 20.0]
  {
    assert [-10.0, 20.0][1..] == [20.0];
    assert Insert(5.0, [20.0]) == [5.0, 20.0];
  }

  /** The odd example: the middle of -10, 5 and 20 is 5. */
  lemma MedianOddExample()
    ensures Median([20.0, -10.0, 5.0]) == 5.0
  {
    assert [20.0, -10.0, 5.0][..2] == [20.0, -10.0];
    SortOfTwo();
    InsertFive();
    assert SortAsc([20.0, -10.0, 5.0]) == [-10.0, 5.0, 20.0];
  }

  /** The even example: the median of -10 and 20 is their mean, 5. */
  lemma MedianEvenExample()
    ensures Median([20.0, -10.0]) == 5.0
  {
    SortOfTwo();
  }
}
