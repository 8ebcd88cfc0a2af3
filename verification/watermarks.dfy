/**
 * The watermark heatmap of `dashboard/src/service/watermarks.rs` after its database fetch:
 * each closed trade's loss watermark is read as a percentage, put in a one-point band
 * between 20 and 40, and counted per (week of the past year, band) cell.
 * The calendar rendering of a week's first day (`%m/%d`) is a parameter.
 */
module Watermarks {
  import opened Wrappers
  import opened Text

  /**
   * One fetched row: the UTC calendar day of its exit and its watermark, `None` when the
   * watermark text is not a decimal.
   */
  datatype WatermarkRow = WatermarkRow(exitDay: int, watermark: Option<real>)

  /** A parsed row: exit day and normalised watermark. */
  datatype Point = Point(exitDay: int, value: real)

  /** The half-open watermark range `[lo, hi)` and its name (its label in the heatmap). */
  datatype Band = Band(lo: real, hi: real, name: string)

  /** A heatmap cell: the week label and the band label. */
  type Cell = (string, string)

  datatype WatermarkResponse = WatermarkResponse(data: map<Cell, int>, minWatermark: real, maxWatermark: real)

  const MinWatermark: real := 20.0
  const MaxWatermark: real := 40.0
  const DaysPerYear: int := 365
  const LastWeek: int := 51

  /** The first day of the reporting year: a year before the requested end day. */
  function YearStart(toDay: int): (r: int)
    ensures r + DaysPerYear == toDay
  {
    toDay - DaysPerYear
  }

  /** A watermark strictly between 0 and 1 is a fraction and becomes a percentage. */
  function Normalize(w: real): (r: real)
    ensures 0.0 < w < 1.0 ==> r == 100.0 * w
    ensures w <= 0.0 || 1.0 <= w ==> r == w
  {
    if w > 0.0 && w < 1.0 then w * 100.0 else w
  }

  /**
   * A normalised watermark lies in `[20, 40)` exactly when it was a fraction in
   * `[0.2, 0.4)` or already a percentage in `[20, 40)`.
   */
  lemma NormalizeInRange(w: real)
    ensures MinWatermark <= Normalize(w) < MaxWatermark <==> (0.2 <= w < 0.4 || 20.0 <= w < 40.0)
  {
  }

  /** `p` is the normalised point of some row whose watermark parsed. */
  predicate FromParsedRow(rows: seq<WatermarkRow>, p: Point)
  {
    exists i :: 0 <= i < |rows| && rows[i].watermark.Some? && p == Point(rows[i].exitDay, Normalize(rows[i].watermark.value))
  }

  /** The parsed rows in order, each with its normalised watermark; unparsable ones are skipped. */
  function Points(rows: seq<WatermarkRow>): (r: seq<Point>)
    ensures |r| <= |rows|
    ensures forall p :: p in r ==> FromParsedRow(rows, p)
  {
    if rows == [] then []
    else
      var init := Points(rows[..|rows| - 1]);
      var row := rows[|rows| - 1];
      match row.watermark
      case None => init
      case Some(w) => init + [Point(row.exitDay, Normalize(w))]
  }

  /** When every watermark parses, each row yields its own point. */
  lemma {:induction false} PointsOfParsedRows(rows: seq<WatermarkRow>)
    requires forall i :: 0 <= i < |rows| ==> rows[i].watermark.Some?
    ensures |Points(rows)| == |rows|
    ensures forall i :: 0 <= i < |rows| ==>
      Points(rows)[i] == Point(rows[i].exitDay, Normalize(rows[i].watermark.value))
  {
    if rows != [] {
      var init := rows[..|rows| - 1];
      var last := rows[|rows| - 1];
      PointsOfParsedRows(init);
      var r := Points(init) + [Point(last.exitDay, Normalize(last.watermark.value))];
      assert Points(rows) == r;
      forall i | 0 <= i < |rows|
        ensures r[i] == Point(rows[i].exitDay, Normalize(rows[i].watermark.value))
      {
        if i < |init| {
          assert rows[i] == init[i];
        }
      }
    }
  }

  /** When no watermark parses, there is nothing to count. */
  lemma {:induction false} PointsOfUnparsedRows(rows: seq<WatermarkRow>)
    requires forall i :: 0 <= i < |rows| ==> rows[i].watermark.None?
    ensures Points(rows) == []
  {
    if rows != [] {
      PointsOfUnparsedRows(rows[..|rows| - 1]);
    }
  }

  /** The parsing loop: collects the points of the rows whose watermark parses. */
  method ParseRows(rows: seq<WatermarkRow>) returns (points: seq<Point>)
    ensures points == Points(rows)
  {
    points := [];
    for i := 0 to |rows|
      invariant points == Points(rows[..i])
    {
      assert rows[..i + 1][..i] == rows[..i];
      match rows[i].watermark
      case None =>
      case Some(w) =>
        var value := Normalize(w);
        points := points + [Point(rows[i].exitDay, value)];
    }
    assert rows[..|rows|] == rows;
  }

  /** The `k`-th band: `[20 + k, 21 + k)`, labelled by its lower bound. */
  function BandAt(k: nat): Band
  {
    Band((20 + k) as real, (21 + k) as real, IntToString(20 + k))
  }

  /** The twenty bands from 20 to 40. */
  function Bands(): seq<Band>
  {
    seq(20, k requires 0 <= k < 20 => BandAt(k))
  }

  predicate Contains(b: Band, v: real)
  {
    b.lo <= v < b.hi
  }

  /** The band loop: steps from the minimum to the maximum watermark one point at a time. */
  method BuildBands() returns (bands: seq<Band>)
    ensures |bands| == 20
    ensures forall k :: 0 <= k < |bands| ==> bands[k].lo == MinWatermark + k as real && bands[k].hi == bands[k].lo + 1.0
    ensures bands[0].lo == MinWatermark && bands[|bands| - 1].hi == MaxWatermark
    ensures bands == Bands()
  {
    bands := [];
    var current := MinWatermark;
    while current < MaxWatermark
      invariant |bands| <= 20
      invariant current == MinWatermark + |bands| as real
      invariant forall k :: 0 <= k < |bands| ==> bands[k] == BandAt(k)
      decreases 20 - |bands|
    {
      var next := current + 1.0;
      var bandName := IntToString(current.Floor);
      bands := bands + [Band(current, next, bandName)];
      current := next;
    }
  }

  /** Bands with different indices carry different labels. */
  lemma BandLabelsDistinct(j: nat, k: nat)
    requires j != k
    ensures BandAt(j).name != BandAt(k).name
  {
  }

  /** The first band, in order, that contains `v`. */
  function FirstBand(bands: seq<Band>, v: real): (r: Option<nat>)
    ensures r.Some? ==> r.value < |bands| && Contains(bands[r.value], v)
    ensures r.Some? ==> forall j :: 0 <= j < r.value ==> !Contains(bands[j], v)
    ensures r.None? ==> forall j :: 0 <= j < |bands| ==> !Contains(bands[j], v)
  {
    if bands == [] then None
    else if Contains(bands[0], v) then Some(0)
    else match FirstBand(bands[1..], v)
      case None => None
      case Some(k) => Some(k + 1)
  }

  /**
   * Among the twenty bands, a value lies in one exactly when it is in `[20, 40)`, and then
   * in the band of its whole part.
   */
  lemma BandOfValue(v: real)
    ensures FirstBand(Bands(), v).Some? <==> MinWatermark <= v < MaxWatermark
    ensures FirstBand(Bands(), v).Some? ==> FirstBand(Bands(), v).value == v.Floor - 20
  {
    var bands := Bands();
    if MinWatermark <= v < MaxWatermark {
      var k := v.Floor - 20;
      assert bands[k] == BandAt(k);
    }
    if FirstBand(bands, v).Some? {
      var k := FirstBand(bands, v).value;
      assert bands[k] == BandAt(k);
    }
  }

  /** The band search: the first band that contains `v`. */
  method FindBand(bands: seq<Band>, v: real) returns (r: Option<nat>)
    ensures r.Some? ==> r.value < |bands| && Contains(bands[r.value], v)
    ensures r.Some? ==> forall j :: 0 <= j < r.value ==> !Contains(bands[j], v)
    ensures r.None? ==> forall j :: 0 <= j < |bands| ==> !Contains(bands[j], v)
    ensures r == FirstBand(bands, v)
  {
    r := None;
    for j := 0 to |bands|
      invariant forall i :: 0 <= i < j ==> !Contains(bands[i], v)
    {
      if bands[j].lo <= v && v < bands[j].hi {
        r := Some(j);
        break;
      }
    }
  }

  /** Rust's integer `/`: the quotient rounded toward zero. */
  function TruncDiv(a: int, b: int): (q: int)
    requires b > 0
    ensures a >= 0 ==> 0 <= a - q * b < b
    ensures a < 0 ==> -b < a - q * b <= 0
  {
    if a >= 0 then a / b else -((-a) / b)
  }

  function Clamp(x: int, lo: int, hi: int): int
    requires lo <= hi
  {
    if x < lo then lo else if x > hi then hi else x
  }

  /** The week of the reporting year an exit falls in, clamped to weeks 0 to 51. */
  function WeekIndex(yearStart: int, exitDay: int): (w: int)
    ensures 0 <= w <= LastWeek
    ensures 0 <= exitDay - yearStart < 7 * (LastWeek + 1) ==> yearStart + 7 * w <= exitDay < yearStart + 7 * w + 7
    ensures exitDay - yearStart < 7 ==> w == 0
    ensures exitDay - yearStart >= 7 * LastWeek ==> w == LastWeek
  {
    Clamp(TruncDiv(exitDay - yearStart, 7), 0, LastWeek)
  }

  /**
   * Clamping hides the rounding direction: rounding toward zero and rounding down give
   * the same week for every exit day.
   */
  lemma WeekIndexIgnoresRounding(yearStart: int, exitDay: int)
    ensures WeekIndex(yearStart, exitDay) == Clamp((exitDay - yearStart) / 7, 0, LastWeek)
  {
  }

  /** Exits from the first day of the year up to the requested end day stay in their own week or the last one. */
  lemma LastWeekAbsorbsYearEnd(toDay: int, exitDay: int)
    requires YearStart(toDay) + 7 * LastWeek <= exitDay <= toDay
    ensures WeekIndex(YearStart(toDay), exitDay) == LastWeek
  {
  }

  /** `W<week + 1, two digits>-<first day of the week>`. */
  function TimeLabel(yearStart: int, week: nat, monthDay: int -> string): (s: string)
    requires week <= LastWeek
    ensures |s| >= 4 && s[0] == 'W' && s[3] == '-'
    ensures AllDigits(s[1..3]) && ParseDigits(s[1..3]) == week + 1
    ensures s[4..] == monthDay(yearStart + 7 * week)
  {
    var number := Pad2(week + 1);
    Pad2TwoDigits(week + 1);
    var s := "W" + number + "-" + monthDay(yearStart + 7 * week);
    assert s[1..3] == number;
    s
  }

  /** Different weeks get different labels, whatever the calendar rendering. */
  lemma TimeLabelDistinct(yearStart: int, w1: nat, w2: nat, monthDay: int -> string)
    requires w1 <= LastWeek && w2 <= LastWeek
    requires TimeLabel(yearStart, w1, monthDay) == TimeLabel(yearStart, w2, monthDay)
    ensures w1 == w2
  {
    var s1 := TimeLabel(yearStart, w1, monthDay);
    var s2 := TimeLabel(yearStart, w2, monthDay);
    assert s1[1..3] == s2[1..3];
  }

  /** The cell a point is counted in; none when its watermark is outside every band. */
  function CellOf(yearStart: int, p: Point, monthDay: int -> string): (c: Option<Cell>)
    ensures c.Some? <==> MinWatermark <= p.value < MaxWatermark
    ensures c.Some? ==> c.value == (TimeLabel(yearStart, WeekIndex(yearStart, p.exitDay), monthDay), IntToString(p.value.Floor))
  {
    BandOfValue(p.value);
    match FirstBand(Bands(), p.value)
    case None => None
    case Some(k) => Some((TimeLabel(yearStart, WeekIndex(yearStart, p.exitDay), monthDay), Bands()[k].name))
  }

  /** Two points share a cell only when they share both the week and the band. */
  lemma CellIdentifiesWeekAndBand(yearStart: int, p: Point, q: Point, monthDay: int -> string)
    requires CellOf(yearStart, p, monthDay).Some?
    requires CellOf(yearStart, p, monthDay) == CellOf(yearStart, q, monthDay)
    ensures WeekIndex(yearStart, p.exitDay) == WeekIndex(yearStart, q.exitDay)
    ensures p.value.Floor == q.value.Floor
  {
    BandOfValue(p.value);
    BandOfValue(q.value);
    var j := FirstBand(Bands(), p.value).value;
    var k := FirstBand(Bands(), q.value).value;
    assert Bands()[j] == BandAt(j) && Bands()[k] == BandAt(k);
    if j != k {
      BandLabelsDistinct(j, k);
    }
    TimeLabelDistinct(yearStart, WeekIndex(yearStart, p.exitDay), WeekIndex(yearStart, q.exitDay), monthDay);
  }

  /** How many points fall in cell `c`. */
  function CellCount(points: seq<Point>, yearStart: int, monthDay: int -> string, c: Cell): nat
  {
    if points == [] then 0
    else
      CellCount(points[..|points| - 1], yearStart, monthDay, c)
      + (if CellOf(yearStart, points[|points| - 1], monthDay) == Some(c) then 1 else 0)
  }

  /** How many points have a watermark in `[20, 40)`. */
  function InBandCount(points: seq<Point>): nat
  {
    if points == [] then 0
    else InBandCount(points[..|points| - 1]) + (if MinWatermark <= points[|points| - 1].value < MaxWatermark then 1 else 0)
  }

  /** The sum of a heatmap's counts. */
  ghost function MapTotal(m: map<Cell, int>): int
    decreases |m|
  {
    if m == map[] then 0
    else
      var k :| k in m;
      m[k] + MapTotal(m - {k})
  }

  lemma {:induction false} MapTotalRemove(m: map<Cell, int>, k: Cell)
    requires k in m
    ensures MapTotal(m) == m[k] + MapTotal(m - {k})
    decreases |m|
  {
    var j :| j in m && MapTotal(m) == m[j] + MapTotal(m - {j});
    if j != k {
      var mj := m - {j};
      var mk := m - {k};
      assert |mj| < |m| by { assert mj.Keys == m.Keys - {j}; }
      assert |mk| < |m| by { assert mk.Keys == m.Keys - {k}; }
      MapTotalRemove(mj, k);
      MapTotalRemove(mk, j);
      assert mj - {k} == mk - {j};
    }
  }

  /** Setting one count changes the total by the difference. */
  lemma MapTotalUpdate(m: map<Cell, int>, k: Cell, v: int)
    ensures MapTotal(m[k := v]) == MapTotal(m) - (if k in m then m[k] else 0) + v
  {
    MapTotalRemove(m[k := v], k);
    assert m[k := v] - {k} == m - {k};
    if k in m {
      MapTotalRemove(m, k);
    } else {
      assert m - {k} == m;
    }
  }

  /**
   * The counting loop: a map from (week label, band label) to the number of points in
   * that cell; only cells that receive a point appear.
   */
  method BuildHeatmap(yearStart: int, points: seq<Point>, bands: seq<Band>, monthDay: int -> string) returns (heat: map<Cell, int>)
    requires bands == Bands()
    ensures forall c :: c in heat ==> heat[c] >= 1
    ensures forall c :: c in heat <==> CellCount(points, yearStart, monthDay, c) > 0
    ensures forall c :: c in heat ==> heat[c] == CellCount(points, yearStart, monthDay, c)
    ensures MapTotal(heat) == InBandCount(points)
  {
    heat := map[];
    for i := 0 to |points|
      invariant forall c :: c in heat <==> CellCount(points[..i], yearStart, monthDay, c) > 0
      invariant forall c :: c in heat ==> heat[c] == CellCount(points[..i], yearStart, monthDay, c)
      invariant MapTotal(heat) == InBandCount(points[..i])
    {
      assert points[..i + 1][..i] == points[..i];
      heat := CountPoint(yearStart, heat, points[i], bands, monthDay);
    }
    assert points[..|points|] == points;
  }

  /** One pass of the counting loop: the point's cell, if it has one, gains one. */
  method CountPoint(yearStart: int, heat: map<Cell, int>, p: Point, bands: seq<Band>, monthDay: int -> string)
    returns (heat': map<Cell, int>)
    requires bands == Bands()
    ensures forall c :: c in heat' <==> c in heat || CellOf(yearStart, p, monthDay) == Some(c)
    ensures forall c :: c in heat' ==>
      heat'[c] == (if c in heat then heat[c] else 0) + (if CellOf(yearStart, p, monthDay) == Some(c) then 1 else 0)
    ensures MapTotal(heat') == MapTotal(heat) + (if MinWatermark <= p.value < MaxWatermark then 1 else 0)
  {
    var week := WeekIndex(yearStart, p.exitDay);
    var timeLabel := TimeLabel(yearStart, week, monthDay);
    var band := FindBand(bands, p.value);
    BandOfValue(p.value);
    match band
    case None =>
      heat' := heat;
    case Some(k) =>
      var key := (timeLabel, bands[k].name);
      var count := if key in heat then heat[key] else 0;
      MapTotalUpdate(heat, key, count + 1);
      heat' := heat[key := count + 1];
  }

  /**
   * The watermark handler once the closed trades of the year before `toDay` are fetched:
   * parse and normalise, build the bands, count per cell, and report the 20 to 40 scale.
   */
  method Heatmap(toDay: int, rows: seq<WatermarkRow>, monthDay: int -> string) returns (response: WatermarkResponse)
    ensures response.minWatermark == MinWatermark && response.maxWatermark == MaxWatermark
    ensures forall c :: c in response.data ==> response.data[c] >= 1
    ensures forall c :: c in response.data ==> response.data[c] == CellCount(Points(rows), YearStart(toDay), monthDay, c)
    ensures forall c :: c !in response.data ==> CellCount(Points(rows), YearStart(toDay), monthDay, c) == 0
    ensures MapTotal(response.data) == InBandCount(Points(rows))
  {
    var yearStart := YearStart(toDay);
    var points := ParseRows(rows);
    var bands := BuildBands();
    var heat := BuildHeatmap(yearStart, points, bands, monthDay);
    response := WatermarkResponse(heat, MinWatermark, MaxWatermark);
  }

  /** A fraction of 0.25 and a percentage of 25 land in the same band, `[25, 26)`. */
  lemma FractionAndPercentShareBand()
    ensures Normalize(0.25) == 25.0 && Normalize(25.0) == 25.0
    ensures FirstBand(Bands(), Normalize(0.25)) == Some(5) == FirstBand(Bands(), Normalize(25.0))
    ensures Bands()[5].name == IntToString(25)
  {
    BandOfValue(25.0);
  }
}
