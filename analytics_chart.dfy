/**
 * The series behind the trend-and-forecast chart: the primary column, the real
 * points taken from its moving average, the forecast points with the overlap that
 * joins the two lines, and the anomaly dots placed on the real line.
 */
module AnalyticsChart {
  import opened Wrappers
  import opened AppTypes
  import JsString
  import JsCollections

  /** One entry of the chart data; only forecast entries carry a label. */
  datatype Point = Point(index: int, realValue: Option<real>, forecastValue: Option<real>, labelText: Option<string>)

  /** A reference dot at `(x, y)` on the real line. */
  datatype Dot = Dot(x: int, y: Option<real>)

  /** The moving average has a 7-period window, so its first value belongs to row 6. */
  const FirstAveragedRow := 6

  /** At most this many anomalies of the primary column are marked. */
  const MaxDots := 8

  /** The first key of `numericSummary` in JavaScript's own-key order, if it has any. */
  function PrimaryColumn(a: Analytics): (r: Option<string>)
    ensures r.None? <==> |a.numericSummary| == 0
    ensures r.Some? ==> r.value in NumericColumnSet(a)
    ensures ((forall k :: k in MemberNames(a.numericSummary) ==> !JsCollections.IsArrayIndex(k)) &&
             |a.numericSummary| > 0) ==> r == Some(a.numericSummary[0].0)
  {
    var names := MemberNames(a.numericSummary);
    var r := JsCollections.FirstKey(names);
    if r.Some? then
      var i :| 0 <= i < |names| && names[i] == r.value;
      assert a.numericSummary[i] in a.numericSummary;
      r
    else r
  }

  /** `analytics.movingAverages[col] ?? []`. */
  function Averages(a: Analytics, col: string): (ma: seq<real>)
    ensures ma != [] ==> col in a.movingAverages && ma == a.movingAverages[col]
  {
    if col in a.movingAverages then a.movingAverages[col] else []
  }

  /** `ma.map((val, i) => ...)`: the real points, one per moving-average value. */
  function RealData(ma: seq<real>): (r: seq<Point>)
    ensures |r| == |ma|
  {
    seq(|ma|, i requires 0 <= i < |ma| => Point(i + FirstAveragedRow, Some(ma[i]), None, None))
  }

  /**
   * The chart data: the real points, then the forecast points, the first of which
   * also carries the last real value so that the two lines meet.
   */
  predicate IsChartData(ma: seq<real>, forecast: seq<ForecastPoint>, data: seq<Point>) {
    |data| == |ma| + |forecast| &&
    (forall i :: 0 <= i < |ma| ==> data[i] == Point(i + FirstAveragedRow, Some(ma[i]), None, None)) &&
    (forall j :: 0 <= j < |forecast| ==>
       data[|ma| + j].index == forecast[j].period &&
       data[|ma| + j].forecastValue == Some(forecast[j].value) &&
       data[|ma| + j].labelText == Some(forecast[j].labelText)) &&
    (forall k :: |ma| < k < |data| ==> data[k].realValue == None) &&
    (|forecast| > 0 ==> data[|ma|].realValue == (if |ma| > 0 then Some(ma[|ma| - 1]) else None))
  }

  /** `realData` and `forecastData` as the component builds them, joined. */
  method ChartData(ma: seq<real>, forecast: seq<ForecastPoint>) returns (data: seq<Point>)
    ensures IsChartData(ma, forecast, data)
    ensures |ma| > 0 && |forecast| > 0 ==> data[|ma|].realValue == data[|ma| - 1].realValue
  {
    var realData := RealData(ma);
    var forecastData := new Point[|forecast|](j requires 0 <= j < |forecast| =>
      Point(forecast[j].period, None, Some(forecast[j].value), Some(forecast[j].labelText)));
    if |realData| > 0 && forecastData.Length > 0 {
      var last := realData[|realData| - 1];
      forecastData[0] := forecastData[0].(realValue := last.realValue);
    }
    data := realData + forecastData[..];
  }

  /** `points.find(d => d.index === idx)`. */
  function Find(points: seq<Point>, idx: int): (r: Option<Point>)
    ensures r.Some? ==> r.value in points && r.value.index == idx
    ensures r.None? <==> forall p :: p in points ==> p.index != idx
  {
    if points == [] then None
    else if points[0].index == idx then Some(points[0])
    else
      assert forall p :: p in points ==> p == points[0] || p in points[1..];
      Find(points[1..], idx)
  }

  /** The real point with index `idx` exists exactly for the averaged rows, and holds that row's average. */
  lemma FindRealPoint(ma: seq<real>, idx: int)
    ensures Find(RealData(ma), idx) ==
            if FirstAveragedRow <= idx < |ma| + FirstAveragedRow
            then Some(Point(idx, Some(ma[idx - FirstAveragedRow]), None, None))
            else None
  {
    var pts := RealData(ma);
    var r := Find(pts, idx);
    if FirstAveragedRow <= idx < |ma| + FirstAveragedRow {
      assert pts[idx - FirstAveragedRow] in pts;
      var i :| 0 <= i < |pts| && pts[i] == r.value;
      assert i == idx - FirstAveragedRow;
    }
  }

  /** `anomalies.filter(a => a.column === col)`. */
  function ForColumn(anomalies: seq<Anomaly>, col: string): (r: seq<Anomaly>)
    ensures |r| <= |anomalies|
    ensures forall x :: x in r <==> x in anomalies && x.column == col
  {
    if anomalies == [] then []
    else
      assert anomalies == [anomalies[0]] + anomalies[1..];
      (if anomalies[0].column == col then [anomalies[0]] else []) + ForColumn(anomalies[1..], col)
  }

  /** The dot for one anomaly, when a real point sits at its row. */
  function DotOf(realData: seq<Point>, an: Anomaly): Option<Dot> {
    match Find(realData, an.rowIndex)
    case Some(p) => Some(Dot(p.index, p.realValue))
    case None => None
  }

  /** `.map(...)` to a dot or `null`, then `.filter(Boolean)`. */
  function Dots(realData: seq<Point>, marked: seq<Anomaly>): (dots: seq<Dot>)
    ensures |dots| <= |marked|
  {
    if marked == [] then []
    else
      (match DotOf(realData, marked[0]) case Some(d) => [d] case None => []) + Dots(realData, marked[1..])
  }

  /** The dots the chart marks for the primary column `col`. */
  function AnomalyDots(anomalies: seq<Anomaly>, col: string, ma: seq<real>): (dots: seq<Dot>)
    ensures |dots| <= MaxDots
    ensures |dots| <= |anomalies|
  {
    Dots(RealData(ma), JsString.Slice(ForColumn(anomalies, col), 0, MaxDots))
  }

  /** An independent statement of the dots: one per marked anomaly whose row was averaged, in order. */
  function DotsByRow(ma: seq<real>, marked: seq<Anomaly>): seq<Dot> {
    if marked == [] then []
    else
      var row := marked[0].rowIndex;
      (if FirstAveragedRow <= row < |ma| + FirstAveragedRow
       then [Dot(row, Some(ma[row - FirstAveragedRow]))]
       else []) + DotsByRow(ma, marked[1..])
  }

  lemma {:induction false} DotsAreDotsByRow(ma: seq<real>, marked: seq<Anomaly>)
    ensures Dots(RealData(ma), marked) == DotsByRow(ma, marked)
  {
    if marked != [] {
      FindRealPoint(ma, marked[0].rowIndex);
      DotsAreDotsByRow(ma, marked[1..]);
    }
  }

  /** Every dot of `DotsByRow` sits on an averaged row of one of the marked anomalies. */
  lemma {:induction false} DotsByRowPlaced(ma: seq<real>, marked: seq<Anomaly>, d: Dot)
    requires d in DotsByRow(ma, marked)
    ensures FirstAveragedRow <= d.x < |ma| + FirstAveragedRow
    ensures d.y == Some(ma[d.x - FirstAveragedRow])
    ensures exists an :: an in marked && an.rowIndex == d.x
  {
    var row := marked[0].rowIndex;
    if FirstAveragedRow <= row < |ma| + FirstAveragedRow && d == Dot(row, Some(ma[row - FirstAveragedRow])) {
      assert marked[0] in marked;
    } else {
      DotsByRowPlaced(ma, marked[1..], d);
      var an :| an in marked[1..] && an.rowIndex == d.x;
      assert an in marked;
    }
  }

  /**
   * At most eight dots; each lies on an averaged row, at that row's average, and comes
   * from an anomaly of the primary column with that row index.
   */
  lemma AnomalyDotsBounded(anomalies: seq<Anomaly>, col: string, ma: seq<real>)
    ensures |AnomalyDots(anomalies, col, ma)| <= MaxDots
    ensures forall d :: d in AnomalyDots(anomalies, col, ma) ==>
              FirstAveragedRow <= d.x < |ma| + FirstAveragedRow &&
              d.y == Some(ma[d.x - FirstAveragedRow]) &&
              exists an :: an in anomalies && an.column == col && an.rowIndex == d.x
  {
    var all := ForColumn(anomalies, col);
    var marked := JsString.Slice(all, 0, MaxDots);
    JsString.SlicePrefix(all, MaxDots);
    DotsAreDotsByRow(ma, marked);
    forall d | d in AnomalyDots(anomalies, col, ma)
      ensures FirstAveragedRow <= d.x < |ma| + FirstAveragedRow
      ensures d.y == Some(ma[d.x - FirstAveragedRow])
      ensures exists an :: an in anomalies && an.column == col && an.rowIndex == d.x
    {
      DotsByRowPlaced(ma, marked, d);
      var an :| an in marked && an.rowIndex == d.x;
      assert an in all;
    }
  }

  /** What the component renders. */
  datatype Chart =
    | NoNumericColumns
    | Chart(primary: string, heading: string, data: seq<Point>, dots: seq<Dot>)

  method Render(a: Analytics) returns (c: Chart)
    ensures c.NoNumericColumns? <==> |a.numericSummary| == 0
    ensures c.Chart? ==> PrimaryColumn(a) == Some(c.primary) &&
                         c.heading == c.primary + " \U{2014} Trend & Forecast" &&
                         IsChartData(Averages(a, c.primary), a.forecast, c.data) &&
                         c.dots == AnomalyDots(a.anomalies, c.primary, Averages(a, c.primary))
  {
    var primary := PrimaryColumn(a);
    if primary.None? {
      return NoNumericColumns;
    }
    var col := primary.value;
    var ma := Averages(a, col);
    var data := ChartData(ma, a.forecast);
    c := Chart(col, col + " \U{2014} Trend & Forecast", data, AnomalyDots(a.anomalies, col, ma));
  }
}
