/**
 * The four KPI cards above the analytics view: total records, growth, risk score
 * and anomalies, each with a value, a sub-line and a colour pair.
 */
module KpiCards {
  import opened Wrappers
  import JsString
  import JsCollections
  import AppTypes

  /**
   * Number formatting the model does not interpret: `toLocaleString()` of the record
   * count and the default `${x}` rendering of a number.
   */
  datatype Formats = Formats(localeInt: nat -> string, numberText: real -> string)

  datatype Card = Card(title: string, value: string, sub: string, color: string, bg: string)

  const Green := "#16a34a"
  const GreenBg := "#f0fdf4"
  const Red := "#dc2626"
  const RedBg := "#fef2f2"
  const Orange := "#e97316"
  const OrangeBg := "#fff7ed"
  const Indigo := "#6366f1"
  const IndigoBg := "#f0f3ff"

  datatype RiskBand = LowRisk | ModerateRisk | HighRisk

  /** `< 30` Low, `30 <= r < 60` Moderate, `>= 60` High. */
  function BandOf(riskScore: real): (b: RiskBand)
    ensures b == LowRisk <==> riskScore < 30.0
    ensures b == ModerateRisk <==> 30.0 <= riskScore < 60.0
    ensures b == HighRisk <==> riskScore >= 60.0
  {
    if riskScore < 30.0 then LowRisk else if riskScore < 60.0 then ModerateRisk else HighRisk
  }

  function BandText(b: RiskBand): string {
    match b
    case LowRisk => "Low risk"
    case ModerateRisk => "Moderate risk"
    case HighRisk => "High risk"
  }

  function BandColor(b: RiskBand): (string, string) {
    match b
    case LowRisk => (Green, GreenBg)
    case ModerateRisk => ("#d97706", "#fffbeb")
    case HighRisk => (Red, RedBg)
  }

  /** `${a.growthPercent > 0 ? "+" : ""}${a.growthPercent}%`, or "N/A" for null. */
  function GrowthText(growth: Option<real>, f: Formats): (t: string)
    ensures t == "N/A" <==> growth.None?
    ensures growth.Some? && growth.value > 0.0 ==> t == "+" + f.numberText(growth.value) + "%"
    ensures growth.Some? && growth.value <= 0.0 ==> t == f.numberText(growth.value) + "%"
  {
    match growth
    case None => "N/A"
    case Some(g) =>
      var t := (if g > 0.0 then "+" else "") + f.numberText(g) + "%";
      assert t[|t| - 1] == '%';
      t
  }

  /** Green exactly for a known, non-negative growth; a missing figure shows red. */
  function GrowthGreen(growth: Option<real>): (green: bool)
    ensures green <==> growth.Some? && growth.value >= 0.0
  {
    growth.Some? && growth.value >= 0.0
  }

  /** The number of distinct column names among the anomalies, as `new Set(...).size`. */
  function AnomalyColumnCount(anomalies: seq<AppTypes.Anomaly>): (n: nat)
    ensures n == |set k | 0 <= k < |anomalies| :: anomalies[k].column|
    ensures n <= |anomalies|
    ensures n == 0 <==> anomalies == []
  {
    var cols := seq(|anomalies|, k requires 0 <= k < |anomalies| => anomalies[k].column);
    JsCollections.DedupCardinality(cols);
    ColumnSetOfColumnList(anomalies, cols);
    CardinalityAtMostLength(cols);
    assert anomalies != [] ==> cols[0] in JsCollections.Dedup(cols);
    |JsCollections.Dedup(cols)|
  }

  lemma ColumnSetOfColumnList(anomalies: seq<AppTypes.Anomaly>, cols: seq<string>)
    requires |cols| == |anomalies| && forall k :: 0 <= k < |cols| ==> cols[k] == anomalies[k].column
    ensures (set x | x in cols) == (set k | 0 <= k < |anomalies| :: anomalies[k].column)
  {
    forall x | x in cols
      ensures x in (set k | 0 <= k < |anomalies| :: anomalies[k].column)
    {
      var k :| 0 <= k < |cols| && cols[k] == x;
    }
  }

  lemma {:induction false} CardinalityAtMostLength(s: seq<string>)
    ensures |set x | x in s| <= |s|
  {
    if s != [] {
      var init := s[..|s| - 1];
      CardinalityAtMostLength(init);
      assert s == init + [s[|s| - 1]];
      assert (set x | x in s) == (set x | x in init) + {s[|s| - 1]};
    }
  }

  /** The records card's sub-line: the date range, or "No date detected" exactly when there is none. */
  function DateSub(range: Option<AppTypes.DateRange>): (t: string)
    ensures range.Some? ==> t == range.value.min + " \U{2192} " + range.value.max
    ensures t == "No date detected" <==> range.None?
  {
    match range
    case None => "No date detected"
    case Some(r) =>
      var t := r.min + " \U{2192} " + r.max;
      assert t[|r.min| + 1] == '\U{2192}';
      assert '\U{2192}' !in "No date detected";
      t
  }

  function Cards(a: AppTypes.Analytics, f: Formats): (cards: seq<Card>)
    ensures |cards| == 4
    ensures cards[0].title == "Total Records" && cards[1].title == "Growth" &&
            cards[2].title == "Risk Score" && cards[3].title == "Anomalies"
    ensures cards[0].value == f.localeInt(a.totalRecords) && cards[0].color == Indigo && cards[0].bg == IndigoBg
    ensures cards[0].sub == "No date detected" <==> a.dateRange.None?
    ensures a.dateRange.Some? ==> cards[0].sub == a.dateRange.value.min + " \U{2192} " + a.dateRange.value.max
    ensures cards[1].value == GrowthText(a.growthPercent, f) && cards[1].sub == "First vs last value"
    ensures (cards[1].color, cards[1].bg) == if GrowthGreen(a.growthPercent) then (Green, GreenBg) else (Red, RedBg)
    ensures cards[2].value == f.numberText(a.riskScore) + "/100"
    ensures cards[2].sub == BandText(BandOf(a.riskScore))
    ensures (cards[2].color, cards[2].bg) == BandColor(BandOf(a.riskScore))
    ensures cards[3].value == JsString.NatToString(|a.anomalies|)
    ensures cards[3].sub == "Across " + JsString.NatToString(AnomalyColumnCount(a.anomalies)) + " column(s)"
    ensures (cards[3].color, cards[3].bg) == if a.anomalies == [] then (Green, GreenBg) else (Orange, OrangeBg)
  {
    var growthGreen := GrowthGreen(a.growthPercent);

    var band := BandOf(a.riskScore);
    [ Card("Total Records", f.localeInt(a.totalRecords),
           DateSub(a.dateRange),
           Indigo, IndigoBg),
      Card("Growth", GrowthText(a.growthPercent, f), "First vs last value",
           if growthGreen then Green else Red, if growthGreen then GreenBg else RedBg),
      Card("Risk Score", f.numberText(a.riskScore) + "/100", BandText(band), BandColor(band).0, BandColor(band).1),
      Card("Anomalies", JsString.NatToString(|a.anomalies|),
           "Across " + JsString.NatToString(AnomalyColumnCount(a.anomalies)) + " column(s)",
           if a.anomalies == [] then Green else Orange, if a.anomalies == [] then GreenBg else OrangeBg) ]
  }

  /**
   * A missing or falling growth shows the growth card in red, and the anomaly card is
   * green exactly when there are no anomalies.
   */
  lemma CardColours(a: AppTypes.Analytics, f: Formats)
    ensures a.growthPercent.None? ==> Cards(a, f)[1].color == Red && Cards(a, f)[1].bg == RedBg
    ensures a.growthPercent.Some? && a.growthPercent.value < 0.0 ==> Cards(a, f)[1].color == Red
    ensures Cards(a, f)[1].color == Green <==> GrowthGreen(a.growthPercent)
    ensures Cards(a, f)[3].color == Green <==> a.anomalies == []
  {
  }
}
