/**
 * The shapes of the analytics records the dashboard components read
 * (`Analytics`, `Anomaly`, `ForecastPoint`, `AIReport`). JavaScript numbers
 * that the components only compare are `real`; row indices and periods are `int`.
 * A JavaScript object used as a record (`numericSummary`) is a sequence of
 * (key, value) members in insertion order; one used as a dictionary
 * (`movingAverages`) is a `map`.
 */
module AppTypes {
  import opened Wrappers

  datatype DateRange = DateRange(min: string, max: string)

  datatype NumericStats = NumericStats(mean: real, variance: real, min: real, max: real, stdDev: real)

  datatype Anomaly = Anomaly(rowIndex: int, column: string, value: real, zScore: real, labelText: string)

  datatype ForecastPoint = ForecastPoint(period: int, value: real, labelText: string)

  datatype Analytics = Analytics(
    totalRecords: nat,
    dateRange: Option<DateRange>,
    columns: seq<string>,
    numericSummary: seq<(string, NumericStats)>,
    growthPercent: Option<real>,
    movingAverages: map<string, seq<real>>,
    anomalies: seq<Anomaly>,
    riskScore: real,
    forecast: seq<ForecastPoint>)

  datatype AIReport = AIReport(
    executiveSummary: string,
    insightHighlights: seq<string>,
    anomalyExplanations: seq<string>,
    riskReasoning: string,
    forecastNarrative: string,
    contextualNews: seq<string>,
    certificationReasoning: string,
    confidenceScore: real)

  /** `Object.keys(analytics.numericSummary)` as a set. */
  function NumericColumnSet(a: Analytics): set<string> {
    set m | m in a.numericSummary :: m.0
  }

  /** The member names of a record, in insertion order. */
  function MemberNames<V>(members: seq<(string, V)>): (r: seq<string>)
    ensures |r| == |members|
    ensures forall i :: 0 <= i < |members| ==> r[i] == members[i].0
  {
    seq(|members|, i requires 0 <= i < |members| => members[i].0)
  }
}
