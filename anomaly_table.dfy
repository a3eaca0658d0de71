/**
 * The anomaly breakdown table: ten anomalies per page, a severity band per
 * z-score, a pluralised header, and a message instead of the table when there
 * are no anomalies.
 */
module AnomalyTable {
  import JsString
  import AppTypes

  const PageSize: nat := 10

  /** `Math.ceil(n / PAGE_SIZE)`. */
  function TotalPages(n: nat): (r: nat)
    ensures n == 0 <==> r == 0
    ensures r > 0 ==> (r - 1) * PageSize < n <= r * PageSize
  {
    (n + PageSize - 1) / PageSize
  }

  /** `anomalies.slice((page - 1) * PAGE_SIZE, page * PAGE_SIZE)`. */
  function PageSlice<T>(anomalies: seq<T>, page: int): (r: seq<T>)
    ensures page >= 1 && (page - 1) * PageSize <= |anomalies| ==>
              var start := (page - 1) * PageSize;
              var stop := if page * PageSize < |anomalies| then page * PageSize else |anomalies|;
              r == anomalies[start..stop]
    ensures page >= 1 && (page - 1) * PageSize > |anomalies| ==> r == []
    ensures page >= 1 ==> |r| <= PageSize
  {
    JsString.Slice(anomalies, (page - 1) * PageSize, page * PageSize)
  }

  /** Pages 1..k, one after the other. */
  function PagesUpTo<T>(anomalies: seq<T>, k: nat): seq<T> {
    if k == 0 then [] else PagesUpTo(anomalies, k - 1) + PageSlice(anomalies, k)
  }

  lemma {:induction false} PagesUpToIsPrefix<T>(anomalies: seq<T>, k: nat)
    ensures PagesUpTo(anomalies, k) == anomalies[..if k * PageSize < |anomalies| then k * PageSize else |anomalies|]
  {
    if k > 0 {
      PagesUpToIsPrefix(anomalies, k - 1);
      var n := |anomalies|;
      var a := if (k - 1) * PageSize < n then (k - 1) * PageSize else n;
      if (k - 1) * PageSize <= n {
        assert anomalies[..a] + anomalies[a..if k * PageSize < n then k * PageSize else n]
            == anomalies[..if k * PageSize < n then k * PageSize else n];
      }
    }
  }

  /** The pages 1..totalPages, read in turn, show every anomaly once and in order. */
  lemma PagesCoverAll<T>(anomalies: seq<T>)
    ensures PagesUpTo(anomalies, TotalPages(|anomalies|)) == anomalies
  {
    PagesUpToIsPrefix(anomalies, TotalPages(|anomalies|));
  }

  datatype Severity = High | Medium | Low

  /** `zScore > 4 ? "High" : zScore > 3 ? "Medium" : "Low"`. */
  function SeverityOf(z: real): (s: Severity)
    ensures s == High <==> z > 4.0
    ensures s == Medium <==> 3.0 < z <= 4.0
    ensures s == Low <==> z <= 3.0
  {
    if z > 4.0 then High else if z > 3.0 then Medium else Low
  }

  function SeverityText(s: Severity): string {
    match s
    case High => "High"
    case Medium => "Medium"
    case Low => "Low"
  }

  /** The header line under the title. */
  function Header(n: nat): (h: string)
    ensures h == JsString.NatToString(n) + (if n == 1 then " outlier" else " outliers") + " detected via Z-score > 2.5"
  {
    JsString.NatToString(n) + " outlier" + (if n != 1 then "s" else "") + " detected via Z-score > 2.5"
  }

  const NoAnomaliesMessage: string := "No anomalies detected. Your data looks clean. \U{00E2}\U{0153}\U{201C}"

  datatype Row = Row(rowIndex: int, column: string, value: real, zScore: real, severity: Severity)

  /** What the component renders: the message, or the table with the props it passes to the pager. */
  datatype View =
    | NoAnomalies(message: string)
    | Table(header: string, rows: seq<Row>, page: int, totalPages: nat, totalItems: nat, pageSize: nat)

  function RowOf(a: AppTypes.Anomaly): Row {
    Row(a.rowIndex, a.column, a.value, a.zScore, SeverityOf(a.zScore))
  }

  function Render(anomalies: seq<AppTypes.Anomaly>, page: int): (v: View)
    ensures anomalies == [] <==> v.NoAnomalies?
    ensures v.NoAnomalies? ==> v.message == NoAnomaliesMessage
    ensures v.Table? ==>
              v.header == Header(|anomalies|) &&
              v.totalPages == TotalPages(|anomalies|) && v.totalItems == |anomalies| && v.pageSize == PageSize &&
              v.page == page &&
              |v.rows| == |PageSlice(anomalies, page)| &&
              forall i :: 0 <= i < |v.rows| ==> v.rows[i] == RowOf(PageSlice(anomalies, page)[i])
  {
    if |anomalies| == 0 then NoAnomalies(NoAnomaliesMessage)
    else
      var slice := PageSlice(anomalies, page);
      Table(Header(|anomalies|), seq(|slice|, i requires 0 <= i < |slice| => RowOf(slice[i])),
            page, TotalPages(|anomalies|), |anomalies|, PageSize)
  }
}
