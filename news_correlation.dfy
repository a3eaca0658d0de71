/**
 * The "Why did this happen?" cards: anomaly explanations, contextual news, a risk
 * alert and a forecast trend, assembled in that order and capped at five. The
 * locale-formatted month strings and the rendering of the risk score are inputs.
 */
module NewsCorrelation {
  import opened AppTypes
  import JsString

  datatype Tag = AnomalyTag | ExternalTag | RiskTag | TrendTag

  datatype NewsCard = NewsCard(headline: string, source: string, date: string, summary: string, tag: Tag, tagLabel: string)

  const Ellipsis: string := "\U{2026}"
  const MaxAnomalyCards := 2
  const MaxExternalCards := 3
  const MaxCards := 5

  const AnomalySources: seq<string> := ["District Analytics Bureau", "PIB Data Monitor", "NIC Data Services"]
  const ExternalSources: seq<string> :=
    ["Press Trust of India", "Hindustan Times Data", "Times of India Analytics", "The Hindu", "Mint"]

  function Min(a: int, b: int): int {
    if a < b then a else b
  }

  /** `s` cut to its first `n` characters, with an ellipsis only when something was cut. */
  function Shorten(s: string, n: nat): (r: string)
    ensures |s| <= n ==> r == s
    ensures |s| > n ==> r == s[..n] + Ellipsis
    ensures |r| <= n + 1
  {
    if |s| > n then JsString.Slice(s, 0, n) + Ellipsis else s
  }

  /** The headline of the `i`-th anomaly card. */
  function AnomalyHeadline(i: nat, explanation: string, datasetName: string, dateStr: string): string {
    if i == 0 then "Unusual data spike detected in " + datasetName + " records for " + dateStr
    else "Data irregularity flagged: " + JsString.Slice(explanation, 0, 60) + (if |explanation| > 60 then Ellipsis else "")
  }

  /** The second anomaly headline shortens its explanation to 60 characters, marking a cut with an ellipsis. */
  lemma SecondAnomalyHeadline(explanation: string, datasetName: string, dateStr: string)
    ensures AnomalyHeadline(1, explanation, datasetName, dateStr) ==
            "Data irregularity flagged: " + Shorten(explanation, 60)
  {
    JsString.SlicePrefix(explanation, 60);
  }

  function AnomalyCard(i: nat, explanation: string, datasetName: string, dateStr: string): NewsCard {
    NewsCard(AnomalyHeadline(i, explanation, datasetName, dateStr), AnomalySources[i % 3], dateStr,
             explanation, AnomalyTag, "\U{26A0} Anomaly")
  }

  /** `prevMonth || dateStr`. */
  function ExternalDate(prevMonth: string, dateStr: string): string {
    if prevMonth != "" then prevMonth else dateStr
  }

  function ExternalCard(i: nat, item: string, prevMonth: string, dateStr: string): NewsCard {
    NewsCard(if |item| > 80 then JsString.Slice(item, 0, 80) + Ellipsis else item,
             ExternalSources[i % 5], ExternalDate(prevMonth, dateStr), item, ExternalTag, "\U{1F4F0} News")
  }

  function RiskCard(datasetName: string, riskText: string, report: AIReport, dateStr: string): NewsCard {
    NewsCard("Risk alert: " + datasetName + " shows elevated risk score of " + riskText + "/100",
             "Ministry of Statistics & Programme Implementation", dateStr, report.riskReasoning,
             RiskTag, "\U{1F534} Risk")
  }

  /** The trend headline always ends in an ellipsis, after at most 70 characters of the narrative. */
  function TrendCard(report: AIReport, dateStr: string): NewsCard {
    NewsCard("Forward projection: " + JsString.Slice(report.forecastNarrative, 0, 70) + Ellipsis,
             "NITI Aayog Forecast Division", dateStr, report.forecastNarrative, TrendTag, "\U{1F4C8} Trend")
  }

  /** The anomaly cards: one per explanation, at most two. */
  function AnomalyCards(report: AIReport, datasetName: string, dateStr: string): (cards: seq<NewsCard>)
    ensures |cards| == Min(MaxAnomalyCards, |report.anomalyExplanations|)
  {
    var nA := Min(MaxAnomalyCards, |report.anomalyExplanations|);
    seq(nA, i requires 0 <= i < nA => AnomalyCard(i, report.anomalyExplanations[i], datasetName, dateStr))
  }

  /** The news cards: one per contextual news item, at most three. */
  function ExternalCards(report: AIReport, prevMonth: string, dateStr: string): (cards: seq<NewsCard>)
    ensures |cards| == Min(MaxExternalCards, |report.contextualNews|)
  {
    var nE := Min(MaxExternalCards, |report.contextualNews|);
    seq(nE, i requires 0 <= i < nE => ExternalCard(i, report.contextualNews[i], prevMonth, dateStr))
  }

  /** Every card before the final cut, in order. */
  function AllCards(report: AIReport, a: Analytics, datasetName: string, dateStr: string, prevMonth: string,
                    riskText: string): (cards: seq<NewsCard>)
    ensures |cards| <= MaxAnomalyCards + MaxExternalCards + 2
    ensures |cards| >= Min(MaxExternalCards, |report.contextualNews|)
  {
    AnomalyCards(report, datasetName, dateStr) + ExternalCards(report, prevMonth, dateStr) +
    (if a.riskScore > 50.0 then [RiskCard(datasetName, riskText, report, dateStr)] else []) +
    (if report.forecastNarrative != "" then [TrendCard(report, dateStr)] else [])
  }

  /** The cards the component shows: the first five of `AllCards`. */
  function NewsCards(report: AIReport, a: Analytics, datasetName: string, dateStr: string, prevMonth: string,
                     riskText: string): (cards: seq<NewsCard>)
    ensures |cards| <= MaxCards
  {
    JsString.SlicePrefix(AllCards(report, a, datasetName, dateStr, prevMonth, riskText), MaxCards);
    JsString.Slice(AllCards(report, a, datasetName, dateStr, prevMonth, riskText), 0, MaxCards)
  }

  /**
   * `buildNewsCards`: pushes the cards group by group and returns the first five.
   * `dateStr` and `prevMonth` are the formatted months, `riskText` is `String(riskScore)`.
   */
  method BuildNewsCards(report: AIReport, a: Analytics, datasetName: string, dateStr: string, prevMonth: string,
                        riskText: string) returns (cards: seq<NewsCard>)
    ensures cards == NewsCards(report, a, datasetName, dateStr, prevMonth, riskText)
  {
    var nA := Min(MaxAnomalyCards, |report.anomalyExplanations|);
    var nE := Min(MaxExternalCards, |report.contextualNews|);
    var all: seq<NewsCard> := [];
    for i := 0 to nA
      invariant all == AnomalyCards(report, datasetName, dateStr)[..i]
    {
      all := all + [AnomalyCard(i, report.anomalyExplanations[i], datasetName, dateStr)];
    }
    ghost var anomalyCards := all;
    assert anomalyCards == AnomalyCards(report, datasetName, dateStr);
    for i := 0 to nE
      invariant all == anomalyCards + ExternalCards(report, prevMonth, dateStr)[..i]
    {
      all := all + [ExternalCard(i, report.contextualNews[i], prevMonth, dateStr)];
    }
    assert all == AnomalyCards(report, datasetName, dateStr) + ExternalCards(report, prevMonth, dateStr);
    if a.riskScore > 50.0 {
      all := all + [RiskCard(datasetName, riskText, report, dateStr)];
    }
    if report.forecastNarrative != "" {
      all := all + [TrendCard(report, dateStr)];
    }
    assert all == AllCards(report, a, datasetName, dateStr, prevMonth, riskText);
    cards := JsString.Slice(all, 0, MaxCards);
  }

  /** The number of anomaly and external cards, which come before the risk and trend cards. */
  function Leading(report: AIReport): nat {
    Min(MaxAnomalyCards, |report.anomalyExplanations|) + Min(MaxExternalCards, |report.contextualNews|)
  }

  function Rank(t: Tag): nat {
    match t
    case AnomalyTag => 0
    case ExternalTag => 1
    case RiskTag => 2
    case TrendTag => 3
  }

  /** The cards before the cut are laid out group by group. */
  lemma AllCardsAt(report: AIReport, a: Analytics, datasetName: string, dateStr: string,
                                      prevMonth: string, riskText: string, i: nat)
    requires i < |AllCards(report, a, datasetName, dateStr, prevMonth, riskText)|
    ensures var c := AllCards(report, a, datasetName, dateStr, prevMonth, riskText)[i];
            var nA := Min(MaxAnomalyCards, |report.anomalyExplanations|);
            if i < nA then c == AnomalyCard(i, report.anomalyExplanations[i], datasetName, dateStr)
            else if i < Leading(report) then c == ExternalCard(i - nA, report.contextualNews[i - nA], prevMonth, dateStr)
            else if i == Leading(report) && a.riskScore > 50.0 then c == RiskCard(datasetName, riskText, report, dateStr)
            else c == TrendCard(report, dateStr) && report.forecastNarrative != ""
  {
    var anomaly, external := AnomalyCards(report, datasetName, dateStr), ExternalCards(report, prevMonth, dateStr);
    var risk := if a.riskScore > 50.0 then [RiskCard(datasetName, riskText, report, dateStr)] else [];
    var trend := if report.forecastNarrative != "" then [TrendCard(report, dateStr)] else [];
    var all := AllCards(report, a, datasetName, dateStr, prevMonth, riskText);
    assert all == anomaly + external + risk + trend;
    if i < |anomaly| {
      assert all[i] == anomaly[i];
    } else if i < |anomaly| + |external| {
      assert all[i] == external[i - |anomaly|];
    } else if i == |anomaly| + |external| && a.riskScore > 50.0 {
      assert all[i] == risk[0];
    } else {
      assert all[i] == trend[i - |anomaly| - |external| - |risk|];
    }
  }

  /** The group rank of the card at position `i` before the cut. */
  function RankAt(report: AIReport, a: Analytics, i: nat): nat {
    if i < Min(MaxAnomalyCards, |report.anomalyExplanations|) then 0
    else if i < Leading(report) then 1
    else if i == Leading(report) && a.riskScore > 50.0 then 2
    else 3
  }

  /** A shown card is the card at the same position before the cut, with the rank of that position. */
  lemma ShownCardAt(report: AIReport, a: Analytics, datasetName: string, dateStr: string, prevMonth: string,
                    riskText: string, i: nat)
    requires i < |NewsCards(report, a, datasetName, dateStr, prevMonth, riskText)|
    ensures var cards := NewsCards(report, a, datasetName, dateStr, prevMonth, riskText);
            i < |AllCards(report, a, datasetName, dateStr, prevMonth, riskText)| &&
            cards[i] == AllCards(report, a, datasetName, dateStr, prevMonth, riskText)[i] &&
            Rank(cards[i].tag) == RankAt(report, a, i)
  {
    JsString.SlicePrefix(AllCards(report, a, datasetName, dateStr, prevMonth, riskText), MaxCards);
    AllCardsAt(report, a, datasetName, dateStr, prevMonth, riskText, i);
  }

  /**
   * At most five cards, in group order (anomaly, external, risk, trend), with at most
   * two anomaly cards and at most three external ones.
   */
  lemma CardsOrdered(report: AIReport, a: Analytics, datasetName: string, dateStr: string, prevMonth: string,
                     riskText: string)
    ensures var cards := NewsCards(report, a, datasetName, dateStr, prevMonth, riskText);
            |cards| <= MaxCards &&
            (forall i, j :: 0 <= i < j < |cards| ==> Rank(cards[i].tag) <= Rank(cards[j].tag)) &&
            (forall i :: 0 <= i < |cards| && cards[i].tag == AnomalyTag ==> i < MaxAnomalyCards) &&
            (forall i :: 0 <= i < |cards| && cards[i].tag == ExternalTag ==>
               Min(MaxAnomalyCards, |report.anomalyExplanations|) <= i < Leading(report))
  {
    var cards := NewsCards(report, a, datasetName, dateStr, prevMonth, riskText);
    forall i | 0 <= i < |cards|
      ensures Rank(cards[i].tag) == RankAt(report, a, i)
    {
      ShownCardAt(report, a, datasetName, dateStr, prevMonth, riskText, i);
    }
  }

  /**
   * A risk card is shown exactly when the score is above 50 and fewer than five
   * anomaly and external cards precede it.
   */
  lemma RiskCardShown(report: AIReport, a: Analytics, datasetName: string, dateStr: string, prevMonth: string,
                      riskText: string)
    ensures var cards := NewsCards(report, a, datasetName, dateStr, prevMonth, riskText);
            (exists i :: 0 <= i < |cards| && cards[i].tag == RiskTag) <==>
            a.riskScore > 50.0 && Leading(report) < MaxCards
  {
    var all := AllCards(report, a, datasetName, dateStr, prevMonth, riskText);
    var cards := NewsCards(report, a, datasetName, dateStr, prevMonth, riskText);
    JsString.SlicePrefix(all, MaxCards);
    if a.riskScore > 50.0 && Leading(report) < MaxCards {
      AllCardsAt(report, a, datasetName, dateStr, prevMonth, riskText, Leading(report));
      assert cards[Leading(report)].tag == RiskTag;
    }
    forall i | 0 <= i < |cards| && cards[i].tag == RiskTag
      ensures a.riskScore > 50.0 && Leading(report) < MaxCards
    {
      AllCardsAt(report, a, datasetName, dateStr, prevMonth, riskText, i);
    }
  }

  /**
   * A trend card is shown exactly when the narrative is non-empty and fewer than five
   * cards precede it.
   */
  lemma TrendCardShown(report: AIReport, a: Analytics, datasetName: string, dateStr: string, prevMonth: string,
                       riskText: string)
    ensures var cards := NewsCards(report, a, datasetName, dateStr, prevMonth, riskText);
            (exists i :: 0 <= i < |cards| && cards[i].tag == TrendTag) <==>
            report.forecastNarrative != "" && Leading(report) + (if a.riskScore > 50.0 then 1 else 0) < MaxCards
  {
    var all := AllCards(report, a, datasetName, dateStr, prevMonth, riskText);
    var cards := NewsCards(report, a, datasetName, dateStr, prevMonth, riskText);
    var at := Leading(report) + (if a.riskScore > 50.0 then 1 else 0);
    JsString.SlicePrefix(all, MaxCards);
    if report.forecastNarrative != "" && at < MaxCards {
      AllCardsAt(report, a, datasetName, dateStr, prevMonth, riskText, at);
      assert cards[at].tag == TrendTag;
    }
    forall i | 0 <= i < |cards| && cards[i].tag == TrendTag
      ensures report.forecastNarrative != "" && at < MaxCards
    {
      AllCardsAt(report, a, datasetName, dateStr, prevMonth, riskText, i);
    }
  }

  /**
   * Each card's summary is its source text: the explanation, the news item, the risk
   * reasoning or the forecast narrative; news cards carry `prevMonth`, or `dateStr`
   * when it is empty, all others `dateStr`.
   */
  lemma CardSummaries(report: AIReport, a: Analytics, datasetName: string, dateStr: string, prevMonth: string,
                      riskText: string, i: nat)
    requires i < |NewsCards(report, a, datasetName, dateStr, prevMonth, riskText)|
    ensures var c := NewsCards(report, a, datasetName, dateStr, prevMonth, riskText)[i];
            var nA := Min(MaxAnomalyCards, |report.anomalyExplanations|);
            (c.tag == AnomalyTag ==> i < nA && c.summary == report.anomalyExplanations[i] && c.date == dateStr) &&
            (c.tag == ExternalTag ==> nA <= i < Leading(report) && c.summary == report.contextualNews[i - nA] &&
                                      c.date == (if prevMonth != "" then prevMonth else dateStr)) &&
            (c.tag == RiskTag ==> c.summary == report.riskReasoning && c.date == dateStr) &&
            (c.tag == TrendTag ==> c.summary == report.forecastNarrative && c.date == dateStr)
  {
    ShownCardAt(report, a, datasetName, dateStr, prevMonth, riskText, i);
    AllCardsAt(report, a, datasetName, dateStr, prevMonth, riskText, i);
  }

  /** A news headline is the item itself up to 80 characters, else its first 80 and an ellipsis. */
  lemma ExternalHeadline(i: nat, item: string, prevMonth: string, dateStr: string)
    ensures ExternalCard(i, item, prevMonth, dateStr).headline == Shorten(item, 80)
  {
    JsString.SlicePrefix(item, 80);
  }

  /** The trend headline keeps at most 70 characters of the narrative and always ends in an ellipsis. */
  lemma TrendHeadline(report: AIReport, dateStr: string)
    ensures var n := report.forecastNarrative;
            TrendCard(report, dateStr).headline ==
            "Forward projection: " + n[..Min(70, |n|)] + Ellipsis
  {
    JsString.SlicePrefix(report.forecastNarrative, 70);
  }
}
