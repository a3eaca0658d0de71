/**
 * The schema panel: the agriculture-keyword test on column names, the choice of
 * the date column, anomaly counts per column, and the grouping of columns into
 * Numeric, Date, Categorical and Text, with collapsed lists and summary pills.
 */
module SchemaPanel {
  import opened Wrappers
  import JsString
  import AppTypes

  const AgKeywords: seq<string> := [
    "crop", "yield", "harvest", "soil", "fertilizer", "rainfall",
    "irrigation", "farm", "kharif", "rabi", "wheat", "rice", "cotton",
    "sugarcane", "pulses", "agri", "sowing", "pesticide", "manure"]

  const DateWords: seq<string> := ["date", "time", "year", "month", "day", "period"]

  const TextWords: seq<string> := ["name", "description", "notes", "remarks", "text", "comment"]

  const CollapseAt: nat := 8

  /** `words.some((w) => s.includes(w))`. */
  function SomeIncluded(s: string, words: seq<string>): (b: bool)
    ensures b <==> exists j :: 0 <= j < |words| && JsString.Includes(s, words[j])
  {
    if words == [] then false
    else JsString.Includes(s, words[0]) || SomeIncluded(s, words[1..])
  }

  /**
   * A case-insensitive test of an alternation of lower-case ASCII words, as
   * `/w1|w2|.../i.test(col)` does (without the `u` flag only ASCII letters fold to ASCII).
   */
  predicate MatchesWords(col: string, words: seq<string>) {
    SomeIncluded(JsString.ToLowerAscii(col), words)
  }

  /** `columns.some((col) => AG_KEYWORDS.some((kw) => col.toLowerCase().includes(kw)))`. */
  function IsAgriculturalDataset(columns: seq<string>): (b: bool)
    ensures b <==> exists i :: 0 <= i < |columns| && MatchesWords(columns[i], AgKeywords)
  {
    if columns == [] then false
    else MatchesWords(columns[0], AgKeywords) || IsAgriculturalDataset(columns[1..])
  }

  /** True iff some column, lower-cased, contains some keyword; so an empty list gives false. */
  lemma {:induction false} IsAgriculturalIff(columns: seq<string>)
    ensures IsAgriculturalDataset(columns) <==>
            exists i, j :: 0 <= i < |columns| && 0 <= j < |AgKeywords| &&
                           JsString.Includes(JsString.ToLowerAscii(columns[i]), AgKeywords[j])
  {
    if columns != [] {
      IsAgriculturalIff(columns[1..]);
      if IsAgriculturalDataset(columns[1..]) {
        var i, j :| 0 <= i < |columns[1..]| && 0 <= j < |AgKeywords| &&
                    JsString.Includes(JsString.ToLowerAscii(columns[1..][i]), AgKeywords[j]);
        assert columns[i + 1] == columns[1..][i];
      }
      if exists i, j :: 0 <= i < |columns| && 0 <= j < |AgKeywords| &&
                        JsString.Includes(JsString.ToLowerAscii(columns[i]), AgKeywords[j]) {
        var i, j :| 0 <= i < |columns| && 0 <= j < |AgKeywords| &&
                    JsString.Includes(JsString.ToLowerAscii(columns[i]), AgKeywords[j]);
        if i > 0 {
          assert columns[1..][i - 1] == columns[i];
        }
      }
    }
  }

  /** `columns.find((c) => /date|time|year|month|day|period/i.test(c))`. */
  function FindDateLike(columns: seq<string>): (r: Option<nat>)
    ensures r.Some? ==> r.value < |columns| && MatchesWords(columns[r.value], DateWords)
    ensures r.Some? ==> forall k :: 0 <= k < r.value ==> !MatchesWords(columns[k], DateWords)
    ensures r.None? ==> forall k :: 0 <= k < |columns| ==> !MatchesWords(columns[k], DateWords)
  {
    if columns == [] then None
    else if MatchesWords(columns[0], DateWords) then Some(0)
    else match FindDateLike(columns[1..])
      case None => None
      case Some(i) => Some(i + 1)
  }

  /** `dateCol`: nothing without a date range, else the first date-like column name (if any). */
  function DateColumn(a: AppTypes.Analytics): (d: Option<string>)
    ensures a.dateRange.None? ==> d.None?
    ensures d.Some? ==> exists k :: FindDateLike(a.columns) == Some(k) && d.value == a.columns[k]
    ensures a.dateRange.Some? && FindDateLike(a.columns).Some? ==> d.Some?
  {
    if a.dateRange.None? then None
    else match FindDateLike(a.columns)
      case None => None
      case Some(k) => Some(a.columns[k])
  }

  // ---------------------------------------------------------------------------
  // Anomalies per column

  /** How many anomalies name column `c`. */
  function Count(anomalies: seq<AppTypes.Anomaly>, c: string): (n: nat)
    ensures n <= |anomalies|
    ensures n > 0 <==> exists k :: 0 <= k < |anomalies| && anomalies[k].column == c
  {
    if anomalies == [] then 0
    else
      var init := anomalies[..|anomalies| - 1];
      assert forall k :: 0 <= k < |init| ==> init[k] == anomalies[k];
      Count(init, c) + (if anomalies[|anomalies| - 1].column == c then 1 else 0)
  }

  function ColumnsOf(anomalies: seq<AppTypes.Anomaly>): set<string> {
    set k | 0 <= k < |anomalies| :: anomalies[k].column
  }

  /** The `for ... of` loop that fills `anomalyMap`. */
  method AnomalyMap(anomalies: seq<AppTypes.Anomaly>) returns (m: map<string, nat>)
    ensures m.Keys == ColumnsOf(anomalies)
    ensures forall c :: c in m ==> m[c] == Count(anomalies, c) && m[c] > 0
  {
    m := map[];
    var i := 0;
    assert ColumnsOf(anomalies[..0]) == {};
    while i < |anomalies|
      invariant 0 <= i <= |anomalies|
      invariant CountsSoFar(anomalies[..i], m)
    {
      var a := anomalies[i];
      var prev := if a.column in m then m[a.column] else 0;
      AnomalyMapStep(anomalies, i, m);
      m := m[a.column := prev + 1];
      i := i + 1;
    }
    assert anomalies[..i] == anomalies;
  }

  /** What `anomalyMap` holds after the anomalies of `seen`: their columns, each with its count. */
  predicate CountsSoFar(seen: seq<AppTypes.Anomaly>, m: map<string, nat>) {
    m.Keys == ColumnsOf(seen) && forall c :: c in m ==> m[c] == Count(seen, c) && m[c] > 0
  }

  /** One more anomaly adds its column and counts once more for that column only. */
  lemma AnomalyMapStep(anomalies: seq<AppTypes.Anomaly>, i: nat, m: map<string, nat>)
    requires i < |anomalies| && CountsSoFar(anomalies[..i], m)
    ensures var col := anomalies[i].column;
            CountsSoFar(anomalies[..i + 1], m[col := (if col in m then m[col] else 0) + 1])
  {
    var pre, next := anomalies[..i], anomalies[..i + 1];
    var col := anomalies[i].column;
    var m' := m[col := (if col in m then m[col] else 0) + 1];
    assert next[..i] == pre;
    assert next[i].column == col;
    forall c | c in ColumnsOf(next)
      ensures c in m'
    {
      var k :| 0 <= k < |next| && next[k].column == c;
      if k < i {
        assert pre[k].column == c;
      }
    }
    forall c | c in m'
      ensures c in ColumnsOf(next)
    {
      if c != col {
        var k :| 0 <= k < |pre| && pre[k].column == c;
        assert next[k].column == c;
      }
    }
    forall c | c in m'
      ensures m'[c] == Count(next, c) && m'[c] > 0
    {
      if c != col {
        assert m'[c] == m[c];
      } else if col !in m {
        assert col !in ColumnsOf(pre);
      }
    }
  }

  /** `anomalyMap[col] ?? 0`: the count for any column, zero for one without anomalies. */
  lemma AnomalyCountOrZero(anomalies: seq<AppTypes.Anomaly>, m: map<string, nat>, c: string)
    requires m.Keys == ColumnsOf(anomalies)
    requires forall d :: d in m ==> m[d] == Count(anomalies, d)
    ensures (if c in m then m[c] else 0) == Count(anomalies, c)
  {
    if c !in m {
      assert forall k :: 0 <= k < |anomalies| ==> anomalies[k].column in ColumnsOf(anomalies);
    }
  }

  /** Counts summed over a list of column names. */
  function SumCounts(anomalies: seq<AppTypes.Anomaly>, cs: seq<string>): nat {
    if cs == [] then 0 else Count(anomalies, cs[0]) + SumCounts(anomalies, cs[1..])
  }

  /** Number of times `c` occurs in `cs`. */
  function Occurrences(cs: seq<string>, c: string): nat {
    if cs == [] then 0 else (if cs[0] == c then 1 else 0) + Occurrences(cs[1..], c)
  }

  lemma {:induction false} SumCountsSnoc(anomalies: seq<AppTypes.Anomaly>, cs: seq<string>)
    requires anomalies != []
    ensures SumCounts(anomalies, cs) ==
            SumCounts(anomalies[..|anomalies| - 1], cs) + Occurrences(cs, anomalies[|anomalies| - 1].column)
  {
    if cs != [] {
      SumCountsSnoc(anomalies, cs[1..]);
    }
  }

  lemma {:induction false} OccursOnce(cs: seq<string>, c: string)
    requires forall i, j :: 0 <= i < j < |cs| ==> cs[i] != cs[j]
    requires c in cs
    ensures Occurrences(cs, c) == 1
  {
    if cs[0] != c {
      OccursOnce(cs[1..], c);
    } else {
      OccursNot(cs[1..], c);
    }
  }

  lemma {:induction false} OccursNot(cs: seq<string>, c: string)
    requires c !in cs
    ensures Occurrences(cs, c) == 0
  {
    if cs != [] {
      OccursNot(cs[1..], c);
    }
  }

  /** Over any list of distinct names that covers every anomaly's column, the counts sum to the number of anomalies. */
  lemma {:induction false} CountsSumToTotal(anomalies: seq<AppTypes.Anomaly>, cs: seq<string>)
    requires forall i, j :: 0 <= i < j < |cs| ==> cs[i] != cs[j]
    requires forall k :: 0 <= k < |anomalies| ==> anomalies[k].column in cs
    ensures SumCounts(anomalies, cs) == |anomalies|
  {
    if anomalies == [] {
      SumCountsZero(cs);
    } else {
      var init := anomalies[..|anomalies| - 1];
      assert forall k :: 0 <= k < |init| ==> init[k] == anomalies[k];
      CountsSumToTotal(init, cs);
      SumCountsSnoc(anomalies, cs);
      OccursOnce(cs, anomalies[|anomalies| - 1].column);
    }
  }

  lemma {:induction false} SumCountsZero(cs: seq<string>)
    ensures SumCounts([], cs) == 0
  {
    if cs != [] {
      SumCountsZero(cs[1..]);
    }
  }

  // ---------------------------------------------------------------------------
  // Column groups

  datatype ColType = Numeric | Date | Categorical | Text

  /** The branch of the grouping loop a column takes, in priority order. */
  function ClassOf(col: string, numeric: set<string>, dateCol: Option<string>): ColType {
    if col in numeric then Numeric
    else if dateCol == Some(col) then Date
    else if MatchesWords(col, TextWords) then Text
    else Categorical
  }

  /** The grouping loop's classification of every column, for one dataset. */
  function Classifier(numeric: set<string>, dateCol: Option<string>): string -> ColType {
    col => ClassOf(col, numeric, dateCol)
  }

  /** The columns `classify` puts in group `t`, in column order. */
  function OfType(columns: seq<string>, classify: string -> ColType, t: ColType): (r: seq<string>)
    ensures |r| <= |columns|
    ensures forall k :: 0 <= k < |r| ==> classify(r[k]) == t
  {
    if columns == [] then []
    else
      var init := columns[..|columns| - 1];
      var last := columns[|columns| - 1];
      assert columns == init + [last];
      OfType(init, classify, t) + (if classify(last) == t then [last] else [])
  }

  /** Grouping is done column by column, so it splits over concatenation: each group keeps column order. */
  lemma {:induction false} OfTypeAppend(a: seq<string>, b: seq<string>, classify: string -> ColType, t: ColType)
    ensures OfType(a + b, classify, t) == OfType(a, classify, t) + OfType(b, classify, t)
    decreases |b|
  {
    if b != [] {
      var bi := b[..|b| - 1];
      assert a + b == (a + bi) + [b[|b| - 1]];
      assert (a + b)[..|a + b| - 1] == a + bi;
      OfTypeAppend(a, bi, classify, t);
    } else {
      assert a + b == a;
    }
  }

  lemma OfTypeStep(cols: seq<string>, x: string, classify: string -> ColType, t: ColType)
    ensures OfType(cols + [x], classify, t) == OfType(cols, classify, t) + (if classify(x) == t then [x] else [])
  {
    assert (cols + [x])[..|cols|] == cols;
  }

  datatype Groups = Groups(numeric: seq<string>, date: seq<string>, categorical: seq<string>, text: seq<string>)

  /** The grouping loop over `analytics.columns`. */
  method Group(columns: seq<string>, numeric: set<string>, dateCol: Option<string>) returns (g: Groups)
    ensures g.numeric == OfType(columns, Classifier(numeric, dateCol), Numeric)
    ensures g.date == OfType(columns, Classifier(numeric, dateCol), Date)
    ensures g.categorical == OfType(columns, Classifier(numeric, dateCol), Categorical)
    ensures g.text == OfType(columns, Classifier(numeric, dateCol), Text)
  {
    var classify := Classifier(numeric, dateCol);
    g := Groups([], [], [], []);
    var i := 0;
    while i < |columns|
      invariant 0 <= i <= |columns|
      invariant g.numeric == OfType(columns[..i], classify, Numeric)
      invariant g.date == OfType(columns[..i], classify, Date)
      invariant g.categorical == OfType(columns[..i], classify, Categorical)
      invariant g.text == OfType(columns[..i], classify, Text)
    {
      var col := columns[i];
      assert columns[..i + 1] == columns[..i] + [col];
      OfTypeStep(columns[..i], col, classify, Numeric);
      OfTypeStep(columns[..i], col, classify, Date);
      OfTypeStep(columns[..i], col, classify, Categorical);
      OfTypeStep(columns[..i], col, classify, Text);
      assert classify(col) == ClassOf(col, numeric, dateCol);
      if col in numeric {
        g := g.(numeric := g.numeric + [col]);
      } else if dateCol == Some(col) {
        g := g.(date := g.date + [col]);
      } else if MatchesWords(col, TextWords) {
        g := g.(text := g.text + [col]);
      } else {
        g := g.(categorical := g.categorical + [col]);
      }
      i := i + 1;
    }
    assert columns[..i] == columns;
  }

  /** One more column adds itself to its own group and leaves the others as they were. */
  lemma OfTypeStepCounted(cols: seq<string>, x: string, classify: string -> ColType, t: ColType)
    ensures multiset(OfType(cols + [x], classify, t)) ==
            multiset(OfType(cols, classify, t)) + (if classify(x) == t then multiset{x} else multiset{})
    ensures |OfType(cols + [x], classify, t)| == |OfType(cols, classify, t)| + (if classify(x) == t then 1 else 0)
  {
    OfTypeStep(cols, x, classify, t);
  }

  /** The four groups taken together. */
  function GroupsMultiset(columns: seq<string>, classify: string -> ColType): multiset<string> {
    multiset(OfType(columns, classify, Numeric)) + multiset(OfType(columns, classify, Date)) +
    multiset(OfType(columns, classify, Categorical)) + multiset(OfType(columns, classify, Text))
  }

  /** One more column joins exactly one group. */
  lemma GroupsMultisetStep(cols: seq<string>, x: string, classify: string -> ColType)
    ensures GroupsMultiset(cols + [x], classify) == GroupsMultiset(cols, classify) + multiset{x}
  {
    OfTypeStepCounted(cols, x, classify, Numeric);
    OfTypeStepCounted(cols, x, classify, Date);
    OfTypeStepCounted(cols, x, classify, Categorical);
    OfTypeStepCounted(cols, x, classify, Text);
  }

  /** Every column lands in exactly one group: the four groups together are a permutation of the columns. */
  lemma {:induction false} GroupsPartition(columns: seq<string>, classify: string -> ColType)
    ensures multiset(columns) ==
            multiset(OfType(columns, classify, Numeric)) + multiset(OfType(columns, classify, Date)) +
            multiset(OfType(columns, classify, Categorical)) + multiset(OfType(columns, classify, Text))
    ensures |OfType(columns, classify, Numeric)| + |OfType(columns, classify, Date)| +
            |OfType(columns, classify, Categorical)| + |OfType(columns, classify, Text)| == |columns|
  {
    if columns != [] {
      var init, last := columns[..|columns| - 1], columns[|columns| - 1];
      assert columns == init + [last];
      GroupsPartition(init, classify);
      GroupsMultisetStep(init, last, classify);
      OfTypeStepCounted(init, last, classify, Numeric);
      OfTypeStepCounted(init, last, classify, Date);
      OfTypeStepCounted(init, last, classify, Categorical);
      OfTypeStepCounted(init, last, classify, Text);
      assert multiset(columns) == multiset(init) + multiset{last};
      assert multiset(columns) == GroupsMultiset(columns, classify);
    }
  }

  /** A column is in a group exactly when it is a column of that type. */
  lemma {:induction false} OfTypeMembers(columns: seq<string>, classify: string -> ColType, t: ColType)
    ensures forall c :: c in OfType(columns, classify, t) <==> c in columns && classify(c) == t
  {
    if columns != [] {
      var init, last := columns[..|columns| - 1], columns[|columns| - 1];
      assert columns == init + [last];
      OfTypeMembers(init, classify, t);
    }
  }

  /** Columns are grouped by priority: numeric first, then the date column, then text names. */
  lemma ClassifierPriority(col: string, numeric: set<string>, dateCol: Option<string>)
    ensures Classifier(numeric, dateCol)(col) == Numeric <==> col in numeric
    ensures Classifier(numeric, dateCol)(col) == Date <==> col !in numeric && dateCol == Some(col)
    ensures Classifier(numeric, dateCol)(col) == Text <==>
              col !in numeric && dateCol != Some(col) && MatchesWords(col, TextWords)
  {
  }

  /** Without a date column nothing is grouped as a date. */
  lemma {:induction false} NoDateColumnNoDateGroup(columns: seq<string>, numeric: set<string>)
    ensures OfType(columns, Classifier(numeric, None), Date) == []
  {
    if columns != [] {
      NoDateColumnNoDateGroup(columns[..|columns| - 1], numeric);
      assert Classifier(numeric, None)(columns[|columns| - 1]) != Date;
    }
  }

  /** The Date group holds only the chosen date column, and only when that column is not numeric. */
  lemma DateGroupIsDateColumn(a: AppTypes.Analytics)
    ensures var dg := OfType(a.columns, Classifier(AppTypes.NumericColumnSet(a), DateColumn(a)), Date);
            (a.dateRange.None? ==> dg == []) &&
            (forall k :: 0 <= k < |dg| ==> Some(dg[k]) == DateColumn(a) && dg[k] !in AppTypes.NumericColumnSet(a))
  {
    if a.dateRange.None? {
      NoDateColumnNoDateGroup(a.columns, AppTypes.NumericColumnSet(a));
    }
    var classify := Classifier(AppTypes.NumericColumnSet(a), DateColumn(a));
    var dg := OfType(a.columns, classify, Date);
    forall k | 0 <= k < |dg|
      ensures Some(dg[k]) == DateColumn(a) && dg[k] !in AppTypes.NumericColumnSet(a)
    {
      assert classify(dg[k]) == Date;
    }
  }

  // ---------------------------------------------------------------------------
  // What is shown

  /** `showAll ? group : group.slice(0, COLLAPSE_AT)`. */
  function Visible(group: seq<string>, showAll: bool): (v: seq<string>)
    ensures showAll ==> v == group
    ensures !showAll ==> v == group[..if |group| < CollapseAt then |group| else CollapseAt]
  {
    JsString.SlicePrefix(group, CollapseAt);
    if showAll then group else JsString.Slice(group, 0, CollapseAt)
  }

  /** The toggle under a group, present only when the group has more than eight columns. */
  function ToggleLabel(groupSize: nat, showAll: bool): (toggle: Option<string>)
    ensures groupSize <= CollapseAt <==> toggle.None?
    ensures toggle.Some? && showAll ==> toggle.value == "\U{2190} Show fewer"
    ensures toggle.Some? && !showAll ==>
              toggle.value == "+ Show " + JsString.NatToString(groupSize - CollapseAt) + " more columns"
  {
    if groupSize > CollapseAt then
      Some(if showAll then "\U{2190} Show fewer"
           else "+ Show " + JsString.NatToString(groupSize - CollapseAt) + " more columns")
    else None
  }

  /** `catAll`: Categorical columns, then Text columns; a chip is Text iff its name is in the Text group. */
  function CategoricalChips(g: Groups): (chips: seq<(string, ColType)>)
    ensures |chips| == |g.categorical| + |g.text|
    ensures forall k :: 0 <= k < |g.categorical| ==> chips[k].0 == g.categorical[k]
    ensures forall k :: 0 <= k < |g.text| ==> chips[|g.categorical| + k].0 == g.text[k]
    ensures forall k :: 0 <= k < |chips| ==> (chips[k].1 == Text <==> chips[k].0 in g.text)
  {
    var all := g.categorical + g.text;
    seq(|all|, k requires 0 <= k < |all| => (all[k], if all[k] in g.text then Text else Categorical))
  }

  function Label(t: ColType): string {
    match t
    case Numeric => "Numeric"
    case Date => "Date / Time"
    case Categorical => "Categorical"
    case Text => "Text"
  }

  function CountOf(g: Groups, t: ColType): nat {
    match t
    case Numeric => |g.numeric|
    case Date => |g.date|
    case Categorical => |g.categorical|
    case Text => |g.text|
  }

  function Pill(g: Groups, t: ColType): seq<(ColType, nat)> {
    if CountOf(g, t) > 0 then [(t, CountOf(g, t))] else []
  }

  function Rank(t: ColType): nat {
    match t
    case Numeric => 0
    case Date => 1
    case Categorical => 2
    case Text => 3
  }

  /** The summary pills: in the order Numeric, Date, Categorical, Text, one per non-empty group. */
  function Pills(g: Groups): (pills: seq<(ColType, nat)>)
    ensures |pills| <= 4
    ensures forall i :: 0 <= i < |pills| ==> pills[i].1 == CountOf(g, pills[i].0) > 0
  {
    Pill(g, Numeric) + Pill(g, Date) + Pill(g, Categorical) + Pill(g, Text)
  }

  /** Where a type's pill would stand: after the pills of the types before it. */
  function PillPosition(g: Groups, t: ColType): nat {
    match t
    case Numeric => 0
    case Date => |Pill(g, Numeric)|
    case Categorical => |Pill(g, Numeric)| + |Pill(g, Date)|
    case Text => |Pill(g, Numeric)| + |Pill(g, Date)| + |Pill(g, Categorical)|
  }

  /** Pill `k` is the pill of the type whose position it is. */
  lemma PillAt(g: Groups, k: nat)
    requires k < |Pills(g)|
    ensures exists t :: PillPosition(g, t) == k && Pill(g, t) != [] && Pills(g)[k] == Pill(g, t)[0]
  {
    var pN, pD, pC, pT := Pill(g, Numeric), Pill(g, Date), Pill(g, Categorical), Pill(g, Text);
    var pills := Pills(g);
    if k < |pN| {
      assert pills[k] == pN[0] && PillPosition(g, Numeric) == k;
    } else if k < |pN| + |pD| {
      assert pills[k] == pD[0] && PillPosition(g, Date) == k;
    } else if k < |pN| + |pD| + |pC| {
      assert pills[k] == pC[0] && PillPosition(g, Categorical) == k;
    } else {
      assert pills[k] == pT[0] && PillPosition(g, Text) == k;
    }
  }

  /** Every pill shows the size of its group, which is not empty. */
  lemma PillsCounted(g: Groups)
    ensures forall k :: 0 <= k < |Pills(g)| ==> Pills(g)[k].1 == CountOf(g, Pills(g)[k].0) && Pills(g)[k].1 > 0
  {
    forall k | 0 <= k < |Pills(g)|
      ensures Pills(g)[k].1 == CountOf(g, Pills(g)[k].0) && Pills(g)[k].1 > 0
    {
      PillAt(g, k);
    }
  }

  /** A type has a pill exactly when its group is not empty. */
  lemma PillsCover(g: Groups, t: ColType)
    ensures CountOf(g, t) > 0 <==> exists k :: 0 <= k < |Pills(g)| && Pills(g)[k].0 == t
  {
    var pills := Pills(g);
    if CountOf(g, t) > 0 {
      var k := PillPosition(g, t);
      assert pills[k] == (t, CountOf(g, t));
    }
    PillsCounted(g);
    if exists k :: 0 <= k < |pills| && pills[k].0 == t {
      var k :| 0 <= k < |pills| && pills[k].0 == t;
      assert CountOf(g, pills[k].0) > 0;
    }
  }

  /** The pills follow the fixed type order. */
  lemma PillsOrdered(g: Groups)
    ensures forall i, j :: 0 <= i < j < |Pills(g)| ==> Rank(Pills(g)[i].0) < Rank(Pills(g)[j].0)
  {
    forall i, j | 0 <= i < j < |Pills(g)|
      ensures Rank(Pills(g)[i].0) < Rank(Pills(g)[j].0)
    {
      PillAt(g, i);
      PillAt(g, j);
    }
  }
}
