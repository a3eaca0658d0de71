/**
 * The verification dashboard page: `extractId` pulls a report id out of whatever
 * was pasted (a bare id or a `/verify/<id>` URL), `verify` looks one report up,
 * `quickVerify` records per-report results for the "My Certified Reports" list,
 * and the list shows at most eight rows.
 */
module VerifyPage {
  import opened Wrappers
  import JsString

  // ---------------------------------------------------------------------------
  // extractId: `raw.match(/(?:verify\/)?([a-zA-Z0-9_-]{16,})/)`, else `raw.trim()`

  /** The character class `[a-zA-Z0-9_-]`. */
  predicate IdChar(c: char) {
    ('a' <= c <= 'z') || ('A' <= c <= 'Z') || ('0' <= c <= '9') || c == '_' || c == '-'
  }

  const MinIdLength: nat := 16

  /** A string the class `[a-zA-Z0-9_-]{16,}` matches in full. */
  predicate IsId(id: string) {
    |id| >= MinIdLength && forall k :: 0 <= k < |id| ==> IdChar(id[k])
  }

  /** Length of the longest run of id characters starting at `i`. */
  function RunLen(s: string, i: nat): (n: nat)
    requires i <= |s|
    ensures i + n <= |s|
    ensures forall k :: i <= k < i + n ==> IdChar(s[k])
    ensures i + n < |s| ==> !IdChar(s[i + n])
    decreases |s| - i
  {
    if i == |s| || !IdChar(s[i]) then 0 else 1 + RunLen(s, i + 1)
  }

  /** The greedy run of id characters at `i`. */
  function Run(s: string, i: nat): (r: string)
    requires i <= |s|
    ensures |r| == RunLen(s, i) && forall k :: 0 <= k < |r| ==> IdChar(r[k])
  {
    s[i..i + RunLen(s, i)]
  }

  /**
   * One attempt of the regular expression at position `p`: the optional group is
   * tried first (greedy `?`), then the class `{16,}` on its own; the capture is group 1.
   */
  function MatchAt(s: string, p: nat): (r: Option<string>)
    requires p <= |s|
    ensures r.Some? ==> IsId(r.value) && |r.value| <= |s| - p
  {
    if p + 7 <= |s| && s[p..p + 7] == "verify/" && RunLen(s, p + 7) >= MinIdLength then Some(Run(s, p + 7))
    else if RunLen(s, p) >= MinIdLength then Some(Run(s, p))
    else None
  }

  /** `String.prototype.match` without the `g` flag: the leftmost position that matches. */
  function FirstMatch(s: string, p: nat): (r: Option<string>)
    ensures r.Some? ==> IsId(r.value) && |r.value| <= |s|
    decreases |s| - p
  {
    if p > |s| then None
    else match MatchAt(s, p)
      case Some(id) => Some(id)
      case None => FirstMatch(s, p + 1)
  }

  /** The extracted id is a match of the class `{16,}`, or else the trimmed input; it is never longer than that input. */
  function ExtractId(raw: string): (id: string)
    ensures |id| <= |raw|
    ensures IsId(id) || id == JsString.Trim(raw)
  {
    match FirstMatch(raw, 0)
    case Some(id) => id
    case None => JsString.Trim(raw)
  }

  // ---------------------------------------------------------------------------
  // What extractId returns, stated without the regex

  /** A maximal run of at least 16 id characters starts at `i`. */
  predicate IsLongRunStart(s: string, i: int) {
    0 <= i <= |s| && (i == 0 || !IdChar(s[i - 1])) && RunLen(s, i) >= MinIdLength
  }

  predicate IsFirstLongRunStart(s: string, i: int) {
    IsLongRunStart(s, i) && forall j :: 0 <= j < i ==> !IsLongRunStart(s, j)
  }

  /** Any run of 16 id characters lies inside a maximal one that starts at or before it. */
  lemma {:induction false} LongRunHasStart(s: string, j: nat)
    requires j <= |s| && RunLen(s, j) >= MinIdLength
    ensures exists i :: 0 <= i <= j && IsLongRunStart(s, i)
    decreases j
  {
    if j > 0 && IdChar(s[j - 1]) {
      assert RunLen(s, j - 1) == 1 + RunLen(s, j);
      LongRunHasStart(s, j - 1);
    } else {
      assert IsLongRunStart(s, j);
    }
  }

  /** A match attempt never succeeds before the first long run, except by reaching it through `verify/`. */
  lemma MatchBeforeFirst(s: string, i: nat, j: nat)
    requires IsFirstLongRunStart(s, i) && j < i
    ensures MatchAt(s, j) == None || MatchAt(s, j) == Some(Run(s, i))
  {
    if j + 7 <= |s| && s[j..j + 7] == "verify/" && RunLen(s, j + 7) >= MinIdLength {
      assert s[j + 6] == '/';
      assert !IdChar(s[j + 6]);
      assert IsLongRunStart(s, j + 7);
    } else if RunLen(s, j) >= MinIdLength {
      LongRunHasStart(s, j);
    }
  }

  /** Sixteen (or `n`) id characters from `i` on make a run at least that long. */
  lemma {:induction false} RunLenAtLeast(s: string, i: nat, n: nat)
    requires i + n <= |s|
    requires forall k :: i <= k < i + n ==> IdChar(s[k])
    ensures RunLen(s, i) >= n
    decreases n
  {
    if n > 0 {
      RunLenAtLeast(s, i + 1, n - 1);
    }
  }

  lemma {:induction false} FirstMatchReachesFirstRun(s: string, i: nat, p: nat)
    requires IsFirstLongRunStart(s, i) && p <= i
    ensures FirstMatch(s, p) == Some(Run(s, i))
    decreases i - p
  {
    if p < i {
      MatchBeforeFirst(s, i, p);
      if MatchAt(s, p).None? {
        FirstMatchReachesFirstRun(s, i, p + 1);
      }
    } else if i + 7 <= |s| {
      assert IdChar(s[i + 6]);
      assert s[i..i + 7][6] == s[i + 6];
    }
  }

  lemma {:induction false} NoLongRunNoMatch(s: string, p: nat)
    requires forall i :: 0 <= i <= |s| ==> !IsLongRunStart(s, i)
    ensures FirstMatch(s, p) == None
    decreases |s| - p
  {
    if p <= |s| {
      if RunLen(s, p) >= MinIdLength {
        LongRunHasStart(s, p);
      } else if p + 7 <= |s| && s[p..p + 7] == "verify/" {
        assert s[p + 6] == '/';
        assert !IsLongRunStart(s, p + 7);
      }
      NoLongRunNoMatch(s, p + 1);
    }
  }

  /** With a long run of id characters present, the id is the first such run, whole. */
  lemma ExtractIdFindsFirstRun(raw: string, i: nat)
    requires IsFirstLongRunStart(raw, i)
    ensures ExtractId(raw) == raw[i..i + RunLen(raw, i)]
    ensures |ExtractId(raw)| >= MinIdLength
    ensures forall k :: 0 <= k < |ExtractId(raw)| ==> IdChar(ExtractId(raw)[k])
  {
    FirstMatchReachesFirstRun(raw, i, 0);
  }

  /** Without one, the input comes back trimmed. */
  lemma ExtractIdFallsBackToTrim(raw: string)
    requires forall i :: 0 <= i <= |raw| ==> !IsLongRunStart(raw, i)
    ensures ExtractId(raw) == JsString.Trim(raw)
  {
    NoLongRunNoMatch(raw, 0);
  }

  /** If some long run exists, a first one does. */
  lemma {:induction false} FirstLongRunExists(s: string, i: nat)
    requires IsLongRunStart(s, i)
    ensures exists f :: IsFirstLongRunStart(s, f)
    decreases i
  {
    if !IsFirstLongRunStart(s, i) {
      var j :| 0 <= j < i && IsLongRunStart(s, j);
      FirstLongRunExists(s, j);
    }
  }

  predicate IsBareId(s: string) {
    |s| >= MinIdLength && forall k :: 0 <= k < |s| ==> IdChar(s[k])
  }

  /** A bare id is returned unchanged. */
  lemma ExtractIdOfBareId(id: string)
    requires IsBareId(id)
    ensures ExtractId(id) == id
  {
    RunLenAtLeast(id, 0, |id|);
    assert IsFirstLongRunStart(id, 0);
    ExtractIdFindsFirstRun(id, 0);
  }

  /**
   * An id after a separator (`https://host/verify/<id>`, `verify/<id>`) is found when
   * nothing before it has 16 id characters in a row; `verify/` is not part of the id.
   */
  lemma ExtractIdAfterPrefix(prefix: string, id: string)
    requires prefix == [] || !IdChar(prefix[|prefix| - 1])
    requires forall j :: 0 <= j <= |prefix| ==> RunLen(prefix, j) < MinIdLength
    requires IsBareId(id)
    ensures ExtractId(prefix + id) == id
  {
    var s := prefix + id;
    IdRunAfterPrefix(prefix, id);
    forall j | 0 <= j < |prefix|
      ensures !IsLongRunStart(s, j)
    {
      NoLongRunInPrefix(prefix, id, j);
    }
    assert IsFirstLongRunStart(s, |prefix|);
    ExtractIdFindsFirstRun(s, |prefix|);
  }

  lemma IdRunAfterPrefix(prefix: string, id: string)
    requires prefix == [] || !IdChar(prefix[|prefix| - 1])
    requires IsBareId(id)
    ensures IsLongRunStart(prefix + id, |prefix|)
    ensures Run(prefix + id, |prefix|) == id
  {
    var s := prefix + id;
    forall k | |prefix| <= k < |prefix| + |id|
      ensures IdChar(s[k])
    {
      assert s[k] == id[k - |prefix|];
    }
    RunLenAtLeast(s, |prefix|, |id|);
    assert s[|prefix|..|prefix| + |id|] == id;
  }

  /** A run stops at the first character that is not an id character. */
  lemma RunLenBound(s: string, j: nat, q: nat)
    requires j <= q < |s| && !IdChar(s[q])
    ensures RunLen(s, j) <= q - j
  {
  }

  lemma NoLongRunInPrefix(prefix: string, id: string, j: nat)
    requires prefix != [] && !IdChar(prefix[|prefix| - 1])
    requires j < |prefix| && RunLen(prefix, j) < MinIdLength
    ensures RunLen(prefix + id, j) < MinIdLength
  {
    var s := prefix + id;
    assert s[|prefix| - 1] == prefix[|prefix| - 1];
    RunLenBound(s, j, |prefix| - 1);
    var n := RunLen(s, j);
    forall k | j <= k < j + n
      ensures IdChar(prefix[k])
    {
      assert s[k] == prefix[k];
    }
    RunLenAtLeast(prefix, j, n);
  }

  /** `extractId` is idempotent. */
  lemma ExtractIdIdempotent(raw: string)
    ensures ExtractId(ExtractId(raw)) == ExtractId(raw)
  {
    if i :| IsLongRunStart(raw, i) {
      FirstLongRunExists(raw, i);
      var f :| IsFirstLongRunStart(raw, f);
      ExtractIdFindsFirstRun(raw, f);
      ExtractIdOfBareId(ExtractId(raw));
    } else {
      ExtractIdFallsBackToTrim(raw);
      TrimKeepsNoLongRun(raw);
      ExtractIdFallsBackToTrim(JsString.Trim(raw));
      JsString.TrimIdempotent(raw);
    }
  }

  /** Trimming an input without a long run of id characters cannot create one. */
  lemma TrimKeepsNoLongRun(raw: string)
    requires forall i :: 0 <= i <= |raw| ==> !IsLongRunStart(raw, i)
    ensures forall i :: 0 <= i <= |JsString.Trim(raw)| ==> !IsLongRunStart(JsString.Trim(raw), i)
  {
    var t := JsString.Trim(raw);
    JsString.TrimIsInfix(raw);
    var a := JsString.LeadingSpace(raw);
    forall i | 0 <= i <= |t|
      ensures !IsLongRunStart(t, i)
    {
      if IsLongRunStart(t, i) {
        forall k | a + i <= k < a + i + MinIdLength
          ensures IdChar(raw[k])
        {
          assert raw[k] == t[k - a];
        }
        RunLenAtLeast(raw, a + i, MinIdLength);
        LongRunHasStart(raw, a + i);
      }
    }
  }

  /** The extracted id is empty exactly when the input is blank. */
  lemma ExtractIdEmptyIffBlank(raw: string)
    ensures ExtractId(raw) == [] <==> forall k :: 0 <= k < |raw| ==> JsString.IsJsWhiteSpace(raw[k])
  {
    JsString.TrimEmptyIff(raw);
    if i :| IsLongRunStart(raw, i) {
      FirstLongRunExists(raw, i);
      var f :| IsFirstLongRunStart(raw, f);
      ExtractIdFindsFirstRun(raw, f);
      assert IdChar(raw[f]) && !JsString.IsJsWhiteSpace(raw[f]);
    } else {
      ExtractIdFallsBackToTrim(raw);
    }
  }

  // ---------------------------------------------------------------------------
  // Page state

  datatype IntegrityStatus = Verified | Tampered | NotFound

  /** The body of a successful `/api/verify/<id>` reply. */
  datatype VerifyResult = VerifyResult(
    reportId: string,
    isValid: bool,
    integrityStatus: IntegrityStatus,
    owner: string,
    datasetName: string,
    generatedDate: string,
    aiConfidenceScore: Option<real>,
    integrityHash: string)

  /**
   * What `verify` reads from a reply: `json.error` (absent, or a string; an empty
   * string is falsy) and, when there is none, the result itself.
   */
  datatype VerifyReply = VerifyReply(error: Option<string>, report: VerifyResult)

  /** A row of `/api/reports`; `datasetName` is `certificateObject?.datasetName`. */
  datatype ReportRow = ReportRow(reportId: string, createdAt: string, datasetName: Option<string>)

  predicate IsErrorReply(r: VerifyReply) {
    r.error.Some? && r.error.value != ""
  }

  /** What `quickVerify` records for one reply: `json.isValid === true`, false on a throw. */
  function QuickOutcome(outcome: Outcome<Option<bool>>): (valid: bool)
    ensures valid <==> outcome == Received(Some(true))
  {
    match outcome
    case Received(isValid) => isValid == Some(true)
    case Failed(_) => false
  }

  /** The message `verify` shows for a thrown value: its message, or the fixed fallback. */
  function FailureMessage(message: Option<string>): (m: string)
    ensures message.Some? ==> m == message.value
    ensures message.None? ==> m == "Verification failed"
  {
    message.GetOr("Verification failed")
  }

  class VerifyDashboard {
    var input: string
    var verifying: bool
    var result: Option<VerifyResult>
    var fetchError: Option<string>
    var reports: seq<ReportRow>
    var reportsLoading: bool
    var quickVerifying: Option<string>
    var quickResults: map<string, bool>

    constructor ()
      ensures input == "" && !verifying && result.None? && fetchError.None?
      ensures reports == [] && reportsLoading && quickVerifying.None? && quickResults == map[]
    {
      input := "";
      verifying := false;
      result := None;
      fetchError := None;
      reports := [];
      reportsLoading := true;
      quickVerifying := None;
      quickResults := map[];
    }

    /** The mount effect: `setReports(j.reports ?? [])`, a failure ignored, then not loading. */
    method FinishLoadReports(outcome: Outcome<Option<seq<ReportRow>>>)
      modifies this
      ensures outcome.Received? ==> reports == outcome.body.GetOr([])
      ensures outcome.Failed? ==> reports == old(reports)
      ensures !reportsLoading
      ensures input == old(input) && verifying == old(verifying) && result == old(result)
      ensures fetchError == old(fetchError) && quickVerifying == old(quickVerifying)
      ensures quickResults == old(quickResults)
    {
      if outcome.Received? {
        reports := outcome.body.GetOr([]);
      }
      reportsLoading := false;
    }

    method SetInput(text: string)
      modifies this
      ensures input == text
      ensures verifying == old(verifying) && result == old(result) && fetchError == old(fetchError)
      ensures reports == old(reports) && reportsLoading == old(reportsLoading)
      ensures quickVerifying == old(quickVerifying) && quickResults == old(quickResults)
    {
      input := text;
    }

    /**
     * The synchronous part of `verify(rawId)`: an empty extracted id does nothing;
     * otherwise the page enters the verifying state with no result and no error, and
     * `requested` is the id whose `/api/verify/<id>` is fetched.
     */
    method BeginVerify(rawId: string) returns (requested: Option<string>)
      modifies this
      ensures requested.None? <==> ExtractId(rawId) == ""
      ensures requested.Some? ==> requested.value == ExtractId(rawId)
      ensures requested.None? ==>
                verifying == old(verifying) && result == old(result) && fetchError == old(fetchError)
      ensures requested.Some? ==> verifying && result.None? && fetchError.None?
      ensures input == old(input) && reports == old(reports) && reportsLoading == old(reportsLoading)
      ensures quickVerifying == old(quickVerifying) && quickResults == old(quickResults)
    {
      var id := ExtractId(rawId);
      if id == "" {
        return None;
      }
      verifying := true;
      fetchError := None;
      result := None;
      return Some(id);
    }

    /**
     * The rest of `verify`: a reply with an error, or a throw, sets `fetchError`; any
     * other reply becomes the result; either way the page stops verifying.
     */
    method FinishVerify(outcome: Outcome<VerifyReply>)
      modifies this
      ensures outcome.Received? && !IsErrorReply(outcome.body) ==>
                result == Some(outcome.body.report) && fetchError == old(fetchError)
      ensures outcome.Received? && IsErrorReply(outcome.body) ==>
                fetchError == outcome.body.error && result == old(result)
      ensures outcome.Failed? ==>
                fetchError == Some(FailureMessage(outcome.message)) && result == old(result)
      ensures !verifying
      ensures input == old(input) && reports == old(reports) && reportsLoading == old(reportsLoading)
      ensures quickVerifying == old(quickVerifying) && quickResults == old(quickResults)
    {
      match outcome {
        case Received(reply) =>
          if IsErrorReply(reply) {
            fetchError := reply.error;
          } else {
            result := Some(reply.report);
          }
        case Failed(message) =>
          fetchError := Some(FailureMessage(message));
      }
      verifying := false;
    }

    /** `handleSubmit`: a blank input does nothing; otherwise `verify(input.trim())`. */
    method HandleSubmit() returns (requested: Option<string>)
      modifies this
      ensures JsString.Trim(old(input)) == "" ==>
                (requested.None? && verifying == old(verifying) && result == old(result) &&
                 fetchError == old(fetchError))
      ensures JsString.Trim(old(input)) != "" ==>
                (requested == Some(ExtractId(JsString.Trim(old(input)))) &&
                 verifying && result.None? && fetchError.None?)
      ensures input == old(input) && reports == old(reports) && reportsLoading == old(reportsLoading)
      ensures quickVerifying == old(quickVerifying) && quickResults == old(quickResults)
    {
      var trimmed := JsString.Trim(input);
      if trimmed == "" {
        return None;
      }
      SubmittedIdNonEmpty(input);
      requested := BeginVerify(trimmed);
    }

    /** The result card's reset: no result and an empty input. */
    method ResetResult()
      modifies this
      ensures result.None? && input == ""
      ensures verifying == old(verifying) && fetchError == old(fetchError)
      ensures reports == old(reports) && reportsLoading == old(reportsLoading)
      ensures quickVerifying == old(quickVerifying) && quickResults == old(quickResults)
    {
      result := None;
      input := "";
    }

    /** The synchronous part of `quickVerify(reportId)`: that row shows as checking. */
    method BeginQuickVerify(reportId: string)
      modifies this
      ensures quickVerifying == Some(reportId)
      ensures quickResults == old(quickResults)
      ensures input == old(input) && verifying == old(verifying) && result == old(result)
      ensures fetchError == old(fetchError) && reports == old(reports) && reportsLoading == old(reportsLoading)
    {
      quickVerifying := Some(reportId);
    }

    /**
     * The rest of `quickVerify`: the entry for `reportId` becomes `json.isValid === true`
     * (false on a throw), every other entry is kept, and no row is checking any more.
     */
    method FinishQuickVerify(reportId: string, outcome: Outcome<Option<bool>>)
      modifies this
      ensures quickResults == old(quickResults)[reportId := QuickOutcome(outcome)]
      ensures reportId in quickResults && (quickResults[reportId] <==> outcome == Received(Some(true)))
      ensures forall k :: k in old(quickResults) && k != reportId ==>
                k in quickResults && quickResults[k] == old(quickResults)[k]
      ensures quickResults.Keys == old(quickResults).Keys + {reportId}
      ensures quickVerifying.None?
      ensures input == old(input) && verifying == old(verifying) && result == old(result)
      ensures fetchError == old(fetchError) && reports == old(reports) && reportsLoading == old(reportsLoading)
    {
      quickResults := quickResults[reportId := QuickOutcome(outcome)];
      quickVerifying := None;
    }
  }

  /** A non-blank submission always yields an id to look up. */
  lemma SubmittedIdNonEmpty(input: string)
    requires JsString.Trim(input) != ""
    ensures ExtractId(JsString.Trim(input)) != ""
  {
    ExtractIdEmptyIffBlank(JsString.Trim(input));
    JsString.TrimEnds(input);
  }

  // ---------------------------------------------------------------------------
  // The "My Certified Reports" list

  datatype RowStatus = Checking | Valid | TamperedRow | Unchecked

  /** What one listed row shows: its id, dataset name, status icon, badge and whether Verify is enabled. */
  datatype RowView = RowView(reportId: string, datasetName: string, status: RowStatus,
                             badge: Option<string>, verifyEnabled: bool)

  /**
   * A row counts as checked exactly when its id is a key of `quickResults`: its badge
   * is shown then and only then, and reads VALID exactly for a recorded `true`; the
   * row being checked shows the spinner and its Verify button is disabled.
   */
  function ViewRow(row: ReportRow, quickResults: map<string, bool>, quickVerifying: Option<string>): (v: RowView)
    ensures v.reportId == row.reportId
    ensures row.datasetName.None? ==> v.datasetName == "Unknown dataset"
    ensures row.datasetName.Some? ==> v.datasetName == row.datasetName.value
    ensures v.badge.Some? <==> row.reportId in quickResults
    ensures v.badge == Some("VALID") <==> row.reportId in quickResults && quickResults[row.reportId]
    ensures v.badge == Some("TAMPERED") <==> row.reportId in quickResults && !quickResults[row.reportId]
    ensures v.status == Checking <==> quickVerifying == Some(row.reportId)
    ensures v.status == Unchecked <==> quickVerifying != Some(row.reportId) && row.reportId !in quickResults
    ensures v.status == Valid <==>
              quickVerifying != Some(row.reportId) && row.reportId in quickResults && quickResults[row.reportId]
    ensures !v.verifyEnabled <==> v.status == Checking
  {
    var checked := row.reportId in quickResults;
    var checking := quickVerifying == Some(row.reportId);
    RowView(
      row.reportId,
      row.datasetName.GetOr("Unknown dataset"),
      if checking then Checking
      else if checked then (if quickResults[row.reportId] then Valid else TamperedRow)
      else Unchecked,
      if checked then Some(if quickResults[row.reportId] then "VALID" else "TAMPERED") else None,
      !checking)
  }

  /** `reports.slice(0, 8).map(...)`. */
  function ListedRows(reports: seq<ReportRow>, quickResults: map<string, bool>, quickVerifying: Option<string>)
    : (rows: seq<RowView>)
    ensures |rows| == if |reports| < 8 then |reports| else 8
    ensures forall i :: 0 <= i < |rows| ==> rows[i] == ViewRow(reports[i], quickResults, quickVerifying)
  {
    var shown := JsString.Slice(reports, 0, 8);
    JsString.SlicePrefix(reports, 8);
    seq(|shown|, i requires 0 <= i < |shown| => ViewRow(shown[i], quickResults, quickVerifying))
  }
}
