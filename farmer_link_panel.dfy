/**
 * The panel that links a farmer profile to an agricultural dataset, unlinks it, and
 * re-runs the AI interpretation with the farmer's context. Calls of the parent's
 * callbacks are returned as results; each awaited request is an input, and a
 * handler that awaits is split at the `await`.
 */
module FarmerLinkPanel {
  import opened Wrappers
  import opened JsString
  import opened AppTypes
  import Aadhaar

  /** The farmer summary stored on a dataset. */
  datatype LinkedFarmer = LinkedFarmer(
    aadhaar: string, name: string, village: string, district: string, state: string,
    lat: real, lon: real, crops: seq<string>, landAcres: real, soilType: string, irrigationType: string)

  const InvalidAadhaarMessage := "Enter a valid 12-digit Aadhaar number."
  const LinkFailed := "Link failed"
  const UnknownError := "Unknown error"
  const AnalysisFailed := "Analysis failed"

  class LinkPanel {
    var aadhaarInput: string
    var loading: bool
    var analysing: bool
    var analysed: bool
    var error: Option<string>

    constructor()
      ensures aadhaarInput == "" && !loading && !analysing && !analysed && error == None
    {
      aadhaarInput := "";
      loading := false;
      analysing := false;
      analysed := false;
      error := None;
    }

    /** The Unlink button is disabled while a link request or an analysis is pending. */
    predicate UnlinkDisabled()
      reads this
    {
      loading || analysing
    }

    /** Typing stores the formatted number. */
    method SetInput(typed: string)
      modifies this
      ensures aadhaarInput == Aadhaar.FormatAadhaar(typed)
      ensures loading == old(loading) && analysing == old(analysing) && analysed == old(analysed)
      ensures error == old(error)
    {
      aadhaarInput := Aadhaar.FormatAadhaar(typed);
    }

    /**
     * `handleLink` up to its request: without exactly twelve digits it sets the error and
     * sends nothing; otherwise it sends the digits alone and starts loading.
     */
    method BeginLink() returns (sent: Option<string>)
      modifies this
      ensures aadhaarInput == old(aadhaarInput) && analysing == old(analysing) && analysed == old(analysed)
      ensures !Aadhaar.IsValidAadhaarInput(old(aadhaarInput)) ==>
                sent == None && error == Some(InvalidAadhaarMessage) && loading == old(loading)
      ensures Aadhaar.IsValidAadhaarInput(old(aadhaarInput)) ==>
                sent == Some(DigitsOf(old(aadhaarInput))) && error == None && loading && UnlinkDisabled()
      ensures sent.Some? ==> AllDigits(sent.value) && |sent.value| == Aadhaar.AadhaarDigits
    {
      var digits := DigitsOf(aadhaarInput);
      if |digits| != Aadhaar.AadhaarDigits {
        error := Some(InvalidAadhaarMessage);
        return None;
      }
      error := None;
      loading := true;
      sent := Some(digits);
    }

    /**
     * The continuation of `handleLink`: on success the parent's `onLinked` receives the
     * farmer, the input is cleared and the analysis is marked not done; on failure the
     * error is shown. Loading ends either way.
     */
    method FinishLink(answer: Outcome<Reply<LinkedFarmer>>) returns (onLinked: Option<LinkedFarmer>)
      modifies this
      ensures !loading && analysing == old(analysing)
      ensures answer.Received? && answer.body.Accepted? ==>
                onLinked == Some(answer.body.payload) && aadhaarInput == "" && !analysed && error == old(error)
      ensures answer.Received? && answer.body.Refused? ==>
                onLinked == None && aadhaarInput == old(aadhaarInput) && analysed == old(analysed) &&
                error == Some(answer.body.error.GetOr(LinkFailed))
      ensures answer.Failed? ==>
                onLinked == None && aadhaarInput == old(aadhaarInput) && analysed == old(analysed) &&
                error == Some(answer.message.GetOr(UnknownError))
    {
      match answer {
        case Received(Accepted(f)) =>
          onLinked := Some(f);
          aadhaarInput := "";
          analysed := false;
        case Received(Refused(e)) =>
          error := Some(e.GetOr(LinkFailed));
          onLinked := None;
        case Failed(m) =>
          error := Some(m.GetOr(UnknownError));
          onLinked := None;
      }
      loading := false;
    }

    /** `handleUnlink` up to its request. */
    method BeginUnlink()
      modifies this
      ensures loading && UnlinkDisabled()
      ensures aadhaarInput == old(aadhaarInput) && analysing == old(analysing) && analysed == old(analysed)
      ensures error == old(error)
    {
      loading := true;
    }

    /**
     * The continuation of `handleUnlink`. Once the delete request settles, whatever its
     * status, loading ends, the analysis is marked not done and `onUnlinked` is called. A
     * rejected request throws out of the handler before those lines, leaving everything
     * as it was.
     */
    method FinishUnlink(rejected: bool) returns (onUnlinked: bool)
      modifies this
      ensures onUnlinked <==> !rejected
      ensures !rejected ==> !loading && !analysed
      ensures rejected ==> loading == old(loading) && analysed == old(analysed)
      ensures rejected && old(loading) ==> UnlinkDisabled()
      ensures aadhaarInput == old(aadhaarInput) && analysing == old(analysing) && error == old(error)
    {
      if rejected {
        return false;
      }
      loading := false;
      analysed := false;
      onUnlinked := true;
    }

    /** `handleRunAnalysis` up to its request. */
    method BeginAnalysis()
      modifies this
      ensures analysing && error == None && UnlinkDisabled()
      ensures aadhaarInput == old(aadhaarInput) && loading == old(loading) && analysed == old(analysed)
    {
      analysing := true;
      error := None;
    }

    /**
     * The continuation of `handleRunAnalysis`: a success marks the analysis done and hands
     * the report to `onAnalysisComplete` when the answer has one and the parent passed the
     * callback; a failure keeps `analysed` and shows the error. Analysing ends either way.
     */
    method FinishAnalysis(answer: Outcome<Reply<Option<AIReport>>>, hasCallback: bool)
      returns (onAnalysisComplete: Option<AIReport>)
      modifies this
      ensures !analysing && aadhaarInput == old(aadhaarInput) && loading == old(loading)
      ensures answer.Received? && answer.body.Accepted? ==> analysed && error == old(error)
      ensures onAnalysisComplete.Some? <==>
                answer.Received? && answer.body.Accepted? && answer.body.payload.Some? && hasCallback
      ensures onAnalysisComplete.Some? ==> onAnalysisComplete == answer.body.payload
      ensures answer.Received? && answer.body.Refused? ==>
                analysed == old(analysed) && error == Some(answer.body.error.GetOr(AnalysisFailed))
      ensures answer.Failed? ==>
                analysed == old(analysed) && error == Some(answer.message.GetOr(AnalysisFailed))
    {
      onAnalysisComplete := None;
      match answer {
        case Received(Accepted(report)) =>
          analysed := true;
          if report.Some? && hasCallback {
            onAnalysisComplete := report;
          }
        case Received(Refused(e)) =>
          error := Some(e.GetOr(AnalysisFailed));
        case Failed(m) =>
          error := Some(m.GetOr(AnalysisFailed));
      }
      analysing := false;
    }

    /** "Re-run" only clears `analysed`. */
    method ReRun()
      modifies this
      ensures !analysed
      ensures aadhaarInput == old(aadhaarInput) && loading == old(loading) && analysing == old(analysing)
      ensures error == old(error)
    {
      analysed := false;
    }
  }
}
