/**
 * The farmer portal page: an Aadhaar number is checked and looked up, the farmer's
 * local weather is fetched, and AI insights are generated, moving a step variable
 * through input, loading, profile, generating and done. Each awaited request is an
 * input; a handler that awaits is split at each `await` into the part before it and
 * the continuation after it.
 */
module FarmerPortal {
  import opened Wrappers
  import opened JsString
  import Aadhaar
  import MockAadhaar
  import WeatherRoute

  datatype Step = InputStep | LoadingStep | ProfileStep | GeneratingStep | DoneStep

  /** The weather route's successful answer. */
  datatype WeatherReport = WeatherReport(current: WeatherRoute.CurrentOut, daily: seq<WeatherRoute.DailyOut>)

  datatype RiskLevel = LowRisk | MediumRisk | HighRisk
  datatype CropStatus = Good | Caution | Critical
  datatype PriceOutlook = Bullish | Neutral | Bearish
  datatype CropAdvisory = CropAdvisory(crop: string, status: CropStatus, advice: string)
  datatype MarketOutlook = MarketOutlook(crop: string, priceOutlook: PriceOutlook, reason: string)
  datatype GovtScheme = GovtScheme(schemeName: string, benefit: string, howToApply: string)

  datatype FarmerInsights = FarmerInsights(
    overallRisk: RiskLevel,
    riskReason: string,
    cropAdvisory: seq<CropAdvisory>,
    irrigationAdvice: string,
    weatherAlerts: seq<string>,
    marketOutlook: seq<MarketOutlook>,
    govtSchemes: seq<GovtScheme>,
    immediateActions: seq<string>,
    seasonalSummary: string)

  const InvalidAadhaarMessage := "Please enter a valid 12-digit Aadhaar number."
  const FarmerNotFound := "Farmer not found"
  const WeatherFailed := "Failed to fetch weather"
  const InsightsFailed := "Insights generation failed"
  const UnknownError := "Unknown error"

  class FarmerPortalPage {
    var aadhaarInput: string
    var step: Step
    var farmer: Option<MockAadhaar.FarmerProfile>
    var weather: Option<WeatherReport>
    var insights: Option<FarmerInsights>
    var error: Option<string>

    /**
     * What the rendering relies on: the profile and the generate button are shown with a
     * farmer and a weather report, the advisory with insights.
     */
    predicate Consistent()
      reads this
    {
      (step == ProfileStep || step == GeneratingStep ==> farmer.Some? && weather.Some?) &&
      (step == DoneStep ==> insights.Some?)
    }

    constructor()
      ensures aadhaarInput == "" && step == InputStep && farmer == None && weather == None
      ensures insights == None && error == None
      ensures Consistent()
    {
      aadhaarInput := "";
      step := InputStep;
      farmer := None;
      weather := None;
      insights := None;
      error := None;
    }

    /** Typing in the Aadhaar field stores the formatted number. */
    method SetInput(typed: string)
      modifies this
      ensures aadhaarInput == Aadhaar.FormatAadhaar(typed)
      ensures step == old(step) && farmer == old(farmer) && weather == old(weather)
      ensures insights == old(insights) && error == old(error)
    {
      aadhaarInput := Aadhaar.FormatAadhaar(typed);
    }

    /**
     * `handleFetch` up to the profile request. Without exactly twelve digits it only sets
     * the error; otherwise it clears the error, enters the loading step and requests the
     * profile of the digits.
     */
    method BeginFetch() returns (requested: Option<string>)
      modifies this
      ensures aadhaarInput == old(aadhaarInput) && farmer == old(farmer) && weather == old(weather)
      ensures insights == old(insights)
      ensures !Aadhaar.IsValidAadhaarInput(old(aadhaarInput)) ==>
                requested == None && error == Some(InvalidAadhaarMessage) && step == old(step)
      ensures Aadhaar.IsValidAadhaarInput(old(aadhaarInput)) ==>
                requested == Some(DigitsOf(old(aadhaarInput))) && error == None && step == LoadingStep
      ensures old(Consistent()) ==> Consistent()
    {
      var digits := DigitsOf(aadhaarInput);
      if |digits| != Aadhaar.AadhaarDigits {
        error := Some(InvalidAadhaarMessage);
        return None;
      }
      error := None;
      step := LoadingStep;
      requested := Some(digits);
    }

    /**
     * The continuation after the profile request: a found farmer is stored and the weather
     * at its coordinates is requested; otherwise the error is shown and the step returns
     * to input.
     */
    method FinishFarmer(answer: Outcome<Reply<MockAadhaar.FarmerProfile>>) returns (weatherQuery: Option<(real, real)>)
      modifies this
      ensures aadhaarInput == old(aadhaarInput) && weather == old(weather) && insights == old(insights)
      ensures answer.Received? && answer.body.Accepted? ==>
                var f := answer.body.payload;
                farmer == Some(f) && weatherQuery == Some((f.lat, f.lon)) &&
                step == old(step) && error == old(error)
      ensures answer.Received? && answer.body.Refused? ==>
                farmer == old(farmer) && weatherQuery == None && step == InputStep &&
                error == Some(answer.body.error.GetOr(FarmerNotFound))
      ensures answer.Failed? ==>
                farmer == old(farmer) && weatherQuery == None && step == InputStep &&
                error == Some(answer.message.GetOr(UnknownError))
      ensures old(step) == LoadingStep && old(Consistent()) ==> Consistent()
    {
      match answer
      case Received(Accepted(f)) =>
        farmer := Some(f);
        weatherQuery := Some((f.lat, f.lon));
      case Received(Refused(e)) =>
        error := Some(e.GetOr(FarmerNotFound));
        step := InputStep;
        weatherQuery := None;
      case Failed(m) =>
        error := Some(m.GetOr(UnknownError));
        step := InputStep;
        weatherQuery := None;
    }

    /**
     * The continuation after the weather request: the report is stored and the profile is
     * shown; a refused request shows its own fixed message, any failure returns to input.
     */
    method FinishWeather(answer: Outcome<Reply<WeatherReport>>)
      modifies this
      ensures aadhaarInput == old(aadhaarInput) && farmer == old(farmer) && insights == old(insights)
      ensures answer.Received? && answer.body.Accepted? ==>
                weather == Some(answer.body.payload) && step == ProfileStep && error == old(error)
      ensures answer.Received? && answer.body.Refused? ==>
                weather == old(weather) && step == InputStep && error == Some(WeatherFailed)
      ensures answer.Failed? ==>
                weather == old(weather) && step == InputStep && error == Some(answer.message.GetOr(UnknownError))
      ensures old(farmer).Some? && old(Consistent()) ==> Consistent()
    {
      match answer
      case Received(Accepted(w)) =>
        weather := Some(w);
        step := ProfileStep;
      case Received(Refused(_)) =>
        error := Some(WeatherFailed);
        step := InputStep;
      case Failed(m) =>
        error := Some(m.GetOr(UnknownError));
        step := InputStep;
    }

    /**
     * `handleGenerateInsights` up to its request: nothing happens without both a farmer
     * and a weather report; otherwise the step becomes generating and the error is cleared.
     */
    method BeginInsights() returns (started: bool)
      modifies this
      ensures started <==> old(farmer).Some? && old(weather).Some?
      ensures aadhaarInput == old(aadhaarInput) && farmer == old(farmer) && weather == old(weather)
      ensures insights == old(insights)
      ensures !started ==> step == old(step) && error == old(error)
      ensures started ==> step == GeneratingStep && error == None
      ensures old(Consistent()) ==> Consistent()
    {
      if farmer.None? || weather.None? {
        return false;
      }
      step := GeneratingStep;
      error := None;
      started := true;
    }

    /**
     * The continuation after the insights request: the insights are stored and the step is
     * done; on any failure the step returns to profile with the error. A reset while the
     * request is pending leaves no farmer behind, so a failed answer after it shows the
     * profile step with no farmer; consistency is promised only for a continuation that
     * finds the generating step.
     */
    method FinishInsights(answer: Outcome<Reply<FarmerInsights>>)
      modifies this
      ensures aadhaarInput == old(aadhaarInput) && farmer == old(farmer) && weather == old(weather)
      ensures answer.Received? && answer.body.Accepted? ==>
                insights == Some(answer.body.payload) && step == DoneStep && error == old(error)
      ensures answer.Received? && answer.body.Refused? ==>
                insights == old(insights) && step == ProfileStep &&
                error == Some(answer.body.error.GetOr(InsightsFailed))
      ensures answer.Failed? ==>
                insights == old(insights) && step == ProfileStep && error == Some(answer.message.GetOr(UnknownError))
      ensures old(step) == GeneratingStep && old(Consistent()) ==> Consistent()
    {
      match answer
      case Received(Accepted(i)) =>
        insights := Some(i);
        step := DoneStep;
      case Received(Refused(e)) =>
        error := Some(e.GetOr(InsightsFailed));
        step := ProfileStep;
      case Failed(m) =>
        error := Some(m.GetOr(UnknownError));
        step := ProfileStep;
    }

    /** `reset`: back to the empty input step. */
    method Reset()
      modifies this
      ensures step == InputStep && aadhaarInput == "" && farmer == None && weather == None
      ensures insights == None && error == None
      ensures Consistent()
    {
      step := InputStep;
      aadhaarInput := "";
      farmer := None;
      weather := None;
      insights := None;
      error := None;
    }
  }

  /**
   * The sequential path through the page: a valid number, a found farmer, a weather
   * report and insights end in the done step with all three stored and no error.
   */
  method HappyPath(typed: string, f: MockAadhaar.FarmerProfile, w: WeatherReport, i: FarmerInsights)
    returns (page: FarmerPortalPage)
    requires |DigitsOf(typed)| >= Aadhaar.AadhaarDigits
    ensures page.step == DoneStep && page.farmer == Some(f) && page.weather == Some(w)
    ensures page.insights == Some(i) && page.error == None && page.Consistent()
  {
    page := new FarmerPortalPage();
    page.SetInput(typed);
    Aadhaar.FormattedInputValid(typed);
    var requested := page.BeginFetch();
    var query := page.FinishFarmer(Received(Accepted(f)));
    page.FinishWeather(Received(Accepted(w)));
    var started := page.BeginInsights();
    page.FinishInsights(Received(Accepted(i)));
  }
}
