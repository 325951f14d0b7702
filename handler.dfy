/**
 * The prediction endpoint (app.py:16-56), seen from what it computes: obtain
 * both model outputs, derive the advisories, assemble the response, and turn
 * any failure into an error payload that carries nothing else.
 *
 * The model calls are inputs. `regressor` is the outcome of everything up to
 * and including the random-forest estimate (reading the request body,
 * building the one-row frame, `rf.predict(df)[0]`); `forecaster` is the
 * outcome of the ARIMA one-step-ahead forecast, which the source evaluates
 * only after the regressor has succeeded. `display` stands for the rounding
 * of both numbers to two decimals when the response is assembled.
 */
module Handler {
  import opened Wrappers
  import opened Decision
  import opened Labels
  import opened Json

  /** The successful response: both (displayed) numbers and both advisories. */
  datatype Response = Response(rfPrediction: real, arimaForecast: real, insights: Insights)

  /** What the endpoint answers: an error payload or a full response, never a mix. */
  datatype Reply = Failure(error: string) | Success(response: Response)

  /**
   * The endpoint's answer. It succeeds exactly when both model calls
   * succeed; the error text is that of the first call that failed; on
   * success the advisories are those of the raw, unrounded outputs, and only
   * the two numbers shown go through `display`.
   */
  function Predict(regressor: Result<real>, forecaster: Result<real>, display: real -> real): (r: Reply)
    ensures r.Success? <==> regressor.Ok? && forecaster.Ok?
    ensures regressor.Err? ==> r == Failure(regressor.message)
    ensures regressor.Ok? && forecaster.Err? ==> r == Failure(forecaster.message)
    ensures r.Success? ==>
      && r.response.rfPrediction == display(regressor.value)
      && r.response.arimaForecast == display(forecaster.value)
      && InBracket(r.response.insights.level, regressor.value)
      && (r.response.insights.recharge == Improving <==> forecaster.value > regressor.value)
  {
    match regressor
    case Err(msg) => Failure(msg)
    case Ok(estimate) =>
      match forecaster
      case Err(msg) => Failure(msg)
      case Ok(forecast) =>
        Success(Response(display(estimate), display(forecast), Decide(estimate, forecast)))
  }

  /**
   * The "insights" dictionary of a successful response (app.py:48-51); a
   * client reads it back as the advisories it was built from.
   */
  function RenderInsights(insights: Insights): (r: Json)
    ensures ReadInsights(r) == Some(insights)
  {
    var members := [
      ("level_status", JString(LevelLabel(insights.level))),
      ("recharge_status", JString(RechargeLabel(insights.recharge)))];
    LookupDistinct(members, 0);
    LookupDistinct(members, 1);
    LevelLabelRoundTrip(insights.level);
    RechargeLabelRoundTrip(insights.recharge);
    JObject(members)
  }

  /**
   * The dictionary a reply is answered with, as the two literals at
   * app.py:45-52 and app.py:56 build it, before `jsonify` serialises it. A
   * client tells a failure apart by the presence of the "error" key alone.
   */
  function Render(reply: Reply): (r: Json)
    ensures r.JObject?
    ensures reply.Failure? <==> Lookup(r.members, "error").Some?
  {
    match reply
    case Failure(msg) => JObject([("error", JString(msg))])
    case Success(resp) =>
      JObject([
        ("rf_prediction", JNumber(resp.rfPrediction)),
        ("arima_forecast", JNumber(resp.arimaForecast)),
        ("insights", RenderInsights(resp.insights))])
  }

  /** How a client reads the "insights" object: both members must hold known advisory texts. */
  function ReadInsights(value: Json): (r: Option<Insights>)
    ensures r.Some? ==> value.JObject?
    ensures r.Some? ==> Lookup(value.members, "level_status") == Some(JString(LevelLabel(r.value.level)))
    ensures r.Some? ==> Lookup(value.members, "recharge_status") == Some(JString(RechargeLabel(r.value.recharge)))
  {
    match value
    case JObject(members) =>
      (match (Lookup(members, "level_status"), Lookup(members, "recharge_status"))
       case (Some(JString(l)), Some(JString(c))) =>
         (match (ParseLevel(l), ParseRecharge(c))
          case (Some(level), Some(recharge)) => Some(Insights(level, recharge))
          case _ => None)
       case _ => None)
    case _ => None
  }

  /**
   * How a client reads a body: a failure is told apart by its "error" member,
   * not by the status code; a success needs both numbers and a readable
   * "insights" object.
   */
  function ReadReply(body: Json): (r: Option<Reply>)
    ensures r.Some? ==> body.JObject?
    ensures r.Some? && r.value.Failure? ==> Lookup(body.members, "error") == Some(JString(r.value.error))
    ensures r.Some? && r.value.Success? ==>
      && Lookup(body.members, "error") == None
      && Lookup(body.members, "rf_prediction") == Some(JNumber(r.value.response.rfPrediction))
      && Lookup(body.members, "arima_forecast") == Some(JNumber(r.value.response.arimaForecast))
  {
    match body
    case JObject(members) =>
      (match Lookup(members, "error")
       case Some(JString(msg)) => Some(Failure(msg))
       case Some(_) => None
       case None =>
         (match (Lookup(members, "rf_prediction"), Lookup(members, "arima_forecast"), Lookup(members, "insights"))
          case (Some(JNumber(rf)), Some(JNumber(af)), Some(ins)) =>
            (match ReadInsights(ins)
             case Some(insights) => Some(Success(Response(rf, af, insights)))
             case None => None)
          case _ => None))
    case _ => None
  }

  /** Every dictionary the endpoint answers with reads back as the reply it was built from. */
  lemma RenderRoundTrip(reply: Reply)
    ensures ReadReply(Render(reply)) == Some(reply)
  {
    if reply.Success? {
      var members := Render(reply).members;
      assert Lookup(members, "error") == None;
      LookupDistinct(members, 0);
      LookupDistinct(members, 1);
      LookupDistinct(members, 2);
    }
  }

  /**
   * When either model call fails the body has the single member "error",
   * holding the first failure's text: no number and no advisory leaks out.
   */
  lemma FailureHasNoPartialResult(regressor: Result<real>, forecaster: Result<real>, display: real -> real)
    requires regressor.Err? || forecaster.Err?
    ensures Render(Predict(regressor, forecaster, display)).JObject?
    ensures Keys(Render(Predict(regressor, forecaster, display)).members) == ["error"]
    ensures Lookup(Render(Predict(regressor, forecaster, display)).members, "error")
            == Some(JString(if regressor.Err? then regressor.message else forecaster.message))
    ensures forall key :: key != "error" ==> Lookup(Render(Predict(regressor, forecaster, display)).members, key) == None
  {
  }

  /**
   * On success the response dictionary has the keys rf_prediction,
   * arima_forecast and insights, in the order of the literal at app.py:45-52,
   * and no "error" key; it carries both displayed numbers and the insights
   * dictionary of the rules applied to the raw outputs.
   */
  lemma SuccessCarriesEverything(estimate: real, forecast: real, display: real -> real)
    ensures var body := Render(Predict(Ok(estimate), Ok(forecast), display));
      && Keys(body.members) == ["rf_prediction", "arima_forecast", "insights"]
      && Lookup(body.members, "error") == None
      && Lookup(body.members, "rf_prediction") == Some(JNumber(display(estimate)))
      && Lookup(body.members, "arima_forecast") == Some(JNumber(display(forecast)))
      && Lookup(body.members, "insights") == Some(RenderInsights(Decide(estimate, forecast)))
  {
    var body := Render(Predict(Ok(estimate), Ok(forecast), display));
    assert body.members[2].0 == "insights";
    LookupDistinct(body.members, 2);
  }

  /** Once the regressor stage fails, the forecaster is never consulted. */
  lemma RegressorFailureHidesForecaster(msg: string, f1: Result<real>, f2: Result<real>, display: real -> real)
    ensures Predict(Err(msg), f1, display) == Predict(Err(msg), f2, display)
  {
  }

  /** An estimate of 0.4 is critically low, and the forecast is still reported. */
  lemma ScenarioCritical(forecast: real, display: real -> real)
    ensures Predict(Ok(0.4), Ok(forecast), display).response.insights.level == Critical
    ensures Predict(Ok(0.4), Ok(forecast), display).response.arimaForecast == display(forecast)
  {
  }

  /** Estimate 2.5 with forecast 2.0: below average, and recharge at risk. */
  lemma ScenarioBelowAverageAtRisk(display: real -> real)
    ensures Predict(Ok(2.5), Ok(2.0), display).response.insights == Insights(BelowAverage, AtRisk)
  {
  }

  /** Estimate 5.0 with forecast 6.0: stable, and recharge improving. */
  lemma ScenarioStableImproving(display: real -> real)
    ensures Predict(Ok(5.0), Ok(6.0), display).response.insights == Insights(Stable, Improving)
  {
  }
}
