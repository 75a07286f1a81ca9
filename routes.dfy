/** The `/api/predict` handler and the model-metrics pass-through.

    The pricing engine is an external process; here it is a function from
    the raw request body to an outcome, and only that outcome matters: a
    response (returned verbatim, with no bound or rounding check) or a
    failure (which switches to the fallback estimator). */
module Routes {
  import opened JsValues
  import opened Schema
  import opened Storage
  import opened Fallback

  /** What the engine call settles to. */
  datatype EngineOutcome = EngineResult(response: PredictionResponse) | EngineFailure

  /** What the handler sends: the prediction (status 200) or the validation
      error (status 400, its message listing the issues). */
  datatype Reply = Success(response: PredictionResponse) | BadRequest(issues: seq<Issue>)

  /** The fields the fallback reads, taken from the validated value. */
  function PricingOf(v: InsertProperty): PricingData {
    PricingData(v.squareFootage, v.yearBuilt, v.bedrooms, v.bathrooms, v.propertyType)
  }

  /** The fields the fallback reads, taken from the raw body as the handler
      passes it; once the body has been validated they are the validated
      value's fields. */
  function RawPricingData(fields: map<string, Json>): (d: PricingData)
    requires AllConform(fields, PropertyColumns)
    ensures d == PricingOf(ReadInsertProperty(fields))
  {
    PropertyShape(fields);
    PricingData(
      fields["squareFootage"].n,
      fields["yearBuilt"].n,
      fields["bedrooms"].n,
      fields["bathrooms"].n,
      fields["propertyType"].s)
  }

  /** The reply of the handler for a body and an engine outcome: 400 with
      the issues exactly when the body fails the insert schema; otherwise
      the engine's response verbatim, or the fallback computed from the body
      when the engine failed. */
  function Respond(body: Body, outcome: EngineOutcome, jitterDraw: real, confidenceDraw: real): (r: Reply)
    requires IsRandomDraw(jitterDraw) && IsRandomDraw(confidenceDraw)
    ensures r.BadRequest? <==> !Accepts(body, PropertyColumns)
    ensures r.BadRequest? ==> r.issues == ParseInsertProperty(body).error && r.issues != []
    ensures r.Success? && outcome.EngineResult? ==> r.response == outcome.response
    ensures r.Success? && outcome.EngineFailure? ==>
      r.response == GenerateFallback(PricingOf(ParseInsertProperty(body).value), jitterDraw, confidenceDraw)
  {
    match ParseInsertProperty(body)
    case Err(issues) => BadRequest(issues)
    case Ok(_) =>
      match outcome
      case EngineResult(response) => Success(response)
      case EngineFailure => Success(GenerateFallback(RawPricingData(body.fields), jitterDraw, confidenceDraw))
  }

  /** The prediction row the handler asks the store to create for a
      response and the id of the property just created. */
  function PredictionInsert(response: PredictionResponse, propertyId: nat): InsertPrediction {
    InsertPrediction(
      Present(propertyId as real),
      response.estimatedPrice, response.confidence, response.lowerBound, response.upperBound)
  }

  /** The handler: validate, ask the engine, fall back on failure, then
      create one property from the validated value and one prediction
      linked to it; a rejected body writes nothing. */
  method Predict(storage: MemStorage, body: Body, engine: Body -> EngineOutcome,
                 jitterDraw: real, confidenceDraw: real) returns (reply: Reply)
    requires storage.Valid()
    requires IsRandomDraw(jitterDraw) && IsRandomDraw(confidenceDraw)
    modifies storage
    ensures storage.Valid()
    ensures reply == Respond(body, engine(body), jitterDraw, confidenceDraw)
    ensures reply.BadRequest? ==>
      && storage.properties == old(storage.properties) && storage.predictions == old(storage.predictions)
      && storage.currentPropertyId == old(storage.currentPropertyId)
      && storage.currentPredictionId == old(storage.currentPredictionId)
    ensures reply.Success? ==>
      var propertyId, predictionId := old(storage.currentPropertyId), old(storage.currentPredictionId);
      && storage.currentPropertyId == propertyId + 1
      && storage.currentPredictionId == predictionId + 1
      && storage.properties == old(storage.properties)[propertyId := PropertyRow(ParseInsertProperty(body).value, propertyId)]
      && storage.predictions == old(storage.predictions)[predictionId :=
           PredictionRow(PredictionInsert(reply.response, propertyId), predictionId)]
  {
    var parsed := ParseInsertProperty(body);
    if parsed.Err? {
      return BadRequest(parsed.error);
    }
    var validated := parsed.value;
    var prediction: PredictionResponse;
    var outcome := engine(body);
    if outcome.EngineResult? {
      prediction := outcome.response;
    } else {
      prediction := GenerateFallback(RawPricingData(body.fields), jitterDraw, confidenceDraw);
    }
    var property := storage.CreateProperty(validated);
    var _ := storage.CreatePrediction(PredictionInsert(prediction, property.id));
    reply := Success(prediction);
  }

  /** An engine failure never surfaces as an error: a valid body always
      gets a prediction, and that prediction is bounded, floored and
      carries the fixed ranking. */
  lemma EngineFailureFallsBack(body: Body, jitterDraw: real, confidenceDraw: real)
    requires IsRandomDraw(jitterDraw) && IsRandomDraw(confidenceDraw)
    requires Accepts(body, PropertyColumns)
    ensures Respond(body, EngineFailure, jitterDraw, confidenceDraw).Success?
    ensures var r := Respond(body, EngineFailure, jitterDraw, confidenceDraw).response;
      && r.estimatedPrice >= MinimumPrice
      && r.lowerBound <= r.estimatedPrice <= r.upperBound
      && 0.75 <= r.confidence <= 0.95
      && r.featureImportance == FallbackImportance()
  {
  }

  /** The engine path has no gate: a response whose bounds are out of
      order and whose price is below the fallback floor is still sent as
      it is to any valid body. */
  lemma EngineResponseNotChecked(body: Body, jitterDraw: real, confidenceDraw: real)
    requires IsRandomDraw(jitterDraw) && IsRandomDraw(confidenceDraw)
    requires Accepts(body, PropertyColumns)
    ensures var odd := PredictionResponse(10.5, 2.0, 20.0, 5.0, []);
      Respond(body, EngineResult(odd), jitterDraw, confidenceDraw) == Success(odd)
  {
  }

  /** What the metrics engine call settles to. */
  datatype MetricsOutcome = MetricsResult(metrics: ModelMetrics) | MetricsFailure

  /** What the metrics endpoint sends: the metrics (status 200) or a fixed
      message (status 500). */
  datatype MetricsReply = MetricsOk(metrics: ModelMetrics) | ServerError(message: string)

  const MetricsFailureMessage: string := "Failed to retrieve model metrics"

  /** `/api/model-metrics`: the engine's metrics verbatim, or a server
      error when the engine failed; there is no fallback. */
  function ModelMetricsEndpoint(outcome: MetricsOutcome): (r: MetricsReply)
    ensures r.ServerError? <==> outcome.MetricsFailure?
    ensures r.MetricsOk? ==> r.metrics == outcome.metrics
    ensures r.ServerError? ==> r.message == MetricsFailureMessage
  {
    match outcome
    case MetricsResult(m) => MetricsOk(m)
    case MetricsFailure => ServerError(MetricsFailureMessage)
  }
}
