/** Properties of the whole path from the form to the store: what the
    client sends, what the server accepts and stores, and which multiplier
    the fallback applies to it. */
module Pipeline {
  import opened JsValues
  import opened Schema
  import opened Storage
  import opened Fallback
  import opened Routes
  import opened PropertyForm

  /** The body the form posts for a set of form values. */
  function SubmittedBody(values: InsertProperty): Body {
    Object(EncodeRequest(BuildRequest(values)))
  }

  /** None of the values the property-type select sends is a key of the
      multiplier table, so the fallback always scales by 1.0 for a form
      submission. */
  lemma FormTypesFallThrough()
    ensures forall t <- FormPropertyTypes :: t !in TypeMultipliers && TypeMultiplier(t) == 1.0
  {
  }

  /** A submitted form passes the server's validation, and the row the store
      creates from it is the row it would create from the form values
      themselves: the client defaults and the column defaults agree. */
  lemma SubmittedFormStoredAsEntered(values: InsertProperty, id: nat)
    ensures ParseInsertProperty(SubmittedBody(values)) == Ok(RequestAsInsert(BuildRequest(values)))
    ensures PropertyRow(RequestAsInsert(BuildRequest(values)), id) == PropertyRow(values, id)
  {
    var sent := RequestAsInsert(BuildRequest(values));
    ParseInsertPropertyRoundTrip(sent);
    var p, q := PropertyRow(sent, id), PropertyRow(values, id);
    forall k | 0 <= k < |PropertyColumns|
      ensures ColumnValue(RowInsert(p), k) == ColumnValue(RowInsert(q), k)
    {
      assert ColumnValue(sent, k) == WithDefault(ColumnValue(values, k), PropertyColumns[k].presence);
    }
    assert ColumnValue(RowInsert(p), 4) == ColumnValue(RowInsert(q), 4);
    assert ColumnValue(RowInsert(p), 7) == ColumnValue(RowInsert(q), 7);
    assert ColumnValue(RowInsert(p), 8) == ColumnValue(RowInsert(q), 8);
    assert ColumnValue(RowInsert(p), 9) == ColumnValue(RowInsert(q), 9);
    assert ColumnValue(RowInsert(p), 10) == ColumnValue(RowInsert(q), 10);
  }

  /** The ranges exist only on the client: a body with a square footage of
      100 is refused by the form but accepted by the handler, which answers
      with a prediction (the writes that follow are stated by `Predict`). */
  lemma RangesNotCheckedByServer(values: InsertProperty, outcome: EngineOutcome,
                                                     jitterDraw: real, confidenceDraw: real)
    requires values.squareFootage == 100.0
    requires IsRandomDraw(jitterDraw) && IsRandomDraw(confidenceDraw)
    ensures ParseForm(SubmittedBody(values)).Err?
    ensures Respond(SubmittedBody(values), outcome, jitterDraw, confidenceDraw).Success?
  {
    SubmittedFormStoredAsEntered(values, 1);
    FormAcceptsExactly(SubmittedBody(values));
  }

  /** The form's default values. */
  const DefaultFormValues: InsertProperty := InsertProperty(
    2200.0, 2005.0, 3.0, 2.0, Some(2.0), "single-family", "suburbs",
    Some(false), Some(true), Some(true), Some(false))

  /** The fallback for the pricing fields of the default form: the unscaled
      estimate is 46,00,500, since the form's type value misses the
      multiplier table. */
  lemma DefaultPricingFallback(jitterDraw: real, confidenceDraw: real)
    requires IsRandomDraw(jitterDraw) && IsRandomDraw(confidenceDraw)
    ensures var r := GenerateFallback(PricingOf(DefaultFormValues), jitterDraw, confidenceDraw);
      4140449.5 <= r.estimatedPrice < 5060550.5
  {
    var d := PricingOf(DefaultFormValues);
    assert TypeMultiplier(d.propertyType) == 1.0;
    assert BaseEstimate(d) == 4600500.0;
    FallbackWithinJitter(d, jitterDraw, confidenceDraw);
  }

  /** Submitting the default form while the engine fails: the fallback
      values the house within the ±10% random factor of 46,00,500, above the
      floor, with ordered bounds and the five ranked features. */
  lemma DefaultFormFallback(jitterDraw: real, confidenceDraw: real)
    requires IsRandomDraw(jitterDraw) && IsRandomDraw(confidenceDraw)
    ensures Respond(SubmittedBody(DefaultFormValues), EngineFailure, jitterDraw, confidenceDraw).Success?
    ensures var r := Respond(SubmittedBody(DefaultFormValues), EngineFailure, jitterDraw, confidenceDraw).response;
      && 4140449.5 <= r.estimatedPrice < 5060550.5
      && r.estimatedPrice >= MinimumPrice
      && r.lowerBound <= r.estimatedPrice <= r.upperBound
      && |r.featureImportance| == 5
  {
    var body := SubmittedBody(DefaultFormValues);
    SubmittedFormStoredAsEntered(DefaultFormValues, 1);
    var v := ParseInsertProperty(body).value;
    assert PricingOf(v) == PricingOf(DefaultFormValues);
    DefaultPricingFallback(jitterDraw, confidenceDraw);
  }
}
