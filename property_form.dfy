/** The client form: its schema extends the insert schema with ranges on
    the four size fields, and a submitted form is turned into a complete
    prediction request by filling the optional fields with their defaults. */
module PropertyForm {
  import opened JsValues
  import opened Schema

  /** The range the form puts on a column of the insert schema, by index:
      square footage, year built, bedrooms and bathrooms; none elsewhere. */
  function FormRange(k: nat): Option<Range> {
    match k
    case 0 => Some(Range(500.0, 10000.0))
    case 1 => Some(Range(1900.0, 2024.0))
    case 2 => Some(Range(1.0, 10.0))
    case 3 => Some(Range(1.0, 10.0))
    case _ => None
  }

  /** `insertPropertySchema.extend(...)`: the same columns, with the four
      ranges added. */
  function FormColumns(): (cols: seq<Column>)
    ensures |cols| == |PropertyColumns|
    ensures forall k | 0 <= k < |cols| :: cols[k] == PropertyColumns[k].(range := FormRange(k))
  {
    seq(|PropertyColumns|, k requires 0 <= k < |PropertyColumns| => PropertyColumns[k].(range := FormRange(k)))
  }

  /** The four ranges, on an insert value. */
  predicate InFormRanges(v: InsertProperty) {
    && 500.0 <= v.squareFootage <= 10000.0
    && 1900.0 <= v.yearBuilt <= 2024.0
    && 1.0 <= v.bedrooms <= 10.0
    && 1.0 <= v.bathrooms <= 10.0
  }

  /** Conforming to a form column implies conforming to the insert column
      it extends. */
  lemma FormConformsToInsert(fields: map<string, Json>)
    requires AllConform(fields, FormColumns())
    ensures AllConform(fields, PropertyColumns)
  {
    var cols := FormColumns();
    forall k | 0 <= k < |PropertyColumns| ensures Conforms(fields, PropertyColumns[k]) {
      assert Conforms(fields, cols[k]);
    }
  }

  /** The form resolver: the form is accepted exactly when every extended
      column conforms, and an accepted form yields the value the insert
      schema yields for the same fields. */
  function ParseForm(body: Body): (r: Result<InsertProperty, seq<Issue>>)
    ensures r.Ok? <==> Accepts(body, FormColumns())
    ensures r.Err? ==> r.error != []
    ensures r.Ok? ==> ParseInsertProperty(body) == r
  {
    match body
    case NotObject => Err([Issue("", NotAnObject)])
    case Object(fields) =>
      var issues := Issues(fields, FormColumns());
      if issues != [] then Err(issues)
      else
        FormConformsToInsert(fields);
        Ok(ReadInsertProperty(fields))
  }

  /** The form accepts exactly what the insert schema accepts and lies in
      the four ranges. */
  lemma FormAcceptsExactly(body: Body)
    ensures ParseForm(body).Ok? <==>
      ParseInsertProperty(body).Ok? && InFormRanges(ParseInsertProperty(body).value)
  {
    if body.Object? {
      var fields, cols := body.fields, FormColumns();
      if AllConform(fields, cols) {
        FormConformsToInsert(fields);
        var v := ReadInsertProperty(fields);
        assert Conforms(fields, cols[0]) && Conforms(fields, cols[1]);
        assert Conforms(fields, cols[2]) && Conforms(fields, cols[3]);
        assert Lookup(fields, PropertyColumns[0].name) == ColumnValue(v, 0);
        assert Lookup(fields, PropertyColumns[1].name) == ColumnValue(v, 1);
        assert Lookup(fields, PropertyColumns[2].name) == ColumnValue(v, 2);
        assert Lookup(fields, PropertyColumns[3].name) == ColumnValue(v, 3);
      } else if AllConform(fields, PropertyColumns) {
        var v := ReadInsertProperty(fields);
        var k :| 0 <= k < |cols| && !Conforms(fields, cols[k]);
        assert Conforms(fields, PropertyColumns[k]);
        assert Lookup(fields, PropertyColumns[k].name) == ColumnValue(v, k);
      }
    }
  }

  /** `onSubmit`: the request the form sends. Read as an insert value it
      agrees with the form values on every supplied field and holds the
      column default of the insert schema on every omitted one. */
  function BuildRequest(values: InsertProperty): (r: PredictionRequest)
    ensures forall k | 0 <= k < |PropertyColumns| ::
      ColumnValue(RequestAsInsert(r), k) == WithDefault(ColumnValue(values, k), PropertyColumns[k].presence)
  {
    PredictionRequest(
      values.squareFootage, values.yearBuilt, values.bedrooms, values.bathrooms,
      values.garage.OrElse(0.0),
      values.propertyType, values.neighborhood,
      values.hasPool.OrElse(false), values.hasFireplace.OrElse(false),
      values.hasHardwoodFloors.OrElse(false), values.recentlyUpdated.OrElse(false))
  }

  /** A complete request read as an insert value: every field supplied. */
  function RequestAsInsert(r: PredictionRequest): InsertProperty {
    InsertProperty(
      r.squareFootage, r.yearBuilt, r.bedrooms, r.bathrooms, Some(r.garage),
      r.propertyType, r.neighborhood,
      Some(r.hasPool), Some(r.hasFireplace), Some(r.hasHardwoodFloors), Some(r.recentlyUpdated))
  }

  /** The request as `JSON.stringify` sends it: one key per field. */
  function EncodeRequest(r: PredictionRequest): (fields: map<string, Json>)
    ensures ReadsBack(fields, RequestAsInsert(r))
  {
    InsertPropertyFields(RequestAsInsert(r))
  }

  /** The values the property-type select sends. */
  const FormPropertyTypes: seq<string> := ["single-family", "condo", "townhouse", "multi-family"]
}
