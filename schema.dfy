/** The shared data model: the `properties` and `predictions` tables, their
    insert schemas, and the request/response shapes of the prediction API.

    An insert schema is derived from its table: a column that is not null and
    has no default is required, a column with a default is optional, a
    nullable column is optional and may be `null`, and `id` is omitted.
    Parsing checks presence and JSON kind only; keys that are not columns
    (including `id`) are dropped. */
module Schema {
  import opened JsValues

  // ---------------------------------------------------------------------
  // Rows

  /** A stored row of `properties`; every column is filled in. */
  datatype Property = Property(
    id: nat,
    squareFootage: real,
    yearBuilt: real,
    bedrooms: real,
    bathrooms: real,
    garage: real,
    propertyType: string,
    neighborhood: string,
    hasPool: bool,
    hasFireplace: bool,
    hasHardwoodFloors: bool,
    recentlyUpdated: bool)

  /** A stored row of `predictions`; `propertyId` is `None` for `null`. */
  datatype Prediction = Prediction(
    id: nat,
    propertyId: Option<real>,
    estimatedPrice: real,
    confidence: real,
    lowerBound: real,
    upperBound: real)

  /** What `insertPropertySchema` yields: no `id`; `garage` and the four
      amenity flags may be absent. */
  datatype InsertProperty = InsertProperty(
    squareFootage: real,
    yearBuilt: real,
    bedrooms: real,
    bathrooms: real,
    garage: Option<real>,
    propertyType: string,
    neighborhood: string,
    hasPool: Option<bool>,
    hasFireplace: Option<bool>,
    hasHardwoodFloors: Option<bool>,
    recentlyUpdated: Option<bool>)

  /** What `insertPredictionSchema` yields: no `id`; `propertyId` may be
      absent or `null`. */
  datatype InsertPrediction = InsertPrediction(
    propertyId: Nullish<real>,
    estimatedPrice: real,
    confidence: real,
    lowerBound: real,
    upperBound: real)

  /** Column defaults of the `properties` table. */
  const GarageDefault: real := 0.0
  const AmenityDefault: bool := false

  // ---------------------------------------------------------------------
  // API shapes

  /** The request the client sends: every field present. */
  datatype PredictionRequest = PredictionRequest(
    squareFootage: real,
    yearBuilt: real,
    bedrooms: real,
    bathrooms: real,
    garage: real,
    propertyType: string,
    neighborhood: string,
    hasPool: bool,
    hasFireplace: bool,
    hasHardwoodFloors: bool,
    recentlyUpdated: bool)

  datatype FeatureWeight = FeatureWeight(feature: string, importance: real)

  /** A valuation; `featureImportance` is ordered, most influential first. */
  datatype PredictionResponse = PredictionResponse(
    estimatedPrice: real,
    confidence: real,
    lowerBound: real,
    upperBound: real,
    featureImportance: seq<FeatureWeight>)

  datatype ModelMetrics = ModelMetrics(rSquared: real, rmse: real, mae: real, lastTrained: string)

  // ---------------------------------------------------------------------
  // Insert-schema validation

  datatype Kind = Number | Text | Boolean
  /** Whether a key may be omitted: a not-null column without default is
      required, one with a default may be omitted, a nullable one may also
      be `null`. */
  datatype Presence = Required | Defaulted(default: Json) | Nullable
  /** An inclusive range an extended schema may add to a number column. */
  datatype Range = Range(min: real, max: real)
  /** One key of an object schema. */
  datatype Column = Column(name: string, kind: Kind, presence: Presence, range: Option<Range>)

  datatype IssueCode = Missing | WrongType | TooSmall | TooBig | NotAnObject
  /** One validation complaint, naming the offending key. */
  datatype Issue = Issue(path: string, code: IssueCode)

  predicate HasKind(v: Json, kind: Kind) {
    match kind
    case Number => v.JNum?
    case Text => v.JStr?
    case Boolean => v.JBool?
  }

  predicate InRange(v: Json, range: Option<Range>) {
    range.None? || (v.JNum? && range.value.min <= v.n <= range.value.max)
  }

  /** The key `c` of `fields` passes its column's checks. */
  predicate Conforms(fields: map<string, Json>, c: Column) {
    if c.name !in fields then c.presence != Required
    else if fields[c.name] == JNull && c.presence == Nullable then true
    else HasKind(fields[c.name], c.kind) && InRange(fields[c.name], c.range)
  }

  /** The complaints about key `c`: none exactly when it conforms. */
  function ColumnIssues(fields: map<string, Json>, c: Column): (r: seq<Issue>)
    ensures r == [] <==> Conforms(fields, c)
    ensures forall i <- r :: i.path == c.name
  {
    if c.name !in fields then
      (if c.presence == Required then [Issue(c.name, Missing)] else [])
    else
      var v := fields[c.name];
      if v == JNull && c.presence == Nullable then []
      else if !HasKind(v, c.kind) then [Issue(c.name, WrongType)]
      else if c.range.Some? && !v.JNum? then [Issue(c.name, WrongType)]
      else if c.range.Some? && v.n < c.range.value.min then [Issue(c.name, TooSmall)]
      else if c.range.Some? && v.n > c.range.value.max then [Issue(c.name, TooBig)]
      else []
  }

  /** All complaints about `fields` under the columns `cols`, in column order:
      there are none exactly when every column conforms, and each one names
      a column that does not. */
  function Issues(fields: map<string, Json>, cols: seq<Column>): (r: seq<Issue>)
    ensures r == [] <==> AllConform(fields, cols)
    ensures forall i <- r :: exists k | 0 <= k < |cols| :: cols[k].name == i.path && !Conforms(fields, cols[k])
  {
    if cols == [] then []
    else
      var head := ColumnIssues(fields, cols[0]);
      var tail := Issues(fields, cols[1..]);
      assert forall i <- head + tail :: i in head || i in tail;
      head + tail
  }

  /** Every column of `cols` conforms. */
  predicate AllConform(fields: map<string, Json>, cols: seq<Column>) {
    forall k | 0 <= k < |cols| :: Conforms(fields, cols[k])
  }

  /** Two bodies hold the same under every column key of `cols`. */
  predicate AgreeOn(f1: map<string, Json>, f2: map<string, Json>, cols: seq<Column>) {
    forall k | 0 <= k < |cols| :: Lookup(f1, cols[k].name) == Lookup(f2, cols[k].name)
  }

  /** A body the object schema over `cols` accepts. */
  predicate Accepts(body: Body, cols: seq<Column>) {
    body.Object? && AllConform(body.fields, cols)
  }

  /** `x ?? default` on a column: a supplied value is kept, an
      omitted one becomes the column default. */
  function WithDefault(supplied: Option<Json>, presence: Presence): Option<Json> {
    if supplied.None? && presence.Defaulted? then Some(presence.default) else supplied
  }

  /** Columns of `insertPropertySchema` (schema.ts, table `properties`). */
  const PropertyColumns: seq<Column> := [
    Column("squareFootage", Number, Required, None),
    Column("yearBuilt", Number, Required, None),
    Column("bedrooms", Number, Required, None),
    Column("bathrooms", Number, Required, None),
    Column("garage", Number, Defaulted(JNum(GarageDefault)), None),
    Column("propertyType", Text, Required, None),
    Column("neighborhood", Text, Required, None),
    Column("hasPool", Boolean, Defaulted(JBool(AmenityDefault)), None),
    Column("hasFireplace", Boolean, Defaulted(JBool(AmenityDefault)), None),
    Column("hasHardwoodFloors", Boolean, Defaulted(JBool(AmenityDefault)), None),
    Column("recentlyUpdated", Boolean, Defaulted(JBool(AmenityDefault)), None)
  ]

  /** Columns of `insertPredictionSchema` (schema.ts, table `predictions`). */
  const PredictionColumns: seq<Column> := [
    Column("propertyId", Number, Nullable, None),
    Column("estimatedPrice", Number, Required, None),
    Column("confidence", Number, Required, None),
    Column("lowerBound", Number, Required, None),
    Column("upperBound", Number, Required, None)
  ]

  /** The key `name` of `fields` holds a number. */
  predicate NumberAt(fields: map<string, Json>, name: string) {
    name in fields && fields[name].JNum?
  }

  predicate TextAt(fields: map<string, Json>, name: string) {
    name in fields && fields[name].JStr?
  }

  function OptionalNumber(fields: map<string, Json>, name: string): Option<real>
    requires name in fields ==> fields[name].JNum?
  {
    if name in fields then Some(fields[name].n) else None
  }

  function OptionalBool(fields: map<string, Json>, name: string): Option<bool>
    requires name in fields ==> fields[name].JBool?
  {
    if name in fields then Some(fields[name].b) else None
  }

  /** The JSON form of an optional number or flag. */
  function NumberJson(o: Option<real>): Option<Json> {
    match o
    case Some(x) => Some(JNum(x))
    case None => None
  }

  function BoolJson(o: Option<bool>): Option<Json> {
    match o
    case Some(x) => Some(JBool(x))
    case None => None
  }

  /** The JSON an insert value holds under the key of `PropertyColumns[k]`:
      `None` for an omitted field. */
  function ColumnValue(v: InsertProperty, k: nat): Option<Json> {
    match k
    case 0 => Some(JNum(v.squareFootage))
    case 1 => Some(JNum(v.yearBuilt))
    case 2 => Some(JNum(v.bedrooms))
    case 3 => Some(JNum(v.bathrooms))
    case 4 => NumberJson(v.garage)
    case 5 => Some(JStr(v.propertyType))
    case 6 => Some(JStr(v.neighborhood))
    case 7 => BoolJson(v.hasPool)
    case 8 => BoolJson(v.hasFireplace)
    case 9 => BoolJson(v.hasHardwoodFloors)
    case 10 => BoolJson(v.recentlyUpdated)
    case _ => None
  }

  /** `v` holds exactly what `fields` holds under each column key. */
  predicate ReadsBack(fields: map<string, Json>, v: InsertProperty) {
    forall k | 0 <= k < |PropertyColumns| :: Lookup(fields, PropertyColumns[k].name) == ColumnValue(v, k)
  }

  /** Spells out what conformance to `PropertyColumns` means, key by key. */
  lemma PropertyShape(fields: map<string, Json>)
    requires AllConform(fields, PropertyColumns)
    ensures NumberAt(fields, "squareFootage") && NumberAt(fields, "yearBuilt")
    ensures NumberAt(fields, "bedrooms") && NumberAt(fields, "bathrooms")
    ensures TextAt(fields, "propertyType") && TextAt(fields, "neighborhood")
    ensures "garage" in fields ==> fields["garage"].JNum?
    ensures "hasPool" in fields ==> fields["hasPool"].JBool?
    ensures "hasFireplace" in fields ==> fields["hasFireplace"].JBool?
    ensures "hasHardwoodFloors" in fields ==> fields["hasHardwoodFloors"].JBool?
    ensures "recentlyUpdated" in fields ==> fields["recentlyUpdated"].JBool?
  {
    var cols := PropertyColumns;
    assert Conforms(fields, cols[0]) && Conforms(fields, cols[1]) && Conforms(fields, cols[2]);
    assert Conforms(fields, cols[3]) && Conforms(fields, cols[4]) && Conforms(fields, cols[5]);
    assert Conforms(fields, cols[6]) && Conforms(fields, cols[7]) && Conforms(fields, cols[8]);
    assert Conforms(fields, cols[9]) && Conforms(fields, cols[10]);
  }

  /** The value read from conforming fields. */
  function ReadInsertProperty(fields: map<string, Json>): (v: InsertProperty)
    requires AllConform(fields, PropertyColumns)
    ensures ReadsBack(fields, v)
  {
    PropertyShape(fields);
    InsertProperty(
      fields["squareFootage"].n,
      fields["yearBuilt"].n,
      fields["bedrooms"].n,
      fields["bathrooms"].n,
      OptionalNumber(fields, "garage"),
      fields["propertyType"].s,
      fields["neighborhood"].s,
      OptionalBool(fields, "hasPool"),
      OptionalBool(fields, "hasFireplace"),
      OptionalBool(fields, "hasHardwoodFloors"),
      OptionalBool(fields, "recentlyUpdated"))
  }

  /** `insertPropertySchema.parse`: the body is accepted exactly when every
      column conforms, a rejection names at least one issue, and an accepted
      value holds what the body holds under each column key. */
  function ParseInsertProperty(body: Body): (r: Result<InsertProperty, seq<Issue>>)
    ensures r.Ok? <==> Accepts(body, PropertyColumns)
    ensures r.Err? ==> r.error != []
    ensures r.Ok? ==> ReadsBack(body.fields, r.value)
  {
    match body
    case NotObject => Err([Issue("", NotAnObject)])
    case Object(fields) =>
      var issues := Issues(fields, PropertyColumns);
      if issues != [] then Err(issues) else Ok(ReadInsertProperty(fields))
  }

  /** An insert value serialised the way `JSON.stringify` sends it: one key
      per supplied field, none for an omitted one. */
  function InsertPropertyFields(v: InsertProperty): (fields: map<string, Json>)
    ensures ReadsBack(fields, v)
  {
    PropertyColumnNamesDistinct();
    var cols := PropertyColumns;
    map k | 0 <= k < |cols| && ColumnValue(v, k).Some? :: cols[k].name := ColumnValue(v, k).value
  }

  /** Two values that read back from the same fields are equal. */
  lemma ReadsBackUnique(fields: map<string, Json>, v: InsertProperty, w: InsertProperty)
    requires ReadsBack(fields, v) && ReadsBack(fields, w)
    ensures v == w
  {
    var cols := PropertyColumns;
    assert ColumnValue(v, 0) == ColumnValue(w, 0);
    assert ColumnValue(v, 1) == ColumnValue(w, 1);
    assert ColumnValue(v, 2) == ColumnValue(w, 2);
    assert ColumnValue(v, 3) == ColumnValue(w, 3);
    assert ColumnValue(v, 4) == ColumnValue(w, 4);
    assert ColumnValue(v, 5) == ColumnValue(w, 5);
    assert ColumnValue(v, 6) == ColumnValue(w, 6);
    assert ColumnValue(v, 7) == ColumnValue(w, 7);
    assert ColumnValue(v, 8) == ColumnValue(w, 8);
    assert ColumnValue(v, 9) == ColumnValue(w, 9);
    assert ColumnValue(v, 10) == ColumnValue(w, 10);
    assert v.garage == w.garage by { assert NumberJson(v.garage) == NumberJson(w.garage); }
    assert v.hasPool == w.hasPool by { assert BoolJson(v.hasPool) == BoolJson(w.hasPool); }
    assert v.hasFireplace == w.hasFireplace by { assert BoolJson(v.hasFireplace) == BoolJson(w.hasFireplace); }
    assert v.hasHardwoodFloors == w.hasHardwoodFloors by {
      assert BoolJson(v.hasHardwoodFloors) == BoolJson(w.hasHardwoodFloors);
    }
    assert v.recentlyUpdated == w.recentlyUpdated by {
      assert BoolJson(v.recentlyUpdated) == BoolJson(w.recentlyUpdated);
    }
  }

  /** Fields that read back as some value conform to every property column. */
  lemma ReadsBackConforms(fields: map<string, Json>, v: InsertProperty)
    requires ReadsBack(fields, v)
    ensures AllConform(fields, PropertyColumns)
  {
    var cols := PropertyColumns;
    forall k | 0 <= k < |cols| ensures Conforms(fields, cols[k]) {
      assert Lookup(fields, cols[k].name) == ColumnValue(v, k);
    }
  }

  /** Round trip: parsing a serialised insert value gives the value back. */
  lemma ParseInsertPropertyRoundTrip(v: InsertProperty)
    ensures ParseInsertProperty(Object(InsertPropertyFields(v))) == Ok(v)
  {
    var fields := InsertPropertyFields(v);
    ReadsBackConforms(fields, v);
    var r := ParseInsertProperty(Object(fields));
    ReadsBackUnique(fields, r.value, v);
  }

  /** Only column keys matter to `Issues`. */
  lemma {:induction false} IssuesOnColumns(f1: map<string, Json>, f2: map<string, Json>, cols: seq<Column>)
    requires AgreeOn(f1, f2, cols)
    ensures Issues(f1, cols) == Issues(f2, cols)
  {
    if cols != [] {
      assert Lookup(f1, cols[0].name) == Lookup(f2, cols[0].name);
      assert ColumnIssues(f1, cols[0]) == ColumnIssues(f2, cols[0]);
      IssuesOnColumns(f1, f2, cols[1..]);
    }
  }

  /** The insert schema strips unknown keys: two bodies that agree on every
      column key parse to the same result. */
  lemma ParseInsertPropertyOnColumns(f1: map<string, Json>, f2: map<string, Json>)
    requires AgreeOn(f1, f2, PropertyColumns)
    ensures ParseInsertProperty(Object(f1)) == ParseInsertProperty(Object(f2))
  {
    IssuesOnColumns(f1, f2, PropertyColumns);
    var r1, r2 := ParseInsertProperty(Object(f1)), ParseInsertProperty(Object(f2));
    if r1.Ok? {

      ReadsBackUnique(f2, r1.value, r2.value);
    }
  }

  /** The insert schema omits `id`: an `id` in the body, whatever its value,
      is ignored, so an id can only come from the store. */
  lemma InsertPropertyIgnoresId(fields: map<string, Json>, j: Json)
    ensures ParseInsertProperty(Object(fields["id" := j])) == ParseInsertProperty(Object(fields - {"id"}))
  {
    var cols := PropertyColumns;
    assert forall k | 0 <= k < |cols| :: cols[k].name != "id";
    ParseInsertPropertyOnColumns(fields["id" := j], fields - {"id"});
  }

  /** No two property columns share a key. */
  lemma PropertyColumnNamesDistinct()
    ensures forall i, j | 0 <= i < j < |PropertyColumns| :: PropertyColumns[i].name != PropertyColumns[j].name
  {
  }

  /** A body without a required key is rejected, with an issue naming that
      key. */
  lemma MissingRequiredKeyRejected(fields: map<string, Json>, i: nat)
    requires i < |PropertyColumns| && PropertyColumns[i].presence == Required
    requires PropertyColumns[i].name !in fields
    ensures var r := ParseInsertProperty(Object(fields));
      r.Err? && Issue(PropertyColumns[i].name, Missing) in r.error
  {
    IssueIsReported(fields, PropertyColumns, PropertyColumns[i]);
  }

  /** Omitting a key that has a column default is the same, for acceptance,
      as sending that default. */
  lemma DefaultedKeyMayBeOmitted(fields: map<string, Json>, i: nat)
    requires i < |PropertyColumns| && PropertyColumns[i].presence.Defaulted?
    ensures var c := PropertyColumns[i];
      ParseInsertProperty(Object(fields - {c.name})).Ok?
        == ParseInsertProperty(Object(fields[c.name := c.presence.default])).Ok?
  {
    var cols := PropertyColumns;
    PropertyColumnNamesDistinct();
    var key := cols[i].name;
    var f1, f2 := fields - {key}, fields[key := cols[i].presence.default];
    forall k | 0 <= k < |cols| ensures Conforms(f1, cols[k]) == Conforms(f2, cols[k]) {
      if k != i {
        assert cols[k].name != key;
        assert Lookup(f1, cols[k].name) == Lookup(f2, cols[k].name);
      }
    }
  }

  /** A column that is required and absent is reported with a `Missing` issue. */
  lemma {:induction false} IssueIsReported(fields: map<string, Json>, cols: seq<Column>, c: Column)
    requires c in cols && c.name !in fields && c.presence == Required
    ensures Issue(c.name, Missing) in Issues(fields, cols)
  {
    if cols[0] != c {
      IssueIsReported(fields, cols[1..], c);
    }
  }

  // ---------------------------------------------------------------------
  // Prediction insert

  function NullishNumber(fields: map<string, Json>, name: string): Nullish<real>
    requires name in fields ==> fields[name].JNum? || fields[name] == JNull
  {
    if name !in fields then Undefined
    else if fields[name] == JNull then Null
    else Present(fields[name].n)
  }

  /** `insertPredictionSchema.parse`: the four numbers are required,
      `propertyId` may be absent, `null` or a number. */
  function ParseInsertPrediction(body: Body): (r: Result<InsertPrediction, seq<Issue>>)
    ensures r.Ok? <==> Accepts(body, PredictionColumns)
    ensures r.Err? ==> r.error != []
    ensures r.Ok? ==>
      && Lookup(body.fields, "estimatedPrice") == Some(JNum(r.value.estimatedPrice))
      && Lookup(body.fields, "confidence") == Some(JNum(r.value.confidence))
      && Lookup(body.fields, "lowerBound") == Some(JNum(r.value.lowerBound))
      && Lookup(body.fields, "upperBound") == Some(JNum(r.value.upperBound))
      && (r.value.propertyId.Undefined? <==> "propertyId" !in body.fields)
      && (r.value.propertyId.Null? <==> Lookup(body.fields, "propertyId") == Some(JNull))
      && (r.value.propertyId.Present? ==> Lookup(body.fields, "propertyId") == Some(JNum(r.value.propertyId.value)))
  {
    match body
    case NotObject => Err([Issue("", NotAnObject)])
    case Object(fields) =>
      var issues := Issues(fields, PredictionColumns);
      if issues != [] then Err(issues)
      else
        var cols := PredictionColumns;
        assert Conforms(fields, cols[0]) && Conforms(fields, cols[1]) && Conforms(fields, cols[2]);
        assert Conforms(fields, cols[3]) && Conforms(fields, cols[4]);
        Ok(InsertPrediction(
          NullishNumber(fields, "propertyId"),
          fields["estimatedPrice"].n,
          fields["confidence"].n,
          fields["lowerBound"].n,
          fields["upperBound"].n))
  }
}
