# HousePricePro prediction pipeline in Dafny

HousePricePro estimates the price of a house from its size, age, room counts,
type and amenities. This project models the server-side part of that
pipeline, from the request body the form posts to the rows the in-memory
store keeps:

- **Schema** (`schema.dfy`, from `shared/schema.ts`). These are the property,
  prediction, request, response and metrics shapes, and the insert schemas
  derived from the two tables. A column that is not null and has no default
  is required. A column with a default may be omitted. `propertyId` may be
  `null`. `id` is not part of either insert schema, so a body's `id` key is
  stripped like any other unknown key. Validation yields a list of issues,
  one per failing column, and the body is accepted exactly when the list is
  empty.
- **Store** (`storage.dfy`, from `server/storage.ts`). `MemStorage` is a class
  with two maps and two id counters that start at 1. Each create
  post-increments its own counter, fills in the column defaults (`garage` 0,
  amenity flags false, `propertyId` null) and stores the row under the new
  id. A lookup of an id never handed out gives `undefined`.
- **Fallback estimator** (`fallback.dfy`, from `generateFallbackPrediction` in
  `server/routes.ts`). It computes a linear price from size, age and rooms and
  scales it by a property-type multiplier and a random factor in [0.9, 1.1).
  The result is floored at ₹5,00,000 and given a ±15% band. Money values are
  rounded to whole rupees, the random confidence is rounded to hundredths, and
  the feature ranking is fixed.
- **Handler** (`routes.dfy`, from the `/api/predict` handler). The handler
  validates the raw body against the insert schema. It then asks the pricing
  engine and switches to the fallback when the engine fails. Finally it stores
  one property and then one prediction linked to it, and returns the response.
  The model also includes the metrics endpoint, which passes the engine's
  metrics through or answers with a server error.
- **Form** (`property_form.dfy`, from `client/src/components/property-form.tsx`).
  The form schema adds ranges on four fields to the insert schema.
  `onSubmit` builds a complete request by defaulting the optional fields.
- **Pipeline** (`pipeline.dfy`). These are the lemmas across the parts above.
  They cover what a submitted form turns into on the server, and the fallback
  for the form's default values.

The pricing engine is an external process. It appears only as its outcome:
either a response or a failure. The two `Math.random()` draws are parameters
in [0, 1). JavaScript numbers are idealised as exact reals. `Math.round(x)` is
`⌊x + 1/2⌋`.

Behaviour kept as the code has it:

- The server checks presence and kind only. The ranges (square footage
  500–10000, year 1900–2024, one to ten bedrooms and bathrooms) exist only in
  the client form. A body with a square footage of 100 is answered and stored
  (`Pipeline.RangesNotCheckedByServer`).
- The engine's response is returned and stored verbatim. No rounding is
  applied to it, and nothing checks that its bounds are ordered
  (`Routes.EngineResponseNotChecked`).
- The multiplier table is keyed `Single Family`, `Condo`, `Townhouse` and
  `Multi-Family`. The form sends `single-family`, `condo`, `townhouse` and
  `multi-family`, so every form submission is scaled by 1.0
  (`Pipeline.FormTypesFallThrough`).
- The engine and the fallback receive the raw body, while the store receives
  the validated value. The raw body is validated first, so the fallback's five
  fields are the validated ones (`Routes.RawPricingData`).

## Model

| member | source | states |
|---|---|---|
| Schema.ColumnIssues | HousePricePro/shared/schema.ts:7-17 | A column reports no issue exactly when the body's value under its key conforms. A required key must be present, a present value must have the column's kind and lie in its range, and `null` is allowed only for a nullable column. Every issue names that column. |
| Schema.Issues | HousePricePro/shared/schema.ts:29-31 | The issue list is empty exactly when every column conforms. Each reported issue names a column that does not conform. |
| Schema.PropertyShape | HousePricePro/shared/schema.ts:7-17 | A body accepted by the property insert schema holds numbers under the four required numeric keys and strings under `propertyType` and `neighborhood`. It holds a number under `garage` and booleans under the amenity keys whenever those keys are present. |
| Schema.ReadInsertProperty | HousePricePro/shared/schema.ts:29-31 | The value read from an accepted body holds, under every column key, exactly what the body holds. An omitted optional key stays omitted. |
| Schema.ParseInsertProperty | HousePricePro/shared/schema.ts:29-31 | `insertPropertySchema.parse` succeeds exactly when the body is an object whose columns all conform. A rejection carries at least one issue, and an accepted value reads back from the body. |
| Schema.InsertPropertyFields | HousePricePro/shared/schema.ts:38 | Serialising an insert value gives a body that holds exactly the supplied fields under their keys and nothing under an omitted one. |
| Schema.ReadsBackUnique | HousePricePro/shared/schema.ts:38 | At most one insert value reads back from a given body. |
| Schema.ReadsBackConforms | HousePricePro/shared/schema.ts:7-17 | A body from which an insert value reads back passes every property column. |
| Schema.ParseInsertPropertyRoundTrip | HousePricePro/shared/schema.ts:29-31 | Parsing the serialised form of any insert value gives that value back. |
| Schema.IssuesOnColumns | HousePricePro/shared/schema.ts:29-31 | Two bodies that agree under every column key get the same issues. Keys that are not columns never matter. |
| Schema.ParseInsertPropertyOnColumns | HousePricePro/shared/schema.ts:29-31 | Two bodies that agree under every property column key parse to the same result. |
| Schema.InsertPropertyIgnoresId | HousePricePro/shared/schema.ts:29-31 | The schema omits `id`, so a body with any `id` parses exactly like the same body without it. The store alone assigns ids. |
| Schema.PropertyColumnNamesDistinct | HousePricePro/shared/schema.ts:7-17 | The eleven property column keys are pairwise distinct. |
| Schema.MissingRequiredKeyRejected | HousePricePro/shared/schema.ts:7-13 | A body that lacks a not-null column without a default (`squareFootage`, `yearBuilt`, `bedrooms`, `bathrooms`, `propertyType`, `neighborhood`) is rejected with a missing-value issue on that key. |
| Schema.DefaultedKeyMayBeOmitted | HousePricePro/shared/schema.ts:11-17 | Omitting `garage` or an amenity flag is accepted exactly when supplying its default instead would be. |
| Schema.IssueIsReported | HousePricePro/shared/schema.ts:29-31 | A required column absent from the body always appears among the issues. |
| Schema.ParseInsertPrediction | HousePricePro/shared/schema.ts:20-35 | `insertPredictionSchema.parse` succeeds exactly when the four numbers are present and `propertyId` is absent, `null` or a number. The accepted value holds those numbers and keeps absent, `null` and present apart. |
| Storage.PropertyRow | HousePricePro/server/storage.ts:29-37 | The stored property carries the new id. On every column it holds the supplied value, or the column default (`garage` 0, flags false) where the insert value left the column out. |
| Storage.PredictionRow | HousePricePro/server/storage.ts:44-48 | The stored prediction carries the new id. Its `propertyId` is null exactly when none was supplied or `null` was supplied, and otherwise equals the supplied value. The four numbers are copied. |
| Storage.MemStorage.constructor | HousePricePro/server/storage.ts:16-21 | A fresh store has both maps empty and both counters at 1. |
| Storage.MemStorage.GetProperty | HousePricePro/server/storage.ts:23-25 | A lookup finds a row exactly for the ids handed out so far, and that row carries the looked-up id. Any other id gives `undefined`, never an error, and the state is unchanged. |
| Storage.MemStorage.GetPrediction | HousePricePro/server/storage.ts:53-55 | The same as `GetProperty`, for predictions. |
| Storage.MemStorage.CreateProperty | HousePricePro/server/storage.ts:27-40 | A create keeps the store invariant: keys are exactly the ids below the counter, and each row sits under its own id. It stores the defaulted row under the old counter, an id not used before, and bumps that counter by one. Earlier rows stay as they were, and the prediction side is untouched. |
| Storage.MemStorage.CreatePrediction | HousePricePro/server/storage.ts:42-51 | The same as `CreateProperty`, for predictions, with their own counter. The property side is untouched. |
| Storage.FreshStoreIds | HousePricePro/server/storage.ts:27-51 | On a fresh store, two property creates get ids 1 and 2. A prediction created next gets id 1 from its own counter. Both are found again, and an id not handed out gives `undefined`. |
| Fallback.Round | HousePricePro/server/routes.ts:205-208 | `Math.round` gives the integer nearest to its argument, rounding halves up. |
| Fallback.RoundMonotone | HousePricePro/server/routes.ts:205-208 | Rounding preserves order. |
| Fallback.TypeMultiplier | HousePricePro/server/routes.ts:182-188 | The type multiplier is an exact-key lookup: the table's value for one of its four keys, 1.0 for any other string, and always one of 0.9, 1.0, 1.1 and 1.2. |
| Fallback.RandomFactor | HousePricePro/server/routes.ts:194 | A random draw in [0, 1) gives a factor in [0.9, 1.1). |
| Fallback.AtLeastMinimum | HousePricePro/server/routes.ts:198 | The floored price is at least ₹5,00,000 and at least the price itself, and it is one of the two. |
| Fallback.FallbackImportance | HousePricePro/server/routes.ts:209-215 | The ranking has five entries in strictly descending importance, with square footage first. |
| Fallback.GenerateFallback | HousePricePro/server/routes.ts:171-217 | The price is at least ₹5,00,000, and the bounds are positive and ordered around the price. The lower and upper bounds are 85% and 115% of the price, within rounding. All three are whole rupees. The confidence lies in [0.75, 0.95] and is a whole number of hundredths. The ranking is always the fixed one. |
| Fallback.FallbackMonotoneInYearBuilt | HousePricePro/server/routes.ts:173-198 | With both draws fixed, a newer property is never valued lower. |
| Fallback.FallbackMonotoneInSquareFootage | HousePricePro/server/routes.ts:173-198 | With both draws fixed, a larger property is never valued lower. |
| Fallback.PriceMonotone | HousePricePro/server/routes.ts:191-198 | For the same type and draw, a larger unscaled sum never gives a lower rounded price. |
| Fallback.FlooredPriceWithinJitter | HousePricePro/server/routes.ts:191-198 | When 90% of the estimate clears the floor, the floored price lies within the ±10% random factor of the deterministic estimate. |
| Fallback.FallbackWithinJitter | HousePricePro/server/routes.ts:191-205 | Under the same condition, the reported price is within ±10% of the deterministic estimate, up to rounding. |
| Routes.RawPricingData | HousePricePro/server/routes.ts:13-26 | The fields the fallback reads from the raw body are the validated value's fields. |
| Routes.Respond | HousePricePro/server/routes.ts:11-46 | The reply is a 400 with the validation issues exactly when the body fails the insert schema. Otherwise it is the engine's response verbatim, or the fallback for the validated fields when the engine failed. |
| Routes.Predict | HousePricePro/server/routes.ts:11-46 | The handler replies as `Respond` does and keeps the store invariant. On a rejected body it writes nothing. On success it adds exactly one property, the defaulted validated value under the old property counter. It then adds exactly one prediction under the old prediction counter, linked to that property id and holding the reply's four numbers. |
| Routes.EngineFailureFallsBack | HousePricePro/server/routes.ts:20-27 | An engine failure never surfaces as an error. A valid body still gets a floored, ordered, ranked prediction. |
| Routes.EngineResponseNotChecked | HousePricePro/server/routes.ts:22-39 | An engine response with out-of-order bounds and a price below the floor is still sent unchanged. |
| Routes.ModelMetricsEndpoint | HousePricePro/server/routes.ts:49-58 | The endpoint returns the engine's metrics verbatim. It answers with the fixed 500 message exactly when the metrics process exited with a failure or printed unparsable output, with no fallback. |
| PropertyForm.FormColumns | HousePricePro/client/src/components/property-form.tsx:17-22 | The form schema has the insert schema's columns, with the ranges [500, 10000], [1900, 2024], [1, 10] and [1, 10] added on the four size fields. |
| PropertyForm.FormConformsToInsert | HousePricePro/client/src/components/property-form.tsx:17 | A body the form schema accepts passes every insert-schema column. |
| PropertyForm.ParseForm | HousePricePro/client/src/components/property-form.tsx:17-22 | The form resolver accepts exactly when every extended column conforms. An accepted form gives the value the insert schema gives. |
| PropertyForm.FormAcceptsExactly | HousePricePro/client/src/components/property-form.tsx:17-22 | The form accepts a body exactly when the insert schema accepts it and the value lies in the four ranges. |
| PropertyForm.BuildRequest | HousePricePro/client/src/components/property-form.tsx:66-82 | The built request keeps every supplied field and gives each omitted optional field the insert schema's column default. |
| PropertyForm.EncodeRequest | HousePricePro/client/src/components/property-form.tsx:47 | The posted body holds every field of the request under its key. |
| Pipeline.FormTypesFallThrough | HousePricePro/client/src/components/property-form.tsx:233-236 | None of the four values the type select sends is a multiplier key, so each gets 1.0. |
| Pipeline.SubmittedFormStoredAsEntered | HousePricePro/client/src/components/property-form.tsx:66-82 | The server accepts every submitted form. The row stored for it equals the row stored for the form values themselves, so the client defaults agree with the column defaults. |
| Pipeline.RangesNotCheckedByServer | HousePricePro/server/routes.ts:16 | A submission with a square footage of 100 is refused by the form but answered with a prediction by the handler, for any engine outcome. |
| Pipeline.DefaultPricingFallback | HousePricePro/server/routes.ts:171-198 | For the default form's fields, the fallback price lies within ±10% of ₹46,00,500, up to rounding. |
| Pipeline.DefaultFormFallback | HousePricePro/client/src/components/property-form.tsx:30-42 | Submitting the default form while the engine fails gives a price within ±10% of ₹46,00,500, above the floor. The bounds are ordered and the ranking has five features. |

## Left out

- The engine process is not modelled, only its outcome. This covers spawning it, Python command discovery, stdin/stdout handling, exit codes and output parsing (`server/routes.ts:65-168`). The same holds for the metrics process and for the engine itself (`server/ml_model.py`). That code is process I/O and floating-point regression, and the handler sees only success or failure.
- Routes.Predict: the engine call is taken to settle. The handler sets no time-out, so an engine process that never exits leaves the request unanswered and nothing is stored; `EngineOutcome` has no value for that case.
- Routes.Predict: the engine's output is taken to be a well-formed response. The code returns and stores whatever JSON the engine printed, with any fields it has or lacks.
- Routes.ModelMetricsEndpoint: `MetricsFailure` stands for a metrics process that exits with a non-zero status or prints unparsable output. The metrics call registers no `'error'` listener on the child process, so a process that cannot be started raises an unhandled `'error'` event instead of the 500 reply; that case is not modelled.
- Express wiring, status codes beyond the reply variants, the text of error messages, console logging and `res.json` serialisation are left out. The ZodError message is represented by its list of issues. The order and wording of zod's issues are not modelled.
- Schema.ParseInsertProperty: integer columns are checked as numbers only. Whether the schema generator also demands integers depends on its version, which is not part of this model.
- Schema.ParseInsertProperty: nested arrays and objects are opaque values, and all of them fail every column's kind check alike.
- Fallback.TypeMultiplier: a property type naming an inherited object member, such as `constructor` or `toString`, makes the JavaScript lookup return that member, so the price becomes NaN. The model gives 1.0 instead, because reals have no NaN.
- Fallback.GenerateFallback: IEEE-754 doubles are idealised as exact reals. Overflow, NaN from non-finite inputs and rounding error in the intermediate products are not captured.
- Storage.MemStorage.GetProperty: ids are integers. A lookup with a fractional id, which also gives `undefined` in JavaScript, is not modelled.
- Concurrency is left out. Each request runs its two store calls in sequence, and the event loop never interleaves the counter increments, so the model treats a request as one sequential step.
- The React rendering, toasts, query caching and currency formatting of the client are left out, as are the other pages and the startup script. They are presentation and process launching.
