/** The fallback estimator the server uses when the pricing engine fails: a
    linear price from size, age and room counts, scaled by a property-type
    multiplier and a random factor, floored at five lakh, with a ±15% band,
    a random confidence and a fixed feature ranking.

    JavaScript doubles are idealised as exact reals; the two `Math.random()`
    draws are parameters in [0, 1). */
module Fallback {
  import opened Schema

  /** The fields of a prediction request the estimator reads. */
  datatype PricingData = PricingData(
    squareFootage: real,
    yearBuilt: real,
    bedrooms: real,
    bathrooms: real,
    propertyType: string)

  const PricePerSquareFoot: real := 2000.0
  const ReferenceYear: real := 2024.0
  const PerYearAdjustment: real := -500.0
  const BedroomWeight: real := 50000.0
  const BathroomWeight: real := 30000.0
  const MinimumPrice: real := 500000.0
  const MarginFraction: real := 0.15

  /** What `Math.random()` returns. */
  predicate IsRandomDraw(x: real) {
    0.0 <= x < 1.0
  }

  predicate IsWhole(x: real) {
    x == x.Floor as real
  }

  /** `Math.round`: the nearest integer, halves rounded up. */
  function Round(x: real): (r: int)
    ensures r as real - 0.5 <= x < r as real + 0.5
  {
    (x + 0.5).Floor
  }

  lemma RoundMonotone(x: real, y: real)
    requires x <= y
    ensures Round(x) <= Round(y)
  {
  }

  /** The multiplier table, keyed by the display names of the four types. */
  const TypeMultipliers: map<string, real> :=
    map["Single Family" := 1.2, "Condo" := 0.9, "Townhouse" := 1.0, "Multi-Family" := 1.1]

  /** `typeMultipliers[type] || 1.0`: an exact-key lookup, 1.0 for any other
      string (no entry is falsy, so a hit is always kept). */
  function TypeMultiplier(propertyType: string): (m: real)
    ensures propertyType in TypeMultipliers ==> m == TypeMultipliers[propertyType]
    ensures propertyType !in TypeMultipliers ==> m == 1.0
    ensures m in {0.9, 1.0, 1.1, 1.2}
  {
    if propertyType in TypeMultipliers then TypeMultipliers[propertyType] else 1.0
  }

  /** Size price plus the age and room adjustments, before any scaling. */
  function LinearSum(d: PricingData): real {
    var basePrice := d.squareFootage * PricePerSquareFoot;
    var ageAdjustment := (ReferenceYear - d.yearBuilt) * PerYearAdjustment;
    var roomAdjustment := d.bedrooms * BedroomWeight + d.bathrooms * BathroomWeight;
    basePrice + ageAdjustment + roomAdjustment
  }

  /** The price before the random factor and the floor. */
  function BaseEstimate(d: PricingData): real {
    LinearSum(d) * TypeMultiplier(d.propertyType)
  }

  /** The "±10%" factor drawn from one `Math.random()` value. */
  function RandomFactor(jitterDraw: real): (f: real)
    requires IsRandomDraw(jitterDraw)
    ensures 0.9 <= f < 1.1
  {
    0.9 + jitterDraw * 0.2
  }

  /** `Math.max(price, 500000)`. */
  function AtLeastMinimum(price: real): (r: real)
    ensures r >= MinimumPrice && r >= price
    ensures r == price || r == MinimumPrice
  {
    if price > MinimumPrice then price else MinimumPrice
  }

  lemma AtLeastMinimumMonotone(x: real, y: real)
    requires x <= y
    ensures AtLeastMinimum(x) <= AtLeastMinimum(y)
  {
  }

  lemma AtLeastMinimumBetween(low: real, price: real, high: real)
    requires MinimumPrice <= low <= price < high
    ensures low <= AtLeastMinimum(price) < high
  {
  }

  /** The estimate after the random factor and the floor. */
  function FlooredPrice(d: PricingData, jitterDraw: real): real
    requires IsRandomDraw(jitterDraw)
  {
    AtLeastMinimum(BaseEstimate(d) * RandomFactor(jitterDraw))
  }

  /** The fixed ranking the fallback reports, the same for every input. */
  function FallbackImportance(): (r: seq<FeatureWeight>)
    ensures |r| == 5
    ensures forall i, j | 0 <= i < j < |r| :: r[i].importance > r[j].importance
    ensures r[0].feature == "Square Footage"
  {
    [
      FeatureWeight("Square Footage", 0.45),
      FeatureWeight("Property Type", 0.25),
      FeatureWeight("Year Built", 0.15),
      FeatureWeight("Bedrooms", 0.10),
      FeatureWeight("Bathrooms", 0.05)
    ]
  }

  /** `generateFallbackPrediction`: the rounded price is at least the floor
      and lies within the rounded ±15% band, the confidence is a whole number
      of hundredths in [0.75, 0.95], and the ranking is the fixed one. */
  function GenerateFallback(d: PricingData, jitterDraw: real, confidenceDraw: real): (r: PredictionResponse)
    requires IsRandomDraw(jitterDraw) && IsRandomDraw(confidenceDraw)
    ensures r.estimatedPrice >= MinimumPrice
    ensures 0.0 < r.lowerBound <= r.estimatedPrice <= r.upperBound
    ensures r.lowerBound - 1.5 <= 0.85 * r.estimatedPrice <= r.lowerBound + 1.5
    ensures r.upperBound - 1.5 <= 1.15 * r.estimatedPrice <= r.upperBound + 1.5
    ensures IsWhole(r.estimatedPrice) && IsWhole(r.lowerBound) && IsWhole(r.upperBound)
    ensures 0.75 <= r.confidence <= 0.95
    ensures IsWhole(r.confidence * 100.0)
    ensures r.featureImportance == FallbackImportance()
  {
    var price := FlooredPrice(d, jitterDraw);
    var confidence := 0.75 + confidenceDraw * 0.2;
    var margin := price * MarginFraction;
    RoundMonotone(price - margin, price);
    RoundMonotone(price, price + margin);
    RoundMonotone(MinimumPrice, price);
    RoundMonotone(MinimumPrice * 0.85, price - margin);
    var roundedConfidence := Round(confidence * 100.0);
    PredictionResponse(
      Round(price) as real,
      roundedConfidence as real / 100.0,
      Round(price - margin) as real,
      Round(price + margin) as real,
      FallbackImportance())
  }

  lemma MultiplyMonotone(a: real, b: real, m: real)
    requires a <= b && m >= 0.0
    ensures a * m <= b * m && m * a <= m * b
  {
  }

  /** Scaling a non-negative amount by a factor of [0.9, 1.1). */
  lemma ScaledBetween(base: real, factor: real)
    requires base >= 0.0 && 0.9 <= factor < 1.1
    ensures base * 0.9 <= base * factor
    ensures base > 0.0 ==> base * factor < base * 1.1
  {
    var low, high := factor - 0.9, 1.1 - factor;
    assert base * factor - base * 0.9 == base * low;
    assert base * 1.1 - base * factor == base * high;
  }

  /** With both draws fixed, a newer property is never valued lower. */
  lemma FallbackMonotoneInYearBuilt(d: PricingData, newerYear: real, jitterDraw: real, confidenceDraw: real)
    requires d.yearBuilt <= newerYear
    requires IsRandomDraw(jitterDraw) && IsRandomDraw(confidenceDraw)
    ensures GenerateFallback(d, jitterDraw, confidenceDraw).estimatedPrice
         <= GenerateFallback(d.(yearBuilt := newerYear), jitterDraw, confidenceDraw).estimatedPrice
  {
    var newer := d.(yearBuilt := newerYear);
    PriceMonotone(d, newer, jitterDraw);
  }

  /** With both draws fixed, a larger property is never valued lower. */
  lemma FallbackMonotoneInSquareFootage(d: PricingData, largerArea: real, jitterDraw: real, confidenceDraw: real)
    requires d.squareFootage <= largerArea
    requires IsRandomDraw(jitterDraw) && IsRandomDraw(confidenceDraw)
    ensures GenerateFallback(d, jitterDraw, confidenceDraw).estimatedPrice
         <= GenerateFallback(d.(squareFootage := largerArea), jitterDraw, confidenceDraw).estimatedPrice
  {
    var larger := d.(squareFootage := largerArea);
    PriceMonotone(d, larger, jitterDraw);
  }

  /** Above the floor, the price stays within the ±10% random factor of
      the deterministic estimate. */
  lemma FlooredPriceWithinJitter(d: PricingData, jitterDraw: real)
    requires IsRandomDraw(jitterDraw)
    requires BaseEstimate(d) * 0.9 >= MinimumPrice
    ensures BaseEstimate(d) * 0.9 <= FlooredPrice(d, jitterDraw) < BaseEstimate(d) * 1.1
  {
    ScaledWithin(BaseEstimate(d), RandomFactor(jitterDraw));
  }

  lemma ScaledWithin(base: real, factor: real)
    requires base * 0.9 >= MinimumPrice && 0.9 <= factor < 1.1
    ensures base * 0.9 <= AtLeastMinimum(base * factor) < base * 1.1
  {
    ScaledBetween(base, factor);
    AtLeastMinimumBetween(base * 0.9, base * factor, base * 1.1);
  }

  /** Above the floor, the reported price is the deterministic estimate
      scaled by at most ±10%, up to rounding. */
  lemma FallbackWithinJitter(d: PricingData, jitterDraw: real, confidenceDraw: real)
    requires IsRandomDraw(jitterDraw) && IsRandomDraw(confidenceDraw)
    requires BaseEstimate(d) * 0.9 >= MinimumPrice
    ensures BaseEstimate(d) * 0.9 - 0.5 <= GenerateFallback(d, jitterDraw, confidenceDraw).estimatedPrice
    ensures GenerateFallback(d, jitterDraw, confidenceDraw).estimatedPrice < BaseEstimate(d) * 1.1 + 0.5
  {
    FlooredPriceWithinJitter(d, jitterDraw);
    var price := FlooredPrice(d, jitterDraw);
    assert GenerateFallback(d, jitterDraw, confidenceDraw).estimatedPrice == Round(price) as real;
  }

  /** Two inputs of the same type whose pre-multiplier sums are ordered get
      ordered rounded prices. */
  lemma PriceMonotone(d: PricingData, e: PricingData, jitterDraw: real)
    requires d.propertyType == e.propertyType
    requires IsRandomDraw(jitterDraw)
    requires LinearSum(d) <= LinearSum(e)
    ensures Round(FlooredPrice(d, jitterDraw)) <= Round(FlooredPrice(e, jitterDraw))
  {
    var factor := RandomFactor(jitterDraw);
    MultiplyMonotone(LinearSum(d), LinearSum(e), TypeMultiplier(d.propertyType));
    assert BaseEstimate(d) <= BaseEstimate(e);
    MultiplyMonotone(BaseEstimate(d), BaseEstimate(e), factor);
    AtLeastMinimumMonotone(BaseEstimate(d) * factor, BaseEstimate(e) * factor);
    RoundMonotone(FlooredPrice(d, jitterDraw), FlooredPrice(e, jitterDraw));
  }
}
