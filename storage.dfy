/** The in-memory repository: two maps from id to row and one id counter
    per table. Each create takes the next id of its own table, fills in the
    column defaults and stores the row; a lookup of an id never handed out
    yields `undefined`. Nothing is ever updated or deleted. */
module Storage {
  import opened JsValues
  import opened Schema

  /** The insert value that supplies every column of a stored row. */
  function RowInsert(p: Property): InsertProperty {
    InsertProperty(
      p.squareFootage, p.yearBuilt, p.bedrooms, p.bathrooms, Some(p.garage),
      p.propertyType, p.neighborhood,
      Some(p.hasPool), Some(p.hasFireplace), Some(p.hasHardwoodFloors), Some(p.recentlyUpdated))
  }

  /** The row `createProperty` stores under `id`: on every column it holds
      what the insert value supplied, and the column default where the insert
      value left the column out. */
  function PropertyRow(insert: InsertProperty, id: nat): (p: Property)
    ensures p.id == id
    ensures forall k | 0 <= k < |PropertyColumns| ::
      ColumnValue(RowInsert(p), k) == WithDefault(ColumnValue(insert, k), PropertyColumns[k].presence)
  {
    Property(
      id,
      insert.squareFootage,
      insert.yearBuilt,
      insert.bedrooms,
      insert.bathrooms,
      insert.garage.OrElse(0.0),
      insert.propertyType,
      insert.neighborhood,
      insert.hasPool.OrElse(false),
      insert.hasFireplace.OrElse(false),
      insert.hasHardwoodFloors.OrElse(false),
      insert.recentlyUpdated.OrElse(false))
  }

  /** The row `createPrediction` stores under `id`: `propertyId` becomes
      `null` when it was absent or `null`, the four numbers are copied. */
  function PredictionRow(insert: InsertPrediction, id: nat): (p: Prediction)
    ensures p.id == id
    ensures p.propertyId.None? <==> !insert.propertyId.Present?
    ensures insert.propertyId.Present? ==> p.propertyId == Some(insert.propertyId.value)
    ensures p.estimatedPrice == insert.estimatedPrice && p.confidence == insert.confidence
    ensures p.lowerBound == insert.lowerBound && p.upperBound == insert.upperBound
  {
    var propertyId := match insert.propertyId
      case Present(x) => Some(x)
      case _ => None;
    Prediction(id, propertyId, insert.estimatedPrice, insert.confidence, insert.lowerBound, insert.upperBound)
  }

  class MemStorage {
    var properties: map<int, Property>
    var predictions: map<int, Prediction>
    var currentPropertyId: nat
    var currentPredictionId: nat

    /** Ids are handed out densely from 1: the keys of each map are exactly
        the ids below its counter, and every row sits under its own id. */
    ghost predicate Valid()
      reads this
    {
      && currentPropertyId >= 1
      && currentPredictionId >= 1
      && (forall id :: id in properties <==> 1 <= id < currentPropertyId)
      && (forall id | id in properties :: properties[id].id == id)
      && (forall id :: id in predictions <==> 1 <= id < currentPredictionId)
      && (forall id | id in predictions :: predictions[id].id == id)
    }

    /** A fresh store: both maps empty, both counters at 1. */
    constructor ()
      ensures Valid()
      ensures properties == map[] && predictions == map[]
      ensures currentPropertyId == 1 && currentPredictionId == 1
    {
      properties := map[];
      predictions := map[];
      currentPropertyId := 1;
      currentPredictionId := 1;
    }

    /** The property stored under `id`, or `undefined` for an id not yet
        handed out; never an error. */
    method GetProperty(id: int) returns (r: Option<Property>)
      requires Valid()
      ensures r.Some? <==> 1 <= id < currentPropertyId
      ensures r.Some? ==> r.value == properties[id] && r.value.id == id
    {
      if id in properties {
        r := Some(properties[id]);
      } else {
        r := None;
      }
    }

    /** The prediction stored under `id`, or `undefined` for an id not yet
        handed out; never an error. */
    method GetPrediction(id: int) returns (r: Option<Prediction>)
      requires Valid()
      ensures r.Some? <==> 1 <= id < currentPredictionId
      ensures r.Some? ==> r.value == predictions[id] && r.value.id == id
    {
      if id in predictions {
        r := Some(predictions[id]);
      } else {
        r := None;
      }
    }

    /** Takes the next property id, stores the defaulted row under it and
        returns the row; no stored row changes and the prediction side is
        untouched. */
    method CreateProperty(insert: InsertProperty) returns (p: Property)
      requires Valid()
      modifies this
      ensures Valid()
      ensures p == PropertyRow(insert, old(currentPropertyId))
      ensures p.id !in old(properties)
      ensures currentPropertyId == old(currentPropertyId) + 1
      ensures properties == old(properties)[p.id := p]
      ensures predictions == old(predictions) && currentPredictionId == old(currentPredictionId)
    {
      var id := currentPropertyId;
      currentPropertyId := currentPropertyId + 1;
      p := PropertyRow(insert, id);
      properties := properties[id := p];
    }

    /** Takes the next prediction id, stores the row under it and returns
        it; no stored row changes and the property side is untouched. */
    method CreatePrediction(insert: InsertPrediction) returns (p: Prediction)
      requires Valid()
      modifies this
      ensures Valid()
      ensures p == PredictionRow(insert, old(currentPredictionId))
      ensures p.id !in old(predictions)
      ensures currentPredictionId == old(currentPredictionId) + 1
      ensures predictions == old(predictions)[p.id := p]
      ensures properties == old(properties) && currentPropertyId == old(currentPropertyId)
    {
      var id := currentPredictionId;
      currentPredictionId := currentPredictionId + 1;
      p := PredictionRow(insert, id);
      predictions := predictions[id := p];
    }
  }

  /** On a fresh store, two property creations get ids 1 and 2, a prediction
      created next gets id 1 from its own counter, each row is found again
      under its id, and id 3 is not found. */
  method FreshStoreIds(a: InsertProperty, b: InsertProperty, x: InsertPrediction)
    returns (first: Property, second: Property, prediction: Prediction,
             foundFirst: Option<Property>, foundPrediction: Option<Prediction>, unknown: Option<Property>)
    ensures first == PropertyRow(a, 1) && second == PropertyRow(b, 2)
    ensures prediction == PredictionRow(x, 1)
    ensures foundFirst == Some(first) && foundPrediction == Some(prediction)
    ensures unknown == None
  {
    var store := new MemStorage();
    first := store.CreateProperty(a);
    second := store.CreateProperty(b);
    prediction := store.CreatePrediction(x);
    foundFirst := store.GetProperty(1);
    foundPrediction := store.GetPrediction(1);
    unknown := store.GetProperty(3);
  }
}
