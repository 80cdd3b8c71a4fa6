/**
  plant_health_stauts_prediction.py: the healthy class is identified by
  its encoded index (the position of "Healthy" among the label encoder's
  classes, or 1 when the labels were numeric), and predict_plant_health
  reports one adjustment per feature, by the difference rule, unless the
  predicted index is the healthy one.
*/
module HealthStatusPrediction {
  import opened Wrappers
  import opened Health

  /** The label returned: a class name through the encoder, or the raw numeric prediction. */
  datatype PredictedLabel = Named(name: string) | Numeric(code: int)

  /** `np.where(...)[0][0]` on an empty match raises IndexError. */
  datatype LookupError = IndexError

  /** The first position of `name` in `classes`, if any. */
  function FirstIndex(classes: seq<string>, name: string): (r: Option<nat>)
    ensures r.None? <==> name !in classes
    ensures r.Some? ==> r.value < |classes| && classes[r.value] == name && name !in classes[..r.value]
  {
    if classes == [] then None
    else if classes[0] == name then Some(0)
    else match FirstIndex(classes[1..], name)
      case None => None
      case Some(k) =>
        assert classes[1..][..k] == classes[1..k + 1];
        Some(k + 1)
  }

  /**
    healthy_label: with an encoder (its classes), the index of "Healthy",
    raising IndexError when no class is "Healthy"; without one, 1.
  */
  function HealthyLabel(encoder: Option<seq<string>>): (r: Result<int, LookupError>)
    ensures encoder.None? ==> r == Ok(1)
    ensures encoder.Some? ==> (r.Ok? <==> Healthy in encoder.value)
    ensures encoder.Some? && r.Ok? ==> 0 <= r.value < |encoder.value| && encoder.value[r.value] == Healthy
  {
    match encoder
    case None => Ok(1)
    case Some(classes) =>
      match FirstIndex(classes, Healthy)
      case None => Err(IndexError)
      case Some(k) => Ok(k)
  }

  /**
    With an encoder whose classes are distinct (as a label encoder's are),
    testing the encoded index against healthy_label is testing the decoded
    label against "Healthy".
  */
  lemma IndexTestIsLabelTest(classes: seq<string>, pred: int)
    requires forall i, j :: 0 <= i < j < |classes| ==> classes[i] != classes[j]
    requires 0 <= pred < |classes|
    requires Healthy in classes
    ensures HealthyLabel(Some(classes)).Ok?
    ensures pred == HealthyLabel(Some(classes)).value <==> classes[pred] == Healthy
  {
  }

  /**
    predict_plant_health: the returned label, and the adjustments the
    function reports. `predict` is the trained classifier; with an
    encoder it yields an index of the encoder's classes.
  */
  method PredictPlantHealth(encoder: Option<seq<string>>, healthyLabel: int, idealParams: Reading,
                            predict: Reading -> int, soilMoisture: real, soilTemperature: real, humidity: real)
    returns (predLabel: PredictedLabel, adjustments: seq<Suggestion>)
    requires encoder.Some? ==> 0 <= predict(Reading(soilMoisture, soilTemperature, humidity)) < |encoder.value|
    ensures var pred := predict(Reading(soilMoisture, soilTemperature, humidity));
      && predLabel == (if encoder.Some? then Named(encoder.value[pred]) else Numeric(pred))
      && (pred == healthyLabel ==> adjustments == [])
      && (pred != healthyLabel ==>
            && |adjustments| == |FeatureOrder|
            && forall i :: 0 <= i < |adjustments| ==>
                 adjustments[i] == Advise(FeatureOrder[i], Reading(soilMoisture, soilTemperature, humidity), idealParams))
  {
    var inp := Reading(soilMoisture, soilTemperature, humidity);
    var pred := predict(inp);
    if encoder.Some? {
      predLabel := Named(encoder.value[pred]);
    } else {
      predLabel := Numeric(pred);
    }
    adjustments := [];
    if pred != healthyLabel {
      adjustments := DiffSuggestions(inp, idealParams);
    }
  }
}
