/**
  predict_and_recommend of plant_health_data.py: after the classifier's
  label, three if/elif comparisons of each feature with its healthy
  average, so a feature equal to its average gets no recommendation.
*/
module PlantHealthData {
  import opened Health

  method PredictAndRecommend(classify: Reading -> string, averages: Reading,
                             soilMoisture: real, soilTemperature: real, humidity: real)
    returns (status: string, recs: seq<Suggestion>)
    ensures status == classify(Reading(soilMoisture, soilTemperature, humidity))
    ensures status == Healthy ==> recs == []
    ensures status != Healthy ==> recs == CompareAll(FeatureOrder, Reading(soilMoisture, soilTemperature, humidity), averages)
    ensures |recs| <= |FeatureOrder|
    ensures forall k :: 0 <= k < |recs| ==> recs[k].magnitude > 0.0
  {
    var input := Reading(soilMoisture, soilTemperature, humidity);
    status := classify(input);
    recs := [];
    if status != Healthy {
      if soilMoisture < averages.soilMoisture {
        recs := recs + [Suggestion(SoilMoisture, Increase, averages.soilMoisture - soilMoisture)];
      } else if soilMoisture > averages.soilMoisture {
        recs := recs + [Suggestion(SoilMoisture, Decrease, soilMoisture - averages.soilMoisture)];
      }
      assert recs == Compare(SoilMoisture, input, averages);

      if soilTemperature < averages.soilTemperature {
        recs := recs + [Suggestion(SoilTemperature, Increase, averages.soilTemperature - soilTemperature)];
      } else if soilTemperature > averages.soilTemperature {
        recs := recs + [Suggestion(SoilTemperature, Decrease, soilTemperature - averages.soilTemperature)];
      }
      assert recs == Compare(SoilMoisture, input, averages) + Compare(SoilTemperature, input, averages);

      if humidity < averages.humidity {
        recs := recs + [Suggestion(Humidity, Increase, averages.humidity - humidity)];
      } else if humidity > averages.humidity {
        recs := recs + [Suggestion(Humidity, Decrease, humidity - averages.humidity)];
      }

      CompareAllFeatures(input, averages);
      CompareAllBounds(FeatureOrder, input, averages);
    }
  }
}
