/**
  The vocabulary shared by the plant-health variants: the three sensor
  features, a reading (or the healthy-class averages) as one value per
  feature, adjustment suggestions, and the two rules the variants use to
  turn a reading and the healthy averages into suggestions.

  - The difference rule (backend/app.py, backend/server.py and
    plant_health_stauts_prediction.py): one suggestion per feature,
    Increase exactly when healthy - current > 0, magnitude |healthy - current|.
  - The comparison rule (plant_health_data.py): Increase when below the
    average, Decrease when above, nothing when equal.
*/
module Health {

  /** The features, in the order every variant visits them. */
  datatype Feature = SoilMoisture | SoilTemperature | Humidity

  const FeatureOrder: seq<Feature> := [SoilMoisture, SoilTemperature, Humidity]

  /** One value per feature: a sensor reading or the healthy-class averages. */
  datatype Reading = Reading(soilMoisture: real, soilTemperature: real, humidity: real)
  {
    function Get(f: Feature): real
    {
      match f
      case SoilMoisture => soilMoisture
      case SoilTemperature => soilTemperature
      case Humidity => humidity
    }
  }

  datatype Direction = Increase | Decrease

  /** An adjustment suggestion; the source formats it as text, the model keeps the parts. */
  datatype Suggestion = Suggestion(feature: Feature, direction: Direction, magnitude: real)

  /** The label of the healthy class. */
  const Healthy: string := "Healthy"

  /** The health update broadcast to viewers. */
  datatype HealthPayload = HealthPayload(liveData: Reading, status: string, suggestions: seq<Suggestion>)

  function Abs(x: real): real
  {
    if x < 0.0 then -x else x
  }

  // ---------------------------------------------------------------------------
  // The difference rule

  /** The suggestion for one feature: diff = healthy - current. */
  function Advise(f: Feature, current: Reading, healthy: Reading): (s: Suggestion)
    ensures s.feature == f
    ensures s.direction == Increase <==> current.Get(f) < healthy.Get(f)
    ensures s.magnitude >= 0.0
    ensures s.magnitude == 0.0 <==> current.Get(f) == healthy.Get(f)
    // following the suggestion takes the current value to the healthy one
    ensures current.Get(f) + (if s.direction == Increase then s.magnitude else -s.magnitude) == healthy.Get(f)
  {
    var diff := healthy.Get(f) - current.Get(f);
    Suggestion(f, if diff > 0.0 then Increase else Decrease, Abs(diff))
  }

  /** The difference rule applied to each feature of fs, in order. */
  function AdviseAll(fs: seq<Feature>, current: Reading, healthy: Reading): seq<Suggestion>
  {
    if fs == [] then []
    else AdviseAll(fs[..|fs| - 1], current, healthy) + [Advise(fs[|fs| - 1], current, healthy)]
  }

  /** Exactly one suggestion per feature, at the feature's position. */
  lemma {:induction false} AdviseAllAt(fs: seq<Feature>, current: Reading, healthy: Reading)
    ensures |AdviseAll(fs, current, healthy)| == |fs|
    ensures forall i :: 0 <= i < |fs| ==> AdviseAll(fs, current, healthy)[i] == Advise(fs[i], current, healthy)
  {
    if fs != [] {
      AdviseAllAt(fs[..|fs| - 1], current, healthy);
    }
  }

  /** The suggestion loop of predict_and_recommend: one suggestion per feature, in feature order. */
  method DiffSuggestions(current: Reading, healthy: Reading) returns (recs: seq<Suggestion>)
    ensures |recs| == |FeatureOrder|
    ensures forall i :: 0 <= i < |recs| ==>
      && recs[i].feature == FeatureOrder[i]
      && (recs[i].direction == Increase <==> healthy.Get(FeatureOrder[i]) - current.Get(FeatureOrder[i]) > 0.0)
      && recs[i].magnitude == Abs(healthy.Get(FeatureOrder[i]) - current.Get(FeatureOrder[i]))
    ensures recs == AdviseAll(FeatureOrder, current, healthy)
  {
    recs := [];
    for i := 0 to |FeatureOrder|
      invariant recs == AdviseAll(FeatureOrder[..i], current, healthy)
    {
      assert FeatureOrder[..i + 1][..i] == FeatureOrder[..i];
      recs := recs + [Advise(FeatureOrder[i], current, healthy)];
    }
    assert FeatureOrder[..|FeatureOrder|] == FeatureOrder;
    AdviseAllAt(FeatureOrder, current, healthy);
  }

  // ---------------------------------------------------------------------------
  // The comparison rule

  /** The suggestion for one feature under the comparison rule, if any. */
  function Compare(f: Feature, current: Reading, healthy: Reading): (t: seq<Suggestion>)
    ensures |t| <= 1
    ensures t == [] <==> current.Get(f) == healthy.Get(f)
    ensures t != [] ==> t[0] == Advise(f, current, healthy) && t[0].magnitude > 0.0
  {
    var value, average := current.Get(f), healthy.Get(f);
    if value < average then [Suggestion(f, Increase, average - value)]
    else if value > average then [Suggestion(f, Decrease, value - average)]
    else []
  }

  /** The comparison rule applied to each feature of fs, in order. */
  function CompareAll(fs: seq<Feature>, current: Reading, healthy: Reading): seq<Suggestion>
  {
    if fs == [] then []
    else CompareAll(fs[..|fs| - 1], current, healthy) + Compare(fs[|fs| - 1], current, healthy)
  }

  /** The suggestions of s whose magnitude is not zero, in order. */
  function NonZero(s: seq<Suggestion>): seq<Suggestion>
  {
    if s == [] then []
    else NonZero(s[..|s| - 1]) + (if s[|s| - 1].magnitude == 0.0 then [] else [s[|s| - 1]])
  }

  /**
    The two rules differ only where a feature equals its average: the
    difference rule says "Decrease by 0" there, the comparison rule says
    nothing; everywhere else they give the same suggestions in the same order.
  */
  lemma {:induction false} CompareAllIsNonZeroAdvice(fs: seq<Feature>, current: Reading, healthy: Reading)
    ensures CompareAll(fs, current, healthy) == NonZero(AdviseAll(fs, current, healthy))
  {
    if fs != [] {
      var prefix := fs[..|fs| - 1];
      CompareAllIsNonZeroAdvice(prefix, current, healthy);
      var s := AdviseAll(fs, current, healthy);
      assert s[..|s| - 1] == AdviseAll(prefix, current, healthy);
    }
  }

  /** A feature equal to its average: "Decrease by 0" under one rule, nothing under the other. */
  lemma EqualFeatureRules(f: Feature, current: Reading, healthy: Reading)
    requires current.Get(f) == healthy.Get(f)
    ensures Advise(f, current, healthy) == Suggestion(f, Decrease, 0.0)
    ensures Compare(f, current, healthy) == []
  {
  }

  /** Under the comparison rule: at most one suggestion per feature, each with a positive magnitude. */
  lemma {:induction false} CompareAllBounds(fs: seq<Feature>, current: Reading, healthy: Reading)
    ensures |CompareAll(fs, current, healthy)| <= |fs|
    ensures forall k :: 0 <= k < |CompareAll(fs, current, healthy)| ==>
      var s := CompareAll(fs, current, healthy)[k];
      s.feature in fs && s.magnitude > 0.0 && s == Advise(s.feature, current, healthy)
  {
    if fs != [] {
      var prefix := fs[..|fs| - 1];
      CompareAllBounds(prefix, current, healthy);
      var t := CompareAll(fs, current, healthy);
      forall k | 0 <= k < |t|
        ensures t[k].feature in fs && t[k].magnitude > 0.0 && t[k] == Advise(t[k].feature, current, healthy)
      {
        var head := CompareAll(prefix, current, healthy);
        if k < |head| {
          assert t[k] == head[k];
          assert t[k].feature in prefix;
        } else {
          assert t[k] == Compare(fs[|fs| - 1], current, healthy)[k - |head|];
        }
      }
    }
  }

  /** The comparison rule over the three features is three independent comparisons, concatenated. */
  lemma CompareAllFeatures(current: Reading, healthy: Reading)
    ensures CompareAll(FeatureOrder, current, healthy)
         == Compare(SoilMoisture, current, healthy)
          + Compare(SoilTemperature, current, healthy)
          + Compare(Humidity, current, healthy)
  {
    var two := [SoilMoisture, SoilTemperature];
    assert FeatureOrder[..2] == two;
    assert two[..1] == [SoilMoisture];
    assert [SoilMoisture][..0] == [];
    assert CompareAll([SoilMoisture], current, healthy) == Compare(SoilMoisture, current, healthy);
    assert CompareAll(two, current, healthy)
        == Compare(SoilMoisture, current, healthy) + Compare(SoilTemperature, current, healthy);
  }

  /**
    A reading of moisture 30, temperature 20 and humidity 50 against healthy
    averages 45, 23 and 78 asks to increase all three, by 15, 3 and 28.
  */
  lemma ExampleIncreaseAll()
    ensures AdviseAll(FeatureOrder, Reading(30.0, 20.0, 50.0), Reading(45.0, 23.0, 78.0))
         == [ Suggestion(SoilMoisture, Increase, 15.0),
              Suggestion(SoilTemperature, Increase, 3.0),
              Suggestion(Humidity, Increase, 28.0) ]
  {
    AdviseAllAt(FeatureOrder, Reading(30.0, 20.0, 50.0), Reading(45.0, 23.0, 78.0));
  }
}
