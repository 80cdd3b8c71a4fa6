/**
  The Growing Degree Day calculator of src/GddCalculator.jsx, averaging
  method: GDD = max(0, (Tmax + Tmin) / 2 - Tbase). Input parsing
  (`parseFloat`) is the browser's: a field's parsed value is given, None
  where it parses to NaN.
*/
module GddCalculator {
  import opened Wrappers

  /** The base temperature field's initial value, in degrees Celsius. */
  const DefaultBase: real := 10.0

  function AverageTemperature(max: real, min: real): real
  {
    (max + min) / 2.0
  }

  /** The day's GDD: the average's excess over the base, never negative. */
  function Gdd(max: real, min: real, base: real): (gdd: real)
    ensures gdd >= 0.0
    ensures gdd >= AverageTemperature(max, min) - base
    ensures gdd == 0.0 || gdd == AverageTemperature(max, min) - base
  {
    var avgTemp := AverageTemperature(max, min);
    if avgTemp > base then avgTemp - base else 0.0
  }

  /**
    handleCalculate: the new `result` state. Any field that does not parse
    aborts the calculation and leaves `result` as it was.
  */
  function HandleCalculate(max: Option<real>, min: Option<real>, base: Option<real>, result: Option<real>)
    : (next: Option<real>)
    ensures max.None? || min.None? || base.None? ==> next == result
    ensures max.Some? && min.Some? && base.Some? ==> next.Some? && next.value >= 0.0
    ensures max.Some? && min.Some? && base.Some? ==> next == Some(Gdd(max.value, min.value, base.value))
  {
    if max.None? || min.None? || base.None? then result
    else Some(Gdd(max.value, min.value, base.value))
  }

  /** GDD is positive exactly when the average exceeds the base, and then it is the excess. */
  lemma GddPositive(max: real, min: real, base: real)
    ensures Gdd(max, min, base) > 0.0 <==> AverageTemperature(max, min) > base
    ensures AverageTemperature(max, min) > base ==> Gdd(max, min, base) == AverageTemperature(max, min) - base
  {
  }

  /** Swapping the maximum and the minimum does not change GDD. */
  lemma GddSymmetric(max: real, min: real, base: real)
    ensures Gdd(max, min, base) == Gdd(min, max, base)
  {
  }

  /** GDD does not decrease with a warmer day nor with a lower base. */
  lemma GddMonotone(max: real, min: real, base: real, max': real, min': real, base': real)
    requires max <= max' && min <= min' && base' <= base
    ensures Gdd(max, min, base) <= Gdd(max', min', base')
  {
  }

  /** A day whose average is the default base contributes nothing. */
  lemma DefaultBaseExample()
    ensures Gdd(14.0, 6.0, DefaultBase) == 0.0
    ensures Gdd(20.0, 10.0, DefaultBase) == 5.0
  {
  }
}
