/**
 * The plain drift forecast: the readings' linear trend extended past the last
 * reading, in the readings' own units. The least-squares slope is a parameter.
 */
module DriftPredictions {
  /** Fewer readings than this give no trend. */
  const MinReadings: nat := 3

  /** `simple_drift_prediction`: zeros when there are fewer than three readings,
      otherwise the points `last + slope * (i + 1)` for i below `futurePoints`. */
  function SimpleDriftPrediction(values: seq<real>, slope: real, futurePoints: nat): (r: seq<real>)
    ensures |r| == futurePoints
    ensures |values| < MinReadings ==> forall i :: 0 <= i < futurePoints ==> r[i] == 0.0
    ensures |values| >= MinReadings ==> forall i :: 0 <= i < futurePoints ==>
      r[i] == values[|values| - 1] + slope * (i + 1) as real
  {
    if |values| < MinReadings then seq(futurePoints, i => 0.0)
    else seq(futurePoints, i requires i >= 0 => values[|values| - 1] + slope * (i + 1) as real)
  }

  /** Consecutive points differ by exactly the slope, and the first lies one
      slope past the last reading: the forecast is absolute, not a percentage. */
  lemma ForecastStepsBySlope(values: seq<real>, slope: real, futurePoints: nat)
    requires |values| >= MinReadings && futurePoints >= 1
    ensures SimpleDriftPrediction(values, slope, futurePoints)[0] - values[|values| - 1] == slope
    ensures forall i :: 0 <= i < futurePoints - 1 ==>
      SimpleDriftPrediction(values, slope, futurePoints)[i + 1] - SimpleDriftPrediction(values, slope, futurePoints)[i] == slope
  {
  }

  /** A flat trend repeats the last reading. */
  lemma FlatTrendRepeatsLast(values: seq<real>, futurePoints: nat)
    requires |values| >= MinReadings
    ensures forall i :: 0 <= i < futurePoints ==> SimpleDriftPrediction(values, 0.0, futurePoints)[i] == values[|values| - 1]
  {
  }
}
