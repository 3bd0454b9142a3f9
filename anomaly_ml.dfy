/**
 * The classifier-based anomaly detector: every reading the isolation forest
 * flags becomes one anomaly, whose type and severity follow from its
 * deviation against the sensor's value.
 *
 * The forest itself is not modelled: its verdicts arrive as `flags`, one per
 * reading, in timestamp order.
 */
module AnomalyML {
  import opened Common
  import opened Models

  /** Fewer readings than this are not analysed. */
  const MinReadings: nat := 5

  /** Deviation in percent of the expected value; 0 when that is zero. The ML
      detector computes this itself rather than calling the rule-based detector,
      so it is kept apart from `AnomalyRules.Deviation`, which has the same formula. */
  function MLDeviation(raw: real, expected: real): (d: real)
    ensures expected == 0.0 ==> d == 0.0
    ensures expected != 0.0 ==> d * expected == (raw - expected) * 100.0
  {
    if expected != 0.0 then (raw - expected) / expected * 100.0 else 0.0
  }

  function MLSeverity(deviation: real): (s: Severity)
    ensures s == High <==> Abs(deviation) > 15.0
    ensures s == Medium <==> Abs(deviation) <= 15.0
  {
    if Abs(deviation) > 15.0 then High else Medium
  }

  /** The type cascade: Spike, Dropout, Noise, Calibration Error, else Drift. */
  function MLType(raw: real, expected: real, deviation: real): (t: AnomalyType)
    ensures t == Spike <==> Abs(deviation) > 50.0
    ensures t == Dropout <==> Abs(deviation) <= 50.0 && raw < expected * 0.3
    ensures t == Noise <==> Abs(deviation) <= 50.0 && raw >= expected * 0.3 && 20.0 < Abs(deviation) < 50.0
    ensures t == CalibrationError <==> raw >= expected * 0.3 && 10.0 < Abs(deviation) < 20.0
    ensures t == Drift <==> (Abs(deviation) <= 50.0 && raw >= expected * 0.3 &&
      (Abs(deviation) <= 10.0 || Abs(deviation) == 20.0 || Abs(deviation) == 50.0))
  {
    if Abs(deviation) > 50.0 then Spike
    else if raw < expected * 0.3 then Dropout
    else if Abs(deviation) > 20.0 && Abs(deviation) < 50.0 then Noise
    else if Abs(deviation) > 10.0 && Abs(deviation) < 20.0 then CalibrationError
    else Drift
  }

  /** The band edges 10, 20 and 50 belong to no band and fall through to Drift. */
  lemma BoundariesFallToDrift(raw: real, expected: real, deviation: real)
    requires Abs(deviation) == 10.0 || Abs(deviation) == 20.0 || Abs(deviation) == 50.0
    requires raw >= expected * 0.3
    ensures MLType(raw, expected, deviation) == Drift
  {
  }

  /** With a positive expected value a reading below 30 % of it is more than 50 %
      off, so it is classified as a Spike: Dropout needs a non-positive expected value. */
  lemma DropoutNeedsNonPositiveExpected(raw: real, expected: real)
    requires expected > 0.0
    ensures MLType(raw, expected, MLDeviation(raw, expected)) != Dropout
  {
    if raw < expected * 0.3 {
      var d := MLDeviation(raw, expected);
      assert d * expected == (raw - expected) * 100.0;
      assert d * expected < -70.0 * expected;
      assert d < -70.0;
    }
  }

  /** The anomaly stored for one flagged reading. */
  function MLAnomaly(sensor: Sensor, raw: real, now: int): (a: Anomaly)
    ensures a.sensorId == sensor.id && a.value == raw && a.expected == sensor.value && !a.resolved
    ensures a.deviation == MLDeviation(raw, sensor.value)
    ensures a.severity == MLSeverity(a.deviation) && a.atype == MLType(raw, sensor.value, a.deviation)
  {
    var dev := MLDeviation(raw, sensor.value);
    NewAnomaly(sensor.id, MLType(raw, sensor.value, dev), raw, sensor.value, dev, MLSeverity(dev), now)
  }

  /** Positions of the flagged readings, in timestamp order. */
  function Flagged(flags: seq<bool>): (idx: seq<nat>)
    ensures |idx| <= |flags|
    ensures forall k :: 0 <= k < |idx| ==> idx[k] < |flags| && flags[idx[k]]
    ensures forall k, l :: 0 <= k < l < |idx| ==> idx[k] < idx[l]
  {
    if flags == [] then []
    else
      var n := |flags| - 1;
      var init := Flagged(flags[..n]);
      assert forall k :: 0 <= k < |init| ==> flags[..n][init[k]] == flags[init[k]];
      init + (if flags[n] then [n] else [])
  }

  /** Every flagged reading has its position in `Flagged`. */
  lemma {:induction false} FlaggedComplete(flags: seq<bool>, i: nat)
    requires i < |flags| && flags[i]
    ensures i in Flagged(flags)
  {
    var n := |flags| - 1;
    if i < n {
      FlaggedComplete(flags[..n], i);
    }
  }

  /** The anomalies of the flagged readings, in order. */
  function MLAnomalies(sensor: Sensor, values: seq<real>, flags: seq<bool>, now: int): (r: seq<Anomaly>)
    requires |flags| == |values|
    ensures |r| == |Flagged(flags)|
    ensures forall k :: 0 <= k < |r| ==> r[k] == MLAnomaly(sensor, values[Flagged(flags)[k]], now)
  {
    if values == [] then []
    else
      var n := |values| - 1;
      var init := MLAnomalies(sensor, values[..n], flags[..n], now);
      assert forall k :: 0 <= k < |Flagged(flags[..n])| ==> values[..n][Flagged(flags[..n])[k]] == values[Flagged(flags[..n])[k]];
      init + (if flags[n] then [MLAnomaly(sensor, values[n], now)] else [])
  }

  /** One anomaly per flagged reading: their number is the number of flags raised. */
  lemma {:induction false} OneAnomalyPerFlag(flags: seq<bool>)
    ensures |Flagged(flags)| == CountIf(flags, IsTrue)
  {
    if flags != [] {
      OneAnomalyPerFlag(flags[..|flags| - 1]);
    }
  }

  /** `ml_anomaly_detection`: fewer than five readings give no anomaly; otherwise
      the loop over the readings stores and returns one anomaly per flag. */
  method MLAnomalyDetection(db: Tables, sensor: Sensor, values: seq<real>, flags: seq<bool>, now: int)
    returns (anomalies: seq<Anomaly>)
    requires |flags| == |values|
    modifies db`anomalies
    ensures |values| < MinReadings ==> anomalies == []
    ensures |values| >= MinReadings ==> anomalies == MLAnomalies(sensor, values, flags, now)
    ensures db.anomalies == old(db.anomalies) + anomalies
  {
    anomalies := [];
    if |values| < MinReadings {
      return;
    }
    var i := 0;
    while i < |values|
      invariant 0 <= i <= |values|
      invariant anomalies == MLAnomalies(sensor, values[..i], flags[..i], now)
      invariant db.anomalies == old(db.anomalies) + anomalies
    {
      assert values[..i + 1][..i] == values[..i];
      assert flags[..i + 1][..i] == flags[..i];
      if flags[i] {
        var a := MLAnomaly(sensor, values[i], now);
        db.anomalies := db.anomalies + [a];
        anomalies := anomalies + [a];
      }
      i := i + 1;
    }
    assert values[..|values|] == values && flags[..|flags|] == flags;
  }
}
