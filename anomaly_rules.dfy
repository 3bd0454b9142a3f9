/**
 * The rule-based anomaly detector of the server: a first-match cascade of six
 * rules over a new reading, the sensor's baseline and its most recent stored
 * readings, the severity bands of the resulting anomaly, and the random drift
 * forecast.
 *
 * The recent readings are passed newest first, as the query returns them.
 * Random draws are parameters in [0, 1].
 */
module AnomalyRules {
  import opened Common
  import opened Models

  /** Number of stored readings the detector looks at. */
  const RecentWindow: nat := 10

  /** The query's `[:10]`: the newest ten readings, or all of them. */
  function Recent(history: seq<real>): (r: seq<real>)
    ensures |r| == MinN(|history|, RecentWindow)
    ensures r <= history
  {
    history[..MinN(|history|, RecentWindow)]
  }

  /** Band outside which a reading is out of range: 20 % of the baseline, or 10 for a zero baseline. */
  function Tolerance(baseline: real): (t: real)
    ensures t >= 0.0
    ensures baseline == 0.0 ==> t == 10.0
    ensures baseline != 0.0 ==> t == Abs(baseline) * 0.2
  {
    if baseline != 0.0 then Abs(baseline * 0.2) else 10.0
  }

  /** Sum of the differences between consecutive recent values. */
  function DiffSum(values: seq<real>): real
  {
    if |values| < 2 then 0.0
    else DiffSum(values[..|values| - 1]) + (values[|values| - 2] - values[|values| - 1])
  }

  /** The differences telescope: their sum is newest minus oldest. */
  lemma {:induction false} DiffSumTelescopes(values: seq<real>)
    requires |values| >= 1
    ensures DiffSum(values) == values[0] - values[|values| - 1]
  {
    if |values| >= 2 {
      DiffSumTelescopes(values[..|values| - 1]);
    }
  }

  /** The mean consecutive difference over the recent values (newest first). */
  function TrendOf(values: seq<real>): (t: real)
    requires |values| >= 2
    ensures t == (values[0] - values[|values| - 1]) / (|values| - 1) as real
  {
    DiffSumTelescopes(values);
    DiffSum(values) / (|values| - 1) as real
  }

  /** The mean squared distance from the baseline of the three newest values. */
  function Variance3(values: seq<real>, baseline: real): (v: real)
    requires |values| >= 3
    ensures v >= 0.0
  {
    var a := values[0] - baseline;
    var b := values[1] - baseline;
    var c := values[2] - baseline;
    (a * a + b * b + c * c) / 3.0
  }

  // The six rules, in the order they are tried.

  predicate DriftRule(baseline: real, recent: seq<real>)
  {
    |recent| >= 5 && Abs(TrendOf(recent)) > baseline * 0.05
  }

  predicate SpikeRule(raw: real, baseline: real, recent: seq<real>)
  {
    |recent| > 1 && Abs(raw - recent[1]) > baseline * 0.3
  }

  predicate DropoutRule(raw: real, baseline: real)
  {
    raw < baseline * 0.3
  }

  predicate NoiseRule(baseline: real, recent: seq<real>)
  {
    |recent| >= 3 && Variance3(recent, baseline) > (baseline * 0.1) * (baseline * 0.1)
  }

  predicate CalibrationErrorRule(raw: real, baseline: real)
  {
    baseline * 0.15 < Abs(raw - baseline) < baseline * 0.5
  }

  predicate OutOfRangeRule(raw: real, baseline: real)
  {
    raw < baseline - Tolerance(baseline) || raw > baseline + Tolerance(baseline)
  }

  /** The first rule that fires decides the type; out of range counts as Drift. */
  function Classify(raw: real, baseline: real, recent: seq<real>): (r: Option<AnomalyType>)
    ensures r == Some(Spike) <==> !DriftRule(baseline, recent) && SpikeRule(raw, baseline, recent)
    ensures r == Some(Dropout) <==>
      !DriftRule(baseline, recent) && !SpikeRule(raw, baseline, recent) && DropoutRule(raw, baseline)
    ensures r == Some(Noise) <==>
      !DriftRule(baseline, recent) && !SpikeRule(raw, baseline, recent) && !DropoutRule(raw, baseline) &&
      NoiseRule(baseline, recent)
    ensures r == Some(CalibrationError) <==>
      !DriftRule(baseline, recent) && !SpikeRule(raw, baseline, recent) && !DropoutRule(raw, baseline) &&
      !NoiseRule(baseline, recent) && CalibrationErrorRule(raw, baseline)
    ensures r.None? <==>
      !DriftRule(baseline, recent) && !SpikeRule(raw, baseline, recent) && !DropoutRule(raw, baseline) &&
      !NoiseRule(baseline, recent) && !CalibrationErrorRule(raw, baseline) && !OutOfRangeRule(raw, baseline)
    ensures DriftRule(baseline, recent) ==> r == Some(Drift)
  {
    if DriftRule(baseline, recent) then Some(Drift)
    else if SpikeRule(raw, baseline, recent) then Some(Spike)
    else if DropoutRule(raw, baseline) then Some(Dropout)
    else if NoiseRule(baseline, recent) then Some(Noise)
    else if CalibrationErrorRule(raw, baseline) then Some(CalibrationError)
    else if OutOfRangeRule(raw, baseline) then Some(Drift)
    else None
  }

  /** With a zero baseline the calibration-error band is empty. */
  lemma ZeroBaselineNoCalibrationError(raw: real, recent: seq<real>)
    ensures Classify(raw, 0.0, recent) != Some(CalibrationError)
  {
  }

  /** A reading equal to a positive baseline, with a flat history, is no anomaly. */
  lemma SteadyReadingIsNormal(baseline: real, recent: seq<real>)
    requires baseline > 0.0
    requires forall k :: 0 <= k < |recent| ==> recent[k] == baseline
    ensures Classify(baseline, baseline, recent) == None
  {
  }

  /** Deviation in percent of the baseline; 0 for a zero baseline. The ML
      detector repeats this formula on its own (`AnomalyML.MLDeviation`). */
  function Deviation(raw: real, baseline: real): (d: real)
    ensures baseline == 0.0 ==> d == 0.0
    ensures baseline != 0.0 ==> d * baseline == (raw - baseline) * 100.0
  {
    if baseline != 0.0 then (raw - baseline) / baseline * 100.0 else 0.0
  }

  /** Severity bands over the deviation's magnitude: 50, 20 and 10 percent. */
  function SeverityOf(deviation: real): (s: Severity)
    ensures s == Critical <==> Abs(deviation) > 50.0
    ensures s == High <==> 20.0 < Abs(deviation) <= 50.0
    ensures s == Medium <==> 10.0 < Abs(deviation) <= 20.0
    ensures s == Low <==> Abs(deviation) <= 10.0
  {
    if Abs(deviation) > 50.0 then Critical
    else if Abs(deviation) > 20.0 then High
    else if Abs(deviation) > 10.0 then Medium
    else Low
  }

  /** A larger deviation never gets a lower severity. */
  lemma SeverityMonotone(d1: real, d2: real)
    requires Abs(d1) <= Abs(d2)
    ensures SeverityRank(SeverityOf(d1)) <= SeverityRank(SeverityOf(d2))
  {
  }

  /** A zero baseline gives deviation 0 and therefore severity Low. */
  lemma ZeroBaselineIsLow(raw: real)
    ensures SeverityOf(Deviation(raw, 0.0)) == Low
  {
  }

  /** The anomaly stored for a classified reading. */
  function AnomalyFor(sensorId: int, t: AnomalyType, raw: real, baseline: real, now: int): (a: Anomaly)
    ensures a.expected == baseline && a.value == raw && a.atype == t && !a.resolved
    ensures a.deviation == Deviation(raw, baseline) && a.severity == SeverityOf(a.deviation)
  {
    NewAnomaly(sensorId, t, raw, baseline, Deviation(raw, baseline), SeverityOf(Deviation(raw, baseline)), now)
  }

  /** `detect_anomaly`: tries the rules one after the other as the source does,
      computing the trend with its loop over consecutive differences; stores
      exactly one anomaly when a rule fires and nothing otherwise. */
  method DetectAnomaly(db: Tables, sensor: Sensor, raw: real, history: seq<real>, now: int)
    returns (result: Option<AnomalyType>)
    modifies db`anomalies
    ensures result == Classify(raw, sensor.value, Recent(history))
    ensures result.Some? ==> db.anomalies == old(db.anomalies) + [AnomalyFor(sensor.id, result.value, raw, sensor.value, now)]
    ensures result.None? ==> db.anomalies == old(db.anomalies)
  {
    var baseline := sensor.value;
    var tolerance := Tolerance(baseline);
    var recent := Recent(history);
    result := None;

    if |recent| >= 5 {
      var total := 0.0;
      var i := 0;
      while i < |recent| - 1
        invariant 0 <= i <= |recent| - 1
        invariant total == recent[0] - recent[i]
      {
        total := total + (recent[i] - recent[i + 1]);
        i := i + 1;
      }
      var trend := total / (|recent| - 1) as real;
      if Abs(trend) > baseline * 0.05 {
        result := Some(Drift);
      }
    }
    if result.None? && |recent| > 1 && Abs(raw - recent[1]) > baseline * 0.3 {
      result := Some(Spike);
    }
    if result.None? && raw < baseline * 0.3 {
      result := Some(Dropout);
    }
    if result.None? && |recent| >= 3 {
      var variance := Variance3(recent, baseline);
      if variance > (baseline * 0.1) * (baseline * 0.1) {
        result := Some(Noise);
      }
    }
    if result.None? {
      var offset := Abs(raw - baseline);
      if offset > baseline * 0.15 && offset < baseline * 0.5 {
        result := Some(CalibrationError);
      }
    }
    if result.None? && (raw < baseline - tolerance || raw > baseline + tolerance) {
      result := Some(Drift);
    }

    if result.Some? {
      db.anomalies := db.anomalies + [AnomalyFor(sensor.id, result.value, raw, baseline, now)];
    }
  }

  /** `random.uniform(-2, 2)` for a draw `u` in [0, 1]. */
  function UniformDrift(u: real): real
  {
    -2.0 + 4.0 * u
  }

  /** `predict_drift`: one value per requested interval, each within [-2, 2]. */
  function PredictDrift(draws: seq<real>): (r: seq<real>)
    requires forall k :: 0 <= k < |draws| ==> 0.0 <= draws[k] <= 1.0
    ensures |r| == |draws|
    ensures forall k :: 0 <= k < |r| ==> -2.0 <= r[k] <= 2.0
  {
    seq(|draws|, k requires 0 <= k < |draws| => UniformDrift(draws[k]))
  }
}
