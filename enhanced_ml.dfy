/**
 * The enhanced ML services: each prediction uses the trained model saved for
 * the sensor when there is one and falls back to a simple rule otherwise, and
 * a sensor's models are retrained when missing or older than seven days.
 *
 * What a trained model answers, whether its file exists, how old it is, and
 * the least-squares slope of the readings are parameters; `None` for a
 * trained model's answer stands for a load or predict that raised.
 */
module EnhancedML {
  import opened Common
  import opened Models
  import AnomalyRules
  import ModelTraining

  // ---------------------------------------------------------------------------
  // Anomaly prediction
  // ---------------------------------------------------------------------------

  datatype AnomalyModelUsed = TrainedIsolationForest | BasicThreshold

  datatype AnomalyVerdict = AnomalyVerdict(isAnomaly: bool, confidence: real, anomalyScore: real, modelUsed: AnomalyModelUsed)

  /** The server answers with a verdict or fails with an internal error. */
  datatype Outcome<T> = Answer(value: T) | ServerError

  /** `_basic_anomaly_detection`: out of the tolerance band around the sensor's
      value; the score is the deviation in percent and the confidence a tenth of its size. */
  function BasicAnomalyDetection(sensorValue: real, reading: real): (v: AnomalyVerdict)
    ensures v.isAnomaly <==> Abs(reading - sensorValue) > AnomalyRules.Tolerance(sensorValue)
    ensures v.anomalyScore == AnomalyRules.Deviation(reading, sensorValue)
    ensures v.confidence == Abs(v.anomalyScore) / 10.0 && v.confidence >= 0.0
    ensures v.modelUsed == BasicThreshold
  {
    var baseline := sensorValue;
    var tolerance := AnomalyRules.Tolerance(baseline);
    var deviation := AnomalyRules.Deviation(reading, baseline);
    AnomalyVerdict(reading < baseline - tolerance || reading > baseline + tolerance,
                   Abs(deviation) / 10.0, deviation, BasicThreshold)
  }

  /** For a nonzero value the basic flag is raised exactly when the score exceeds 20 percent;
      for a zero value the score is 0 and the flag means more than 10 units away. */
  lemma BasicFlagMatchesScore(sensorValue: real, reading: real)
    ensures sensorValue != 0.0 ==>
      (BasicAnomalyDetection(sensorValue, reading).isAnomaly <==> Abs(BasicAnomalyDetection(sensorValue, reading).anomalyScore) > 20.0)
    ensures sensorValue == 0.0 ==>
      BasicAnomalyDetection(sensorValue, reading).anomalyScore == 0.0 &&
      (BasicAnomalyDetection(sensorValue, reading).isAnomaly <==> Abs(reading) > 10.0)
  {
    if sensorValue != 0.0 {
      OutsideBandIffOverTwentyPercent(sensorValue, reading);
    }
  }

  /** Outside 20 % of a nonzero value is the same as a deviation above 20 percent. */
  lemma OutsideBandIffOverTwentyPercent(sensorValue: real, reading: real)
    requires sensorValue != 0.0
    ensures Abs(reading - sensorValue) > Abs(sensorValue) * 0.2 <==> Abs(AnomalyRules.Deviation(reading, sensorValue)) > 20.0
  {
    var d := AnomalyRules.Deviation(reading, sensorValue);
    var b := Abs(sensorValue);
    var gap := Abs(reading - sensorValue);
    var ad := Abs(d);
    assert d * sensorValue == (reading - sensorValue) * 100.0;
    AbsProduct(d, sensorValue);
    AbsProduct(reading - sensorValue, 100.0);
    assert ad * b == gap * 100.0;
    ScaleCompare(ad, 20.0, b, gap * 100.0);
  }

  lemma ScaleCompare(x: real, c: real, b: real, product: real)
    requires b > 0.0 && product == x * b
    ensures x > c <==> product > c * b
  {
    if x > c {
      assert (x - c) * b > 0.0;
    } else {
      assert (c - x) * b >= 0.0;
    }
  }

  lemma AbsProduct(x: real, y: real)
    ensures Abs(x * y) == Abs(x) * Abs(y)
  {
    if x < 0.0 && y >= 0.0 {
      assert x * y <= 0.0;
    } else if x >= 0.0 && y < 0.0 {
      assert x * y <= 0.0;
    } else if x < 0.0 && y < 0.0 {
      assert x * y > 0.0;
    }
  }

  /** `predict_anomaly_with_trained_model`. An unknown sensor raises inside the
      `try`, and the fallback in the `except` then reads the unbound sensor, so
      the request fails. A missing model file, or a trained model that raises,
      gives the basic detection; otherwise the forest's label (-1 is an anomaly)
      and its score decide. */
  function PredictAnomaly(sensor: Option<Sensor>, modelExists: bool, trained: Option<(int, real)>, reading: real): (r: Outcome<AnomalyVerdict>)
    ensures sensor.None? <==> r.ServerError?
    ensures r.Answer? && r.value.modelUsed == BasicThreshold ==> r.value == BasicAnomalyDetection(sensor.value.value, reading)
    ensures r.Answer? ==> (r.value.modelUsed == TrainedIsolationForest <==> modelExists && trained.Some?)
    ensures r.Answer? && r.value.modelUsed == TrainedIsolationForest ==>
      r.value.isAnomaly == (trained.value.0 == -1) && r.value.anomalyScore == trained.value.1 &&
      r.value.confidence == Abs(trained.value.1)
  {
    if sensor.None? then ServerError
    else if !modelExists || trained.None? then Answer(BasicAnomalyDetection(sensor.value.value, reading))
    else Answer(AnomalyVerdict(trained.value.0 == -1, Abs(trained.value.1), trained.value.1, TrainedIsolationForest))
  }

  // ---------------------------------------------------------------------------
  // Drift prediction
  // ---------------------------------------------------------------------------

  datatype DriftModelUsed = TrainedLinearRegression | SimpleLinearTrend | NoData

  datatype DriftForecast = DriftForecast(predictions: seq<real>, modelUsed: DriftModelUsed, confidence: Option<real>)

  /** Fewer readings than this give no trend. */
  const MinTrendReadings: nat := 3

  /** The drift of the i-th future point: the trend line extended past the last
      reading, in percent of the baseline, or 0 for a zero baseline. */
  function TrendDrift(baseline: real, last: real, slope: real, i: nat): real
  {
    if baseline != 0.0 then (last + slope * (i + 1) as real - baseline) / baseline * 100.0 else 0.0
  }

  /** The baseline: the sensor's value, or the last reading when that is zero. */
  function TrendBaseline(sensorValue: real, values: seq<real>): (b: real)
    requires |values| >= 1
    ensures sensorValue != 0.0 ==> b == sensorValue
    ensures sensorValue == 0.0 ==> b == values[|values| - 1]
  {
    OrDefault(sensorValue, values[|values| - 1])
  }

  /** What `_simple_drift_prediction` answers. */
  function SimpleDrift(sensorValue: real, values: seq<real>, slope: real, futurePoints: nat): (f: DriftForecast)
    ensures |f.predictions| == futurePoints && f.confidence.None?
    ensures f.modelUsed == NoData <==> |values| < MinTrendReadings
    ensures |values| < MinTrendReadings ==> forall k :: 0 <= k < futurePoints ==> f.predictions[k] == 0.0
    ensures |values| >= MinTrendReadings ==> forall k :: 0 <= k < futurePoints ==>
      f.predictions[k] == TrendDrift(TrendBaseline(sensorValue, values), values[|values| - 1], slope, k)
  {
    if |values| < MinTrendReadings then DriftForecast(seq(futurePoints, k => 0.0), NoData, None)
    else
      var baseline := TrendBaseline(sensorValue, values);
      var last := values[|values| - 1];
      DriftForecast(seq(futurePoints, k requires k >= 0 => TrendDrift(baseline, last, slope, k)), SimpleLinearTrend, None)
  }

  /** `_simple_drift_prediction` with its loop over the future points. */
  method SimpleDriftPrediction(sensorValue: real, values: seq<real>, slope: real, futurePoints: nat)
    returns (f: DriftForecast)
    ensures f == SimpleDrift(sensorValue, values, slope, futurePoints)
  {
    if |values| < MinTrendReadings {
      return DriftForecast(seq(futurePoints, k => 0.0), NoData, None);
    }
    var last := values[|values| - 1];
    var baseline := OrDefault(sensorValue, last);
    var predictions: seq<real> := [];
    var i := 0;
    while i < futurePoints
      invariant 0 <= i <= futurePoints
      invariant |predictions| == i
      invariant forall k :: 0 <= k < i ==> predictions[k] == TrendDrift(baseline, last, slope, k)
    {
      var predicted := last + slope * (i + 1) as real;
      var drift := if baseline != 0.0 then (predicted - baseline) / baseline * 100.0 else 0.0;
      predictions := predictions + [drift];
      i := i + 1;
    }
    f := DriftForecast(predictions, SimpleLinearTrend, None);
  }

  /** Successive predictions of the trend differ by the same step, the slope in percent of the baseline. */
  lemma TrendStepIsConstant(baseline: real, last: real, slope: real, i: nat)
    requires baseline != 0.0
    ensures TrendDrift(baseline, last, slope, i + 1) - TrendDrift(baseline, last, slope, i) == slope / baseline * 100.0
  {
    var a := last + slope * (i + 1) as real - baseline;
    var b := last + slope * (i + 2) as real - baseline;
    assert b - a == slope;
    assert b / baseline - a / baseline == (b - a) / baseline;
  }

  /** A sensor whose value is 0 and whose last reading is 0 predicts no drift at all. */
  lemma ZeroBaselinePredictsNothing(values: seq<real>, slope: real, futurePoints: nat)
    requires |values| >= MinTrendReadings && values[|values| - 1] == 0.0
    ensures forall k :: 0 <= k < futurePoints ==> SimpleDrift(0.0, values, slope, futurePoints).predictions[k] == 0.0
  {
  }

  /** A flat trend (slope 0) measured against the last reading predicts no drift. */
  lemma FlatTrendFromLastReading(values: seq<real>, futurePoints: nat)
    requires |values| >= MinTrendReadings
    ensures forall k :: 0 <= k < futurePoints ==> SimpleDrift(0.0, values, 0.0, futurePoints).predictions[k] == 0.0
  {
  }

  /** `predict_drift_with_trained_model`. An unknown sensor fails the request:
      the fallback in the `except` looks the sensor up again. A missing model
      file, fewer than three recent readings, or a model that raises gives the
      simple prediction; otherwise the model's predictions, with confidence 0.8. */
  function PredictDrift(sensor: Option<Sensor>, modelExists: bool, values: seq<real>, slope: real,
                        trained: Option<seq<real>>, futurePoints: nat): (r: Outcome<DriftForecast>)
    requires trained.Some? ==> |trained.value| == futurePoints
    ensures sensor.None? <==> r.ServerError?
    ensures r.Answer? ==> |r.value.predictions| == futurePoints
    ensures r.Answer? ==> (r.value.modelUsed == TrainedLinearRegression <==>
      modelExists && |AnomalyRules.Recent(values)| >= MinTrendReadings && trained.Some?)
    ensures r.Answer? && r.value.modelUsed == TrainedLinearRegression ==>
      r.value.predictions == trained.value && r.value.confidence == Some(0.8)
    ensures r.Answer? && r.value.modelUsed != TrainedLinearRegression ==>
      r.value == SimpleDrift(sensor.value.value, values, slope, futurePoints)
  {
    if sensor.None? then ServerError
    else if !modelExists || |AnomalyRules.Recent(values)| < MinTrendReadings || trained.None? then
      Answer(SimpleDrift(sensor.value.value, values, slope, futurePoints))
    else Answer(DriftForecast(trained.value, TrainedLinearRegression, Some(0.8)))
  }

  /** The recent-readings guard is the simple prediction's own guard: fewer than three recent
      readings means fewer than three readings, so that fallback always answers "no data". */
  lemma FewRecentMeansNoData(sensor: Sensor, modelExists: bool, values: seq<real>, slope: real,
                             trained: Option<seq<real>>, futurePoints: nat)
    requires trained.Some? ==> |trained.value| == futurePoints
    requires |AnomalyRules.Recent(values)| < MinTrendReadings
    ensures PredictDrift(Some(sensor), modelExists, values, slope, trained, futurePoints).value.modelUsed == NoData
  {
  }

  // ---------------------------------------------------------------------------
  // Calibration
  // ---------------------------------------------------------------------------

  datatype CalibrationModelUsed = TrainedCalibration | BasicLinear

  datatype CorrectedReading = CorrectedReading(correctedValue: real, correctionFactor: real, modelUsed: CalibrationModelUsed)

  /** `_basic_calibration`: moves the reading a tenth of the way to the sensor's
      value (a zero value means the reading itself). */
  function BasicCalibration(sensorValue: real, raw: real): (c: CorrectedReading)
    ensures c.correctedValue == raw + c.correctionFactor && c.modelUsed == BasicLinear
    ensures sensorValue == 0.0 ==> c.correctedValue == raw && c.correctionFactor == 0.0
    ensures sensorValue != 0.0 ==> sensorValue - c.correctedValue == 0.9 * (sensorValue - raw)
    ensures MinR(raw, OrDefault(sensorValue, raw)) <= c.correctedValue <= MaxR(raw, OrDefault(sensorValue, raw))
  {
    var baseline := OrDefault(sensorValue, raw);
    var factor := (baseline - raw) * 0.1;
    CorrectedReading(raw + factor, factor, BasicLinear)
  }

  /** The gap to the sensor's value shrinks by a tenth on every application:
      after n corrections a tenth-fraction 0.9^n of it is left. */
  function Gap(n: nat): (g: real)
    ensures 0.0 < g <= 1.0
  {
    if n == 0 then 1.0 else 0.9 * Gap(n - 1)
  }

  function CalibrateTimes(sensorValue: real, raw: real, n: nat): real
  {
    if n == 0 then raw else BasicCalibration(sensorValue, CalibrateTimes(sensorValue, raw, n - 1)).correctedValue
  }

  lemma {:induction false} RepeatedCalibrationConverges(sensorValue: real, raw: real, n: nat)
    requires sensorValue != 0.0
    ensures sensorValue - CalibrateTimes(sensorValue, raw, n) == Gap(n) * (sensorValue - raw)
  {
    if n > 0 {
      RepeatedCalibrationConverges(sensorValue, raw, n - 1);
    }
  }

  /** `apply_adaptive_calibration_with_trained_model`: the trained model's value
      when its file exists and it answers, the basic correction otherwise; an
      unknown sensor fails the request, as the fallback looks it up again. */
  function ApplyAdaptiveCalibration(sensor: Option<Sensor>, modelExists: bool, trained: Option<real>, raw: real): (r: Outcome<CorrectedReading>)
    ensures sensor.None? <==> r.ServerError?
    ensures r.Answer? ==> r.value.correctedValue == raw + r.value.correctionFactor
    ensures r.Answer? ==> (r.value.modelUsed == TrainedCalibration <==> modelExists && trained.Some?)
    ensures r.Answer? && r.value.modelUsed == TrainedCalibration ==> r.value.correctedValue == trained.value
    ensures r.Answer? && r.value.modelUsed == BasicLinear ==> r.value == BasicCalibration(sensor.value.value, raw)
  {
    if sensor.None? then ServerError
    else if !modelExists || trained.None? then Answer(BasicCalibration(sensor.value.value, raw))
    else Answer(CorrectedReading(trained.value, trained.value - raw, TrainedCalibration))
  }

  // ---------------------------------------------------------------------------
  // Automatic retraining
  // ---------------------------------------------------------------------------

  /** Models older than this many seconds are retrained. */
  const MaxModelAgeSeconds: real := 7.0 * 86400.0

  /** The age in seconds of each of a sensor's model files; `None` when the file is missing. */
  datatype ModelAges = ModelAges(anomaly: Option<real>, drift: Option<real>, calibration: Option<real>)

  function AgeOf(ages: ModelAges, k: ModelTraining.ModelKind): Option<real>
  {
    match k
    case AnomalyModel => ages.anomaly
    case DriftModel => ages.drift
    case CalibrationModel => ages.calibration
  }

  predicate NeedsTraining(age: Option<real>)
  {
    age.None? || age.value > MaxModelAgeSeconds
  }

  const Kinds: seq<ModelTraining.ModelKind> := [ModelTraining.AnomalyModel, ModelTraining.DriftModel, ModelTraining.CalibrationModel]

  /** The kind names collected by the staleness check, in file order. */
  function NeedsList(ages: ModelAges, kinds: seq<ModelTraining.ModelKind>): seq<string>
  {
    if kinds == [] then []
    else
      var n := |kinds| - 1;
      NeedsList(ages, kinds[..n]) + (if NeedsTraining(AgeOf(ages, kinds[n])) then [ModelTraining.KindName(kinds[n])] else [])
  }

  /** Over the three files, a kind is named exactly when its file is missing or stale. */
  lemma NeedsListOfKinds(ages: ModelAges)
    ensures "anomaly" in NeedsList(ages, Kinds) <==> NeedsTraining(ages.anomaly)
    ensures "drift" in NeedsList(ages, Kinds) <==> NeedsTraining(ages.drift)
    ensures "calibration" in NeedsList(ages, Kinds) <==> NeedsTraining(ages.calibration)
  {
    assert Kinds[..2] == [ModelTraining.AnomalyModel, ModelTraining.DriftModel];
    assert Kinds[..2][..1] == [ModelTraining.AnomalyModel];
    assert [ModelTraining.AnomalyModel][..0] == [];
    var l1 := if NeedsTraining(ages.anomaly) then ["anomaly"] else [];
    var l2 := l1 + (if NeedsTraining(ages.drift) then ["drift"] else []);
    var l3 := l2 + (if NeedsTraining(ages.calibration) then ["calibration"] else []);
    assert NeedsList(ages, Kinds) == l3;
  }

  /** What the training data of the sensor gives for one kind. */
  function TrainKind(k: ModelTraining.ModelKind, data: ModelTraining.SensorTrainingData): ModelTraining.TrainResult
  {
    match k
    case AnomalyModel => ModelTraining.TrainAnomaly(Some(data.id), Some(data.name), data.readingCount)
    case DriftModel => ModelTraining.TrainDrift(data.id, Some(data.name), data.readingCount)
    case CalibrationModel => ModelTraining.TrainCalibration(data.id, Some(data.name), data.hasReadingBefore)
  }

  /** The results of training the kinds whose flags are set, keyed by kind name. */
  function TrainNamed(anomaly: bool, drift: bool, calibration: bool, data: ModelTraining.SensorTrainingData)
    : (m: map<string, ModelTraining.TrainResult>)
    ensures m.Keys <= {"anomaly", "drift", "calibration"}
    ensures "anomaly" in m <==> anomaly
    ensures "drift" in m <==> drift
    ensures "calibration" in m <==> calibration
    ensures anomaly ==> m["anomaly"] == TrainKind(ModelTraining.AnomalyModel, data)
    ensures drift ==> m["drift"] == TrainKind(ModelTraining.DriftModel, data)
    ensures calibration ==> m["calibration"] == TrainKind(ModelTraining.CalibrationModel, data)
  {
    var m1 := if anomaly then map["anomaly" := TrainKind(ModelTraining.AnomalyModel, data)] else map[];
    var m2 := if drift then m1["drift" := TrainKind(ModelTraining.DriftModel, data)] else m1;
    if calibration then m2["calibration" := TrainKind(ModelTraining.CalibrationModel, data)] else m2
  }

  /** `auto_train_models_if_needed`: checks the three model files in order,
      naming each stale or missing one by the text before its first underscore,
      then trains exactly the named kinds. An unknown sensor fails the request. */
  method AutoTrainModelsIfNeeded(data: Option<ModelTraining.SensorTrainingData>, ages: ModelAges)
    returns (r: Outcome<map<string, ModelTraining.TrainResult>>)
    ensures data.None? <==> r.ServerError?
    ensures r.Answer? ==> r.value.Keys <= {"anomaly", "drift", "calibration"}
    ensures r.Answer? ==> ("anomaly" in r.value <==> NeedsTraining(ages.anomaly))
    ensures r.Answer? ==> ("drift" in r.value <==> NeedsTraining(ages.drift))
    ensures r.Answer? ==> ("calibration" in r.value <==> NeedsTraining(ages.calibration))
    ensures r.Answer? && "anomaly" in r.value ==> r.value["anomaly"] == TrainKind(ModelTraining.AnomalyModel, data.value)
    ensures r.Answer? && "drift" in r.value ==> r.value["drift"] == TrainKind(ModelTraining.DriftModel, data.value)
    ensures r.Answer? && "calibration" in r.value ==>
      r.value["calibration"] == TrainKind(ModelTraining.CalibrationModel, data.value)
  {
    if data.None? {
      return ServerError;
    }
    var sensor := data.value;
    var idText := ModelTraining.IntText(sensor.id);
    var needs: seq<string> := [];
    var i := 0;
    while i < |Kinds|
      invariant 0 <= i <= |Kinds|
      invariant needs == NeedsList(ages, Kinds[..i])
    {
      assert Kinds[..i + 1][..i] == Kinds[..i];
      var k := Kinds[i];
      if NeedsTraining(AgeOf(ages, k)) {
        var file := ModelTraining.ModelFileName(ModelTraining.KindName(k), sensor.name, idText);
        ModelTraining.ModelTypeRoundTrip(k, sensor.name, idText);
        needs := needs + [ModelTraining.ParseModelType(file)];
      }
      i := i + 1;
    }
    assert Kinds[..|Kinds|] == Kinds;
    NeedsListOfKinds(ages);
    var results := TrainNamed("anomaly" in needs, "drift" in needs, "calibration" in needs, sensor);
    r := Answer(results);
  }
}
