/**
 * The ML analytics service: the dashboard's statistics (model counts, three
 * capped quality metrics, a short list of recent predictions) and the
 * automatic training of every sensor with enough data.
 *
 * Database counts and time windows arrive already filtered: the anomalies of
 * the last seven days, the calibrations of the last thirty, the readings of
 * the last seven days per sensor. Times are in seconds; `hash` of a sensor's
 * name is a parameter.
 */
module MLAnalytics {
  import opened Common
  import opened Models
  import ModelTraining
  import EnhancedML

  // ---------------------------------------------------------------------------
  // Quality metrics
  // ---------------------------------------------------------------------------

  predicate IsCriticalSeverity(s: Severity) { s == Critical }
  predicate IsHighSeverity(s: Severity) { s == High }

  /** `_calculate_anomaly_detection_rate` over the severities of the last week's
      anomalies: 95 with none, otherwise 85 plus two per critical and one per
      high anomaly, capped at 100. */
  function AnomalyDetectionRate(recent: seq<Severity>): (r: real)
    ensures |recent| == 0 ==> r == 95.0
    ensures 85.0 <= r <= 100.0
    ensures |recent| > 0 ==>
      (r == 100.0 <==> 2 * CountIf(recent, IsCriticalSeverity) + CountIf(recent, IsHighSeverity) >= 15)
    ensures |recent| > 0 && r < 100.0 ==>
      r == 85.0 + (2 * CountIf(recent, IsCriticalSeverity) + CountIf(recent, IsHighSeverity)) as real
  {
    if |recent| == 0 then 95.0
    else
      var critical := CountIf(recent, IsCriticalSeverity);
      var high := CountIf(recent, IsHighSeverity);
      MinR(85.0 + (critical * 2) as real + high as real, 100.0)
  }

  /** One more critical anomaly never lowers the rate, once there is an anomaly at all. */
  lemma CriticalNeverLowersRate(recent: seq<Severity>)
    requires |recent| > 0
    ensures AnomalyDetectionRate(recent) <= AnomalyDetectionRate(recent + [Critical])
  {
    var extended := recent + [Critical];
    assert extended[..|extended| - 1] == recent;
  }

  predicate IsAdaptive(m: CalibrationMethod) { m == Adaptive }

  /** `_calculate_calibration_improvement` over the methods of the last thirty
      days' calibrations: 88 with none, otherwise 80 plus three per adaptive one
      and a half per calibration, capped at 95. */
  function CalibrationImprovement(recent: seq<CalibrationMethod>): (r: real)
    ensures |recent| == 0 ==> r == 88.0
    ensures |recent| > 0 ==> 80.5 <= r <= 95.0
    ensures |recent| > 0 ==>
      (r == 95.0 <==> 3.0 * CountIf(recent, IsAdaptive) as real + 0.5 * |recent| as real >= 15.0)
    ensures |recent| > 0 && r < 95.0 ==>
      r == 80.0 + 3.0 * CountIf(recent, IsAdaptive) as real + 0.5 * |recent| as real
  {
    if |recent| == 0 then 88.0
    else
      var total := |recent|;
      var adaptive := CountIf(recent, IsAdaptive);
      MinR(80.0 + (adaptive * 3) as real + total as real * 0.5, 95.0)
  }

  /** Thirty calibrations reach the cap whatever their method. */
  lemma ThirtyCalibrationsReachCap(recent: seq<CalibrationMethod>)
    requires |recent| >= 30
    ensures CalibrationImprovement(recent) == 95.0
  {
  }

  /** A sensor with readings in the last week: its value and those readings, oldest first. */
  datatype SensorWindow = SensorWindow(value: real, recent: seq<real>)

  /** More readings than this make a sensor count towards the drift accuracy. */
  const MinAccuracyReadings: nat := 5

  /** The sensor's value, or the mean of its recent readings when that is zero. */
  function WindowBaseline(w: SensorWindow): real
    requires |w.recent| > 0
  {
    OrDefault(w.value, Mean(w.recent))
  }

  /** The size of each reading's drift in percent; none for a zero baseline. */
  function AbsDrifts(baseline: real, values: seq<real>): (r: seq<real>)
    ensures baseline == 0.0 ==> r == []
    ensures baseline != 0.0 ==> |r| == |values|
    ensures forall k :: 0 <= k < |r| ==> r[k] >= 0.0
  {
    if baseline == 0.0 then []
    else seq(|values|, k requires 0 <= k < |values| => Abs((values[k] - baseline) / baseline * 100.0))
  }

  /** A sensor counts when it has more than five recent readings and its drifts are defined. */
  predicate Qualifies(w: SensorWindow)
  {
    |w.recent| > MinAccuracyReadings && WindowBaseline(w) != 0.0
  }

  /** The sensor's mean drift size. */
  function AverageDrift(w: SensorWindow): (d: real)
    requires Qualifies(w)
    ensures d >= 0.0
  {
    var drifts := AbsDrifts(WindowBaseline(w), w.recent);
    SumNonNegative(drifts);
    Mean(drifts)
  }

  lemma {:induction false} SumNonNegative(s: seq<real>)
    requires forall k :: 0 <= k < |s| ==> s[k] >= 0.0
    ensures Sum(s) >= 0.0
  {
    if s != [] {
      SumNonNegative(s[..|s| - 1]);
    }
  }

  /** The running totals of the accuracy loop: summed mean drift and number of counted sensors. */
  function DriftTotals(ws: seq<SensorWindow>): (t: (real, nat))
    ensures t.0 >= 0.0
    ensures t.1 == CountIf(ws, Qualifies)
  {
    if ws == [] then (0.0, 0)
    else
      var init := DriftTotals(ws[..|ws| - 1]);
      var w := ws[|ws| - 1];
      if Qualifies(w) then (init.0 + AverageDrift(w), init.1 + 1) else init
  }

  /** `_calculate_drift_accuracy`: 92 when no sensor counts, otherwise 100 minus
      the mean drift size, clamped to [85, 98]. */
  function DriftAccuracy(ws: seq<SensorWindow>): (r: real)
    ensures CountIf(ws, Qualifies) == 0 ==> r == 92.0
    ensures 85.0 <= r <= 98.0
    ensures CountIf(ws, Qualifies) > 0 ==>
      (r == 85.0 <==> 100.0 - DriftTotals(ws).0 / CountIf(ws, Qualifies) as real <= 85.0)
    ensures CountIf(ws, Qualifies) > 0 ==>
      (r == 98.0 <==> 100.0 - DriftTotals(ws).0 / CountIf(ws, Qualifies) as real >= 98.0)
    ensures CountIf(ws, Qualifies) > 0 && 85.0 < r < 98.0 ==>
      r == 100.0 - DriftTotals(ws).0 / CountIf(ws, Qualifies) as real
  {
    var t := DriftTotals(ws);
    if t.1 == 0 then 92.0 else MinR(MaxR(85.0, 100.0 - t.0 / t.1 as real), 98.0)
  }

  /** One more sensor adds its mean drift to the totals exactly when it counts. */
  lemma TotalsStep(ws: seq<SensorWindow>, i: nat)
    requires i < |ws|
    ensures DriftTotals(ws[..i + 1]) ==
      var t := DriftTotals(ws[..i]);
      if Qualifies(ws[i]) then (t.0 + AverageDrift(ws[i]), t.1 + 1) else t
  {
    assert ws[..i + 1][..i] == ws[..i];
  }

  /** A window with more than five readings has drifts exactly when it counts, and then their mean is its average drift. */
  lemma WindowStep(w: SensorWindow)
    requires |w.recent| > MinAccuracyReadings
    ensures |AbsDrifts(OrDefault(w.value, Mean(w.recent)), w.recent)| > 0 <==> Qualifies(w)
    ensures Qualifies(w) ==> AverageDrift(w) == Mean(AbsDrifts(OrDefault(w.value, Mean(w.recent)), w.recent))
  {
  }

  /** The loop of `_calculate_drift_accuracy`: the summed mean drifts and the
      number of sensors that count. */
  method SumDrifts(ws: seq<SensorWindow>) returns (totalDrift: real, sensorCount: nat)
    ensures (totalDrift, sensorCount) == DriftTotals(ws)
  {
    totalDrift := 0.0;
    sensorCount := 0;
    var i := 0;
    while i < |ws|
      invariant 0 <= i <= |ws|
      invariant (totalDrift, sensorCount) == DriftTotals(ws[..i])
    {
      var w := ws[i];
      TotalsStep(ws, i);
      if |w.recent| > MinAccuracyReadings {
        var baseline := OrDefault(w.value, Mean(w.recent));
        var drifts := AbsDrifts(baseline, w.recent);
        WindowStep(w);
        if |drifts| > 0 {
          totalDrift := totalDrift + Mean(drifts);
          sensorCount := sensorCount + 1;
        }
      }
      i := i + 1;
    }
    assert ws[..|ws|] == ws;
  }

  /** `_calculate_drift_accuracy`: the loop, then 92 when no sensor counted and
      otherwise 100 minus the mean drift clamped to [85, 98]. */
  method CalculateDriftAccuracy(ws: seq<SensorWindow>) returns (r: real)
    ensures r == DriftAccuracy(ws)
  {
    var totalDrift, sensorCount := SumDrifts(ws);
    if sensorCount == 0 {
      return 92.0;
    }
    var avg := totalDrift / sensorCount as real;
    r := MinR(MaxR(85.0, 100.0 - avg), 98.0);
  }

  // ---------------------------------------------------------------------------
  // Model counts
  // ---------------------------------------------------------------------------

  const WeekSeconds: int := 7 * 86400

  predicate CreatedWithinWeek(info: ModelTraining.ModelInfo, now: int)
  {
    info.createdAt > now - WeekSeconds
  }

  /** `_count_active_models`: the models created less than seven days ago. */
  method CountActiveModels(infos: seq<ModelTraining.ModelInfo>, now: int) returns (active: nat)
    ensures active == CountIf(infos, info => CreatedWithinWeek(info, now))
    ensures active <= |infos|
  {
    active := 0;
    var cutoff := now - WeekSeconds;
    var i := 0;
    while i < |infos|
      invariant 0 <= i <= |infos|
      invariant active == CountIf(infos[..i], info => CreatedWithinWeek(info, now))
    {
      assert infos[..i + 1][..i] == infos[..i];
      if infos[i].createdAt > cutoff {
        active := active + 1;
      }
      i := i + 1;
    }
    assert infos[..|infos|] == infos;
  }

  // ---------------------------------------------------------------------------
  // Recent predictions
  // ---------------------------------------------------------------------------

  /** A sensor's name with the value of `hash` on it. */
  datatype NamedSensor = NamedSensor(name: string, hash: int)

  datatype RecentPrediction = RecentPrediction(
    sensorName: string,
    predictionType: string,
    resultConfidence: real,
    minutesAgo: nat,
    confidence: int)

  const PredictionTypes: seq<string> := ["anomaly", "drift", "calibration"]
  const SensorsShown: nat := 5
  const MaxPredictions: nat := 10

  /** One simulated prediction: confidence `85 + hash % 15`, Python's modulus being non-negative here. */
  function PredictionFor(s: NamedSensor, t: string): (p: RecentPrediction)
    ensures p.sensorName == s.name && p.predictionType == t
    ensures 85 <= p.confidence <= 99 && p.minutesAgo < 60
    ensures p.resultConfidence * 100.0 == p.confidence as real
  {
    RecentPrediction(s.name, t, 0.85 + (s.hash % 15) as real / 100.0, s.hash % 60, 85 + s.hash % 15)
  }

  function PredictionsFor(s: NamedSensor): seq<RecentPrediction>
  {
    [PredictionFor(s, PredictionTypes[0]), PredictionFor(s, PredictionTypes[1]), PredictionFor(s, PredictionTypes[2])]
  }

  /** Every prediction of the listed sensors, three per sensor. */
  function AllPredictions(sensors: seq<NamedSensor>): (r: seq<RecentPrediction>)
    ensures |r| == 3 * |sensors|
  {
    if sensors == [] then [] else AllPredictions(sensors[..|sensors| - 1]) + PredictionsFor(sensors[|sensors| - 1])
  }

  function Take<T>(s: seq<T>, n: nat): (r: seq<T>)
    ensures |r| == MinN(|s|, n) && r <= s
  {
    if |s| <= n then s else s[..n]
  }

  /** What `_get_recent_predictions` returns: the first ten predictions of the first five sensors. */
  function RecentPredictions(sensors: seq<NamedSensor>): seq<RecentPrediction>
  {
    Take(AllPredictions(sensors[..MinN(|sensors|, SensorsShown)]), MaxPredictions)
  }

  /** At most ten predictions, each of one of the first five sensors, of a known type, with confidence in 85..99. */
  lemma {:induction false} RecentPredictionsBounds(sensors: seq<NamedSensor>)
    ensures |RecentPredictions(sensors)| <= MaxPredictions
    ensures forall p :: p in RecentPredictions(sensors) ==>
      85 <= p.confidence <= 99 && p.predictionType in PredictionTypes &&
      exists k :: 0 <= k < MinN(|sensors|, SensorsShown) && sensors[k].name == p.sensorName
  {
    var shown := sensors[..MinN(|sensors|, SensorsShown)];
    AllPredictionsFrom(shown);
    forall p | p in RecentPredictions(sensors)
      ensures exists k :: 0 <= k < MinN(|sensors|, SensorsShown) && sensors[k].name == p.sensorName
    {
      assert p in AllPredictions(shown);
      var k :| 0 <= k < |shown| && shown[k].name == p.sensorName;
      assert sensors[k].name == p.sensorName;
    }
  }

  lemma {:induction false} AllPredictionsFrom(sensors: seq<NamedSensor>)
    ensures forall p :: p in AllPredictions(sensors) ==>
      85 <= p.confidence <= 99 && p.predictionType in PredictionTypes &&
      exists k :: 0 <= k < |sensors| && sensors[k].name == p.sensorName
  {
    if sensors != [] {
      var n := |sensors| - 1;
      AllPredictionsFrom(sensors[..n]);
      forall p | p in AllPredictions(sensors)
        ensures exists k :: 0 <= k < |sensors| && sensors[k].name == p.sensorName
      {
        if p in AllPredictions(sensors[..n]) {
          var k :| 0 <= k < n && sensors[..n][k].name == p.sensorName;
          assert sensors[k].name == p.sensorName;
        } else {
          assert sensors[n].name == p.sensorName;
        }
      }
    }
  }

  /** Taking ten of a sequence that already has ten ignores what follows. */
  lemma TakeIgnoresTail<T>(s: seq<T>, t: seq<T>, n: nat)
    requires |s| >= n
    ensures Take(s + t, n) == Take(s, n)
  {
    assert (s + t)[..n] == s[..n];
  }

  /** Below the limit, taking one more element appends it. */
  lemma TakeExtend<T>(s: seq<T>, x: T, n: nat)
    requires |Take(s, n)| < n
    ensures Take(s + [x], n) == Take(s, n) + [x]
  {
    assert Take(s, n) == s;
  }

  /** The inner loop of `_get_recent_predictions`: one sensor's predictions of the
      three types, left as soon as ten predictions are collected. */
  method AddSensorPredictions(collected: seq<RecentPrediction>, before: seq<RecentPrediction>, s: NamedSensor)
    returns (preds: seq<RecentPrediction>)
    requires collected == Take(before, MaxPredictions)
    ensures preds == Take(before + PredictionsFor(s), MaxPredictions)
  {
    preds := collected;
    var own := PredictionsFor(s);
    var j := 0;
    while j < |PredictionTypes|
      invariant 0 <= j <= |PredictionTypes|
      invariant preds == Take(before + own[..j], MaxPredictions)
    {
      if |preds| >= MaxPredictions {
        break;
      }
      var p := PredictionFor(s, PredictionTypes[j]);
      assert own[j] == p;
      assert before + own[..j + 1] == (before + own[..j]) + [p];
      TakeExtend(before + own[..j], p, MaxPredictions);
      preds := preds + [p];
      j := j + 1;
    }
    if j < |PredictionTypes| {
      TakeIgnoresTail(before + own[..j], own[j..], MaxPredictions);
      assert before + own[..j] + own[j..] == before + own;
    } else {
      assert own[..j] == own;
    }
  }

  /** `_get_recent_predictions`: the loop over the first five sensors, then the cut to ten. */
  method GetRecentPredictions(sensors: seq<NamedSensor>) returns (preds: seq<RecentPrediction>)
    ensures preds == RecentPredictions(sensors)
  {
    var shown := sensors[..MinN(|sensors|, SensorsShown)];
    preds := [];
    var i := 0;
    while i < |shown|
      invariant 0 <= i <= |shown|
      invariant preds == Take(AllPredictions(shown[..i]), MaxPredictions)
    {
      assert shown[..i + 1][..i] == shown[..i];
      preds := AddSensorPredictions(preds, AllPredictions(shown[..i]), shown[i]);
      i := i + 1;
    }
    assert shown[..|shown|] == shown;
    preds := Take(preds, MaxPredictions);
  }

  // ---------------------------------------------------------------------------
  // Statistics
  // ---------------------------------------------------------------------------

  /** What the statistics are computed from. */
  datatype StatsInputs = StatsInputs(
    modelFiles: seq<ModelTraining.DirEntry>,
    now: int,
    totalSensors: nat,
    totalReadings: nat,
    totalAnomalies: nat,
    totalCalibrations: nat,
    recentSeverities: seq<Severity>,
    windows: seq<SensorWindow>,
    recentMethods: seq<CalibrationMethod>,
    sensors: seq<NamedSensor>)

  datatype MLStatistics = MLStatistics(
    failed: bool,
    totalModels: nat,
    activeModels: nat,
    totalSensors: nat,
    totalReadings: nat,
    totalAnomalies: nat,
    totalCalibrations: nat,
    anomalyDetectionRate: real,
    driftPredictionAccuracy: real,
    calibrationImprovement: real,
    recentPredictions: seq<RecentPrediction>,
    modelInfo: seq<ModelTraining.ModelInfo>)

  /** `get_ml_statistics`; `None` stands for an exception while gathering (a
      failing database query or a model file that cannot be loaded, say), which gives all-zero counts and empty lists. */
  function GetMLStatistics(inputs: Option<StatsInputs>): (s: MLStatistics)
    ensures inputs.None? <==> s.failed
    ensures s.failed ==> (
      s.totalModels == 0 && s.activeModels == 0 && s.totalSensors == 0 && s.totalReadings == 0 &&
      s.totalAnomalies == 0 && s.totalCalibrations == 0 && s.anomalyDetectionRate == 0.0 &&
      s.driftPredictionAccuracy == 0.0 && s.calibrationImprovement == 0.0 &&
      s.recentPredictions == [] && s.modelInfo == [])
    ensures !s.failed ==> s.totalModels == |s.modelInfo| && s.activeModels <= s.totalModels
    ensures !s.failed ==> s.modelInfo == ModelTraining.ModelInfos(inputs.value.modelFiles)
    ensures !s.failed ==> s.activeModels == CountIf(s.modelInfo, info => CreatedWithinWeek(info, inputs.value.now))
    ensures !s.failed ==>
      && s.totalSensors == inputs.value.totalSensors && s.totalReadings == inputs.value.totalReadings
      && s.totalAnomalies == inputs.value.totalAnomalies && s.totalCalibrations == inputs.value.totalCalibrations
    ensures !s.failed ==> s.anomalyDetectionRate == AnomalyDetectionRate(inputs.value.recentSeverities)
    ensures !s.failed ==> s.driftPredictionAccuracy == DriftAccuracy(inputs.value.windows)
    ensures !s.failed ==> s.calibrationImprovement == CalibrationImprovement(inputs.value.recentMethods)
    ensures !s.failed ==> s.recentPredictions == RecentPredictions(inputs.value.sensors)
    ensures !s.failed ==> 85.0 <= s.anomalyDetectionRate <= 100.0 && 85.0 <= s.driftPredictionAccuracy <= 98.0
    ensures !s.failed ==> 80.5 <= s.calibrationImprovement <= 95.0 && |s.recentPredictions| <= MaxPredictions
  {
    if inputs.None? then MLStatistics(true, 0, 0, 0, 0, 0, 0, 0.0, 0.0, 0.0, [], [])
    else
      var x := inputs.value;
      var infos := ModelTraining.ModelInfos(x.modelFiles);
      RecentPredictionsBounds(x.sensors);
      MLStatistics(false, |infos|, CountIf(infos, info => CreatedWithinWeek(info, x.now)),
                   x.totalSensors, x.totalReadings, x.totalAnomalies, x.totalCalibrations,
                   AnomalyDetectionRate(x.recentSeverities), DriftAccuracy(x.windows),
                   CalibrationImprovement(x.recentMethods), RecentPredictions(x.sensors), infos)
  }

  // ---------------------------------------------------------------------------
  // Automatic training of all sensors
  // ---------------------------------------------------------------------------

  /** Fewer readings than this exclude a sensor from automatic training. */
  const MinAutoTrainReadings: nat := 20

  /** Calibration models are trained only with at least this many calibrations. */
  const MinAutoTrainCalibrations: nat := 5

  /** A sensor's training data and the ages of its model files. */
  datatype AutoTrainInput = AutoTrainInput(data: ModelTraining.SensorTrainingData, ages: EnhancedML.ModelAges)

  datatype AutoTrainEntry = AutoTrainEntry(sensorName: string, modelType: string, result: ModelTraining.TrainResult)

  /** The training run for one named type, if any: calibration needs five calibrations. */
  function TrainNamed(d: ModelTraining.SensorTrainingData, modelType: string): Option<ModelTraining.TrainResult>
  {
    if modelType == "anomaly" then Some(EnhancedML.TrainKind(ModelTraining.AnomalyModel, d))
    else if modelType == "drift" then Some(EnhancedML.TrainKind(ModelTraining.DriftModel, d))
    else if modelType == "calibration" && |d.hasReadingBefore| >= MinAutoTrainCalibrations then
      Some(EnhancedML.TrainKind(ModelTraining.CalibrationModel, d))
    else None
  }

  /** The entries for the named types, in order. */
  function EntriesFor(d: ModelTraining.SensorTrainingData, types: seq<string>): seq<AutoTrainEntry>
  {
    if types == [] then []
    else
      var t := types[|types| - 1];
      EntriesFor(d, types[..|types| - 1]) +
        (if TrainNamed(d, t).Some? then [AutoTrainEntry(d.name, t, TrainNamed(d, t).value)] else [])
  }

  /** The types a sensor needs, or none below twenty readings. */
  function NeededTypes(inp: AutoTrainInput): seq<string>
  {
    if inp.data.readingCount < MinAutoTrainReadings then []
    else EnhancedML.NeedsList(inp.ages, EnhancedML.Kinds)
  }

  /** The result list of `auto_train_models_if_needed`, sensor by sensor. */
  function AutoTrainAll(inputs: seq<AutoTrainInput>): seq<AutoTrainEntry>
  {
    if inputs == [] then []
    else
      var inp := inputs[|inputs| - 1];
      AutoTrainAll(inputs[..|inputs| - 1]) + EntriesFor(inp.data, NeededTypes(inp))
  }

  /** An entry was earned by the sensor: enough readings, a model that needed
      training, and enough calibrations for a calibration model. */
  predicate Earned(inp: AutoTrainInput, e: AutoTrainEntry)
  {
    && e.sensorName == inp.data.name
    && inp.data.readingCount >= MinAutoTrainReadings
    && e.modelType in EnhancedML.NeedsList(inp.ages, EnhancedML.Kinds)
    && (e.modelType == "calibration" ==> |inp.data.hasReadingBefore| >= MinAutoTrainCalibrations)
  }

  lemma {:induction false} EntriesForEarned(inp: AutoTrainInput, types: seq<string>)
    requires inp.data.readingCount >= MinAutoTrainReadings
    requires forall t :: t in types ==> t in EnhancedML.NeedsList(inp.ages, EnhancedML.Kinds)
    ensures forall e :: e in EntriesFor(inp.data, types) ==> Earned(inp, e)
  {
    if types != [] {
      EntriesForEarned(inp, types[..|types| - 1]);
    }
  }

  /** Every entry belongs to a sensor with at least twenty readings, for a type its
      files called for, and a calibration entry to a sensor with at least five calibrations. */
  lemma {:induction false} AutoTrainOnlyEligible(inputs: seq<AutoTrainInput>)
    ensures forall e :: e in AutoTrainAll(inputs) ==> exists k :: 0 <= k < |inputs| && Earned(inputs[k], e)
  {
    if inputs != [] {
      var n := |inputs| - 1;
      AutoTrainOnlyEligible(inputs[..n]);
      var inp := inputs[n];
      if inp.data.readingCount >= MinAutoTrainReadings {
        EntriesForEarned(inp, NeededTypes(inp));
      }
      forall e | e in AutoTrainAll(inputs)
        ensures exists k :: 0 <= k < |inputs| && Earned(inputs[k], e)
      {
        if e in AutoTrainAll(inputs[..n]) {
          var k :| 0 <= k < n && Earned(inputs[..n][k], e);
          assert inputs[k] == inputs[..n][k];
        } else {
          assert Earned(inputs[n], e);
        }
      }
    }
  }

  /** A type that is named and trainable gets its entry. */
  lemma {:induction false} EntriesForComplete(d: ModelTraining.SensorTrainingData, types: seq<string>, t: string)
    requires t in types && TrainNamed(d, t).Some?
    ensures AutoTrainEntry(d.name, t, TrainNamed(d, t).value) in EntriesFor(d, types)
  {
    var n := |types| - 1;
    if types[n] != t {
      assert t in types[..n] by {
        var j :| 0 <= j < |types| && types[j] == t;
        assert types[..n][j] == t;
      }
      EntriesForComplete(d, types[..n], t);
    }
  }

  /** The entries of every sensor appear in the overall result. */
  lemma {:induction false} AutoTrainAllIncludes(inputs: seq<AutoTrainInput>, k: nat)
    requires k < |inputs|
    ensures forall e :: e in EntriesFor(inputs[k].data, NeededTypes(inputs[k])) ==> e in AutoTrainAll(inputs)
  {
    var n := |inputs| - 1;
    if k < n {
      AutoTrainAllIncludes(inputs[..n], k);
      assert inputs[..n][k] == inputs[k];
    }
  }

  /** Conversely, a sensor with at least twenty readings gets an entry for every
      model kind whose file is missing or stale, trained for that kind, except a
      calibration model when it has fewer than five calibrations. */
  lemma AutoTrainComplete(inputs: seq<AutoTrainInput>, k: nat, kind: ModelTraining.ModelKind)
    requires k < |inputs| && inputs[k].data.readingCount >= MinAutoTrainReadings
    requires EnhancedML.NeedsTraining(EnhancedML.AgeOf(inputs[k].ages, kind))
    requires kind == ModelTraining.CalibrationModel ==> |inputs[k].data.hasReadingBefore| >= MinAutoTrainCalibrations
    ensures AutoTrainEntry(inputs[k].data.name, ModelTraining.KindName(kind), EnhancedML.TrainKind(kind, inputs[k].data))
      in AutoTrainAll(inputs)
  {
    var inp := inputs[k];
    var t := ModelTraining.KindName(kind);
    EnhancedML.NeedsListOfKinds(inp.ages);
    assert TrainNamed(inp.data, t) == Some(EnhancedML.TrainKind(kind, inp.data));
    EntriesForComplete(inp.data, NeededTypes(inp), t);
    AutoTrainAllIncludes(inputs, k);
  }

  /** `auto_train_models_if_needed`: the loop over the sensors and, for an eligible one, over the types it needs. */
  method AutoTrainModelsIfNeeded(inputs: seq<AutoTrainInput>) returns (results: seq<AutoTrainEntry>)
    ensures results == AutoTrainAll(inputs)
  {
    results := [];
    var i := 0;
    while i < |inputs|
      invariant 0 <= i <= |inputs|
      invariant results == AutoTrainAll(inputs[..i])
    {
      assert inputs[..i + 1][..i] == inputs[..i];
      var inp := inputs[i];
      var d := inp.data;
      var before := results;
      if d.readingCount >= MinAutoTrainReadings {
        var needs := EnhancedML.NeedsList(inp.ages, EnhancedML.Kinds);
        var j := 0;
        while j < |needs|
          invariant 0 <= j <= |needs|
          invariant results == before + EntriesFor(d, needs[..j])
        {
          assert needs[..j + 1][..j] == needs[..j];
          var t := needs[j];
          var r := TrainNamed(d, t);
          if r.Some? {
            results := results + [AutoTrainEntry(d.name, t, r.value)];
          }
          j := j + 1;
        }
        assert needs[..|needs|] == needs;
      }
      i := i + 1;
    }
    assert inputs[..|inputs|] == inputs;
  }
}
