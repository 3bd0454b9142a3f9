/**
 * The model trainer: the names under which trained models are saved and the
 * way the model listing reads them back, the minimum-data guards of the three
 * trainings, and the per-sensor result map of "train all".
 *
 * The fitting itself (isolation forest, linear regression) and the file
 * system are not modelled: a training that passes its guards succeeds, and
 * the listing receives the directory's file names, creation times and sizes.
 */
module ModelTraining {
  import opened Common

  // ---------------------------------------------------------------------------
  // Splitting and joining on a separator
  // ---------------------------------------------------------------------------

  /** Python's `s.split(sep)` for a one-character separator. */
  function Split(s: string, sep: char): (parts: seq<string>)
    ensures |parts| >= 1
    decreases |s|
  {
    if s == [] then [""]
    else
      var rest := Split(s[1..], sep);
      if s[0] == sep then [""] + rest else [[s[0]] + rest[0]] + rest[1..]
  }

  /** Python's `sep.join(parts)`. */
  function Join(parts: seq<string>, sep: char): string
    requires |parts| >= 1
  {
    if |parts| == 1 then parts[0] else parts[0] + [sep] + Join(parts[1..], sep)
  }

  /** A text without the separator is not split. */
  lemma {:induction false} SplitNoSep(s: string, sep: char)
    requires sep !in s
    ensures Split(s, sep) == [s]
    decreases |s|
  {
    if s != [] {
      SplitNoSep(s[1..], sep);
      assert [s[0]] + s[1..] == s;
    }
  }

  /** Splitting around one separator splits both sides independently. */
  lemma {:induction false} SplitAround(a: string, b: string, sep: char)
    ensures Split(a + [sep] + b, sep) == Split(a, sep) + Split(b, sep)
    decreases |a|
  {
    if a == [] {
      assert a + [sep] + b == [sep] + b;
      assert ([sep] + b)[1..] == b;
    } else {
      assert (a + [sep] + b)[1..] == a[1..] + [sep] + b;
      SplitAround(a[1..], b, sep);
    }
  }

  /** Joining what was split gives the text back. */
  lemma {:induction false} JoinSplit(s: string, sep: char)
    ensures Join(Split(s, sep), sep) == s
    decreases |s|
  {
    if s != [] {
      JoinSplit(s[1..], sep);
      var rest := Split(s[1..], sep);
      if s[0] == sep {
        assert Split(s, sep)[1..] == rest;
      } else {
        var parts := Split(s, sep);
        if |rest| > 1 {
          assert parts[1..] == rest[1..];
          assert Join(rest, sep) == rest[0] + [sep] + Join(rest[1..], sep);
        }
      }
    }
  }

  // ---------------------------------------------------------------------------
  // Model file names
  // ---------------------------------------------------------------------------

  datatype ModelKind = AnomalyModel | DriftModel | CalibrationModel

  /** The kind's prefix in file names. */
  function KindName(k: ModelKind): string
  {
    match k
    case AnomalyModel => "anomaly"
    case DriftModel => "drift"
    case CalibrationModel => "calibration"
  }

  const Extension: string := ".joblib"

  /** `f'{kind}_model_{sensor_name}_{id}.joblib'`; the id part is the sensor id's
      text, or "all" for the anomaly model over every sensor. */
  function ModelFileName(kindName: string, sensorName: string, idText: string): string
  {
    kindName + "_model_" + sensorName + "_" + idText + Extension
  }

  /** A plain head is split off as one piece. */
  lemma SplitPlainHead(a: string, b: string)
    requires '_' !in a
    ensures Split(a + ['_'] + b, '_') == [a] + Split(b, '_')
  {
    SplitAround(a, b, '_');
    SplitNoSep(a, '_');
  }

  /** How a file name splits: the kind, "model", the pieces of the sensor name, and the id with the extension. */
  lemma FileNameParts(kindName: string, sensorName: string, idText: string)
    requires '_' !in kindName && '_' !in idText
    ensures Split(ModelFileName(kindName, sensorName, idText), '_') ==
      [kindName, "model"] + Split(sensorName, '_') + [idText + Extension]
  {
    var last := idText + Extension;
    assert '_' !in last by {
      assert forall k :: 0 <= k < |Extension| ==> Extension[k] != '_';
    }
    var t2 := sensorName + ['_'] + last;
    var t1 := "model" + ['_'] + t2;
    assert ModelFileName(kindName, sensorName, idText) == kindName + ['_'] + t1;
    SplitPlainHead(kindName, t1);
    SplitPlainHead("model", t2);
    SplitAround(sensorName, last, '_');
    SplitNoSep(last, '_');
  }

  /** The kind read back from a file name: the text before the first underscore. */
  function ParseModelType(filename: string): string
  {
    Split(filename, '_')[0]
  }

  /** The sensor name read back as `get_model_info` does: the third
      underscore-separated piece, or "unknown" when there are fewer than three. */
  function ParseSensorNameAsWritten(filename: string): string
  {
    var parts := Split(filename, '_');
    if |parts| > 2 then parts[2] else "unknown"
  }

  /** The evidently intended reading: everything between "model" and the id, so a
      sensor name with underscores survives. */
  function ParseSensorName(filename: string): string
  {
    var parts := Split(filename, '_');
    if |parts| > 3 then Join(parts[2..|parts| - 1], '_')
    else if |parts| > 2 then parts[2]
    else "unknown"
  }

  /** Parsing recovers the kind of every file the trainer writes. */
  lemma ModelTypeRoundTrip(k: ModelKind, sensorName: string, idText: string)
    requires '_' !in idText
    ensures ParseModelType(ModelFileName(KindName(k), sensorName, idText)) == KindName(k)
  {
    FileNameParts(KindName(k), sensorName, idText);
  }

  /** The corrected parse recovers every sensor name. */
  lemma SensorNameRoundTrip(k: ModelKind, sensorName: string, idText: string)
    requires '_' !in idText
    ensures ParseSensorName(ModelFileName(KindName(k), sensorName, idText)) == sensorName
  {
    FileNameParts(KindName(k), sensorName, idText);
    var parts := Split(ModelFileName(KindName(k), sensorName, idText), '_');
    assert parts[2..|parts| - 1] == Split(sensorName, '_');
    JoinSplit(sensorName, '_');
  }

  /** The source's parse agrees with the corrected one exactly for names without an underscore. */
  lemma AsWrittenParseOnPlainNames(k: ModelKind, sensorName: string, idText: string)
    requires '_' !in idText && '_' !in sensorName
    ensures ParseSensorNameAsWritten(ModelFileName(KindName(k), sensorName, idText)) == sensorName
  {
    FileNameParts(KindName(k), sensorName, idText);
    SplitNoSep(sensorName, '_');
  }

  /** A sensor whose name has an underscore is listed under the part before it,
      which is not its name: "Temp_A" is listed as "Temp". */
  lemma AsWrittenParseTruncates(k: ModelKind, head: string, tail: string, idText: string)
    requires '_' !in idText && '_' !in head
    ensures ParseSensorNameAsWritten(ModelFileName(KindName(k), head + "_" + tail, idText)) == head
    ensures head != head + "_" + tail
  {
    var name := head + "_" + tail;
    FileNameParts(KindName(k), name, idText);
    assert name == head + ['_'] + tail;
    SplitPlainHead(head, tail);
    assert |name| > |head|;
  }

  /** The anomaly model over all sensors is listed under the name "all". */
  lemma AllSensorsModelListedAsAll()
    ensures ParseSensorNameAsWritten(ModelFileName("anomaly", "all_sensors", "all")) == "all"
  {
    AsWrittenParseTruncates(AnomalyModel, "all", "sensors", "all");
    assert "all" + "_" + "sensors" == "all_sensors";
  }

  // ---------------------------------------------------------------------------
  // Model listing
  // ---------------------------------------------------------------------------

  /** A directory entry: file name, creation time and size in bytes. */
  datatype DirEntry = DirEntry(filename: string, createdAt: int, sizeBytes: nat)

  datatype ModelInfo = ModelInfo(filename: string, modelType: string, sensorName: string, createdAt: int, sizeKb: real)

  predicate EndsWith(s: string, suffix: string)
  {
    |suffix| <= |s| && s[|s| - |suffix|..] == suffix
  }

  predicate IsModelFile(e: DirEntry)
  {
    EndsWith(e.filename, Extension)
  }

  function InfoOf(e: DirEntry): (info: ModelInfo)
    ensures info.filename == e.filename && info.createdAt == e.createdAt
    ensures info.modelType == ParseModelType(e.filename)
    ensures info.sensorName == ParseSensorName(e.filename)
    ensures Abs(info.sizeKb - e.sizeBytes as real / 1024.0) <= 0.005
    ensures (info.sizeKb * 100.0).Floor as real == info.sizeKb * 100.0
  {
    ModelInfo(e.filename, ParseModelType(e.filename), ParseSensorName(e.filename), e.createdAt,
              Round2(e.sizeBytes as real / 1024.0))
  }

  /** The listing: one entry per ".joblib" file, in directory order. */
  function ModelInfos(entries: seq<DirEntry>): (infos: seq<ModelInfo>)
    ensures |infos| == CountIf(entries, IsModelFile)
  {
    if entries == [] then []
    else
      var last := entries[|entries| - 1];
      ModelInfos(entries[..|entries| - 1]) + (if IsModelFile(last) then [InfoOf(last)] else [])
  }

  /** Only ".joblib" files are listed, and each listed name comes from the directory. */
  lemma {:induction false} ListedAreModelFiles(entries: seq<DirEntry>)
    ensures forall info :: info in ModelInfos(entries) ==>
      EndsWith(info.filename, Extension) && exists e :: e in entries && info == InfoOf(e)
  {
    if entries != [] {
      var init := entries[..|entries| - 1];
      ListedAreModelFiles(init);
      forall info | info in ModelInfos(init)
        ensures exists e :: e in entries && info == InfoOf(e)
      {
        var e :| e in init && info == InfoOf(e);
        assert e in entries;
      }
    }
  }

  /** `get_model_info`: the loop over the directory. */
  method GetModelInfo(entries: seq<DirEntry>) returns (infos: seq<ModelInfo>)
    ensures infos == ModelInfos(entries)
  {
    infos := [];
    var i := 0;
    while i < |entries|
      invariant 0 <= i <= |entries|
      invariant infos == ModelInfos(entries[..i])
    {
      assert entries[..i + 1][..i] == entries[..i];
      if EndsWith(entries[i].filename, Extension) {
        infos := infos + [InfoOf(entries[i])];
      }
      i := i + 1;
    }
    assert entries[..|entries|] == entries;
  }

  // ---------------------------------------------------------------------------
  // Training guards
  // ---------------------------------------------------------------------------

  const MinAnomalyReadings: nat := 10
  const MinDriftReadings: nat := 20
  const MinDriftSamples: nat := 10
  const MinCalibrations: nat := 5
  const MinUsableCalibrations: nat := 3

  /** Outcome of one training: saved under a file name with so many samples, too
      little data (with the source's message), or failed because the sensor is unknown. */
  datatype TrainResult =
    | Trained(filename: string, samples: nat)
    | NotEnoughData(message: string)
    | TrainingFailed

  /** The name part of an anomaly model's file: the sensor's name when an id is
      given (0 counts as none), "all_sensors" otherwise. */
  function AnomalySensorName(sensorId: Option<int>, sensorName: Option<string>): (n: string)
    ensures sensorId.Some? && sensorId.value != 0 && sensorName.Some? ==> n == sensorName.value
    ensures !(sensorId.Some? && sensorId.value != 0) ==> n == "all_sensors"
  {
    if sensorId.Some? && sensorId.value != 0 && sensorName.Some? then sensorName.value else "all_sensors"
  }

  /** The id part of an anomaly model's file: `sensor_id or "all"`. */
  function AnomalyIdText(sensorId: Option<int>): (t: string)
    ensures sensorId.Some? && sensorId.value != 0 ==> t == IntText(sensorId.value)
    ensures !(sensorId.Some? && sensorId.value != 0) ==> t == "all"
  {
    if sensorId.Some? && sensorId.value != 0 then IntText(sensorId.value) else "all"
  }

  /** `train_anomaly_detection_model`. With a sensor id (0 counts as none) the
      sensor's readings are used and an unknown sensor fails; without one, all
      readings are used under the name "all_sensors" and the id "all". */
  function TrainAnomaly(sensorId: Option<int>, sensorName: Option<string>, readingCount: nat): (r: TrainResult)
    ensures r == TrainingFailed <==> sensorId.Some? && sensorId.value != 0 && sensorName.None?
    ensures r.NotEnoughData? <==> readingCount < MinAnomalyReadings && !(sensorId.Some? && sensorId.value != 0 && sensorName.None?)
    ensures r.Trained? ==> r.samples == readingCount && r.samples >= MinAnomalyReadings
    ensures r.Trained? ==> ParseModelType(r.filename) == "anomaly"
    ensures r.Trained? ==>
      r.filename == ModelFileName("anomaly", AnomalySensorName(sensorId, sensorName), AnomalyIdText(sensorId))
  {
    if sensorId.Some? && sensorId.value != 0 then
      if sensorName.None? then TrainingFailed
      else if readingCount < MinAnomalyReadings then NotEnoughData("Not enough data for training (need at least 10 readings)")
      else
        ModelTypeRoundTrip(AnomalyModel, sensorName.value, IntText(sensorId.value));
        Trained(ModelFileName("anomaly", sensorName.value, IntText(sensorId.value)), readingCount)
    else if readingCount < MinAnomalyReadings then NotEnoughData("Not enough data for training (need at least 10 readings)")
    else
      ModelTypeRoundTrip(AnomalyModel, "all_sensors", "all");
      Trained(ModelFileName("anomaly", "all_sensors", "all"), readingCount)
  }

  /** Decimal text of an id (digits and possibly a minus sign; never an underscore). */
  function IntText(n: int): (s: string)
    ensures '_' !in s
  {
    if n < 0 then "-" + NatText(-n) else NatText(n)
  }

  function NatText(n: nat): (s: string)
    ensures |s| >= 1 && forall k :: 0 <= k < |s| ==> '0' <= s[k] <= '9'
  {
    if n < 10 then [('0' as int + n) as char] else NatText(n / 10) + [('0' as int + n % 10) as char]
  }

  /** The rolling window `min(5, n // 4)`. */
  function DriftWindow(n: nat): nat
  {
    MinN(5, n / 4)
  }

  /** `train_drift_prediction_model`: an unknown sensor fails; fewer than 20
      readings are too few; the n readings give n - 1 training pairs, and fewer
      than 10 pairs are too few as well. */
  function TrainDrift(sensorId: int, sensorName: Option<string>, readingCount: nat): (r: TrainResult)
    ensures sensorName.None? <==> r == TrainingFailed
    ensures r.NotEnoughData? <==> sensorName.Some? && readingCount < MinDriftReadings
    ensures r.Trained? ==> r.samples == readingCount - 1 && ParseModelType(r.filename) == "drift"
    ensures r.Trained? ==> r.filename == ModelFileName("drift", sensorName.value, IntText(sensorId))
  {
    if sensorName.None? then TrainingFailed
    else if readingCount < MinDriftReadings then NotEnoughData("Not enough data for drift prediction (need at least 20 readings)")
    else if readingCount - 1 < MinDriftSamples then NotEnoughData("Not enough data for training")
    else
      ModelTypeRoundTrip(DriftModel, sensorName.value, IntText(sensorId));
      Trained(ModelFileName("drift", sensorName.value, IntText(sensorId)), readingCount - 1)
  }

  /** Past the 20-reading guard the window is always 5 and the second guard never fires. */
  lemma DriftGuardsAfterTwenty(n: nat)
    requires n >= MinDriftReadings
    ensures DriftWindow(n) == 5
    ensures n - 1 >= MinDriftSamples
  {
  }

  /** `train_calibration_model`: an unknown sensor fails; fewer than 5
      calibrations are too few; only calibrations preceded by a reading are
      usable, and fewer than 3 of those are too few. */
  function TrainCalibration(sensorId: int, sensorName: Option<string>, hasReadingBefore: seq<bool>): (r: TrainResult)
    ensures sensorName.None? <==> r == TrainingFailed
    ensures sensorName.Some? && |hasReadingBefore| < MinCalibrations ==> r.NotEnoughData?
    ensures r.Trained? ==> |hasReadingBefore| >= MinCalibrations && r.samples >= MinUsableCalibrations
    ensures r.Trained? ==> r.samples == CountIf(hasReadingBefore, IsTrue) && ParseModelType(r.filename) == "calibration"
    ensures r.Trained? ==> r.filename == ModelFileName("calibration", sensorName.value, IntText(sensorId))
    ensures sensorName.Some? && |hasReadingBefore| >= MinCalibrations ==>
      (r.Trained? <==> CountIf(hasReadingBefore, IsTrue) >= MinUsableCalibrations)
  {
    if sensorName.None? then TrainingFailed
    else if |hasReadingBefore| < MinCalibrations then NotEnoughData("Not enough calibration data (need at least 5 calibrations)")
    else
      var usable := CountIf(hasReadingBefore, IsTrue);
      if usable < MinUsableCalibrations then NotEnoughData("Not enough calibration data with readings")
      else
        ModelTypeRoundTrip(CalibrationModel, sensorName.value, IntText(sensorId));
        Trained(ModelFileName("calibration", sensorName.value, IntText(sensorId)), usable)
  }

  // ---------------------------------------------------------------------------
  // Train all
  // ---------------------------------------------------------------------------

  /** What the trainer knows about one sensor: its id and name, its number of
      readings, and for each of its calibrations whether a reading precedes it. */
  datatype SensorTrainingData = SensorTrainingData(id: int, name: string, readingCount: nat, hasReadingBefore: seq<bool>)

  /** The three results kept per sensor. */
  datatype SensorResults = SensorResults(anomalyDetection: TrainResult, driftPrediction: TrainResult, calibration: TrainResult)

  function ResultsFor(s: SensorTrainingData): (r: SensorResults)
    ensures r.driftPrediction.Trained? <==> s.readingCount >= MinDriftReadings
  {
    SensorResults(TrainAnomaly(Some(s.id), Some(s.name), s.readingCount),
                  TrainDrift(s.id, Some(s.name), s.readingCount),
                  TrainCalibration(s.id, Some(s.name), s.hasReadingBefore))
  }

  /** A map keyed by sensor name holding `f` of each sensor; a later sensor with
      the same name replaces an earlier one, as a dict assignment does. */
  function ByName<R>(sensors: seq<SensorTrainingData>, f: SensorTrainingData -> R): map<string, R>
  {
    if sensors == [] then map[]
    else
      var last := sensors[|sensors| - 1];
      ByName(sensors[..|sensors| - 1], f)[last.name := f(last)]
  }

  /** The result map of `train_all_models`. */
  function TrainAllSpec(sensors: seq<SensorTrainingData>): map<string, SensorResults>
  {
    ByName(sensors, ResultsFor)
  }

  /** One step of the map: the last sensor's entry is set over the map of the others. */
  lemma TrainAllStep<R>(sensors: seq<SensorTrainingData>, f: SensorTrainingData -> R)
    requires sensors != []
    ensures ByName(sensors, f) ==
      ByName(sensors[..|sensors| - 1], f)[sensors[|sensors| - 1].name := f(sensors[|sensors| - 1])]
  {
  }

  /** Some sensor carries the name. */
  predicate NamedIn(sensors: seq<SensorTrainingData>, name: string)
  {
    exists k :: 0 <= k < |sensors| && sensors[k].name == name
  }

  /** The map has exactly one key per sensor name. */
  lemma {:induction false} TrainAllKeys<R>(sensors: seq<SensorTrainingData>, f: SensorTrainingData -> R)
    ensures forall name :: name in ByName(sensors, f) <==> NamedIn(sensors, name)
  {
    if sensors != [] {
      var n := |sensors| - 1;
      var init := sensors[..n];
      TrainAllKeys(init, f);
      TrainAllStep(sensors, f);
      var last := sensors[n];
      var m0 := ByName(init, f);
      var m := ByName(sensors, f);
      assert m.Keys == m0.Keys + {last.name};
      forall name ensures name in m <==> NamedIn(sensors, name) {
        NamedInExtend(sensors, name);
      }
    }
  }

  /** A name occurs among the sensors exactly when it occurs before the last or is the last one's. */
  lemma NamedInExtend(sensors: seq<SensorTrainingData>, name: string)
    requires sensors != []
    ensures NamedIn(sensors, name) <==>
      NamedIn(sensors[..|sensors| - 1], name) || sensors[|sensors| - 1].name == name
  {
    var n := |sensors| - 1;
    if NamedIn(sensors[..n], name) {
      var k :| 0 <= k < n && sensors[..n][k].name == name;
      assert sensors[k].name == name;
    }
    if NamedIn(sensors, name) && sensors[n].name != name {
      var k :| 0 <= k < |sensors| && sensors[k].name == name;
      assert sensors[..n][k].name == name;
    }
  }

  /** No later sensor carries the same name as the k-th. */
  predicate LastWithName(sensors: seq<SensorTrainingData>, k: nat)
    requires k < |sensors|
  {
    forall j :: k < j < |sensors| ==> sensors[j].name != sensors[k].name
  }

  /** A sensor's name maps to its own entry when no later sensor shares the name. */
  lemma {:induction false} TrainAllLastWins<R>(sensors: seq<SensorTrainingData>, f: SensorTrainingData -> R, k: nat)
    requires k < |sensors| && LastWithName(sensors, k)
    ensures sensors[k].name in ByName(sensors, f)
    ensures ByName(sensors, f)[sensors[k].name] == f(sensors[k])
  {
    var n := |sensors| - 1;
    TrainAllStep(sensors, f);
    if k < n {
      var init := sensors[..n];
      assert init[k] == sensors[k];
      assert LastWithName(init, k);
      TrainAllLastWins(init, f, k);
      assert sensors[n].name != sensors[k].name;
    }
  }

  /** `train_all_models`: the loop over the sensors. */
  method TrainAllModels(sensors: seq<SensorTrainingData>) returns (results: map<string, SensorResults>)
    ensures results == TrainAllSpec(sensors)
  {
    results := map[];
    var i := 0;
    while i < |sensors|
      invariant 0 <= i <= |sensors|
      invariant results == TrainAllSpec(sensors[..i])
    {
      assert sensors[..i + 1][..i] == sensors[..i];
      var s := sensors[i];
      results := results[s.name := ResultsFor(s)];
      i := i + 1;
    }
    assert sensors[..|sensors|] == sensors;
  }
}
