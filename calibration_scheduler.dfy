/**
 * The server-side calibration scheduler: turns a drift forecast into a dated,
 * prioritised calibration schedule (with a maintenance fallback), computes the
 * confidence of a recommendation, and issues calibration recommendations from
 * recent readings.
 *
 * Database lookups are parameters: the sensor (`None` when no row has that
 * id, which the source reports through its exception handler), the
 * application times of the sensor's calibrations newest first (in days), and
 * the recent readings newest first. The polyfit slope is a parameter. Dates
 * are day offsets from now.
 */
module CalibrationScheduler {
  import opened Common
  import opened ScheduleRule
  import Models

  datatype Priority = Low | Medium | High

  /** Why an entry is in the schedule; the reason text embeds the drift to one decimal. */
  datatype Reason = PredictedDrift(drift: real) | RegularMaintenance

  datatype ServerEntry = ServerEntry(
    dateOffset: real,
    reason: Reason,
    priority: Priority,
    driftValue: real,
    daysFromNow: real,
    confidence: real)

  datatype ScheduleResponse =
    | ScheduleOk(sensorName: string, calibrationSchedule: seq<ServerEntry>, avgIntervalDays: real,
                 lastCalibration: Option<real>, totalCalibrations: nat)
    | ScheduleError(calibrationSchedule: seq<ServerEntry>)

  const DefaultIntervalDays: real := 30.0
  const MaintenanceConfidence: real := 0.8
  /** Only the five most recent calibrations are considered. */
  const RecentCalibrations: nat := 5

  /** The mean gap between consecutive calibrations, in closed form: the gaps telescope. */
  function MeanGap(recent: seq<real>): real
    requires |recent| > 1
  {
    (recent[0] - recent[|recent| - 1]) / ((|recent| - 1) as real)
  }

  /** Average calibration interval over the most recent calibrations (newest first):
      30 days with at most one, otherwise the mean of the successive gaps. */
  method AverageInterval(recent: seq<real>) returns (avg: real)
    ensures |recent| <= 1 ==> avg == DefaultIntervalDays
    ensures |recent| > 1 ==> avg == MeanGap(recent)
  {
    if |recent| > 1 {
      var gaps: seq<real> := [];
      var total := 0.0;
      var i := 1;
      while i < |recent|
        invariant 1 <= i <= |recent|
        invariant |gaps| == i - 1
        invariant total == recent[0] - recent[i - 1]
      {
        gaps := gaps + [recent[i - 1] - recent[i]];
        total := total + (recent[i - 1] - recent[i]);
        i := i + 1;
      }
      avg := total / (|gaps| as real);
    } else {
      avg := DefaultIntervalDays;
    }
  }

  /** With calibrations listed newest first, the average interval is never negative. */
  lemma MeanGapNonNegative(recent: seq<real>)
    requires |recent| > 1
    requires forall i, j :: 0 <= i < j < |recent| ==> recent[i] >= recent[j]
    ensures MeanGap(recent) >= 0.0
  {
    assert recent[0] - recent[|recent| - 1] >= 0.0;
  }

  /** Per-type weight of a recommendation's confidence. */
  function SensorFactor(t: Models.SensorType): (f: real)
    ensures 0.75 <= f <= 0.9
  {
    match t
    case Temperature => 0.9
    case Pressure => 0.85
    case Humidity => 0.8
    case Vibration => 0.75
    case Flow => 0.8
    case OtherType(_) => 0.8
  }

  /** Confidence of a drift-triggered recommendation: 0.7 plus up to 0.2, scaled by
      the sensor type, capped at 0.95. */
  function CalibrationConfidence(drift: real, t: Models.SensorType): (c: real)
    ensures 0.7 <= c <= 0.95
  {
    var driftFactor := MinR(Abs(drift) / 20.0, 1.0);
    MinR(0.7 + (driftFactor * 0.2) * SensorFactor(t), 0.95)
  }

  /** The 0.95 cap is never reached: the largest confidence is 0.7 + 0.2 * 0.9. */
  lemma ConfidenceCapNeverBinds(drift: real, t: Models.SensorType)
    ensures CalibrationConfidence(drift, t) <= 0.88
    ensures CalibrationConfidence(drift, t) == 0.7 + MinR(Abs(drift) / 20.0, 1.0) * 0.2 * SensorFactor(t)
  {
    var f := MinR(Abs(drift) / 20.0, 1.0);
    assert 0.0 <= f <= 1.0;
    assert f * 0.2 * SensorFactor(t) <= 0.18 by {
      assert f * SensorFactor(t) <= 1.0 * 0.9;
    }
  }

  /** Confidence grows with the magnitude of the drift. */
  lemma ConfidenceMonotone(d1: real, d2: real, t: Models.SensorType)
    requires Abs(d1) <= Abs(d2)
    ensures CalibrationConfidence(d1, t) <= CalibrationConfidence(d2, t)
  {
    var f1 := MinR(Abs(d1) / 20.0, 1.0);
    var f2 := MinR(Abs(d2) / 20.0, 1.0);
    assert f1 <= f2;
    assert f1 * SensorFactor(t) <= f2 * SensorFactor(t);
  }

  /** The entry for forecast step `i` with drift `d` above the threshold: urgent
      entries (|d| > 10) are dated one day earlier, never before day 1. */
  function EntryFor(t: Models.SensorType, i: nat, d: real): ServerEntry
  {
    var days := DaysOut(i) as real;
    var high := IsHighPriority(d);
    ServerEntry(
      if high then MaxR(1.0, days - 1.0) else days,
      PredictedDrift(d),
      if high then High else Medium,
      d,
      days,
      CalibrationConfidence(d, t))
  }

  /** The threshold entries of a forecast, one per scheduled step, in forecast order. */
  function ThresholdEntries(t: Models.SensorType, preds: seq<real>): seq<ServerEntry>
  {
    if preds == [] then []
    else
      var n := |preds| - 1;
      ThresholdEntries(t, preds[..n]) + (if NeedsCalibration(preds[n]) then [EntryFor(t, n, preds[n])] else [])
  }

  /** The threshold entries are exactly the entries of the scheduled steps. */
  lemma {:induction false} ThresholdEntriesAreScheduledSteps(t: Models.SensorType, preds: seq<real>)
    ensures |ThresholdEntries(t, preds)| == |ScheduledSteps(preds)|
    ensures forall k :: 0 <= k < |ScheduledSteps(preds)| ==>
      ThresholdEntries(t, preds)[k] == EntryFor(t, ScheduledSteps(preds)[k], preds[ScheduledSteps(preds)[k]])
  {
    if preds != [] {
      var n := |preds| - 1;
      ThresholdEntriesAreScheduledSteps(t, preds[..n]);
      var steps := ScheduledSteps(preds[..n]);
      assert forall k :: 0 <= k < |steps| ==> preds[..n][steps[k]] == preds[steps[k]];
    }
  }

  /** What each threshold entry says: an urgent entry is dated max(1, 2(i+1) - 1)
      days out, a medium one 2(i+1) days out; high priority exactly above 10 %. */
  lemma ThresholdEntryShape(t: Models.SensorType, i: nat, d: real)
    requires NeedsCalibration(d)
    ensures var e := EntryFor(t, i, d);
      && e.daysFromNow == (2 * (i + 1)) as real
      && (e.priority == High <==> Abs(d) > 10.0)
      && (e.priority != Low)
      && (e.priority == High ==> e.dateOffset == e.daysFromNow - 1.0 && e.dateOffset >= 1.0)
      && (e.priority == Medium ==> e.dateOffset == e.daysFromNow)
      && e.driftValue == d && e.reason == PredictedDrift(d)
      && 0.7 <= e.confidence <= 0.95
  {
  }

  /** The single maintenance entry used when no forecast step crosses the threshold. */
  function MaintenanceEntry(avgInterval: real): (e: ServerEntry)
    ensures e.priority == Low && e.driftValue == 0.0 && e.confidence == 0.8
    ensures e.dateOffset == avgInterval && e.daysFromNow == avgInterval
    ensures e.reason == RegularMaintenance
  {
    ServerEntry(avgInterval, RegularMaintenance, Low, 0.0, avgInterval, MaintenanceConfidence)
  }

  /** `predict_calibration_schedule`. On success the schedule is never empty: the
      threshold entries, or else one maintenance entry. A missing sensor yields an
      error response with an empty schedule. */
  method PredictCalibrationSchedule(sensor: Option<Models.Sensor>, appliedAt: seq<real>, preds: seq<real>)
    returns (res: ScheduleResponse)
    ensures sensor.None? ==> res == ScheduleError([])
    ensures sensor.Some? ==> res.ScheduleOk? && |res.calibrationSchedule| > 0
    ensures sensor.Some? && ScheduledSteps(preds) != [] ==>
      res.calibrationSchedule == ThresholdEntries(sensor.value.stype, preds)
    ensures sensor.Some? && ScheduledSteps(preds) == [] ==>
      res.calibrationSchedule == [MaintenanceEntry(res.avgIntervalDays)]
    ensures sensor.Some? ==>
      var recent := appliedAt[..MinN(RecentCalibrations, |appliedAt|)];
      && res.totalCalibrations == |recent|
      && (|recent| <= 1 ==> res.avgIntervalDays == DefaultIntervalDays)
      && (|recent| > 1 ==> res.avgIntervalDays == MeanGap(recent))
      && (res.lastCalibration.Some? <==> |appliedAt| > 0)
    ensures sensor.Some? ==>
      && res.sensorName == sensor.value.name
      && (|appliedAt| > 0 ==> res.lastCalibration == Some(appliedAt[0]))
  {
    if sensor.None? {
      return ScheduleError([]);
    }
    var s := sensor.value;
    var recent := appliedAt[..MinN(RecentCalibrations, |appliedAt|)];
    var avg := AverageInterval(recent);

    var schedule: seq<ServerEntry> := [];
    var i := 0;
    while i < |preds|
      invariant 0 <= i <= |preds|
      invariant schedule == ThresholdEntries(s.stype, preds[..i])
    {
      assert preds[..i + 1][..i] == preds[..i];
      if NeedsCalibration(preds[i]) {
        schedule := schedule + [EntryFor(s.stype, i, preds[i])];
      }
      i := i + 1;
    }
    assert preds[..|preds|] == preds;
    ThresholdEntriesAreScheduledSteps(s.stype, preds);

    if schedule == [] {
      schedule := [MaintenanceEntry(avg)];
    }
    var last := if |appliedAt| > 0 then Some(appliedAt[0]) else None;
    res := ScheduleOk(s.name, schedule, avg, last, |recent|);
  }

  datatype Trend = Increasing | Decreasing | Stable

  datatype Recommendation =
    | Urgent(drift: real)
    | Recommended(drift: real)
    | TrendWarning

  /** The priority each recommendation kind is issued with. */
  function RecommendationPriority(r: Recommendation): Priority
  {
    match r
    case Urgent(_) => High
    case Recommended(_) => Medium
    case TrendWarning => Medium
  }

  datatype RecommendationResponse =
    | RecommendationError
    | InsufficientData
    | Recommendations(currentDrift: real, trend: Trend, recommendations: seq<Recommendation>)

  /** Readings needed before recommendations are made. */
  const MinRecentReadings: nat := 5

  /** Drift of the newest reading against the baseline (the sensor value, else the
      mean of the three newest readings); zero when that baseline is zero. */
  function CurrentDrift(sensorValue: real, values: seq<real>): (d: real)
    requires |values| >= 3
    ensures OrDefault(sensorValue, Mean(values[..3])) == 0.0 ==> d == 0.0
    ensures sensorValue != 0.0 ==> d == (values[0] - sensorValue) / sensorValue * 100.0
    ensures sensorValue == 0.0 && Mean(values[..3]) != 0.0 ==>
      d == (values[0] - Mean(values[..3])) / Mean(values[..3]) * 100.0
  {
    var baseline := OrDefault(sensorValue, Mean(values[..3]));
    if baseline != 0.0 then (values[0] - baseline) / baseline * 100.0 else 0.0
  }

  /** `get_calibration_recommendations`: `values` are the last week's readings,
      newest first; `slope` is the least-squares slope fitted to the five newest
      in that newest-first order, so a positive slope means the older readings
      are higher. The trend is labelled from that slope exactly as the service
      labels it, not from a slope over time. */
  method GetCalibrationRecommendations(sensor: Option<Models.Sensor>, values: seq<real>, slope: real)
    returns (res: RecommendationResponse)
    ensures sensor.None? ==> res == RecommendationError
    ensures sensor.Some? && |values| < MinRecentReadings ==> res == InsufficientData
    ensures sensor.Some? && |values| >= MinRecentReadings ==>
      && res.Recommendations?
      && res.currentDrift == CurrentDrift(sensor.value.value, values)
      && (res.trend == Increasing <==> slope > 0.0)
      && res.trend != Stable
      && |res.recommendations| <= 2
      && (Urgent(res.currentDrift) in res.recommendations <==> Abs(res.currentDrift) > 10.0)
      && (Recommended(res.currentDrift) in res.recommendations <==>
            5.0 < Abs(res.currentDrift) <= 10.0)
      && (TrendWarning in res.recommendations <==> slope > 0.0 && Abs(res.currentDrift) > 2.0)
      && (forall r :: r in res.recommendations && !r.TrendWarning? ==> r.drift == res.currentDrift)
    ensures res.Recommendations? ==>
      res.recommendations ==
        (if Abs(res.currentDrift) > 10.0 then [Urgent(res.currentDrift)]
         else if Abs(res.currentDrift) > 5.0 then [Recommended(res.currentDrift)]
         else []) +
        (if slope > 0.0 && Abs(res.currentDrift) > 2.0 then [TrendWarning] else [])
  {
    if sensor.None? {
      return RecommendationError;
    }
    if |values| < MinRecentReadings {
      return InsufficientData;
    }
    var currentDrift := CurrentDrift(sensor.value.value, values);
    var trend := if slope > 0.0 then Increasing else Decreasing;
    var recs: seq<Recommendation> := [];
    if Abs(currentDrift) > 10.0 {
      recs := recs + [Urgent(currentDrift)];
    } else if Abs(currentDrift) > 5.0 {
      recs := recs + [Recommended(currentDrift)];
    }
    if trend == Increasing && Abs(currentDrift) > 2.0 {
      recs := recs + [TrendWarning];
    }
    res := Recommendations(currentDrift, trend, recs);
  }
}
