/**
 * The drift-prediction page of the client: derives a local calibration
 * schedule from the forecast, lets the server's schedule replace it, and labels
 * the risk of each forecast step.
 *
 * The two remote calls are parameters (`None` stands for a rejected request).
 * Dates are day offsets from the moment the forecast arrived.
 */
module DriftPrediction {
  import opened Common
  import opened ScheduleRule
  import CS = CalibrationScheduler
  import Models

  /** A schedule entry as the page keeps it; locally derived entries carry no confidence. */
  datatype ScheduleEntry = ScheduleEntry(dateOffset: real, reason: CS.Reason, priority: CS.Priority, confidence: Option<real>)

  /** The forecast response: `predictions` may be absent. */
  datatype Forecast = Forecast(predictions: Option<seq<real>>)

  /** The schedule response: `calibration_schedule` may be absent. */
  datatype ScheduleReply = ScheduleReply(calibrationSchedule: Option<seq<CS.ServerEntry>>)

  /** The locally derived entry for forecast step `i` with drift `d`. */
  function LocalEntry(i: nat, d: real): ScheduleEntry
  {
    ScheduleEntry(DaysOut(i) as real, CS.PredictedDrift(d), if IsHighPriority(d) then CS.High else CS.Medium, None)
  }

  /** The locally derived schedule, built step by step in forecast order. */
  function LocalSchedule(preds: seq<real>): seq<ScheduleEntry>
  {
    if preds == [] then []
    else
      var n := |preds| - 1;
      LocalSchedule(preds[..n]) + (if NeedsCalibration(preds[n]) then [LocalEntry(n, preds[n])] else [])
  }

  /** The local schedule has one entry per scheduled step. */
  lemma {:induction false} LocalScheduleIsScheduledSteps(preds: seq<real>)
    ensures |LocalSchedule(preds)| == |ScheduledSteps(preds)|
    ensures forall k :: 0 <= k < |ScheduledSteps(preds)| ==>
      LocalSchedule(preds)[k] == LocalEntry(ScheduledSteps(preds)[k], preds[ScheduledSteps(preds)[k]])
  {
    if preds != [] {
      var n := |preds| - 1;
      LocalScheduleIsScheduledSteps(preds[..n]);
      var steps := ScheduledSteps(preds[..n]);
      assert forall k :: 0 <= k < |steps| ==> preds[..n][steps[k]] == preds[steps[k]];
    }
  }

  /** What the local schedule says: at most one entry per prediction, dated
      2(i+1) days out for the step i it comes from, strictly later than the
      entry before it, high priority exactly above 10 %, and only for steps
      above 5 %. */
  lemma LocalScheduleProperties(preds: seq<real>)
    ensures |LocalSchedule(preds)| <= |preds|
    ensures forall k :: 0 <= k < |LocalSchedule(preds)| ==>
      exists i: nat :: i < |preds| && NeedsCalibration(preds[i]) && LocalSchedule(preds)[k] == LocalEntry(i, preds[i])
    ensures forall k, l :: 0 <= k < l < |LocalSchedule(preds)| ==>
      LocalSchedule(preds)[k].dateOffset < LocalSchedule(preds)[l].dateOffset
    ensures forall i :: 0 <= i < |preds| && NeedsCalibration(preds[i]) ==> LocalEntry(i, preds[i]) in LocalSchedule(preds)
  {
    LocalScheduleIsScheduledSteps(preds);
    var steps := ScheduledSteps(preds);
    var sched := LocalSchedule(preds);
    forall k | 0 <= k < |LocalSchedule(preds)|
      ensures exists i: nat :: i < |preds| && NeedsCalibration(preds[i]) && LocalSchedule(preds)[k] == LocalEntry(i, preds[i])
    {
      var i: nat := steps[k];
      assert i < |preds| && NeedsCalibration(preds[i]) && LocalSchedule(preds)[k] == LocalEntry(i, preds[i]);
    }
    assert forall k :: 0 <= k < |LocalSchedule(preds)| ==>
      exists i: nat :: i < |preds| && NeedsCalibration(preds[i]) && LocalSchedule(preds)[k] == LocalEntry(i, preds[i]);
    forall k, l | 0 <= k < l < |sched|
      ensures sched[k].dateOffset < sched[l].dateOffset
    {
      assert sched[k] == LocalEntry(steps[k], preds[steps[k]]);
      assert sched[l] == LocalEntry(steps[l], preds[steps[l]]);
      assert steps[k] < steps[l];
    }
    forall i | 0 <= i < |preds| && NeedsCalibration(preds[i])
      ensures LocalEntry(i, preds[i]) in sched
    {
      ScheduledStepsExact(preds, i);
      var k :| 0 <= k < |steps| && steps[k] == i;
      assert sched[k] == LocalEntry(i, preds[i]);
    }
  }

  /** One local entry: dated 2(i+1) days out, high priority exactly above 10 %. */
  lemma LocalEntryShape(i: nat, d: real)
    ensures LocalEntry(i, d).dateOffset == (2 * (i + 1)) as real
    ensures LocalEntry(i, d).priority == CS.High <==> Abs(d) > 10.0
    ensures LocalEntry(i, d).priority == CS.High || LocalEntry(i, d).priority == CS.Medium
    ensures LocalEntry(i, d).reason == CS.PredictedDrift(d)
  {
  }

  /** Builds the local schedule with the page's loop over the predictions. */
  method DeriveLocalSchedule(preds: seq<real>) returns (dates: seq<ScheduleEntry>)
    ensures dates == LocalSchedule(preds)
  {
    dates := [];
    var index := 0;
    while index < |preds|
      invariant 0 <= index <= |preds|
      invariant dates == LocalSchedule(preds[..index])
    {
      assert preds[..index + 1][..index] == preds[..index];
      var drift := preds[index];
      if Abs(drift) > CalibrationThreshold {
        dates := dates + [LocalEntry(index, drift)];
      }
      index := index + 1;
    }
    assert preds[..|preds|] == preds;
  }

  /** How the page keeps a server entry: date, reason, priority and confidence. */
  function FromServer(e: CS.ServerEntry): (r: ScheduleEntry)
    ensures r.dateOffset == e.dateOffset && r.reason == e.reason && r.priority == e.priority
    ensures r.confidence == Some(e.confidence)
  {
    ScheduleEntry(e.dateOffset, e.reason, e.priority, Some(e.confidence))
  }

  function FromServerAll(es: seq<CS.ServerEntry>): (r: seq<ScheduleEntry>)
    ensures |r| == |es|
    ensures forall k :: 0 <= k < |es| ==> r[k] == FromServer(es[k])
  {
    if es == [] then [] else [FromServer(es[0])] + FromServerAll(es[1..])
  }

  /** The page shows "No Calibration Needed" when there is no schedule or it is empty. */
  predicate ShowsNoCalibrationNeeded(schedule: Option<seq<ScheduleEntry>>)
  {
    schedule.None? || |schedule.value| == 0
  }

  /** A forecast without any prediction is shown as "No Calibration Needed". */
  lemma MissingPredictionsShowNothingNeeded()
    ensures ShowsNoCalibrationNeeded(Some(LocalSchedule([])))
  {
  }

  /** The server and the page agree on which steps need calibration and on their
      priorities and reasons; the server dates urgent entries one day earlier. */
  lemma ServerAgreesWithLocal(t: Models.SensorType, preds: seq<real>)
    ensures |CS.ThresholdEntries(t, preds)| == |LocalSchedule(preds)|
    ensures forall k :: 0 <= k < |LocalSchedule(preds)| ==>
      var s := FromServer(CS.ThresholdEntries(t, preds)[k]);
      var l := LocalSchedule(preds)[k];
      && s.reason == l.reason && s.priority == l.priority
      && (s.priority == CS.High ==> s.dateOffset == l.dateOffset - 1.0)
      && (s.priority == CS.Medium ==> s.dateOffset == l.dateOffset)
  {
    CS.ThresholdEntriesAreScheduledSteps(t, preds);
    LocalScheduleIsScheduledSteps(preds);
  }

  datatype RiskLabel = HighRisk | MediumRisk | LowRisk

  /** The risk label of one forecast step. */
  function Risk(d: real): (r: RiskLabel)
    ensures r == HighRisk <==> Abs(d) > 5.0
    ensures r == MediumRisk <==> 2.0 < Abs(d) <= 5.0
    ensures r == LowRisk <==> Abs(d) <= 2.0
  {
    if Abs(d) > 5.0 then HighRisk else if Abs(d) > 2.0 then MediumRisk else LowRisk
  }

  /** A step is labelled "High Risk" exactly when the schedule gets an entry for it. */
  lemma HighRiskIffScheduled(preds: seq<real>, i: nat)
    requires i < |preds|
    ensures Risk(preds[i]) == HighRisk <==> i in ScheduledSteps(preds)
  {
    ScheduledStepsExact(preds, i);
  }

  class DriftPredictionPage {
    var mlPredictions: Option<Forecast>
    var calibrationSchedule: Option<seq<ScheduleEntry>>

    constructor ()
      ensures mlPredictions == None && calibrationSchedule == None
    {
      mlPredictions := None;
      calibrationSchedule := None;
    }

    /** `fetchMLPredictions`. A failed forecast clears both predictions and schedule.
        Otherwise the local schedule is set; a schedule reply carrying
        `calibration_schedule` (even an empty one) then replaces it wholesale, and a
        failed schedule request or a reply without that field keeps it. */
    method FetchMLPredictions(forecast: Option<Forecast>, reply: Option<ScheduleReply>)
      modifies this
      ensures forecast.None? ==> mlPredictions == None && calibrationSchedule == None
      ensures forecast.Some? ==> mlPredictions == forecast
      ensures forecast.Some? && reply.Some? && reply.value.calibrationSchedule.Some? ==>
        calibrationSchedule == Some(FromServerAll(reply.value.calibrationSchedule.value))
      ensures forecast.Some? && (reply.None? || reply.value.calibrationSchedule.None?) ==>
        calibrationSchedule == Some(LocalSchedule(
          if forecast.value.predictions.Some? then forecast.value.predictions.value else []))
    {
      if forecast.None? {
        mlPredictions := None;
        calibrationSchedule := None;
        return;
      }
      mlPredictions := forecast;
      var preds := if forecast.value.predictions.Some? then forecast.value.predictions.value else [];
      var local := DeriveLocalSchedule(preds);
      calibrationSchedule := Some(local);
      if reply.Some? && reply.value.calibrationSchedule.Some? {
        calibrationSchedule := Some(FromServerAll(reply.value.calibrationSchedule.value));
      }
    }
  }

  /** End to end: when the server finds the sensor and schedules from the same
      forecast, the page never shows "No Calibration Needed" — a quiet forecast
      yields the maintenance entry instead. */
  method FetchAgainstScheduler(page: DriftPredictionPage, sensor: Models.Sensor, appliedAt: seq<real>, preds: seq<real>)
    modifies page
    ensures !ShowsNoCalibrationNeeded(page.calibrationSchedule)
    ensures ScheduledSteps(preds) == [] ==>
      (|page.calibrationSchedule.value| == 1 && page.calibrationSchedule.value[0].priority == CS.Low)
    ensures ScheduledSteps(preds) != [] ==> |page.calibrationSchedule.value| == |LocalSchedule(preds)|
  {
    var res := CS.PredictCalibrationSchedule(Some(sensor), appliedAt, preds);
    page.FetchMLPredictions(Some(Forecast(Some(preds))), Some(ScheduleReply(Some(res.calibrationSchedule))));
    if ScheduledSteps(preds) != [] {
      ServerAgreesWithLocal(sensor.stype, preds);
    }
  }

  /** When the schedule request fails (the view answers with an error status, as
      it does for a sensor the server cannot forecast), the page keeps its local
      schedule: "No Calibration Needed" exactly when no step exceeds 5 %. */
  method FetchWithFailedScheduleRequest(page: DriftPredictionPage, preds: seq<real>)
    modifies page
    ensures page.calibrationSchedule == Some(LocalSchedule(preds))
    ensures ShowsNoCalibrationNeeded(page.calibrationSchedule) <==> ScheduledSteps(preds) == []
  {
    page.FetchMLPredictions(Some(Forecast(Some(preds))), None);
    LocalScheduleIsScheduledSteps(preds);
  }
}
