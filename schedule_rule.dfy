/**
 * The threshold rule that both the client page and the server scheduler apply
 * to a drift forecast: forecast step i (0-based, two days per step) calls for
 * calibration when its predicted drift exceeds 5 % in magnitude, and the
 * calibration is high priority when it exceeds 10 %.
 */
module ScheduleRule {
  import opened Common

  const CalibrationThreshold: real := 5.0
  const HighPriorityThreshold: real := 10.0
  const DaysPerStep: nat := 2

  predicate NeedsCalibration(d: real)
  {
    Abs(d) > CalibrationThreshold
  }

  predicate IsHighPriority(d: real)
  {
    Abs(d) > HighPriorityThreshold
  }

  /** Days from now at which forecast step `step` falls. */
  function DaysOut(step: nat): nat
  {
    DaysPerStep * (step + 1)
  }

  /** The forecast steps that call for calibration, in forecast order. */
  function ScheduledSteps(preds: seq<real>): (steps: seq<nat>)
    ensures |steps| <= |preds|
    ensures forall k :: 0 <= k < |steps| ==> steps[k] < |preds| && NeedsCalibration(preds[steps[k]])
    ensures forall k, l :: 0 <= k < l < |steps| ==> steps[k] < steps[l]
  {
    if preds == [] then []
    else
      var n := |preds| - 1;
      var init := ScheduledSteps(preds[..n]);
      assert forall k :: 0 <= k < |init| ==> preds[..n][init[k]] == preds[init[k]];
      init + (if NeedsCalibration(preds[n]) then [n] else [])
  }

  /** A step is scheduled exactly when its predicted drift crosses the threshold. */
  lemma {:induction false} ScheduledStepsExact(preds: seq<real>, i: nat)
    requires i < |preds|
    ensures i in ScheduledSteps(preds) <==> NeedsCalibration(preds[i])
  {
    var n := |preds| - 1;
    if i < n {
      ScheduledStepsExact(preds[..n], i);
      assert preds[..n][i] == preds[i];
    } else {
      var init := ScheduledSteps(preds[..n]);
      assert forall k :: 0 <= k < |init| ==> init[k] < n;
    }
  }

  /** There are as many scheduled steps as predictions crossing the threshold. */
  lemma {:induction false} ScheduledStepsCount(preds: seq<real>)
    ensures |ScheduledSteps(preds)| == CountIf(preds, NeedsCalibration)
  {
    if preds != [] {
      ScheduledStepsCount(preds[..|preds| - 1]);
    }
  }

  /** With no prediction above the threshold (in particular with none at all) nothing is scheduled. */
  lemma {:induction false} QuietForecastSchedulesNothing(preds: seq<real>)
    requires forall i :: 0 <= i < |preds| ==> !NeedsCalibration(preds[i])
    ensures ScheduledSteps(preds) == []
  {
    if preds != [] {
      QuietForecastSchedulesNothing(preds[..|preds| - 1]);
    }
  }

  /** The worked example: [2, -6, 11, 4] schedules steps 1 and 2 only. */
  lemma ExampleForecast()
    ensures ScheduledSteps([2.0, -6.0, 11.0, 4.0]) == [1, 2]
    ensures !IsHighPriority(-6.0) && IsHighPriority(11.0)
    ensures DaysOut(1) == 4 && DaysOut(2) == 6
  {
    var p := [2.0, -6.0, 11.0, 4.0];
    assert p[..0] == [];
    assert p[..1] == [2.0] && p[..1][..0] == p[..0];
    assert ScheduledSteps(p[..1]) == [];
    assert p[..2] == [2.0, -6.0] && p[..2][..1] == p[..1];
    assert ScheduledSteps(p[..2]) == [1];
    assert p[..3] == [2.0, -6.0, 11.0] && p[..3][..2] == p[..2];
    assert ScheduledSteps(p[..3]) == [1, 2];
    assert p[..3] == p[..|p| - 1];
  }
}
