/**
 * The calibration page of the client: the data card of the selected sensor
 * (`currentData`) and the two calibration actions that update it.
 *
 * The card moves between "no data", "Ready" (loaded from the latest anomaly,
 * or re-calibrated) and "ML Calibrated". The remote calls are parameters:
 * `None` or `false` stands for a rejected request. The clock is `now`.
 */
module CalibrationPage {
  import opened Common
  import opened Models

  /** The latest anomaly of a sensor, as the page reads it. The anomaly
      response carries no calibration date and no unit, so those fields are
      optional and normally absent. */
  datatype AnomalyRecord = AnomalyRecord(value: real, expected: real, calibrationDate: Option<int>, unit: Option<string>)

  datatype CalStatus = Ready | MLCalibrated

  datatype LastCalibration = NotCalibratedYet | CalibratedAt(ms: int)

  /** The data card; `offset` is the corrected value minus the measured one,
      rounded to two decimals as the card shows it. */
  datatype CalData = CalData(
    measured: real,
    ideal: real,
    corrected: real,
    offset: real,
    accuracy: real,
    status: CalStatus,
    lastCalibration: LastCalibration,
    unit: string)

  /** The card's offset agrees, to display precision, with corrected minus measured. */
  predicate OffsetConsistent(d: CalData)
  {
    Abs(d.offset - (d.corrected - d.measured)) <= 0.005
  }

  /** The card built from the latest anomaly: the reading is the measured value
      and the expected value is both the ideal and the corrected value. */
  function Loaded(latest: AnomalyRecord): (d: CalData)
    ensures d.measured == latest.value && d.ideal == latest.expected && d.corrected == latest.expected
    ensures d.offset == Round2(latest.expected - latest.value)
    ensures d.status == Ready && d.accuracy == 100.0
    ensures latest.calibrationDate.None? ==> d.lastCalibration == NotCalibratedYet
    ensures OffsetConsistent(d)
  {
    CalData(latest.value, latest.expected, latest.expected, Round2(latest.expected - latest.value), 100.0, Ready,
            if latest.calibrationDate.Some? then CalibratedAt(latest.calibrationDate.value) else NotCalibratedYet,
            if latest.unit.Some? then latest.unit.value else "")
  }

  /** The card after the ML service returned the corrected value `c`. */
  function MLApplied(d: CalData, c: real): (r: CalData)
    ensures r == d.(corrected := c, offset := r.offset, status := MLCalibrated)
    ensures r.offset == Round2(c - d.measured)
    ensures OffsetConsistent(r)
  {
    d.(corrected := c, offset := Round2(c - d.measured), status := MLCalibrated)
  }

  /** The card after a stored calibration: the reading now matches the ideal value. */
  function Recalibrated(d: CalData, now: int): (r: CalData)
    ensures r == d.(measured := d.ideal, corrected := d.ideal, offset := 0.0, status := Ready, lastCalibration := CalibratedAt(now))
    ensures r.measured == r.corrected == r.ideal == d.ideal
    ensures OffsetConsistent(r)
  {
    d.(measured := d.ideal, corrected := d.ideal, offset := 0.0, status := Ready, lastCalibration := CalibratedAt(now))
  }

  /** `sensors.find(s => s.name === name)`: the first sensor with that name. */
  function FindByName(sensors: seq<Sensor>, name: string): (r: Option<Sensor>)
    ensures r.None? <==> forall k :: 0 <= k < |sensors| ==> sensors[k].name != name
    ensures r.Some? ==> r.value.name == name
    ensures r.Some? ==> exists k :: (0 <= k < |sensors| && sensors[k] == r.value &&
      forall j :: 0 <= j < k ==> sensors[j].name != name)
  {
    if sensors == [] then None
    else if sensors[0].name == name then Some(sensors[0])
    else
      var r := FindByName(sensors[1..], name);
      if r.Some? then
        var k :| 0 <= k < |sensors[1..]| && sensors[1..][k] == r.value &&
          forall j :: 0 <= j < k ==> sensors[1..][j].name != name;
        assert sensors[k + 1] == r.value;
        r
      else
        r
  }

  class CalibrationView {
    var sensors: seq<Sensor>
    var selectedSensor: Option<string>
    var currentData: Option<CalData>
    var isCalibrating: bool

    /** A shown card always has a consistent offset. */
    ghost predicate Valid()
      reads this
    {
      currentData.Some? ==> OffsetConsistent(currentData.value)
    }

    /** JavaScript truthiness of `selectedSensor`: absent or the empty name. */
    predicate NoSelection()
      reads this
    {
      selectedSensor.None? || selectedSensor.value == ""
    }

    /** Both actions proceed only with a selected sensor and a shown card. */
    predicate CanAct()
      reads this
    {
      !NoSelection() && currentData.Some?
    }

    /** The selected sensor, looked up by name in the sensor list. */
    function SelectedSensorObj(): (r: Option<Sensor>)
      reads this
      ensures NoSelection() ==> r.None?
      ensures r.Some? ==> r.value in sensors && Some(r.value.name) == selectedSensor
    {
      if NoSelection() then None else FindByName(sensors, selectedSensor.value)
    }

    constructor (sensors: seq<Sensor>)
      ensures Valid()
      ensures this.sensors == sensors && selectedSensor == None && currentData == None && !isCalibrating
    {
      this.sensors := sensors;
      selectedSensor := None;
      currentData := None;
      isCalibrating := false;
    }

    /** Once sensors are loaded and none is selected, the first one is selected. */
    method SelectInitialSensor()
      modifies this`selectedSensor
      ensures |sensors| > 0 && old(NoSelection()) ==> selectedSensor == Some(sensors[0].name)
      ensures !(|sensors| > 0 && old(NoSelection())) ==> selectedSensor == old(selectedSensor)
    {
      if |sensors| > 0 && NoSelection() {
        selectedSensor := Some(sensors[0].name);
      }
    }

    /** `fetchAnomalyData`: the anomalies of the selected sensor, latest first.
        A failed request or an empty list clears the card. */
    method FetchAnomalyData(response: Option<seq<AnomalyRecord>>)
      requires Valid()
      modifies this`currentData
      ensures Valid()
      ensures old(NoSelection()) ==> currentData == old(currentData)
      ensures !old(NoSelection()) && (response.None? || |response.value| == 0) ==> currentData == None
      ensures !old(NoSelection()) && response.Some? && |response.value| > 0 ==>
        currentData == Some(Loaded(response.value[0]))
    {
      if NoSelection() {
        return;
      }
      if response.None? || |response.value| == 0 {
        currentData := None;
        return;
      }
      currentData := Some(Loaded(response.value[0]));
    }

    /** `handleMLCalibration`; `corrected` is the ML service's answer. */
    method HandleMLCalibration(corrected: Option<real>)
      requires Valid()
      modifies this`currentData
      ensures Valid()
      ensures !(old(CanAct()) && SelectedSensorObj().Some? && corrected.Some?) ==> currentData == old(currentData)
      ensures old(CanAct()) && SelectedSensorObj().Some? && corrected.Some? ==>
        currentData == Some(MLApplied(old(currentData).value, corrected.value))
    {
      if NoSelection() || currentData.None? {
        return;
      }
      var sensor := FindByName(sensors, selectedSensor.value);
      if sensor.None? {
        return;
      }
      if corrected.Some? {
        currentData := Some(MLApplied(currentData.value, corrected.value));
      }
    }

    /** `handleCalibration`; `stored` says whether the calibration was stored. */
    method HandleCalibration(stored: bool, now: int)
      requires Valid()
      modifies this`currentData, this`isCalibrating
      ensures Valid()
      ensures !old(CanAct()) ==> isCalibrating == old(isCalibrating)
      ensures old(CanAct()) ==> !isCalibrating
      ensures !(old(CanAct()) && SelectedSensorObj().Some? && stored) ==> currentData == old(currentData)
      ensures old(CanAct()) && SelectedSensorObj().Some? && stored ==>
        currentData == Some(Recalibrated(old(currentData).value, now))
    {
      if currentData.None? || NoSelection() {
        return;
      }
      isCalibrating := true;
      var sensor := FindByName(sensors, selectedSensor.value);
      if sensor.Some? && stored {
        currentData := Some(Recalibrated(currentData.value, now));
      }
      isCalibrating := false;
    }
  }

  /** Neither action changes the ideal value, and calibrating after an ML
      correction leaves the same card as calibrating straight away: the ML
      correction is forgotten once the reading is reset to the ideal value. */
  lemma MLThenCalibrate(d: CalData, c: real, now: int)
    ensures MLApplied(d, c).ideal == d.ideal && Recalibrated(d, now).ideal == d.ideal
    ensures Recalibrated(MLApplied(d, c), now) == Recalibrated(d, now)
    ensures Recalibrated(MLApplied(d, c), now).status == Ready
  {
  }

  /** A freshly loaded card whose reading already matches its expected value has a zero offset. */
  lemma LoadedOnTargetHasZeroOffset(latest: AnomalyRecord)
    requires latest.value == latest.expected
    ensures Loaded(latest).offset == 0.0
  {
  }
}
