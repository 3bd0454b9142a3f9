/**
 * The payloads the server sends for sensors and readings, with the two
 * computed fields of a reading: its status and its drift against the sensor's
 * current value.
 */
module Serializers {
  import opened Common
  import opened Models

  /** The sensor payload: exactly the eight fields the client reads. */
  datatype SensorPayload = SensorPayload(
    id: int,
    name: string,
    stype: SensorType,
    value: real,
    unit: string,
    status: SensorStatus,
    lastUpdated: int,
    drift: real)

  const SensorFields: seq<string> := ["id", "name", "type", "value", "unit", "status", "lastUpdated", "drift"]

  function SerializeSensor(s: Sensor): (p: SensorPayload)
    ensures p.id == s.id && p.name == s.name && p.stype == s.stype && p.value == s.value
    ensures p.unit == s.unit && p.status == s.status && p.lastUpdated == s.lastUpdated && p.drift == s.drift
  {
    SensorPayload(s.id, s.name, s.stype, s.value, s.unit, s.status, s.lastUpdated, s.drift)
  }

  /** How the client rebuilds its sensor from the payload. */
  function ClientSensor(p: SensorPayload): Sensor
  {
    Sensor(p.id, p.name, p.stype, p.value, p.unit, p.status, p.lastUpdated, p.drift)
  }

  /** The payload loses nothing: the client sees exactly the stored sensor. */
  lemma SensorPayloadRoundTrip(s: Sensor)
    ensures ClientSensor(SerializeSensor(s)) == s
    ensures |SensorFields| == 8
  {
  }

  /** Status of a reading: "critical" when it is more than 3 units away from the sensor's value. */
  datatype ReadingStatus = ReadingOnline | ReadingCritical

  /** The absolute deviation above which a reading is critical. */
  const CriticalUnits: real := 3.0

  function GetStatus(sensorValue: real, raw: real): (st: ReadingStatus)
    ensures st == ReadingCritical <==> Abs(raw - sensorValue) > CriticalUnits
  {
    if Abs(raw - sensorValue) > CriticalUnits then ReadingCritical else ReadingOnline
  }

  /** The baseline a reading's drift is measured against: the sensor's value, or 1
      when it is zero. The client's simulation repeats this rule on its own
      (`SensorContext.SimBaseline`). */
  function DriftBaseline(sensorValue: real): (b: real)
    ensures b != 0.0
    ensures sensorValue != 0.0 ==> b == sensorValue
    ensures sensorValue == 0.0 ==> b == 1.0
  {
    OrDefault(sensorValue, 1.0)
  }

  /** Unrounded drift in percent of the baseline. */
  function DriftPercent(sensorValue: real, raw: real): (d: real)
    ensures d * DriftBaseline(sensorValue) == (raw - DriftBaseline(sensorValue)) * 100.0
  {
    (raw - DriftBaseline(sensorValue)) / DriftBaseline(sensorValue) * 100.0
  }

  /** `get_drift`: the drift rounded to two decimals. */
  function GetDrift(sensorValue: real, raw: real): (d: real)
    ensures Abs(d - DriftPercent(sensorValue, raw)) <= 0.005
    ensures (d * 100.0).Floor as real == d * 100.0
  {
    Round2(DriftPercent(sensorValue, raw))
  }

  /** A reading equal to a nonzero sensor value has zero drift. */
  lemma OnTargetHasZeroDrift(sensorValue: real)
    requires sensorValue != 0.0
    ensures GetDrift(sensorValue, sensorValue) == 0.0
    ensures GetStatus(sensorValue, sensorValue) == ReadingOnline
  {
  }

  /** Drift is positive exactly when the reading is above the baseline. */
  lemma DriftSign(sensorValue: real, raw: real)
    requires sensorValue > 0.0
    ensures DriftPercent(sensorValue, raw) > 0.0 <==> raw > sensorValue
  {
  }

  /** The status ignores scale: on a large value a critical reading can have
      a drift well under one percent. */
  lemma StatusIgnoresScale()
    ensures GetStatus(1000.0, 1004.0) == ReadingCritical
    ensures DriftPercent(1000.0, 1004.0) == 0.4
  {
  }

  /** The reading payload; the sensor id is write-only and so absent. */
  datatype ReadingPayload = ReadingPayload(
    id: int,
    sensorName: string,
    stype: SensorType,
    rawValue: real,
    unit: string,
    status: ReadingStatus,
    drift: real,
    lastUpdated: int)

  function SerializeReading(id: int, r: Reading, s: Sensor): (p: ReadingPayload)
    requires r.sensorId == s.id
    ensures p.rawValue == r.rawValue && p.lastUpdated == r.timestamp
    ensures p.sensorName == s.name && p.stype == s.stype && p.unit == s.unit
    ensures p.status == GetStatus(s.value, r.rawValue) && p.drift == GetDrift(s.value, r.rawValue)
  {
    ReadingPayload(id, s.name, s.stype, r.rawValue, s.unit, GetStatus(s.value, r.rawValue),
                   GetDrift(s.value, r.rawValue), r.timestamp)
  }
}
