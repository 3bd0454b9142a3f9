/**
 * The persistent entities of the sensor platform: sensors, readings,
 * calibrations, anomalies and reports, with their enumerations and the
 * defaults a newly created row takes.
 *
 * Timestamps are integer milliseconds; the clock is a parameter.
 */
module Models {
  import opened Common

  /** Sensor kinds. The stored column accepts any text, so a type outside the
      five declared choices is represented by `OtherType`. */
  datatype SensorType = Temperature | Pressure | Humidity | Vibration | Flow | OtherType(name: string)

  predicate IsDeclaredSensorType(t: SensorType)
  {
    !t.OtherType?
  }

  datatype SensorStatus = Online | Warning | CriticalStatus | Offline

  datatype Sensor = Sensor(
    id: int,
    name: string,
    stype: SensorType,
    value: real,
    unit: string,
    status: SensorStatus,
    lastUpdated: int,
    drift: real)

  /** A sensor as the database creates it: value and drift default to 0, status to online. */
  function NewSensor(id: int, name: string, stype: SensorType, unit: string, now: int): (s: Sensor)
    ensures s.id == id && s.name == name && s.stype == stype && s.unit == unit
    ensures s.value == 0.0 && s.drift == 0.0
    ensures s.status == Online && s.lastUpdated == now
  {
    Sensor(id, name, stype, 0.0, unit, Online, now, 0.0)
  }

  datatype Reading = Reading(sensorId: int, rawValue: real, timestamp: int)

  /** Calibration methods. `Adaptive` is not one of the declared choices, yet the
      simulate-reading endpoint stores it, so stored rows can carry it. */
  datatype CalibrationMethod = Linear | Polynomial | Custom | Adaptive

  predicate IsDeclaredMethod(m: CalibrationMethod)
  {
    m == Linear || m == Polynomial || m == Custom
  }

  datatype Calibration = Calibration(sensorId: int, calMethod: CalibrationMethod, correctedValue: real, appliedAt: int)

  datatype AnomalyType = Drift | Spike | Dropout | Noise | CalibrationError

  datatype Severity = Low | Medium | High | Critical

  /** Position of a severity in the order Low < Medium < High < Critical. */
  function SeverityRank(s: Severity): (r: nat)
    ensures r <= 3
    ensures r == 0 <==> s == Low
    ensures r == 1 <==> s == Medium
    ensures r == 2 <==> s == High
    ensures r == 3 <==> s == Critical
  {
    match s
    case Low => 0
    case Medium => 1
    case High => 2
    case Critical => 3
  }

  datatype Anomaly = Anomaly(
    sensorId: int,
    atype: AnomalyType,
    value: real,
    expected: real,
    deviation: real,
    severity: Severity,
    resolved: bool,
    timestamp: int)

  /** An anomaly as the database creates it: unresolved, stamped with the creation time. */
  function NewAnomaly(sensorId: int, atype: AnomalyType, value: real, expected: real,
                      deviation: real, severity: Severity, now: int): (a: Anomaly)
    ensures !a.resolved && a.timestamp == now
    ensures a.sensorId == sensorId && a.atype == atype && a.severity == severity
    ensures a.value == value && a.expected == expected && a.deviation == deviation
  {
    Anomaly(sensorId, atype, value, expected, deviation, severity, false, now)
  }

  datatype ReportType = Csv | Excel | Pdf

  datatype Report = Report(sensorId: int, reportType: ReportType, filePath: string, generatedAt: int)

  /** The value text a report-type choice is stored under. */
  function ReportTypeName(t: ReportType): string
  {
    match t
    case Csv => "csv"
    case Excel => "excel"
    case Pdf => "pdf"
  }

  /** Parsing a stored report-type text: exactly the three declared choices are accepted. */
  function ParseReportType(s: string): (r: Option<ReportType>)
    ensures r.Some? <==> s == "csv" || s == "excel" || s == "pdf"
    ensures r.Some? ==> ReportTypeName(r.value) == s
  {
    if s == "csv" then Some(Csv)
    else if s == "excel" then Some(Excel)
    else if s == "pdf" then Some(Pdf)
    else None
  }

  lemma ReportTypeRoundTrip(t: ReportType)
    ensures ParseReportType(ReportTypeName(t)) == Some(t)
  {
  }

  /** The stored rows the services add to. Row creation is modelled as
      appending to the matching table; queries are made by the callers. */
  class Tables {
    var sensors: seq<Sensor>
    var readings: seq<Reading>
    var calibrations: seq<Calibration>
    var anomalies: seq<Anomaly>

    constructor (sensors: seq<Sensor>)
      ensures this.sensors == sensors && readings == [] && calibrations == [] && anomalies == []
    {
      this.sensors := sensors;
      readings := [];
      calibrations := [];
      anomalies := [];
    }
  }
}
