/**
 * Decisions of the server's request handlers: the drift rule applied when a
 * reading is posted, and the validation and dispatch of the training,
 * report, anomaly-detection, password-change and profile requests.
 *
 * A request field that is absent is `None`. Python truthiness is written out:
 * a sensor id of 0 and an empty password count as missing.
 */
module Views {
  import opened Common
  import opened Models
  import Serializers

  // ---------------------------------------------------------------------------
  // Posting a reading
  // ---------------------------------------------------------------------------

  /** Drift threshold in percent per sensor type; 3 for a type outside the table. */
  function Threshold(t: SensorType): (th: real)
    ensures 2.0 <= th <= 5.0
    ensures th == 2.0 <==> t == Pressure || t == Humidity
    ensures th == 5.0 <==> t == Vibration || t == Flow
    ensures th == 3.0 <==> t == Temperature || t.OtherType?
  {
    match t
    case Temperature => 3.0
    case Pressure => 2.0
    case Humidity => 2.0
    case Vibration => 5.0
    case Flow => 5.0
    case OtherType(_) => 3.0
  }

  /** Severity of a drift anomaly: High up to 5 %, Critical beyond. */
  function DriftSeverity(drift: real): (s: Severity)
    ensures s == High <==> Abs(drift) <= 5.0
    ensures s == Critical <==> Abs(drift) > 5.0
  {
    if Abs(drift) <= 5.0 then High else Critical
  }

  /** The anomaly a new reading raises, if any: a Drift anomaly whose expected
      value is the drift baseline and whose deviation is the unrounded drift. */
  function ReadingAnomaly(sensor: Sensor, raw: real, now: int): (r: Option<Anomaly>)
    ensures r.Some? <==> Abs(Serializers.DriftPercent(sensor.value, raw)) > Threshold(sensor.stype)
    ensures r.Some? ==> r.value.sensorId == sensor.id && r.value.atype == Drift && !r.value.resolved
    ensures r.Some? ==> r.value.value == raw && r.value.expected == Serializers.DriftBaseline(sensor.value)
    ensures r.Some? ==> r.value.deviation == Serializers.DriftPercent(sensor.value, raw)
    ensures r.Some? ==> (r.value.severity == High <==> Abs(r.value.deviation) <= 5.0)
    ensures r.Some? ==> r.value.severity == High || r.value.severity == Critical
  {
    var ideal := Serializers.DriftBaseline(sensor.value);
    var drift := Serializers.DriftPercent(sensor.value, raw);
    if Abs(drift) > Threshold(sensor.stype) then
      Some(NewAnomaly(sensor.id, Drift, raw, ideal, drift, DriftSeverity(drift), now))
    else
      None
  }

  /** Vibration and Flow sensors only raise anomalies above 5 %, so always Critical ones. */
  lemma WideThresholdAnomaliesAreCritical(sensor: Sensor, raw: real, now: int)
    requires sensor.stype == Vibration || sensor.stype == Flow
    requires ReadingAnomaly(sensor, raw, now).Some?
    ensures ReadingAnomaly(sensor, raw, now).value.severity == Critical
  {
  }

  /** The threshold is strict: a drift exactly at it raises nothing. */
  lemma DriftAtThresholdRaisesNothing(sensor: Sensor, raw: real, now: int)
    requires Abs(Serializers.DriftPercent(sensor.value, raw)) == Threshold(sensor.stype)
    ensures ReadingAnomaly(sensor, raw, now).None?
  {
  }

  /** A sensor whose value is still 0 is judged against 1: a reading of 1.04 is 4 % off,
      an anomaly for a Pressure sensor and none for a Temperature sensor. */
  lemma ZeroValueSensorExample(s: Sensor, now: int)
    requires s.value == 0.0
    ensures s.stype == Pressure ==> ReadingAnomaly(s, 1.04, now).Some? && ReadingAnomaly(s, 1.04, now).value.severity == High
    ensures s.stype == Temperature ==> ReadingAnomaly(s, 1.04, now).Some?
    ensures s.stype == Vibration ==> ReadingAnomaly(s, 1.04, now).None?
  {
    assert Serializers.DriftPercent(0.0, 1.04) == 4.0;
  }

  /** The anomaly's deviation, shown to two decimals, equals the drift of the reading's payload. */
  lemma AnomalyAgreesWithPayload(sensor: Sensor, raw: real, now: int)
    requires ReadingAnomaly(sensor, raw, now).Some?
    ensures Round2(ReadingAnomaly(sensor, raw, now).value.deviation) == Serializers.GetDrift(sensor.value, raw)
  {
  }

  /** Status code of a response. */
  const Created: int := 201
  const BadRequest: int := 400

  /** `ReadingListCreateAPIView.post`: an invalid payload stores nothing; a valid
      one stores the reading and, when the drift rule fires, one anomaly. */
  method PostReading(db: Tables, sensor: Sensor, payloadValid: bool, raw: real, now: int) returns (code: int)
    modifies db`readings, db`anomalies
    ensures !payloadValid ==> code == BadRequest && db.readings == old(db.readings) && db.anomalies == old(db.anomalies)
    ensures payloadValid ==> code == Created && db.readings == old(db.readings) + [Reading(sensor.id, raw, now)]
    ensures payloadValid && ReadingAnomaly(sensor, raw, now).Some? ==>
      db.anomalies == old(db.anomalies) + [ReadingAnomaly(sensor, raw, now).value]
    ensures payloadValid && ReadingAnomaly(sensor, raw, now).None? ==> db.anomalies == old(db.anomalies)
  {
    if !payloadValid {
      return BadRequest;
    }
    db.readings := db.readings + [Reading(sensor.id, raw, now)];
    var anomaly := ReadingAnomaly(sensor, raw, now);
    if anomaly.Some? {
      db.anomalies := db.anomalies + [anomaly.value];
    }
    code := Created;
  }

  // ---------------------------------------------------------------------------
  // Request validation and dispatch
  // ---------------------------------------------------------------------------

  /** Python truthiness of a sensor id: absent or 0 is missing. */
  predicate HasSensorId(sensorId: Option<int>)
  {
    sensorId.Some? && sensorId.value != 0
  }

  datatype TrainingDispatch =
    | TrainAll(sensorId: Option<int>)
    | TrainAnomaly(id: int)
    | TrainDrift(id: int)
    | TrainCalibration(id: int)
    | TrainingRejected(message: string)

  /** `ModelTrainingAPIView.post`: the model type defaults to "all", which
      trains every model of the given sensor, or of every sensor without one;
      a specific type needs a sensor id, checked before the type itself.
      `None` means the key is absent; a JSON `null` or any other non-string
      value is outside this model's input domain (the source rejects it with a 400). */
  function DispatchTraining(sensorId: Option<int>, modelType: Option<string>): (r: TrainingDispatch)
    ensures (modelType.None? || modelType.value == "all") <==> r.TrainAll?
    ensures r.TrainAll? ==> r.sensorId == sensorId
    ensures r.TrainingRejected? <==>
      !(modelType.None? || modelType.value == "all") &&
      (!HasSensorId(sensorId) || modelType.value !in {"anomaly", "drift", "calibration"})
    ensures r.TrainAnomaly? <==> HasSensorId(sensorId) && modelType == Some("anomaly")
    ensures r.TrainDrift? <==> HasSensorId(sensorId) && modelType == Some("drift")
    ensures r.TrainCalibration? <==> HasSensorId(sensorId) && modelType == Some("calibration")
    ensures r.TrainAnomaly? || r.TrainDrift? || r.TrainCalibration? ==> Some(r.id) == sensorId
  {
    var mt := if modelType.Some? then modelType.value else "all";
    if mt == "all" then TrainAll(sensorId)
    else if !HasSensorId(sensorId) then TrainingRejected("sensor_id required for specific model training")
    else if mt == "anomaly" then TrainAnomaly(sensorId.value)
    else if mt == "drift" then TrainDrift(sensorId.value)
    else if mt == "calibration" then TrainCalibration(sensorId.value)
    else TrainingRejected("Invalid model_type")
  }

  /** A missing sensor id is reported before an unknown model type. */
  lemma MissingSensorReportedFirst(modelType: string)
    requires modelType != "all"
    ensures DispatchTraining(None, Some(modelType)) == TrainingRejected("sensor_id required for specific model training")
  {
  }

  /** With a sensor id, a type other than the four known names gets the
      invalid-type message. */
  lemma UnknownTypeRejected(sensorId: int, modelType: string)
    requires sensorId != 0
    requires modelType !in {"all", "anomaly", "drift", "calibration"}
    ensures DispatchTraining(Some(sensorId), Some(modelType)) == TrainingRejected("Invalid model_type")
  {
  }

  /** `ReportGenerateAPIView.post`: the format defaults to csv; exactly the three
      stored report types are accepted, anything else is a 400.
      `None` means the key is absent; a JSON `null` or any other non-string
      value is outside this model's input domain (the source rejects it with a 400). */
  function ReportFormat(format: Option<string>): (r: Option<ReportType>)
    ensures format.None? ==> r == Some(Csv)
    ensures format.Some? ==> r == ParseReportType(format.value)
    ensures format.Some? ==> (r.None? <==> format.value !in {"csv", "excel", "pdf"})
  {
    ParseReportType(if format.Some? then format.value else "csv")
  }

  /** Every report type is reachable through its own name. */
  lemma ReportFormatRoundTrip(t: ReportType)
    ensures ReportFormat(Some(ReportTypeName(t))) == Some(t)
  {
  }

  /** `EnhancedAnomalyDetectionAPIView.post` (and the calibration endpoint with
      `raw_value`): both a sensor id and a value are required; a value of 0 is
      a value, a sensor id of 0 is not. */
  function AcceptsValueRequest(sensorId: Option<int>, value: Option<real>): (ok: bool)
    ensures ok <==> sensorId.Some? && sensorId.value != 0 && value.Some?
  {
    HasSensorId(sensorId) && value.Some?
  }

  lemma ZeroReadingIsAccepted(id: int)
    requires id != 0
    ensures AcceptsValueRequest(Some(id), Some(0.0))
    ensures !AcceptsValueRequest(Some(0), Some(0.0))
  {
  }

  // ---------------------------------------------------------------------------
  // Account requests
  // ---------------------------------------------------------------------------

  datatype PasswordOutcome = MissingFields | InvalidOldPassword | TooShort | PasswordChanged

  const MinPasswordLength: nat := 8

  /** `ChangePasswordAPIView.post`: missing or empty fields first, then the old
      password, then the length of the new one. Password hashing is abstracted:
      `current` is compared as is. */
  function PasswordChange(current: string, oldPassword: Option<string>, newPassword: Option<string>): (r: PasswordOutcome)
    ensures r == MissingFields <==> oldPassword.None? || oldPassword.value == "" || newPassword.None? || newPassword.value == ""
    ensures r == InvalidOldPassword <==> r != MissingFields && oldPassword.value != current
    ensures r == TooShort <==> r != MissingFields && oldPassword.value == current && |newPassword.value| < MinPasswordLength
    ensures r == PasswordChanged <==>
      oldPassword == Some(current) && current != "" && newPassword.Some? && |newPassword.value| >= MinPasswordLength
  {
    if oldPassword.None? || oldPassword.value == "" || newPassword.None? || newPassword.value == "" then MissingFields
    else if oldPassword.value != current then InvalidOldPassword
    else if |newPassword.value| < MinPasswordLength then TooShort
    else PasswordChanged
  }

  /** A user's account fields as the profile and password endpoints change them. */
  class Account {
    var firstName: string
    var lastName: string
    var email: string
    var password: string

    constructor (firstName: string, lastName: string, email: string, password: string)
      ensures this.firstName == firstName && this.lastName == lastName
      ensures this.email == email && this.password == password
    {
      this.firstName := firstName;
      this.lastName := lastName;
      this.email := email;
      this.password := password;
    }

    /** `ChangePasswordAPIView.post`: the password changes only on success. */
    method ChangePassword(oldPassword: Option<string>, newPassword: Option<string>) returns (r: PasswordOutcome)
      modifies this`password
      ensures r == PasswordChange(old(password), oldPassword, newPassword)
      ensures r == PasswordChanged ==> password == newPassword.value
      ensures r != PasswordChanged ==> password == old(password)
    {
      r := PasswordChange(password, oldPassword, newPassword);
      if r == PasswordChanged {
        password := newPassword.value;
      }
    }

    /** `UserProfileAPIView.put`: each name or e-mail field present in the request
        replaces the stored one; the others, and the password, stay. */
    method UpdateProfile(firstName: Option<string>, lastName: Option<string>, email: Option<string>)
      modifies this`firstName, this`lastName, this`email
      ensures this.firstName == (if firstName.Some? then firstName.value else old(this.firstName))
      ensures this.lastName == (if lastName.Some? then lastName.value else old(this.lastName))
      ensures this.email == (if email.Some? then email.value else old(this.email))
    {
      if firstName.Some? {
        this.firstName := firstName.value;
      }
      if lastName.Some? {
        this.lastName := lastName.value;
      }
      if email.Some? {
        this.email := email.value;
      }
    }
  }
}
