# SensorGuard core, modelled in Dafny

SensorGuard monitors industrial sensors. A React client shows live sensor
values, anomalies, drift forecasts and calibration controls. A Django
service stores sensors, readings, calibrations and anomalies, classifies
readings, forecasts drift, schedules calibrations and trains per-sensor
models.

This project models the decision logic of both halves:

- the client's telemetry store: the 50-entry reading history and the simulation step;
- the drift page's schedule derivation and its precedence over the server schedule;
- the anomaly list's filter, statistics, paging and CSV rows;
- the dashboard's counts and colour bands;
- the calibration card's state machine;
- the server's reading-drift rule and request validation;
- the serializers' status and drift fields;
- the rule cascade and severity bands of the anomaly detector;
- the per-point classification of the ML anomaly detector;
- the fallback detectors, forecasts and calibration of the enhanced ML service;
- the simple drift forecast;
- the reading simulator;
- the capped analytics metrics;
- model-file naming, listing and training guards;
- the calibration scheduler;
- the enumerations and defaults of the stored entities.

One Dafny module stands for each source file:

| module | file |
|---|---|
| `SensorContext` | `sensor_context.dfy` |
| `DriftPrediction` | `drift_prediction.dfy` |
| `AnomaliesPage` | `anomalies_page.dfy` |
| `Dashboard` | `dashboard.dfy` |
| `CalibrationPage` | `calibration_page.dfy` |
| `Views` | `views.dfy` |
| `Serializers` | `serializers.dfy` |
| `AnomalyRules` | `anomaly_rules.dfy` |
| `AnomalyML` | `anomaly_ml.dfy` |
| `EnhancedML` | `enhanced_ml.dfy` |
| `DriftPredictions` | `drift_predictions.dfy` |
| `Simulation` | `simulation.dfy` |
| `MLAnalytics` | `ml_analytics.dfy` |
| `ModelTraining` | `model_training.dfy` |
| `CalibrationScheduler` | `calibration_scheduler.dfy` |
| `Models` | `models.dfy` |

`ScheduleRule` holds the threshold rule that the client and the scheduler share. `Common` holds the arithmetic and counting helpers.

Modelling conventions:

- **Stateful components are classes.** This covers the client store, the drift page, the anomaly list, the calibration card, the user account, and the database tables that the services append to. Their methods state the whole new state.
- **Loops are methods.** A loop that builds a list, a map or a running total is a `method` with a loop, proved equal to a recursive specification function. Properties are then proved about that function. A loop that only counts, such as the count of usable calibrations in `train_calibration_model`, is written with `Common.CountIf` inside the pure function.
- **Floats are `real`.** Rounding to two decimals is `Common.Round2`, which rounds half up on exact hundredths.
- **Python's `x or d` on a float is `Common.OrDefault`.** It gives `d` exactly when `x` is 0.
- **External effects become parameters.** Remote calls, the database, random draws, `hash`, the clock, file ages and numpy/scikit-learn results are all parameters. A failed call or a raised exception is `None` or an error constructor.

## Model

| member | source | states |
|---|---|---|
| SensorContext.KeepLast | Frontend/calibration_front/src/contexts/SensorContext.tsx:67 | keeping the last 50 entries yields min(n, 50) entries, which are exactly the newest suffix of the history |
| SensorContext.AppendCapped | Frontend/calibration_front/src/contexts/SensorContext.tsx:67 | after an append the history has min(old+1, 50) entries, ends with the new reading, and keeps the older entries in order |
| SensorContext.KeepLastPrefix | Frontend/calibration_front/src/contexts/SensorContext.tsx:63-68 | trimming to 50 before more appends loses nothing that trimming once at the end would keep |
| SensorContext.AppendAllKeepsMostRecent | Frontend/calibration_front/src/contexts/SensorContext.tsx:63-68 | a series of capped appends equals the last 50 entries of the uncapped concatenation |
| SensorContext.RepeatedLatestIsAppended | Frontend/calibration_front/src/contexts/SensorContext.tsx:64-67 | appends are not deduplicated: an unchanged server "latest" is appended again |
| SensorContext.SimBaseline | Frontend/calibration_front/src/contexts/SensorContext.tsx:80 | the simulation baseline is never zero: the sensor value, or 1 when the value is 0 |
| SensorContext.Perturbation | Frontend/calibration_front/src/contexts/SensorContext.tsx:83 | the random perturbation lies in [-0.05, 0.05) |
| SensorContext.SimulateStep | Frontend/calibration_front/src/contexts/SensorContext.tsx:79-114 | one simulation step changes only value, drift and lastUpdated; the new value is round2(baseline + r) and within 0.055 of the baseline; drift is round2 of the percentage change from the baseline |
| SensorContext.ZeroValueUsesUnitBaseline | Frontend/calibration_front/src/contexts/SensorContext.tsx:80-88 | a sensor at 0 is simulated around 1 and its drift is measured against 1 |
| SensorContext.SensorStore.constructor | Frontend/calibration_front/src/contexts/SensorContext.tsx:39-43 | the store starts empty, loading, without error |
| SensorContext.SensorStore.FetchSensors | Frontend/calibration_front/src/contexts/SensorContext.tsx:46-55 | success replaces the list and clears the error; failure keeps the list and sets "Failed to fetch sensors" |
| SensorContext.SensorStore.RefreshSensors | Frontend/calibration_front/src/contexts/SensorContext.tsx:126-130 | a refresh fetches as above, leaves the histories alone and ends not loading |
| SensorContext.SensorStore.FetchReadings | Frontend/calibration_front/src/contexts/SensorContext.tsx:58-73 | a non-empty reply appends its last reading to that sensor's capped history; an empty reply or a failure changes nothing; other sensors' histories are unchanged |
| SensorContext.SensorStore.UpdateSensorValues | Frontend/calibration_front/src/contexts/SensorContext.tsx:76-123 | every sensor is replaced by its simulation step, in order, and lastUpdate is set to now |
| SensorContext.SimulationKeepsIds | Frontend/calibration_front/src/contexts/SensorContext.tsx:78-115 | a simulation pass preserves the count, order, ids, names and statuses of the sensors |
| ScheduleRule.ScheduledSteps | Frontend/calibration_front/src/pages/DriftPrediction.tsx:57-67 | the steps that get a calibration entry are in forecast order, strictly increasing, each one with \|drift\| > 5 |
| ScheduleRule.ScheduledStepsExact | Frontend/calibration_front/src/pages/DriftPrediction.tsx:57-58 | step i gets an entry if and only if \|d_i\| > 5 |
| ScheduleRule.ScheduledStepsCount | Frontend/calibration_front/src/pages/DriftPrediction.tsx:57-67 | there are exactly as many entries as forecast steps over the threshold |
| ScheduleRule.QuietForecastSchedulesNothing | Frontend/calibration_front/src/pages/DriftPrediction.tsx:57-67 | a forecast with no step over 5 schedules nothing |
| ScheduleRule.ExampleForecast | Backend/calibration_platform/sensors/services/calibration_scheduler.py:36-50 | the forecast [2, -6, 11, 4] schedules steps 1 and 2, four and six days out, only the second urgent |
| DriftPrediction.LocalScheduleIsScheduledSteps | Frontend/calibration_front/src/pages/DriftPrediction.tsx:57-67 | the local schedule is one entry per scheduled step, in the same order |
| DriftPrediction.LocalScheduleProperties | Frontend/calibration_front/src/pages/DriftPrediction.tsx:57-67 | the local schedule has at most one entry per prediction, every entry comes from a step over the threshold, every such step has its entry, and dates strictly increase |
| DriftPrediction.LocalEntryShape | Frontend/calibration_front/src/pages/DriftPrediction.tsx:59-64 | a local entry is dated 2(i+1) days out and is High iff \|d\| > 10, Medium otherwise |
| DriftPrediction.DeriveLocalSchedule | Frontend/calibration_front/src/pages/DriftPrediction.tsx:55-67 | the forEach loop builds exactly the specified local schedule |
| DriftPrediction.FromServerAll | Frontend/calibration_front/src/pages/DriftPrediction.tsx:80-85 | the server schedule is taken entry by entry, keeping date, reason, priority and confidence |
| DriftPrediction.MissingPredictionsShowNothingNeeded | Frontend/calibration_front/src/pages/DriftPrediction.tsx:53 | a forecast without predictions yields a schedule shown as "No Calibration Needed" |
| DriftPrediction.ServerAgreesWithLocal | Backend/calibration_platform/sensors/services/calibration_scheduler.py:36-59 | client and scheduler pick the same steps with the same priorities and reasons; the scheduler dates urgent entries one day earlier |
| DriftPrediction.Risk | Frontend/calibration_front/src/pages/DriftPrediction.tsx:294 | the risk label is High for \|d\| > 5, Medium for 2 < \|d\| <= 5, Low otherwise |
| DriftPrediction.HighRiskIffScheduled | Frontend/calibration_front/src/pages/DriftPrediction.tsx:57-58 | a step is labelled High Risk exactly when the local schedule has an entry for it |
| DriftPrediction.DriftPredictionPage.constructor | Frontend/calibration_front/src/pages/DriftPrediction.tsx:44-98 | the page starts with no predictions and no schedule |
| DriftPrediction.DriftPredictionPage.FetchMLPredictions | Frontend/calibration_front/src/pages/DriftPrediction.tsx:44-98 | a failed forecast clears both predictions and schedule; a reply that carries a schedule, even an empty one, replaces the local schedule; a failed or schedule-less reply keeps it |
| DriftPrediction.FetchAgainstScheduler | Frontend/calibration_front/src/pages/DriftPrediction.tsx:79-87 | against a scheduler that finds the sensor, the page never shows "No Calibration Needed"; a quiet forecast shows the single Low maintenance entry |
| DriftPrediction.FetchWithFailedScheduleRequest | Frontend/calibration_front/src/pages/DriftPrediction.tsx:71-91 | when the schedule request fails, the page keeps its local schedule and shows "No Calibration Needed" exactly when no forecast step exceeds 5 % |
| CalibrationScheduler.AverageInterval | Backend/calibration_platform/sensors/services/calibration_scheduler.py:22-30 | the average interval is 30 days with at most one calibration, else the mean gap between consecutive calibrations |
| CalibrationScheduler.MeanGapNonNegative | Backend/calibration_platform/sensors/services/calibration_scheduler.py:22-30 | with calibrations newest first, the average interval is not negative |
| CalibrationScheduler.SensorFactor | Backend/calibration_platform/sensors/services/calibration_scheduler.py:99-108 | the per-type factor lies in [0.75, 0.9] |
| CalibrationScheduler.CalibrationConfidence | Backend/calibration_platform/sensors/services/calibration_scheduler.py:89-113 | confidence lies in [0.7, 0.95] |
| CalibrationScheduler.ConfidenceCapNeverBinds | Backend/calibration_platform/sensors/services/calibration_scheduler.py:94-113 | confidence never exceeds 0.88, so it always equals 0.7 + min(\|d\|/20, 1)·0.2·factor |
| CalibrationScheduler.ConfidenceMonotone | Backend/calibration_platform/sensors/services/calibration_scheduler.py:94-113 | confidence does not decrease as \|d\| grows |
| CalibrationScheduler.ThresholdEntriesAreScheduledSteps | Backend/calibration_platform/sensors/services/calibration_scheduler.py:36-59 | the scheduler's entries are one per scheduled step, in forecast order |
| CalibrationScheduler.ThresholdEntryShape | Backend/calibration_platform/sensors/services/calibration_scheduler.py:37-59 | an entry is High iff \|d\| > 10, never Low; urgent entries are dated 2(i+1)-1 days out and never before day 1; medium entries 2(i+1) days out |
| CalibrationScheduler.MaintenanceEntry | Backend/calibration_platform/sensors/services/calibration_scheduler.py:61-71 | the maintenance entry is Low priority, drift 0, confidence 0.8, dated the average interval out |
| CalibrationScheduler.PredictCalibrationSchedule | Backend/calibration_platform/sensors/services/calibration_scheduler.py:9-87 | an unknown sensor gives an error with an empty schedule; otherwise the schedule is never empty — the threshold entries, or exactly the maintenance entry — and the interval and counts come from the five latest calibrations, the response names the sensor, and the last calibration is the newest one |
| CalibrationScheduler.CurrentDrift | Backend/calibration_platform/sensors/services/calibration_scheduler.py:136-138 | current drift is the newest reading's percentage from the baseline, which is the sensor value or, when that is 0, the mean of the three newest readings; 0 when the baseline is 0 |
| CalibrationScheduler.GetCalibrationRecommendations | Backend/calibration_platform/sensors/services/calibration_scheduler.py:115-189 | an unknown sensor gives an error; fewer than 5 recent readings give insufficient data; otherwise at most one threshold recommendation (urgent above 10, recommended above 5) and a trend warning iff the slope is positive and \|drift\| > 2, the list being exactly that threshold entry (if any) followed by the warning (if any); the slope is fitted over the newest-first readings, as the service fits it |
| AnomaliesPage.LowerChar | Frontend/calibration_front/src/pages/Anomalies.tsx:46-47 | lower-casing maps A-Z to a-z and leaves every other character alone |
| AnomaliesPage.Lower | Frontend/calibration_front/src/pages/Anomalies.tsx:46-47 | lower-casing a string lower-cases each character and keeps the length |
| AnomaliesPage.LowerIdempotent | Frontend/calibration_front/src/pages/Anomalies.tsx:46-47 | lower-casing twice is lower-casing once |
| AnomaliesPage.IncludesIffOccurs | Frontend/calibration_front/src/pages/Anomalies.tsx:46-47 | the substring test holds iff the term occurs at some position |
| AnomaliesPage.EmptyTermMatchesEverything | Frontend/calibration_front/src/pages/Anomalies.tsx:45-47 | the empty search term matches every name |
| AnomaliesPage.Filtered | Frontend/calibration_front/src/pages/Anomalies.tsx:44-51 | an anomaly is listed iff it is in the list and matches the search and both filters |
| AnomaliesPage.FilteredIsSubsequence | Frontend/calibration_front/src/pages/Anomalies.tsx:44-51 | the filtered list is an order-preserving subsequence of the anomalies |
| AnomaliesPage.InitialQueryKeepsAll | Frontend/calibration_front/src/pages/Anomalies.tsx:44-51 | the initial empty search with "all" filters lists everything |
| AnomaliesPage.SearchIsCaseInsensitive | Frontend/calibration_front/src/pages/Anomalies.tsx:45-47 | the search term's case does not change the result |
| AnomaliesPage.TypeFilterIsExact | Frontend/calibration_front/src/pages/Anomalies.tsx:48 | with a type filter set, every listed anomaly has exactly that type |
| AnomaliesPage.ComputeStats | Frontend/calibration_front/src/pages/Anomalies.tsx:68-75 | total is the list length; resolved, critical and lastHour are each at most total; all are 0 on an empty list |
| AnomaliesPage.LastHourZeroIff | Frontend/calibration_front/src/pages/Anomalies.tsx:72-74 | lastHour is 0 iff no anomaly is less than 3 600 000 ms old |
| AnomaliesPage.AllResolvedIff | Frontend/calibration_front/src/pages/Anomalies.tsx:70 | resolved equals total iff every anomaly is resolved |
| AnomaliesPage.EmptyListShowsNaNRate | Frontend/calibration_front/src/pages/Anomalies.tsx:202 | the rate as written is not a number on an empty list |
| AnomaliesPage.ResolutionRate | Frontend/calibration_front/src/pages/Anomalies.tsx:202 | the guarded rate lies in [0, 100], is 0 on an empty list, agrees with the written formula otherwise, and is 100 iff all are resolved |
| AnomaliesPage.SeverityColor | Frontend/calibration_front/src/pages/Anomalies.tsx:53-66 | the badge is destructive exactly for Critical and muted exactly for unknown severities |
| AnomaliesPage.CsvRow | Frontend/calibration_front/src/pages/Anomalies.tsx:92-101 | a CSV row has one cell per header and says "Resolved" iff the anomaly is resolved, "Active" otherwise |
| AnomaliesPage.CsvRows | Frontend/calibration_front/src/pages/Anomalies.tsx:92-101 | one CSV row per anomaly, in list order |
| AnomaliesPage.ExportCsv | Frontend/calibration_front/src/pages/Anomalies.tsx:78-103 | export is a no-op on an empty list; otherwise it is the header followed by one row per anomaly |
| AnomaliesPage.ExportAgreesWithResolvedCount | Frontend/calibration_front/src/pages/Anomalies.tsx:92-101 | the number of rows saying "Resolved" equals the resolved count on the page |
| AnomaliesPage.AnomaliesView.constructor | Frontend/calibration_front/src/pages/Anomalies.tsx:23-28 | the page starts loading, empty, unfiltered, showing 20 rows |
| AnomaliesPage.AnomaliesView.Load | Frontend/calibration_front/src/pages/Anomalies.tsx:31-42 | a reply replaces the list and a failure keeps it; loading ends either way |
| AnomaliesPage.AnomaliesView.SetQuery | Frontend/calibration_front/src/pages/Anomalies.tsx:25-27 | setting the search and filters changes only the query |
| AnomaliesPage.AnomaliesView.LoadMore | Frontend/calibration_front/src/pages/Anomalies.tsx:344-347 | "Load More" shows 50 more rows |
| AnomaliesPage.AnomaliesView.ShownRows | Frontend/calibration_front/src/pages/Anomalies.tsx:289-308 | the rows shown are the first min(visibleCount, matches) filtered anomalies, and "Load More" is offered iff some are hidden |
| AnomaliesPage.RowsAfterLoadMore | Frontend/calibration_front/src/pages/Anomalies.tsx:344-347 | after k clicks, min(20 + 50k, matches) rows are shown |
| Dashboard.Counts | Frontend/calibration_front/src/pages/Dashboard.tsx:55-60 | total is the sensor count; online, warning and critical are each at most total |
| Dashboard.CountsWithinTotal | Frontend/calibration_front/src/pages/Dashboard.tsx:57-59 | online + warning + critical <= total, as the statuses are exclusive |
| Dashboard.AllOnlineIff | Frontend/calibration_front/src/pages/Dashboard.tsx:56-57 | online equals total iff every sensor is online |
| Dashboard.NoCriticalIff | Frontend/calibration_front/src/pages/Dashboard.tsx:59 | critical is 0 iff no sensor is critical |
| Dashboard.DriftBand | Frontend/calibration_front/src/pages/Dashboard.tsx:182-188 | drift colour is destructive for \|d\| > 3, warning for 1 < \|d\| <= 3, success otherwise |
| Dashboard.DriftBandSymmetric | Frontend/calibration_front/src/pages/Dashboard.tsx:182-188 | the colour ignores the drift's sign |
| Dashboard.DriftBandMonotone | Frontend/calibration_front/src/pages/Dashboard.tsx:182-188 | a larger \|drift\| never gets a milder colour |
| Dashboard.SignPrefix | Frontend/calibration_front/src/pages/Dashboard.tsx:190 | "+" is shown iff drift > 0 |
| CalibrationPage.Loaded | Frontend/calibration_front/src/pages/Calibration.tsx:46-56 | loaded data has measured = value, ideal = corrected = expected, offset = round2(expected - measured), status Ready, accuracy 100 |
| CalibrationPage.MLApplied | Frontend/calibration_front/src/pages/Calibration.tsx:96-101 | an ML correction sets corrected and its offset from measured, status "ML Calibrated", and leaves every other field alone |
| CalibrationPage.Recalibrated | Frontend/calibration_front/src/pages/Calibration.tsx:136-146 | after calibration measured = corrected = ideal, offset 0, status Ready, ideal unchanged |
| CalibrationPage.FindByName | Frontend/calibration_front/src/pages/Calibration.tsx:83-84 | the lookup returns the first sensor with that name, and nothing iff none has it |
| CalibrationPage.MLThenCalibrate | Frontend/calibration_front/src/pages/Calibration.tsx:96-146 | neither action changes the ideal value, and calibrating after an ML correction gives the same card as calibrating directly |
| CalibrationPage.LoadedOnTargetHasZeroOffset | Frontend/calibration_front/src/pages/Calibration.tsx:51 | an anomaly on its expected value loads with offset 0 |
| CalibrationPage.CalibrationView.SelectedSensorObj | Frontend/calibration_front/src/pages/Calibration.tsx:124-125 | with no selection there is no sensor; a found sensor is in the list and has the selected name |
| CalibrationPage.CalibrationView.constructor | Frontend/calibration_front/src/pages/Calibration.tsx:15-19 | the card starts with no selection, no data and not calibrating |
| CalibrationPage.CalibrationView.SelectInitialSensor | Frontend/calibration_front/src/pages/Calibration.tsx:22-27 | the first sensor is selected when nothing is selected and the list is not empty |
| CalibrationPage.CalibrationView.FetchAnomalyData | Frontend/calibration_front/src/pages/Calibration.tsx:30-67 | no selection changes nothing; no anomalies or a failed fetch set the data to null; otherwise the newest anomaly is loaded |
| CalibrationPage.CalibrationView.HandleMLCalibration | Frontend/calibration_front/src/pages/Calibration.tsx:80-115 | without a selection, data or a found sensor, or on failure, the data is unchanged; otherwise the ML correction is applied |
| CalibrationPage.CalibrationView.HandleCalibration | Frontend/calibration_front/src/pages/Calibration.tsx:117-162 | the guard and failure leave the data unchanged; success recalibrates; isCalibrating is false afterwards whenever the action ran |
| Views.Threshold | Backend/calibration_platform/sensors/views.py:50-57 | the threshold is 2 for Pressure and Humidity, 5 for Vibration and Flow, 3 for Temperature and any other type |
| Views.DriftSeverity | Backend/calibration_platform/sensors/views.py:60 | severity is High for \|drift\| <= 5, else Critical |
| Views.ReadingAnomaly | Backend/calibration_platform/sensors/views.py:43-69 | an anomaly is raised iff \|drift %\| exceeds the type's threshold, against an expected value of 1 when the sensor value is 0; it is an unresolved Drift anomaly, High or Critical |
| Views.WideThresholdAnomaliesAreCritical | Backend/calibration_platform/sensors/views.py:54-60 | for Vibration and Flow sensors every raised anomaly is Critical |
| Views.DriftAtThresholdRaisesNothing | Backend/calibration_platform/sensors/views.py:59 | a drift exactly at the threshold raises nothing |
| Views.ZeroValueSensorExample | Backend/calibration_platform/sensors/views.py:43-60 | a sensor at 0 measured at 1.04 gives a High anomaly for Pressure, an anomaly for Temperature and none for Vibration |
| Views.AnomalyAgreesWithPayload | Backend/calibration_platform/sensors/views.py:47-71 | the stored deviation rounds to the drift the response reports |
| Views.PostReading | Backend/calibration_platform/sensors/views.py:36-71 | an invalid payload returns 400 and stores nothing; a valid one stores the reading, returns 201 and stores the anomaly exactly when one is raised |
| Views.DispatchTraining | Backend/calibration_platform/sensors/views.py:219-241 | "all" (or no type) trains all sensors with the given id; other types need a sensor id; an unknown type is rejected |
| Views.MissingSensorReportedFirst | Backend/calibration_platform/sensors/views.py:229-230 | without a sensor id any specific type is rejected with the missing-sensor message, even an invalid type |
| Views.UnknownTypeRejected | Backend/calibration_platform/sensors/views.py:237-238 | with a sensor id, a type other than all, anomaly, drift and calibration is rejected with the invalid-type message |
| Views.ReportFormat | Backend/calibration_platform/sensors/views.py:148-160 | the format defaults to csv; csv, excel and pdf are accepted and anything else is rejected |
| Views.ReportFormatRoundTrip | Backend/calibration_platform/sensors/views.py:150-158 | every report type's name is accepted as that type |
| Views.AcceptsValueRequest | Backend/calibration_platform/sensors/views.py:257-258 | a detection request is accepted iff it has a non-zero sensor id and a reading value |
| Views.ZeroReadingIsAccepted | Backend/calibration_platform/sensors/views.py:257-258 | a reading value of 0 is accepted but a sensor id of 0 is not |
| Views.PasswordChange | Backend/calibration_platform/sensors/views.py:426-438 | rejections come in order: missing fields, wrong old password, new password under 8 characters; otherwise the password changes |
| Views.Account.constructor | Backend/calibration_platform/sensors/views.py:361-379 | a new account holds the given names, email and password |
| Views.Account.ChangePassword | Backend/calibration_platform/sensors/views.py:421-438 | the password changes exactly when the change is accepted |
| Views.Account.UpdateProfile | Backend/calibration_platform/sensors/views.py:396-416 | each profile field is replaced iff the request carries it |
| Serializers.SerializeSensor | Backend/calibration_platform/sensors/serializers.py:6-12 | the sensor payload carries id, name, type, value, unit, status, lastUpdated and drift unchanged |
| Serializers.SensorPayloadRoundTrip | Backend/calibration_platform/sensors/serializers.py:6-12 | the client rebuilds exactly the stored sensor from the payload's eight fields |
| Serializers.GetStatus | Backend/calibration_platform/sensors/serializers.py:43-47 | a reading is critical iff it is more than 3 units from the sensor value |
| Serializers.DriftBaseline | Backend/calibration_platform/sensors/serializers.py:51 | the drift baseline is the sensor value, or 1 when it is 0 |
| Serializers.DriftPercent | Backend/calibration_platform/sensors/serializers.py:52 | drift is the percentage change from the baseline |
| Common.Round2 | Backend/calibration_platform/sensors/serializers.py:52 | rounding to two decimals gives a whole number of hundredths within half a hundredth of the value |
| Common.Round2Idempotent | Backend/calibration_platform/sensors/serializers.py:52 | rounding an already rounded value leaves it unchanged |
| Serializers.GetDrift | Backend/calibration_platform/sensors/serializers.py:49-52 | the reported drift is a whole number of hundredths within 0.005 of the percentage |
| Serializers.OnTargetHasZeroDrift | Backend/calibration_platform/sensors/serializers.py:43-52 | a reading equal to a non-zero sensor value has drift 0 and is online |
| Serializers.DriftSign | Backend/calibration_platform/sensors/serializers.py:52 | for a positive sensor value, drift is positive iff the reading is above it |
| Serializers.StatusIgnoresScale | Backend/calibration_platform/sensors/serializers.py:43-52 | status uses absolute units: 1004 against 1000 is critical at 0.4 % drift |
| Serializers.SerializeReading | Backend/calibration_platform/sensors/serializers.py:16-52 | the reading payload carries the raw value and time, the sensor's name, type and unit, and the computed status and drift |
| AnomalyRules.Recent | Backend/calibration_platform/sensors/services/anomaly.py:12-13 | the recent window is the newest min(n, 10) readings |
| AnomalyRules.Tolerance | Backend/calibration_platform/sensors/services/anomaly.py:9 | the tolerance is 20 % of \|baseline\|, or 10 when the baseline is 0 |
| AnomalyRules.DiffSumTelescopes | Backend/calibration_platform/sensors/services/anomaly.py:18 | the sum of consecutive differences telescopes to newest minus oldest |
| AnomalyRules.TrendOf | Backend/calibration_platform/sensors/services/anomaly.py:16-18 | the trend is (newest - oldest)/(n - 1) |
| AnomalyRules.Variance3 | Backend/calibration_platform/sensors/services/anomaly.py:35 | the noise variance is not negative |
| AnomalyRules.Classify | Backend/calibration_platform/sensors/services/anomaly.py:15-48 | rules are tried as Drift, Spike, Dropout, Noise, Calibration Error, out-of-range, and the first that fires decides the type; none firing gives no anomaly |
| AnomalyRules.ZeroBaselineNoCalibrationError | Backend/calibration_platform/sensors/services/anomaly.py:40-44 | a zero baseline never yields Calibration Error |
| AnomalyRules.SteadyReadingIsNormal | Backend/calibration_platform/sensors/services/anomaly.py:15-48 | a reading on a positive baseline with a steady history raises nothing |
| AnomalyRules.Deviation | Backend/calibration_platform/sensors/services/anomaly.py:52 | deviation is the percentage from the baseline, and 0 when the baseline is 0 |
| AnomalyRules.SeverityOf | Backend/calibration_platform/sensors/services/anomaly.py:55-62 | severity is Critical above 50, High above 20, Medium above 10, Low otherwise |
| AnomalyRules.SeverityMonotone | Backend/calibration_platform/sensors/services/anomaly.py:55-62 | severity does not decrease as \|deviation\| grows |
| AnomalyRules.ZeroBaselineIsLow | Backend/calibration_platform/sensors/services/anomaly.py:52-62 | a zero baseline gives deviation 0 and severity Low |
| AnomalyRules.AnomalyFor | Backend/calibration_platform/sensors/services/anomaly.py:64-72 | the stored anomaly has expected = baseline, the reading, the type, its deviation and severity, unresolved |
| AnomalyRules.DetectAnomaly | Backend/calibration_platform/sensors/services/anomaly.py:3-75 | the step-by-step cascade returns the classified type; exactly one anomaly is stored when there is one, none otherwise |
| AnomalyRules.PredictDrift | Backend/calibration_platform/sensors/services/anomaly.py:79-83 | the drift forecast has exactly one value per interval, each in [-2, 2] |
| AnomalyML.MLDeviation | Backend/calibration_platform/sensors/services/anomaly_ml.py:21-22 | deviation is the percentage from the expected value, 0 when that is 0 |
| AnomalyML.MLSeverity | Backend/calibration_platform/sensors/services/anomaly_ml.py:23 | severity is High iff \|deviation\| > 15, else Medium |
| AnomalyML.MLType | Backend/calibration_platform/sensors/services/anomaly_ml.py:26-34 | type is Spike above 50, else Dropout below 0.3 of expected, else Noise in (20, 50), else Calibration Error in (10, 20), else Drift |
| AnomalyML.BoundariesFallToDrift | Backend/calibration_platform/sensors/services/anomaly_ml.py:26-34 | deviations of exactly 10, 20 or 50 that are not Dropouts are Drift |
| AnomalyML.DropoutNeedsNonPositiveExpected | Backend/calibration_platform/sensors/services/anomaly_ml.py:28-31 | with a positive expected value a flagged point is never a Dropout, as Spike is tested first |
| AnomalyML.MLAnomaly | Backend/calibration_platform/sensors/services/anomaly_ml.py:21-44 | a flagged point's anomaly has the reading, expected value, deviation, severity and type above, unresolved |
| AnomalyML.Flagged | Backend/calibration_platform/sensors/services/anomaly_ml.py:18-20 | the flagged positions are in order and each one is flagged |
| AnomalyML.FlaggedComplete | Backend/calibration_platform/sensors/services/anomaly_ml.py:18-20 | every flagged position is listed |
| AnomalyML.MLAnomalies | Backend/calibration_platform/sensors/services/anomaly_ml.py:18-45 | one anomaly per flagged reading, in timestamp order |
| AnomalyML.OneAnomalyPerFlag | Backend/calibration_platform/sensors/services/anomaly_ml.py:18-45 | there are exactly as many anomalies as flags |
| AnomalyML.MLAnomalyDetection | Backend/calibration_platform/sensors/services/anomaly_ml.py:5-46 | fewer than 5 readings give nothing; otherwise the loop returns and stores exactly those anomalies |
| EnhancedML.BasicAnomalyDetection | Backend/calibration_platform/sensors/services/enhanced_ml_services.py:59-74 | a reading is flagged iff it lies outside baseline ± tolerance; the score is the deviation and the confidence is \|score\|/10 |
| EnhancedML.BasicFlagMatchesScore | Backend/calibration_platform/sensors/services/enhanced_ml_services.py:63-67 | on a non-zero baseline the flag is set iff \|score\| > 20; on a zero baseline the score is 0 and the flag is set iff \|reading\| > 10 |
| EnhancedML.OutsideBandIffOverTwentyPercent | Backend/calibration_platform/sensors/services/enhanced_ml_services.py:64-67 | leaving the ±20 % band is the same as a deviation above 20 % |
| EnhancedML.PredictAnomaly | Backend/calibration_platform/sensors/services/enhanced_ml_services.py:14-57 | an unknown sensor is a server error; a missing or unloadable model falls back to the basic detector; a trained model's label and score are reported |
| EnhancedML.TrendBaseline | Backend/calibration_platform/sensors/services/enhanced_ml_services.py:148-150 | the trend baseline is the sensor value, or the last reading when that is 0 |
| EnhancedML.SimpleDrift | Backend/calibration_platform/sensors/services/enhanced_ml_services.py:133-161 | fewer than 3 readings give future_points zeros and no_data; otherwise future_points drifts of last + slope·(i+1) from the baseline |
| EnhancedML.SimpleDriftPrediction | Backend/calibration_platform/sensors/services/enhanced_ml_services.py:133-161 | the prediction loop builds exactly the specified forecast |
| EnhancedML.TrendStepIsConstant | Backend/calibration_platform/sensors/services/enhanced_ml_services.py:150-156 | consecutive drift predictions differ by slope/baseline·100 |
| EnhancedML.ZeroBaselinePredictsNothing | Backend/calibration_platform/sensors/services/enhanced_ml_services.py:150-156 | a zero sensor value and a zero last reading predict 0 drift throughout |
| EnhancedML.FlatTrendFromLastReading | Backend/calibration_platform/sensors/services/enhanced_ml_services.py:150-156 | a flat trend from the last reading predicts 0 drift throughout |
| EnhancedML.PredictDrift | Backend/calibration_platform/sensors/services/enhanced_ml_services.py:76-131 | an unknown sensor is a server error; the trained forecast (confidence 0.8) is used iff a model exists, 3 recent readings exist and it loads; otherwise the simple forecast |
| EnhancedML.FewRecentMeansNoData | Backend/calibration_platform/sensors/services/enhanced_ml_services.py:94-95 | with fewer than 3 recent readings the answer is always no_data |
| EnhancedML.BasicCalibration | Backend/calibration_platform/sensors/services/enhanced_ml_services.py:190-205 | corrected = raw + factor lies between raw and the baseline, closing 10 % of the gap; a zero sensor value leaves the reading unchanged |
| EnhancedML.Gap | Backend/calibration_platform/sensors/services/enhanced_ml_services.py:195-199 | the remaining gap after repeated corrections lies in (0, 1] |
| EnhancedML.RepeatedCalibrationConverges | Backend/calibration_platform/sensors/services/enhanced_ml_services.py:195-199 | n corrections leave 0.9^n of the original gap to the baseline |
| EnhancedML.ApplyAdaptiveCalibration | Backend/calibration_platform/sensors/services/enhanced_ml_services.py:163-188 | an unknown sensor is a server error; the trained model's value is used iff it exists and loads; otherwise the basic calibration |
| EnhancedML.NeedsListOfKinds | Backend/calibration_platform/sensors/services/enhanced_ml_services.py:222-232 | a model type needs training iff its file is missing or older than 7 days |
| EnhancedML.AutoTrainModelsIfNeeded | Backend/calibration_platform/sensors/services/enhanced_ml_services.py:207-243 | an unknown sensor is a server error; otherwise results hold exactly the types that need training, each with its training result |
| DriftPredictions.SimpleDriftPrediction | Backend/calibration_platform/sensors/services/drift_predictions.py:4-19 | exactly future_points values: zeros with fewer than 3 readings, else last + slope·(i+1) |
| DriftPredictions.ForecastStepsBySlope | Backend/calibration_platform/sensors/services/drift_predictions.py:17-18 | the first prediction is last + slope and consecutive predictions differ by exactly slope |
| DriftPredictions.FlatTrendRepeatsLast | Backend/calibration_platform/sensors/services/drift_predictions.py:17-18 | a zero slope repeats the last reading |
| Simulation.FindSensor | Backend/calibration_platform/sensors/services/simulation.py:9-12 | the lookup finds a sensor with that id, and nothing iff none has it |
| Simulation.SimulatedValue | Backend/calibration_platform/sensors/services/simulation.py:15-17 | the simulated value lies within 5 of the base, which is the sensor value or 50 when it is 0 |
| Simulation.ZeroValueSimulatesAroundFifty | Backend/calibration_platform/sensors/services/simulation.py:15-17 | a sensor at 0 is simulated in [45, 55] |
| Simulation.GenerateSensorReading | Backend/calibration_platform/sensors/services/simulation.py:5-20 | an unknown id gives None and stores nothing; otherwise exactly one reading for that sensor, with the simulated value, is stored |
| MLAnalytics.AnomalyDetectionRate | Backend/calibration_platform/sensors/services/ml_analytics.py:89-112 | 95 with no recent anomalies, else min(85 + 2·critical + high, 100); always in [85, 100] |
| MLAnalytics.CriticalNeverLowersRate | Backend/calibration_platform/sensors/services/ml_analytics.py:99-109 | one more critical anomaly never lowers the rate |
| MLAnalytics.CalibrationImprovement | Backend/calibration_platform/sensors/services/ml_analytics.py:158-180 | 88 with no recent calibrations; otherwise 80 + 3·adaptive + 0.5·total when that is below 95, and 95 exactly when it reaches 95 |
| MLAnalytics.ThirtyCalibrationsReachCap | Backend/calibration_platform/sensors/services/ml_analytics.py:168-177 | thirty or more recent calibrations reach the 95 cap |
| MLAnalytics.AbsDrifts | Backend/calibration_platform/sensors/services/ml_analytics.py:138-141 | a zero baseline contributes no drifts; otherwise one non-negative drift per reading |
| MLAnalytics.AverageDrift | Backend/calibration_platform/sensors/services/ml_analytics.py:136-143 | a qualifying sensor's average drift is not negative |
| MLAnalytics.DriftTotals | Backend/calibration_platform/sensors/services/ml_analytics.py:128-145 | the drift total is not negative and the count is the number of qualifying sensors |
| MLAnalytics.DriftAccuracy | Backend/calibration_platform/sensors/services/ml_analytics.py:114-156 | 92 when no sensor qualifies; otherwise 85 exactly when 100 minus the mean drift is at most 85, 98 exactly when it is at least 98, and 100 minus the mean drift in between |
| MLAnalytics.SumDrifts | Backend/calibration_platform/sensors/services/ml_analytics.py:128-145 | the accumulating loop yields the sum of the mean drifts of the sensors that count and their number |
| MLAnalytics.CalculateDriftAccuracy | Backend/calibration_platform/sensors/services/ml_analytics.py:114-156 | the loop followed by the default and the clamp computes exactly the specified accuracy |
| MLAnalytics.CountActiveModels | Backend/calibration_platform/sensors/services/ml_analytics.py:71-87 | active models are those created within 7 days, so at most the total |
| MLAnalytics.PredictionFor | Backend/calibration_platform/sensors/services/ml_analytics.py:197-203 | a simulated prediction names the sensor and type, with confidence 85..99 and its result confidence the same as a fraction |
| MLAnalytics.AllPredictions | Backend/calibration_platform/sensors/services/ml_analytics.py:190-203 | three predictions per sensor |
| MLAnalytics.RecentPredictionsBounds | Backend/calibration_platform/sensors/services/ml_analytics.py:182-205 | at most 10 predictions, each of a known type, confidence 85..99, from one of the first five sensors |
| MLAnalytics.AllPredictionsFrom | Backend/calibration_platform/sensors/services/ml_analytics.py:190-203 | every prediction comes from a listed sensor with a known type and confidence 85..99 |
| MLAnalytics.AddSensorPredictions | Backend/calibration_platform/sensors/services/ml_analytics.py:193-203 | the inner loop with its early break keeps the first ten of the predictions so far followed by this sensor's three |
| MLAnalytics.GetRecentPredictions | Backend/calibration_platform/sensors/services/ml_analytics.py:182-208 | the nested loop with its early break yields exactly the specified recent predictions |
| MLAnalytics.GetMLStatistics | Backend/calibration_platform/sensors/services/ml_analytics.py:15-69 | on failure every count is 0 and every list empty; otherwise the model list is the listing of the models directory, active models are those created within a week, the four totals are the table counts, the three rates are their metric functions and the recent predictions are the first ten of the first five sensors, with each metric in its range |
| MLAnalytics.EntriesForEarned | Backend/calibration_platform/sensors/services/ml_analytics.py:223-260 | each entry for a sensor with 20 readings is for a type that needs training, and calibration only with 5 calibrations |
| MLAnalytics.AutoTrainOnlyEligible | Backend/calibration_platform/sensors/services/ml_analytics.py:218-260 | every training result belongs to a sensor with at least 20 readings, for a type that needs training, and calibration only with at least 5 calibrations |
| MLAnalytics.AutoTrainComplete | Backend/calibration_platform/sensors/services/ml_analytics.py:223-260 | conversely, every sensor with at least 20 readings gets a result for each model type whose file is missing or stale, trained for that type, and for calibration when it has at least 5 calibrations |
| MLAnalytics.AutoTrainModelsIfNeeded | Backend/calibration_platform/sensors/services/ml_analytics.py:210-268 | the nested loops yield exactly the specified training results |
| ModelTraining.FileNameParts | Backend/calibration_platform/sensors/services/model_training.py:131 | a model file name splits at '_' into type, "model", the sensor name's parts and the id with extension |
| ModelTraining.ModelTypeRoundTrip | Backend/calibration_platform/sensors/services/model_training.py:253 | parsing a built file name gives back its model type |
| ModelTraining.SensorNameRoundTrip | Backend/calibration_platform/sensors/services/model_training.py:254 | the corrected parse gives back any sensor name, underscores included |
| ModelTraining.AsWrittenParseOnPlainNames | Backend/calibration_platform/sensors/services/model_training.py:254 | the parse as written recovers sensor names without '_' |
| ModelTraining.AsWrittenParseTruncates | Backend/calibration_platform/sensors/services/model_training.py:254 | the parse as written reads a name with an underscore back as the part before it, which differs from the name ("Temp_A" is listed as "Temp") |
| ModelTraining.AllSensorsModelListedAsAll | Backend/calibration_platform/sensors/services/model_training.py:62 | the all-sensors anomaly model is listed with sensor name "all" |
| ModelTraining.InfoOf | Backend/calibration_platform/sensors/services/model_training.py:251-257 | a listed model has its file name, parsed type and sensor, creation time, and its size in KB as a whole number of hundredths within 0.005 of the exact size |
| ModelTraining.ModelInfos | Backend/calibration_platform/sensors/services/model_training.py:246-259 | one entry per ".joblib" file |
| ModelTraining.ListedAreModelFiles | Backend/calibration_platform/sensors/services/model_training.py:246-247 | every listed entry comes from a directory file ending in ".joblib" |
| ModelTraining.GetModelInfo | Backend/calibration_platform/sensors/services/model_training.py:240-261 | the listing loop yields exactly the specified entries |
| ModelTraining.TrainAnomaly | Backend/calibration_platform/sensors/services/model_training.py:18-80 | training fails exactly when a sensor id is given and the sensor is unknown; otherwise fewer than 10 readings are rejected; otherwise the model is saved as "anomaly_model_{name}_{id}.joblib", or as "anomaly_model_all_sensors_all.joblib" without an id, with every reading as a sample |
| ModelTraining.TrainDrift | Backend/calibration_platform/sensors/services/model_training.py:82-145 | an unknown sensor fails; fewer than 20 readings are rejected; otherwise n-1 samples train a drift model saved as drift_model_{name}_{id}.joblib |
| ModelTraining.DriftGuardsAfterTwenty | Backend/calibration_platform/sensors/services/model_training.py:90-120 | with 20 readings the window is always 5 and the 10-sample guard can never fire |
| ModelTraining.TrainCalibration | Backend/calibration_platform/sensors/services/model_training.py:147-208 | an unknown sensor fails; fewer than 5 calibrations are rejected; training happens iff at least 3 have a prior reading, using exactly those, and the model is saved as calibration_model_{name}_{id}.joblib |
| ModelTraining.ResultsFor | Backend/calibration_platform/sensors/services/model_training.py:222-234 | each sensor's results hold its anomaly, drift and calibration outcomes; drift trains iff there are 20 readings |
| ModelTraining.TrainAllKeys | Backend/calibration_platform/sensors/services/model_training.py:221-236 | the results are keyed by exactly the names of the trained sensors (stated for any per-sensor result, the training results among them) |
| ModelTraining.TrainAllLastWins | Backend/calibration_platform/sensors/services/model_training.py:221-236 | for sensors that share a name, the last one's results are kept (stated for any per-sensor result) |
| ModelTraining.TrainAllModels | Backend/calibration_platform/sensors/services/model_training.py:210-238 | the loop builds exactly the specified results map |
| Models.NewSensor | Backend/calibration_platform/sensors/models.py:5-27 | a new sensor has value 0, drift 0 and status online |
| Models.SeverityRank | Backend/calibration_platform/sensors/models.py:72-77 | severities are ranked Low < Medium < High < Critical |
| Models.NewAnomaly | Backend/calibration_platform/sensors/models.py:63-86 | a new anomaly is unresolved and holds the given fields |
| Models.ParseReportType | Backend/calibration_platform/sensors/models.py:95-99 | exactly csv, excel and pdf are report types |
| Models.ReportTypeRoundTrip | Backend/calibration_platform/sensors/models.py:95-99 | every report type parses back from its name |
| Models.Tables.constructor | Backend/calibration_platform/sensors/models.py:5-104 | the database starts with the given sensors and no readings, calibrations or anomalies |

## Left out

- HTTP requests, the Django ORM and REST plumbing: replies and query results are parameters, and `None` stands for a failed request or a raised exception.
- Timers, async interleaving and fire-and-forget posts in the client: each handler is one atomic method.
- scikit-learn, numpy `polyfit`, pandas and `joblib`: the IsolationForest flags, regression slopes, trained predictions and load failures are parameters. Feature building for trained models is not modelled.
- Randomness (`Math.random`, `random.uniform`, `hash`): each draw is a parameter in its range.
- IEEE floating point: values are reals. NaN is not modelled. `toFixed`/`round` are modelled as half-up rounding to hundredths, so ties can differ.
- Wall-clock time and locale date formatting: dates are day or millisecond offsets from a given `now`, and file ages are given in seconds.
- Report generation (`report.py`), PDF export, authentication, tokens and the presentational pages.
- Unicode case folding: `AnomaliesPage.Lower` folds ASCII letters only.
- SensorContext.SimBaseline: `parseFloat(...) || 1` also maps NaN to 1; only the zero case is modelled.
- SensorContext.SensorStore.UpdateSensorValues: the posts it fires per sensor and its catch branch are not modelled.
- EnhancedML.PredictAnomaly: the features passed to the trained model, namely hour and weekday, are not modelled.
- EnhancedML.PredictDrift: the trained model's prediction loop is a parameter, as is the failure of that path.
- MLAnalytics.AnomalyDetectionRate: the exception fallback (90) is not modelled; the same holds for DriftAccuracy (92) and CalibrationImprovement (88) in their except branches, and for GetRecentPredictions, whose except branch returns an empty list.
- MLAnalytics.AutoTrainModelsIfNeeded: the outer exception result `[{'error': ...}]` and per-type exceptions are not modelled; training results are taken from the ModelTraining functions.
- MLAnalytics.GetRecentPredictions: the ISO timestamp text is replaced by minutes ago.
- DriftPredictions.SimpleDriftPrediction: an unknown sensor id raises in the source, and the model takes the readings directly.
- ModelTraining.TrainAllModels: the sensors are given as a list; in the source an unknown `sensor_id` raises before the loop.
- ModelTraining.InfoOf: `created_at` is the file's creation time as a number, not its ISO text.
- ModelTraining.InfoOf: the listing reads the sensor name with the corrected `ParseSensorName`, not with the source's `split('_')[2]`; the source's reading is `ParseSensorNameAsWritten` (see Findings), and the two agree on names without an underscore (`ModelTraining.AsWrittenParseOnPlainNames`).
- Calibration method "adaptive", written by the simulate view, lies outside the declared choices; `Models.IsDeclaredMethod` records the declared set, and the simulate view itself is not modelled.
- The reading history and anomaly list endpoints are plain filters over the tables and are not modelled separately.

## Findings

| source | as written | input that shows it | evidently intended | confidence | as-written member | corrected member |
|---|---|---|---|---|---|---|
| Frontend/calibration_front/src/pages/Anomalies.tsx:202 | the resolution rate divides resolved by total without a guard | an empty anomaly list: 0/0 shows "NaN% resolution rate" (AnomaliesPage.EmptyListShowsNaNRate) | 0 % on an empty list, the written formula otherwise, always within [0, 100] | not executed | AnomaliesPage.ResolutionRateAsWritten | AnomaliesPage.ResolutionRate |
| Backend/calibration_platform/sensors/services/model_training.py:254 | the sensor name is taken as the third '_'-separated field of the file name | sensor "Temp_A", id 3: "drift_model_Temp_A_3.joblib" is listed with sensor "Temp" (ModelTraining.AsWrittenParseTruncates) | the whole sensor name between "model" and the id, so that any name round-trips (ModelTraining.SensorNameRoundTrip) | not executed | ModelTraining.ParseSensorNameAsWritten | ModelTraining.ParseSensorName |
