# Patient-monitoring alert core, modelled in Dafny

This project models the alert side of a cardiovascular patient-monitoring system, together with the small per-patient state that the data store and the data simulators keep. It covers:

- **The alert store and notifier** (`AlertManager`). Alerts are a set. A new alert is stored and announced to every registered listener in registration order. A repeated alert is ignored, and a null alert is refused.
- **The per-vital alert rules.**
  - Three stateless strategies:
    - blood pressure: a critical threshold check, then a three-point trend;
    - heart rate: a four-band ladder, then a windowed rapid-change scan;
    - oxygen saturation: a two-band ladder, then a windowed rapid-drop scan.
  - Three factories:
    - blood pressure: argument checks and two four-step ladders;
    - blood oxygen: argument checks and one comparison;
    - ECG: a ten-slot ring buffer with a running-average anomaly test.
- **Threshold configuration.** `VitalsThreshold.checkThreshold`, with its error case and setters. `PatientThresholdProfile` is a list of thresholds with defaults, append, remove-by-type and find-first.
- **Alert decorators:**
  - argument checks and delegation;
  - a mutable priority and reason;
  - a repeat counter whose timer firing is an explicit `Tick`.
- **The patient table** (`DataStorage`). It creates a patient on first data, keeps the records of each patient, answers inclusive time-range queries, and can remove one patient or all.
- **The simulators' state.** Blood-pressure and saturation values are clamped per patient, and the simulator's alert generator is a triggered/resolved flag per patient.

Readings are `real` numbers, so the floating-point comparisons of the source become exact comparisons. A Java `null` is `Option.None`. A thrown `IllegalArgumentException` or `IllegalStateException` is `Result.Err` carrying the source's message.

Inputs from the environment become parameters:
- `System.currentTimeMillis()` is a parameter `now`.
- A `Random` draw is a parameter, bounded by the range the source's call returns (`nextInt(n)` in `[0, n)`, `nextDouble()` in `[0, 1)`).
- Which listener throws on a call is a parameter `failing`.

Classes whose fields the source updates in place are Dafny classes with frames:
- `AlertManager`, `ECGAlertFactory`, `VitalsThreshold`, `PatientThresholdProfile`, `PriorityAlertDecorator`, `RepeatedAlertDecorator`, `Patient`, `DataStorage` and the three generators.
- The generators and the ECG factory keep their `array`s.
- Each such method is tied to a pure function or to an explicit new state, and the lemmas are stated about those functions.

Files:
- `wrappers.dfy`: `Option`/`Result`, absolute value, clamp, truncating division, sums, decimal text of naturals.
- `records.dfy`: readings, records, alerts.
- `alert_manager.dfy`.
- `bp_strategy.dfy`, `heart_rate_strategy.dfy`, `oxygen_strategy.dfy`.
- `factories.dfy` (base checks, blood pressure and blood oxygen) and `ecg_factory.dfy`.
- `thresholds.dfy`, `decorators.dfy`, `data_storage.dfy`.
- `outputs.dfy` (the output sink as a log) and `generators.dfy`.

Choices where the model follows the code as written:
- **ECG window.** The ECG average includes the reading just written, not only the ten before it.
- **Rapid scans skip, not stop.** The heart-rate and saturation scans go through the whole history in list order. They skip entries older than the window rather than stopping at the first one.
- **Strict strategy thresholds.** The blood-pressure strategy alerts on strictly above 180 / below 90 (systolic) and strictly above 120 / below 60 (diastolic). The factory's ladder is a different one: ≥180, ≥140, ≤80, ≤90.
- **Timestamp 0.** The blood-pressure factory accepts timestamp 0, while the base check used by the other factories refuses it.

## Model

| member | source | states |
|---|---|---|
| AlertManagement.DeliveriesInOrder | src/main/java/com/alerts/AlertManager.java:103-106 | announcing an alert makes one call per listener, and the k-th call goes to the k-th listener |
| AlertManagement.DeliveryCount | src/main/java/com/alerts/AlertManager.java:103-110 | a listener is called exactly as many times as it is registered; an unregistered one is never called |
| AlertManagement.RemoveFirstAt | src/main/java/com/alerts/AlertManager.java:59-61 | removing a listener cuts out exactly its first occurrence and keeps the rest in order |
| AlertManagement.RemoveFirstAbsent | src/main/java/com/alerts/AlertManager.java:59-61 | removing a listener that is not registered leaves the list unchanged |
| AlertManagement.RemoveFirstMultiset | src/main/java/com/alerts/AlertManager.java:59-61 | removal takes away one registration of that listener and nothing else |
| AlertManagement.RemovedListenerNotNotified | src/main/java/com/alerts/AlertManager.java:59-61 | a listener registered once and then removed is not called for a later alert |
| AlertManagement.AlertManager.constructor | src/main/java/com/alerts/AlertManager.java:14-17 | a new manager has no alerts and no listeners |
| AlertManagement.AlertManager.HandleAlert | src/main/java/com/alerts/AlertManager.java:35-45 | null is refused with "Alert cannot be null" and nothing changes; an alert equal as a value to a stored one changes nothing and calls no listener; a new alert is stored and every listener is called once in order, with the throwing ones reported and the rest still called; the listener list never changes |
| AlertManagement.AlertManager.AddListener | src/main/java/com/alerts/AlertManager.java:51-53 | the listener is appended |
| AlertManagement.AlertManager.RemoveListener | src/main/java/com/alerts/AlertManager.java:59-61 | the first occurrence of the listener is removed |
| AlertManagement.AlertManager.GetAllAlerts | src/main/java/com/alerts/AlertManager.java:67-71 | the result holds exactly the stored alerts, each once |
| AlertManagement.AlertManager.GetAlertsForPatient | src/main/java/com/alerts/AlertManager.java:78-88 | the result holds exactly the stored alerts of that patient, each once |
| AlertManagement.AlertManager.ClearAlerts | src/main/java/com/alerts/AlertManager.java:93-97 | no alert is left and nothing else (listeners, call log) changes |
| AlertManagement.AlertManager.NotifyListeners | src/main/java/com/alerts/AlertManager.java:103-111 | every listener is called once, in list order; the calls that throw are reported and do not stop the loop |
| BloodPressureStrategy.CheckThresholds | src/main/java/com/alerts/strategy/BloodPressureStrategy.java:29-59 | an alert exactly when the reading is outside [90,180] (systolic) or [60,120] (diastolic); each of the four critical types exactly on its side; the alert carries the patient, the reading and the time |
| BloodPressureStrategy.CheckTrend | src/main/java/com/alerts/strategy/BloodPressureStrategy.java:61-86 | with v1, v2 the third- and second-to-last history values (the last history entry is not read) and v3 the current one: an increasing-trend alert iff both steps rise by more than 10, a decreasing-trend alert iff both fall by more than 10, none otherwise |
| BloodPressureStrategy.CheckAlert | src/main/java/com/alerts/strategy/BloodPressureStrategy.java:14-27 | a threshold breach wins over the trend; without a breach and with a null or shorter-than-3 history there is no alert; otherwise an increasing- or decreasing-trend alert exactly as the trend conditions say, and no alert exactly when neither trend holds |
| BloodPressureStrategy.NoSystolicWithoutY | src/main/java/com/alerts/strategy/BloodPressureStrategy.java:68 | a type name without the letter 'y' never contains "Systolic" |
| BloodPressureStrategy.PressureTypeLabel | src/main/java/com/alerts/strategy/BloodPressureStrategy.java:68 | "SystolicPressure" is labelled systolic and "DiastolicPressure" diastolic |
| HeartRateStrategy.CheckThresholds | src/main/java/com/alerts/strategy/HeartRateStrategy.java:31-53 | CriticalTachycardia iff ≥150, CriticalBradycardia iff ≤40, Tachycardia iff in (120,150), Bradycardia iff in (40,50), no alert iff in [50,120]; the alert carries patient, reading and time |
| HeartRateStrategy.CheckRapidChanges | src/main/java/com/alerts/strategy/HeartRateStrategy.java:55-81 | no alert iff no history entry within five minutes differs by 30 bpm or more; otherwise the RapidHeartRateChange alert of the first such entry in list order |
| HeartRateStrategy.CheckAlert | src/main/java/com/alerts/strategy/HeartRateStrategy.java:15-29 | a non-HeartRate record gives nothing; a threshold alert wins; a normal rate with null or empty history gives nothing; otherwise the rapid-change outcome |
| OxygenSaturationStrategy.CheckThresholds | src/main/java/com/alerts/strategy/OxygenSaturationStrategy.java:34-45 | CriticalLowOxygenSaturation iff ≤88, LowOxygenSaturation iff in (88,92), no alert iff ≥92 |
| OxygenSaturationStrategy.CheckRapidDrop | src/main/java/com/alerts/strategy/OxygenSaturationStrategy.java:47-68 | no alert iff no entry within ten minutes is 5 or more above the current value; otherwise the RapidSaturationDrop alert of the first such entry |
| OxygenSaturationStrategy.CheckAlert | src/main/java/com/alerts/strategy/OxygenSaturationStrategy.java:13-32 | only BloodSaturation or Saturation records are considered; a threshold alert wins; null or empty history gives nothing; otherwise the rapid-drop outcome |
| AlertFactory.ValidateParameters | src/main/java/com/alerts/factory/AlertFactory.java:26-33 | passes iff the vitals are present and the timestamp is positive; missing vitals are reported first, then a non-positive timestamp |
| BloodPressureAlertFactory.SystolicLadder | src/main/java/com/alerts/factory/BloodPressureAlertFactory.java:32-48 | CriticalHigh iff ≥180, High iff in [140,180), CriticalLow iff ≤80, Low iff in (80,90], no alert iff in (90,140); the alert carries patient, reading and the given timestamp |
| BloodPressureAlertFactory.DiastolicLadder | src/main/java/com/alerts/factory/BloodPressureAlertFactory.java:50-65 | CriticalHigh iff ≥120, High iff in [90,120), CriticalLow iff ≤50, Low iff in (50,60], no alert iff in (60,90); the alert carries patient, reading and the given timestamp |
| BloodPressureAlertFactory.CreateAlert | src/main/java/com/alerts/factory/BloodPressureAlertFactory.java:17-71 | errors for missing vitals, then a negative timestamp (0 is accepted), then a type other than the two pressures, each with its message; a result iff all three checks pass, and then it is the ladder of the reading's pressure type |
| BloodOxygenAlertFactory.CreateAlert | src/main/java/com/alerts/factory/BloodOxygenAlertFactory.java:10-27 | the base check's errors, then the type error; a LowBloodSaturation alert with the given patient and timestamp iff the value is below 92 |
| EcgAlertFactory.Step | src/main/java/com/alerts/factory/ECGAlertFactory.java:20-42 | null vitals fail with "Vitals cannot be null", then a non-positive timestamp with "Timestamp must be positive", then a non-ECG type with "Invalid vital type for ECG alert: " and the type, all as IllegalArgument; a failing call leaves buffer and index unchanged; a valid call writes the value's magnitude at the index, changes no other slot and advances the index modulo 10; a valid call alerts exactly when the new ring has no empty slot and the magnitude is above 1.5 times its ten-slot average (with a positive average), and the alert is an "ECGAnomaly" carrying the patient, the reading and the time |
| EcgAlertFactory.FullRingHasPositiveAverage | src/main/java/com/alerts/factory/ECGAlertFactory.java:31-33 | a full buffer of magnitudes has a positive average |
| EcgAlertFactory.ReplayKeepsNonNegative | src/main/java/com/alerts/factory/ECGAlertFactory.java:28 | every slot stays non-negative over any sequence of calls |
| EcgAlertFactory.ReachableFullRingHasPositiveAverage | src/main/java/com/alerts/factory/ECGAlertFactory.java:33 | on every reachable full buffer the average is positive, so the `average > 0` test never decides |
| EcgAlertFactory.NoAlertBeforeRingFills | src/main/java/com/alerts/factory/ECGAlertFactory.java:44-51 | while some slot has not been written, no call alerts |
| EcgAlertFactory.FirstNineCallsNeverAlert | src/main/java/com/alerts/factory/ECGAlertFactory.java:44-51 | the first nine calls on a new factory never alert |
| EcgAlertFactory.OnesFillRing | src/main/java/com/alerts/factory/ECGAlertFactory.java:28-29 | n readings of 1.0 fill the first n slots and leave the index at n modulo 10 |
| EcgAlertFactory.TenOnesThenSpike | src/test/java/com/alerts/factory/AlertFactoryTest.java:58-71 | ten readings of 1.0 followed by 2.5 give an ECGAnomaly alert |
| EcgAlertFactory.ECGAlertFactory.constructor | src/main/java/com/alerts/factory/ECGAlertFactory.java:15-18 | ten zero slots and index 0 |
| EcgAlertFactory.ECGAlertFactory.HasEnoughReadings | src/main/java/com/alerts/factory/ECGAlertFactory.java:44-51 | true iff no slot is 0.0 |
| EcgAlertFactory.ECGAlertFactory.CalculateAverage | src/main/java/com/alerts/factory/ECGAlertFactory.java:53-59 | the sum of the ten slots divided by 10 |
| EcgAlertFactory.ECGAlertFactory.CreateAlert | src/main/java/com/alerts/factory/ECGAlertFactory.java:20-42 | the new buffer, index and result are those of `Step` on the old state |
| Thresholds.VitalsThreshold.constructor | src/main/java/com/alerts/thresholds/VitalsThreshold.java:19-27 | every field holds its argument |
| Thresholds.VitalsThreshold.CheckThreshold | src/main/java/com/alerts/thresholds/VitalsThreshold.java:34-62 | an error iff the record type is not one of the six, with its message; false for another valid type; systolic violates iff outside [90,180] and diastolic iff outside [60,120], whatever the limits; blood pressure checks both decoded parts, or falls back to the critical limits; other types violate iff outside the normal or the critical range |
| Thresholds.VitalsThreshold.SetMinNormal | src/main/java/com/alerts/thresholds/VitalsThreshold.java:116 | only the lower normal limit changes |
| Thresholds.VitalsThreshold.SetMaxNormal | src/main/java/com/alerts/thresholds/VitalsThreshold.java:117 | only the upper normal limit changes |
| Thresholds.VitalsThreshold.SetCriticalLow | src/main/java/com/alerts/thresholds/VitalsThreshold.java:118 | only the lower critical limit changes |
| Thresholds.VitalsThreshold.SetCriticalHigh | src/main/java/com/alerts/thresholds/VitalsThreshold.java:119 | only the upper critical limit changes |
| Thresholds.VitalsThreshold.SetDescription | src/main/java/com/alerts/thresholds/VitalsThreshold.java:120 | only the description changes |
| Thresholds.PressureChecksIgnoreLimits | src/main/java/com/alerts/thresholds/VitalsThreshold.java:51-57 | two systolic (or two diastolic) thresholds give the same verdict whatever their configured limits |
| Thresholds.WithoutType | src/main/java/com/alerts/thresholds/PatientThresholdProfile.java:58-60 | the result holds no threshold of the type and keeps every threshold of another type |
| Thresholds.WithoutTypeAppend | src/main/java/com/alerts/thresholds/PatientThresholdProfile.java:58-60 | removal keeps the survivors in their original order |
| Thresholds.WithoutAbsentType | src/main/java/com/alerts/thresholds/PatientThresholdProfile.java:58-60 | removing a type no threshold has changes nothing |
| Thresholds.FirstOfType | src/main/java/com/alerts/thresholds/PatientThresholdProfile.java:65-70 | null iff no threshold has the type, otherwise the first one that has it |
| Thresholds.RemoveKeepsOtherTypes | src/main/java/com/alerts/thresholds/PatientThresholdProfile.java:58-70 | after removing one type, the lookup of every other type gives the same threshold as before |
| Thresholds.AddedThresholdShadowed | src/main/java/com/alerts/thresholds/PatientThresholdProfile.java:51-70 | an appended threshold is what the lookup finds only when no earlier threshold has its type |
| Thresholds.PatientThresholdProfile.constructor | src/main/java/com/alerts/thresholds/PatientThresholdProfile.java:15-39 | exactly four new, distinct thresholds, BloodPressure, BloodSaturation, HeartRate and ECG in that order, with the listed limits |
| Thresholds.PatientThresholdProfile.GetThresholds | src/main/java/com/alerts/thresholds/PatientThresholdProfile.java:44-46 | a copy of the list as a value, which the caller cannot use to change the profile |
| Thresholds.PatientThresholdProfile.AddThreshold | src/main/java/com/alerts/thresholds/PatientThresholdProfile.java:51-53 | the threshold is appended, duplicates allowed |
| Thresholds.PatientThresholdProfile.RemoveThreshold | src/main/java/com/alerts/thresholds/PatientThresholdProfile.java:58-60 | every threshold of the type goes, the others stay in order, and the lookup of that type is then null |
| Thresholds.PatientThresholdProfile.GetThresholdForType | src/main/java/com/alerts/thresholds/PatientThresholdProfile.java:65-70 | null iff no threshold has the type, otherwise the first one that has it |
| Decorators.NewAlertDecorator | src/main/java/com/alerts/decorator/AlertDecorator.java:9-39 | wrapping null fails with "Alert cannot be null"; otherwise all five getters give the wrapped alert's values |
| Decorators.Priority.Level | src/main/java/com/alerts/decorator/PriorityAlertDecorator.java:6-21 | levels lie in 0..3 |
| Decorators.LevelsDistinct | src/main/java/com/alerts/decorator/PriorityAlertDecorator.java:6-21 | distinct priorities have distinct levels, rising from LOW to CRITICAL |
| Decorators.ReasonOrDefault | src/main/java/com/alerts/decorator/PriorityAlertDecorator.java:40 | a given reason is kept; a null one becomes "No reason specified" |
| Decorators.PriorityAlertDecorator.constructor | src/main/java/com/alerts/decorator/PriorityAlertDecorator.java:33-41 | the wrapped alert, the priority and the reason (or its default) are stored |
| Decorators.PriorityAlertDecorator.Create | src/main/java/com/alerts/decorator/PriorityAlertDecorator.java:33-41 | null alert is refused first, then null priority, each with its message; otherwise a new decorator around the alert |
| Decorators.PriorityAlertDecorator.UpdatePriority | src/main/java/com/alerts/decorator/PriorityAlertDecorator.java:65-71 | null priority is refused and nothing changes; otherwise both priority and reason are set; the wrapped alert never changes |
| Decorators.TickStep | src/main/java/com/alerts/decorator/RepeatedAlertDecorator.java:74-78 | one firing adds exactly one to the count, and stops the repetition iff the maximum is positive and reached |
| Decorators.UnlimitedNeverStops | src/main/java/com/alerts/decorator/RepeatedAlertDecorator.java:74-78 | with maximum 0, n firings add n and never stop |
| Decorators.StopsAtMax | src/main/java/com/alerts/decorator/RepeatedAlertDecorator.java:74-78 | with a positive maximum, firings count up and stop exactly when the count reaches the maximum |
| Decorators.RepeatedAlertDecorator.constructor | src/main/java/com/alerts/decorator/RepeatedAlertDecorator.java:23-37 | count 0, no task, timer live |
| Decorators.RepeatedAlertDecorator.Create | src/main/java/com/alerts/decorator/RepeatedAlertDecorator.java:23-37 | null alert, then a non-positive interval, then a negative maximum are refused with their messages |
| Decorators.RepeatedAlertDecorator.StartRepeating | src/main/java/com/alerts/decorator/RepeatedAlertDecorator.java:66-83 | a no-op while a task exists; otherwise a task is scheduled, or, on a cancelled timer, the task is left unscheduled and IllegalStateException is raised |
| Decorators.RepeatedAlertDecorator.Tick | src/main/java/com/alerts/decorator/RepeatedAlertDecorator.java:74-78 | the decorator's count and task move as `TickStep` says |
| Decorators.RepeatedAlertDecorator.StopRepeating | src/main/java/com/alerts/decorator/RepeatedAlertDecorator.java:88-93 | no task is left, whatever the state before (idempotent) |
| Decorators.RepeatedAlertDecorator.Cleanup | src/main/java/com/alerts/decorator/RepeatedAlertDecorator.java:103-107 | no task is left and the timer is cancelled |
| DataManagement.RecordsInRange | src/main/java/com/data_management/DataStorage.java:84-92 | exactly the records with start ≤ timestamp ≤ end, both bounds inclusive |
| DataManagement.RecordsInRangeAppend | src/main/java/com/data_management/DataStorage.java:84-92 | a record added later is returned by a query exactly when its timestamp is in the window, after the earlier ones |
| DataManagement.RecordsInRangeAll | src/main/java/com/data_management/DataStorage.java:84-92 | a window covering every record returns all of them, in order |
| DataManagement.Patient.constructor | src/main/java/com/data_management/DataStorage.java:65 | a new patient has no records and a new threshold profile |
| DataManagement.Patient.AddRecord | src/main/java/com/data_management/DataStorage.java:68 | the record is appended under the patient's own id |
| DataManagement.DataStorage.constructor | src/main/java/com/data_management/DataStorage.java:28-30 | the table starts empty |
| DataManagement.DataStorage.AddPatientData | src/main/java/com/data_management/DataStorage.java:62-69 | an unknown id gets one new patient holding the record; a known id gets the record appended; no other patient or record changes |
| DataManagement.DataStorage.GetRecords | src/main/java/com/data_management/DataStorage.java:84-92 | empty for an unknown id, otherwise the patient's records within the inclusive window |
| DataManagement.DataStorage.GetPatientThresholdProfile | src/main/java/com/data_management/DataStorage.java:100-108 | null iff the id is unknown, otherwise that patient's profile |
| DataManagement.DataStorage.GetAllPatients | src/main/java/com/data_management/DataStorage.java:115-117 | exactly the stored patients, each once, each filed under its own id |
| DataManagement.DataStorage.ClearAllRecords | src/main/java/com/data_management/DataStorage.java:122-124 | no patient is left |
| DataManagement.DataStorage.ClearRecords | src/main/java/com/data_management/DataStorage.java:130-132 | only that patient is removed |
| Outputs.OutputLog.Output | src/main/java/com/cardio_generator/outputs/OutputStrategy.java:14 | one entry with the given id, time, label and data is appended |
| Text.NatToStringRoundTrip | src/main/java/com/cardio_generator/generators/BloodPressureDataGenerator.java:68-71 | the decimal text of a whole number reads back as that number |
| Generators.BloodPressureDataGenerator.constructor | src/main/java/com/cardio_generator/generators/BloodPressureDataGenerator.java:21-35 | patients 1..count start at systolic 110 + draw in [110,129] and diastolic 70 + draw in [70,84] |
| Generators.BloodPressureDataGenerator.Create | src/main/java/com/cardio_generator/generators/BloodPressureDataGenerator.java:21-35 | a non-positive count is refused with "Patient count must be positive" |
| Generators.BloodPressureDataGenerator.Generate | src/main/java/com/cardio_generator/generators/BloodPressureDataGenerator.java:43-77 | an id outside 1..count changes nothing and emits nothing; otherwise both values move by a variation in [-2,2] clamped into [90,180] and [60,120]; only that patient's slots change; SystolicPressure then DiastolicPressure are emitted, and their text reads back as the stored values; the ranges are kept |
| Generators.SaturationTextRoundTrip | src/main/java/com/cardio_generator/generators/BloodSaturationDataGenerator.java:56-57 | the emitted text ends with "%" and its whole part reads back as the value |
| Generators.SaturationStep | src/main/java/com/cardio_generator/generators/BloodSaturationDataGenerator.java:47-62 | a value exactly for an id inside the array; it lies in [90,100] and moves at most 1 from an in-range previous value |
| Generators.BloodSaturationDataGenerator.constructor | src/main/java/com/cardio_generator/generators/BloodSaturationDataGenerator.java:27-34 | patients 1..count start at 95 + draw in [95,100]; slot 0 stays 0 |
| Generators.BloodSaturationDataGenerator.Generate | src/main/java/com/cardio_generator/generators/BloodSaturationDataGenerator.java:46-62 | as `SaturationStep` says: an id outside the array changes nothing and emits nothing; otherwise only that patient's slot changes and the value is emitted as "Saturation" |
| Generators.PatientZeroServed | src/main/java/com/cardio_generator/generators/BloodSaturationDataGenerator.java:51 | patient 0 of a new generator gets a reading of 90 |
| Generators.CheckedSaturationStep | src/test/java/com/cardio_generator/generators/BloodSaturationDataGeneratorTest.java:62-69 | a reading exactly for ids 1..count |
| Generators.TriggerProbabilityBounds | src/main/java/com/cardio_generator/generators/AlertGenerator.java:53-55 | the trigger probability lies strictly between 0.05 and 0.5 |
| Generators.AlertStep | src/main/java/com/cardio_generator/generators/AlertGenerator.java:44-67 | outside the array nothing happens; a triggered patient resolves iff the draw is below 0.9, a resolved one triggers iff it is below p; every event flips the flag and is labelled with the new state |
| Generators.EmittedAlternates | src/main/java/com/cardio_generator/generators/AlertGenerator.java:44-67 | over any series of calls a patient's events alternate, starting opposite to its current state |
| Generators.AlertGenerator.constructor | src/main/java/com/cardio_generator/generators/AlertGenerator.java:29-31 | every patient starts resolved |
| Generators.AlertGenerator.Generate | src/main/java/com/cardio_generator/generators/AlertGenerator.java:43-67 | as `AlertStep` says: only that patient's flag changes, and ("Alert", "triggered"/"resolved") is emitted exactly on a change |
| Generators.PatientZeroCanTrigger | src/main/java/com/cardio_generator/generators/AlertGenerator.java:46-61 | patient 0 of a new generator is triggered by a draw of 0.05 |
| Generators.CheckedAlertStep | src/test/java/com/cardio_generator/generators/AlertGeneratorTest.java:105-112 | a change only for ids 1..count |

## Left out

- **Concurrency.** The `synchronized` blocks and the concurrent collections of the alert manager are modelled sequentially. The `Timer` thread of the repeated decorator becomes explicit `Tick` calls, and the atomic counter a plain count.
- **Processes, network and files.** The data-store singleton (`getInstance`), `DataStorage.main` and the simulator process are not modelled. They are process plumbing. The same holds for the readers and writers behind the output sink.
- **Environment inputs.** The clock and `Random` are parameters. Each strategy and each blood-pressure generator call reads the clock once or twice; the model uses one `now` for all of its readings.
- **Parsing of values.** `Double.parseDouble` of a record's value text is taken as already done: readings carry a `real`.
- **Blood-pressure decoding.** The blood-pressure split of `String.valueOf(double)` in `VitalsThreshold` depends on Java's double formatting. It is the parameter `decode`, and only what happens with its result is modelled.
- **Description text.** `String.format` rendering is not modelled: an alert keeps its template and arguments.
- **Integer widths.** Java `int`/`long` overflow is not modelled; the model uses unbounded integers. This covers the `AtomicInteger` repeat counter and timestamp arithmetic. The array size `patientCount + 1` must not be negative (`NegativeArraySizeException` is not modelled).
- **Error output.** Messages printed to standard error are not modelled, except the alert manager's record of which listener calls threw.
- **Failing output sink.** An output sink that throws is not modelled.
- **Patient class.** `Patient.java` is not part of this model. The patient is a class holding its id, its records and a fresh threshold profile, with the inclusive time window its tests describe.
- **Other code.** The alert evaluator in `com.alerts` has an empty body, so there is nothing to model. The ECG and blood-level generators, the simulator driver, the interfaces, `MedicalStaff` and `PatientRecordAdapter` are thin stubs or I/O and are also left out.
- **Alert identity.** `Alert` defines no `equals`/`hashCode`, so the manager's `HashSet` compares alerts by reference: two separately built alerts with equal fields are both stored and both announced. The model compares alerts as whole values (patient, reading, time, type and description), so such a second alert is treated as a duplicate and is neither stored again nor announced. Re-submitting the same object behaves as in the model.
- **Nested decorators.** A decorator wraps an alert value, so a decorator wrapping another decorator is not modelled separately. Delegation simply passes the innermost alert's fields through.
- DataManagement.DataStorage.GetAllPatients: states that every stored patient appears once and each entry is filed under its own id. It does not state the list length as a separate clause.

## Findings

| source | as written | input that shows it | evidently intended | confidence | as-written member | corrected member |
|---|---|---|---|---|---|---|
| src/main/java/com/cardio_generator/generators/BloodSaturationDataGenerator.java:51 | every id inside the array is served, including 0, whose slot is never initialised | `generate(0, out)` on a new generator emits "90.0%" for patient 0 (slot 0 holds 0, clamped to 90), while BloodSaturationDataGeneratorTest.java:62-69 expects no output | only ids 1..patientCount are served, as in the blood-pressure generator | not executed; high (the path is deterministic) | Generators.PatientZeroServed | Generators.CheckedSaturationStep |
| src/main/java/com/cardio_generator/generators/AlertGenerator.java:46 | id 0 is inside the array, so patient 0 can be triggered | `generate(0, out)` with a draw below p (such as 0.05) emits "triggered" for patient 0, while AlertGeneratorTest.java:105-112 expects no output | only ids 1..patientCount change state | not executed; medium (the output depends on a random draw) | Generators.PatientZeroCanTrigger | Generators.CheckedAlertStep |

The generator classes model the code as written. The checked step functions are the corrected definitions, and they agree with the as-written steps on every valid id.
