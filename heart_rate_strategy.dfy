/** Heart-rate rule: a four-band threshold ladder on the current rate, then a scan of the
    history for a change of at least 30 bpm within five minutes. */
module HeartRateStrategy {
  import opened Wrappers
  import opened Records
  import opened Num

  const HighThreshold: real := 120.0
  const LowThreshold: real := 50.0
  const CriticalHigh: real := 150.0
  const CriticalLow: real := 40.0
  const RapidChangeThreshold: real := 30.0
  /** Five minutes in milliseconds. */
  const RapidChangeWindow: int := 5 * 60 * 1000

  function RateAlert(patientId: int, record: Vitals, now: int, alertType: string, template: string): Alert
  {
    Alert(patientId, record, now, alertType, Formatted(template, [RealArg(record.value)]))
  }

  function CheckThresholds(patientId: int, record: Vitals, now: int): (r: Option<Alert>)
    ensures r.Some? ==> r.value.patientId == patientId && r.value.vitals == record && r.value.timestamp == now
    ensures (r.Some? && r.value.alertType == "CriticalTachycardia") <==> record.value >= 150.0
    ensures (r.Some? && r.value.alertType == "CriticalBradycardia") <==> record.value <= 40.0
    ensures (r.Some? && r.value.alertType == "Tachycardia") <==> 120.0 < record.value < 150.0
    ensures (r.Some? && r.value.alertType == "Bradycardia") <==> 40.0 < record.value < 50.0
    ensures r.None? <==> 50.0 <= record.value <= 120.0
  {
    var rate := record.value;
    if rate >= CriticalHigh then
      Some(RateAlert(patientId, record, now, "CriticalTachycardia", "Critical high heart rate: %.0f bpm (>150)"))
    else if rate <= CriticalLow then
      Some(RateAlert(patientId, record, now, "CriticalBradycardia", "Critical low heart rate: %.0f bpm (<40)"))
    else if rate > HighThreshold then
      Some(RateAlert(patientId, record, now, "Tachycardia", "High heart rate: %.0f bpm (>120)"))
    else if rate < LowThreshold then
      Some(RateAlert(patientId, record, now, "Bradycardia", "Low heart rate: %.0f bpm (<50)"))
    else None
  }

  /** A earlier record no older than the window whose rate differs enough from the current one. */
  predicate IsRapidChange(current: real, previous: PatientRecord, now: int)
  {
    now - previous.timestamp <= RapidChangeWindow
    && Abs(current - previous.measurementValue) >= RapidChangeThreshold
  }

  /** History entry `k` is the first one the scan reports. */
  predicate IsFirstRapidChange(current: real, history: seq<PatientRecord>, now: int, k: int)
  {
    && 0 <= k < |history|
    && IsRapidChange(current, history[k], now)
    && forall j :: 0 <= j < k ==> !IsRapidChange(current, history[j], now)
  }

  function RapidChangeAlert(patientId: int, current: Vitals, previous: PatientRecord, now: int): Alert
  {
    var previousRate := previous.measurementValue;
    var timeDiff := now - previous.timestamp;
    var changeType := if current.value > previousRate then "increase" else "decrease";
    Alert(patientId, current, now, "RapidHeartRateChange",
          Formatted("Rapid heart rate %s: %.0f to %.0f bpm (change of %.0f bpm) in %d minutes",
                    [TextArg(changeType), RealArg(previousRate), RealArg(current.value),
                     RealArg(Abs(current.value - previousRate)), IntArg(TruncDiv(timeDiff, 60000))]))
  }

  /** What the history scan promises: nothing iff no entry qualifies, else the alert of the
      first qualifying entry. */
  ghost predicate RapidChangeOutcome(patientId: int, current: Vitals, history: seq<PatientRecord>, now: int,
                                     r: Option<Alert>)
  {
    && (r.None? <==> forall k :: 0 <= k < |history| ==> !IsRapidChange(current.value, history[k], now))
    && (r.Some? ==> exists k :: IsFirstRapidChange(current.value, history, now, k)
                                && r.value == RapidChangeAlert(patientId, current, history[k], now))
  }

  method CheckRapidChanges(patientId: int, current: Vitals, history: seq<PatientRecord>, now: int)
    returns (r: Option<Alert>)
    ensures r.None? <==> forall k :: 0 <= k < |history| ==> !IsRapidChange(current.value, history[k], now)
    ensures r.Some? ==> exists k :: IsFirstRapidChange(current.value, history, now, k)
                                    && r.value == RapidChangeAlert(patientId, current, history[k], now)
  {
    var i := 0;
    while i < |history|
      invariant 0 <= i <= |history|
      invariant forall j :: 0 <= j < i ==> !IsRapidChange(current.value, history[j], now)
    {
      var previousRecord := history[i];
      var timeDiff := now - previousRecord.timestamp;
      if timeDiff > RapidChangeWindow {
        i := i + 1;
        continue;
      }
      var previousRate := previousRecord.measurementValue;
      var rateChange := Abs(current.value - previousRate);
      if rateChange >= RapidChangeThreshold {
        assert IsFirstRapidChange(current.value, history, now, i);
        return Some(RapidChangeAlert(patientId, current, previousRecord, now));
      }
      i := i + 1;
    }
    return None;
  }

  /** `now` stands for both clock readings of the source (scan and alert time). */
  method CheckAlert(patientId: int, current: Vitals, history: Option<seq<PatientRecord>>, now: int)
    returns (r: Option<Alert>)
    ensures current.vitalType != "HeartRate" ==> r.None?
    ensures (current.vitalType == "HeartRate" && CheckThresholds(patientId, current, now).Some?)
            ==> r == CheckThresholds(patientId, current, now)
    ensures (current.vitalType == "HeartRate" && CheckThresholds(patientId, current, now).None?
             && (history.None? || history.value == []))
            ==> r.None?
    ensures (current.vitalType == "HeartRate" && CheckThresholds(patientId, current, now).None?
             && history.Some? && history.value != [])
            ==> RapidChangeOutcome(patientId, current, history.value, now, r)
  {
    if current.vitalType != "HeartRate" {
      return None;
    }
    var thresholdAlert := CheckThresholds(patientId, current, now);
    if thresholdAlert.Some? {
      return thresholdAlert;
    }
    if history.Some? && history.value != [] {
      r := CheckRapidChanges(patientId, current, history.value, now);
      return;
    }
    return None;
  }
}
