/** Blood-pressure rule: a critical threshold check on the current reading, then a
    three-point trend over the third- and second-to-last history values and the current one
    (the last history entry is not read). */
module BloodPressureStrategy {
  import opened Wrappers
  import opened Records

  const SystolicHighThreshold: real := 180.0
  const SystolicLowThreshold: real := 90.0
  const DiastolicHighThreshold: real := 120.0
  const DiastolicLowThreshold: real := 60.0
  const TrendThreshold: real := 10.0

  /** The reading lies outside the critical band of its pressure type. */
  predicate ThresholdBreach(record: Vitals)
  {
    || (record.vitalType == "SystolicPressure" && !(90.0 <= record.value <= 180.0))
    || (record.vitalType == "DiastolicPressure" && !(60.0 <= record.value <= 120.0))
  }

  predicate Rising(v1: real, v2: real, v3: real)
  {
    v2 - v1 > TrendThreshold && v3 - v2 > TrendThreshold
  }

  predicate Falling(v1: real, v2: real, v3: real)
  {
    v1 - v2 > TrendThreshold && v2 - v3 > TrendThreshold
  }

  function ThresholdAlert(patientId: int, record: Vitals, now: int, alertType: string, template: string): Alert
  {
    Alert(patientId, record, now, alertType, Formatted(template, [RealArg(record.value)]))
  }

  function CheckThresholds(patientId: int, record: Vitals, now: int): (r: Option<Alert>)
    ensures r.Some? <==> ThresholdBreach(record)
    ensures r.Some? ==> r.value.patientId == patientId && r.value.vitals == record && r.value.timestamp == now
    ensures (r.Some? && r.value.alertType == "CriticalHighSystolicPressure")
            <==> record.vitalType == "SystolicPressure" && record.value > 180.0
    ensures (r.Some? && r.value.alertType == "CriticalLowSystolicPressure")
            <==> record.vitalType == "SystolicPressure" && record.value < 90.0
    ensures (r.Some? && r.value.alertType == "CriticalHighDiastolicPressure")
            <==> record.vitalType == "DiastolicPressure" && record.value > 120.0
    ensures (r.Some? && r.value.alertType == "CriticalLowDiastolicPressure")
            <==> record.vitalType == "DiastolicPressure" && record.value < 60.0
  {
    var value := record.value;
    if record.vitalType == "SystolicPressure" then
      if value > SystolicHighThreshold then
        Some(ThresholdAlert(patientId, record, now, "CriticalHighSystolicPressure",
                            "Critical high systolic pressure: %.1f mmHg (>180)"))
      else if value < SystolicLowThreshold then
        Some(ThresholdAlert(patientId, record, now, "CriticalLowSystolicPressure",
                            "Critical low systolic pressure: %.1f mmHg (<90)"))
      else None
    else if record.vitalType == "DiastolicPressure" then
      if value > DiastolicHighThreshold then
        Some(ThresholdAlert(patientId, record, now, "CriticalHighDiastolicPressure",
                            "Critical high diastolic pressure: %.1f mmHg (>120)"))
      else if value < DiastolicLowThreshold then
        Some(ThresholdAlert(patientId, record, now, "CriticalLowDiastolicPressure",
                            "Critical low diastolic pressure: %.1f mmHg (<60)"))
      else None
    else None
  }

  /** `s` contains `sub` as a contiguous part (String.contains): `sub` is a prefix of some suffix. */
  predicate Contains(s: string, sub: string)
    decreases |s|
  {
    (|sub| <= |s| && s[..|sub|] == sub) || (|s| > 0 && Contains(s[1..], sub))
  }

  function TrendAlert(patientId: int, current: Vitals, now: int, alertType: string, template: string,
                      v1: real, v2: real): Alert
  {
    var pressureType := if Contains(current.vitalType, "Systolic") then "systolic" else "diastolic";
    Alert(patientId, current, now, alertType,
          Formatted(template, [TextArg(pressureType), RealArg(v1), RealArg(v2), RealArg(current.value)]))
  }

  /** v1 and v2 are the third- and second-to-last history values, v3 the current one; the last
      history entry is not read. */
  function CheckTrend(patientId: int, current: Vitals, history: seq<PatientRecord>, now: int): (r: Option<Alert>)
    requires |history| >= 3
    ensures var v1, v2, v3 := history[|history| - 3].measurementValue,
                              history[|history| - 2].measurementValue, current.value;
            && ((r.Some? && r.value.alertType == "BloodPressureIncreasingTrend") <==> Rising(v1, v2, v3))
            && ((r.Some? && r.value.alertType == "BloodPressureDecreasingTrend") <==> Falling(v1, v2, v3))
            && (r.None? <==> !Rising(v1, v2, v3) && !Falling(v1, v2, v3))
    ensures r.Some? ==> r.value.patientId == patientId && r.value.vitals == current && r.value.timestamp == now
  {
    var lastIndex := |history| - 1;
    var val1 := history[lastIndex - 2].measurementValue;
    var val2 := history[lastIndex - 1].measurementValue;
    var val3 := current.value;
    if val2 - val1 > TrendThreshold && val3 - val2 > TrendThreshold then
      Some(TrendAlert(patientId, current, now, "BloodPressureIncreasingTrend",
                      "Increasing trend in %s blood pressure: %.1f → %.1f → %.1f mmHg", val1, val2))
    else if val1 - val2 > TrendThreshold && val2 - val3 > TrendThreshold then
      Some(TrendAlert(patientId, current, now, "BloodPressureDecreasingTrend",
                      "Decreasing trend in %s blood pressure: %.1f → %.1f → %.1f mmHg", val1, val2))
    else None
  }

  /** A null history is `None`. */
  predicate TrendPossible(history: Option<seq<PatientRecord>>)
  {
    history.Some? && |history.value| >= 3
  }

  function CheckAlert(patientId: int, current: Vitals, history: Option<seq<PatientRecord>>, now: int): (r: Option<Alert>)
    ensures ThresholdBreach(current) ==> r == CheckThresholds(patientId, current, now)
    ensures !ThresholdBreach(current) && !TrendPossible(history) ==> r.None?
    ensures (r.Some? && r.value.alertType == "BloodPressureIncreasingTrend")
            <==> !ThresholdBreach(current) && TrendPossible(history)
                 && Rising(history.value[|history.value| - 3].measurementValue,
                           history.value[|history.value| - 2].measurementValue, current.value)
    ensures (r.Some? && r.value.alertType == "BloodPressureDecreasingTrend")
            <==> !ThresholdBreach(current) && TrendPossible(history)
                 && Falling(history.value[|history.value| - 3].measurementValue,
                            history.value[|history.value| - 2].measurementValue, current.value)
    ensures !ThresholdBreach(current) && TrendPossible(history)
            ==> (r.None? <==> !Rising(history.value[|history.value| - 3].measurementValue,
                                      history.value[|history.value| - 2].measurementValue, current.value)
                              && !Falling(history.value[|history.value| - 3].measurementValue,
                                          history.value[|history.value| - 2].measurementValue, current.value))
    ensures r.Some? ==> r.value.patientId == patientId && r.value.vitals == current && r.value.timestamp == now
  {
    var immediateAlert := CheckThresholds(patientId, current, now);
    if immediateAlert.Some? then immediateAlert
    else if history.Some? && |history.value| >= 3 then CheckTrend(patientId, current, history.value, now)
    else None
  }

  /** A text without the letter 'y' cannot contain "Systolic". */
  lemma {:induction false} NoSystolicWithoutY(s: string)
    requires forall i :: 0 <= i < |s| ==> s[i] != 'y'
    ensures !Contains(s, "Systolic")
  {
    if |s| >= 8 {
      assert s[..8][1] == s[1];
    }
    if |s| > 0 {
      NoSystolicWithoutY(s[1..]);
    }
  }

  /** The trend text names the pressure after the reading's type: the two pressure types
      of the simulator come out as "systolic" and "diastolic". */
  lemma PressureTypeLabel()
    ensures Contains("SystolicPressure", "Systolic")
    ensures !Contains("DiastolicPressure", "Systolic")
  {
    assert "SystolicPressure"[..8] == "Systolic";
    NoSystolicWithoutY("DiastolicPressure");
  }
}
