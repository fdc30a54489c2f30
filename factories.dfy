/** The parameter check shared by the alert factories. */
module AlertFactory {
  import opened Wrappers
  import opened Records

  const NullVitalsMessage := "Vitals cannot be null"
  const NonPositiveTimestampMessage := "Timestamp must be positive"

  /** A null reading and a timestamp that is not positive are refused, in that order. */
  function ValidateParameters(patientId: int, vitals: Option<Vitals>, timestamp: int): (r: Result<()>)
    ensures r.Ok? <==> vitals.Some? && timestamp > 0
    ensures vitals.None? ==> r == Err(IllegalArgument(NullVitalsMessage))
    ensures vitals.Some? && timestamp <= 0 ==> r == Err(IllegalArgument(NonPositiveTimestampMessage))
  {
    if vitals.None? then Err(IllegalArgument(NullVitalsMessage))
    else if timestamp <= 0 then Err(IllegalArgument(NonPositiveTimestampMessage))
    else Ok(())
  }
}

/** Blood-pressure factory: a four-band ladder per pressure type. It does its own parameter
    check, which accepts a timestamp of zero. */
module BloodPressureAlertFactory {
  import opened Wrappers
  import opened Records
  import AlertFactory

  const NegativeTimestampMessage := "Timestamp must be non-negative"

  predicate IsPressureType(vitalType: string)
  {
    vitalType == "SystolicPressure" || vitalType == "DiastolicPressure"
  }

  function Make(patientId: int, vitals: Vitals, timestamp: int, alertType: string, template: string)
    : Option<Alert>
  {
    Some(Alert(patientId, vitals, timestamp, alertType, Formatted(template, [RealArg(vitals.value)])))
  }

  /** The returned alert is of kind `alertType`. */
  predicate Gives(o: Option<Alert>, alertType: string)
  {
    o.Some? && o.value.alertType == alertType
  }

  /** The systolic ladder: the first matching step wins. */
  function SystolicLadder(patientId: int, v: Vitals, timestamp: int): (o: Option<Alert>)
    ensures o.Some? ==> o.value.patientId == patientId && o.value.vitals == v && o.value.timestamp == timestamp
    ensures Gives(o, "CriticalHighSystolicPressure") <==> v.value >= 180.0
    ensures Gives(o, "HighSystolicPressure") <==> 140.0 <= v.value < 180.0
    ensures Gives(o, "CriticalLowSystolicPressure") <==> v.value <= 80.0
    ensures Gives(o, "LowSystolicPressure") <==> 80.0 < v.value <= 90.0
    ensures o.None? <==> 90.0 < v.value < 140.0
  {
    var value := v.value;
    if value >= 180.0 then
      Make(patientId, v, timestamp, "CriticalHighSystolicPressure", "Critical high systolic pressure: %.1f mmHg")
    else if value >= 140.0 then
      Make(patientId, v, timestamp, "HighSystolicPressure", "High systolic pressure: %.1f mmHg")
    else if value <= 80.0 then
      Make(patientId, v, timestamp, "CriticalLowSystolicPressure", "Critical low systolic pressure: %.1f mmHg")
    else if value <= 90.0 then
      Make(patientId, v, timestamp, "LowSystolicPressure", "Low systolic pressure: %.1f mmHg")
    else None
  }

  /** The diastolic ladder: the first matching step wins. */
  function DiastolicLadder(patientId: int, v: Vitals, timestamp: int): (o: Option<Alert>)
    ensures o.Some? ==> o.value.patientId == patientId && o.value.vitals == v && o.value.timestamp == timestamp
    ensures Gives(o, "CriticalHighDiastolicPressure") <==> v.value >= 120.0
    ensures Gives(o, "HighDiastolicPressure") <==> 90.0 <= v.value < 120.0
    ensures Gives(o, "CriticalLowDiastolicPressure") <==> v.value <= 50.0
    ensures Gives(o, "LowDiastolicPressure") <==> 50.0 < v.value <= 60.0
    ensures o.None? <==> 60.0 < v.value < 90.0
  {
    var value := v.value;
    if value >= 120.0 then
      Make(patientId, v, timestamp, "CriticalHighDiastolicPressure", "Critical high diastolic pressure: %.1f mmHg")
    else if value >= 90.0 then
      Make(patientId, v, timestamp, "HighDiastolicPressure", "High diastolic pressure: %.1f mmHg")
    else if value <= 50.0 then
      Make(patientId, v, timestamp, "CriticalLowDiastolicPressure", "Critical low diastolic pressure: %.1f mmHg")
    else if value <= 60.0 then
      Make(patientId, v, timestamp, "LowDiastolicPressure", "Low diastolic pressure: %.1f mmHg")
    else None
  }

  /** The checks in source order, then the ladder of the reading's pressure type. */
  function CreateAlert(patientId: int, vitals: Option<Vitals>, timestamp: int): (r: Result<Option<Alert>>)
    ensures vitals.None? ==> r == Err(IllegalArgument(AlertFactory.NullVitalsMessage))
    ensures vitals.Some? && timestamp < 0 ==> r == Err(IllegalArgument(NegativeTimestampMessage))
    ensures vitals.Some? && timestamp >= 0 && !IsPressureType(vitals.value.vitalType)
            ==> r == Err(IllegalArgument("Invalid vital type: " + vitals.value.vitalType))
    ensures r.Ok? <==> vitals.Some? && timestamp >= 0 && IsPressureType(vitals.value.vitalType)
    ensures r.Ok? && vitals.value.vitalType == "SystolicPressure"
            ==> r.value == SystolicLadder(patientId, vitals.value, timestamp)
    ensures r.Ok? && vitals.value.vitalType == "DiastolicPressure"
            ==> r.value == DiastolicLadder(patientId, vitals.value, timestamp)
  {
    if vitals.None? then Err(IllegalArgument(AlertFactory.NullVitalsMessage))
    else if timestamp < 0 then Err(IllegalArgument(NegativeTimestampMessage))
    else
      var v := vitals.value;
      if v.vitalType == "SystolicPressure" then Ok(SystolicLadder(patientId, v, timestamp))
      else if v.vitalType == "DiastolicPressure" then Ok(DiastolicLadder(patientId, v, timestamp))
      else Err(IllegalArgument("Invalid vital type: " + v.vitalType))
  }
}

/** Blood-oxygen factory: the shared parameter check, a type check, one threshold. */
module BloodOxygenAlertFactory {
  import opened Wrappers
  import opened Records
  import AlertFactory

  predicate IsSaturationType(vitalType: string)
  {
    vitalType == "BloodSaturation" || vitalType == "Saturation"
  }

  function CreateAlert(patientId: int, vitals: Option<Vitals>, timestamp: int): (r: Result<Option<Alert>>)
    ensures !AlertFactory.ValidateParameters(patientId, vitals, timestamp).Ok?
            ==> r == Err(AlertFactory.ValidateParameters(patientId, vitals, timestamp).error)
    ensures vitals.Some? && timestamp > 0 && !IsSaturationType(vitals.value.vitalType)
            ==> r == Err(IllegalArgument("Invalid vital type for blood oxygen alert: " + vitals.value.vitalType))
    ensures r.Ok? <==> vitals.Some? && timestamp > 0 && IsSaturationType(vitals.value.vitalType)
    ensures r.Ok? ==> (r.value.Some? <==> vitals.value.value < 92.0)
    ensures r.Ok? && r.value.Some?
            ==> r.value.value == Alert(patientId, vitals.value, timestamp, "LowBloodSaturation",
                                       Formatted("Low blood oxygen saturation: %.1f%% (<92%%)",
                                                 [RealArg(vitals.value.value)]))
  {
    var check := AlertFactory.ValidateParameters(patientId, vitals, timestamp);
    if check.Err? then Err(check.error)
    else
      var v := vitals.value;
      if !(v.vitalType == "BloodSaturation" || v.vitalType == "Saturation") then
        Err(IllegalArgument("Invalid vital type for blood oxygen alert: " + v.vitalType))
      else if v.value < 92.0 then
        Ok(Some(Alert(patientId, v, timestamp, "LowBloodSaturation",
                      Formatted("Low blood oxygen saturation: %.1f%% (<92%%)", [RealArg(v.value)]))))
      else Ok(None)
  }
}
