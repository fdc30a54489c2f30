/** Oxygen-saturation rule: a two-band threshold check on the current saturation, then a
    scan of the history for a drop of at least five points within ten minutes. */
module OxygenSaturationStrategy {
  import opened Wrappers
  import opened Records
  import Num

  const LowThreshold: real := 92.0
  const CriticalThreshold: real := 88.0
  const DropThreshold: real := 5.0
  /** Ten minutes in milliseconds. */
  const RapidDropWindow: int := 10 * 60 * 1000

  /** The two record types this rule applies to. */
  predicate IsSaturationType(vitalType: string)
  {
    vitalType == "BloodSaturation" || vitalType == "Saturation"
  }

  function CheckThresholds(patientId: int, record: Vitals, now: int): (r: Option<Alert>)
    ensures r.Some? ==> r.value.patientId == patientId && r.value.vitals == record && r.value.timestamp == now
    ensures (r.Some? && r.value.alertType == "CriticalLowOxygenSaturation") <==> record.value <= 88.0
    ensures (r.Some? && r.value.alertType == "LowOxygenSaturation") <==> 88.0 < record.value < 92.0
    ensures r.None? <==> record.value >= 92.0
  {
    var saturation := record.value;
    if saturation <= CriticalThreshold then
      Some(Alert(patientId, record, now, "CriticalLowOxygenSaturation",
                 Formatted("Critical low oxygen saturation: %.1f%% (≤88%%)", [RealArg(saturation)])))
    else if saturation < LowThreshold then
      Some(Alert(patientId, record, now, "LowOxygenSaturation",
                 Formatted("Low oxygen saturation: %.1f%% (<92%%)", [RealArg(saturation)])))
    else None
  }

  /** An earlier record no older than the window from which the saturation fell far enough. */
  predicate IsRapidDrop(current: real, previous: PatientRecord, now: int)
  {
    now - previous.timestamp <= RapidDropWindow
    && previous.measurementValue - current >= DropThreshold
  }

  /** History entry `k` is the first one the scan reports. */
  predicate IsFirstRapidDrop(current: real, history: seq<PatientRecord>, now: int, k: int)
  {
    && 0 <= k < |history|
    && IsRapidDrop(current, history[k], now)
    && forall j :: 0 <= j < k ==> !IsRapidDrop(current, history[j], now)
  }

  function RapidDropAlert(patientId: int, current: Vitals, previous: PatientRecord, now: int): Alert
  {
    var previousSaturation := previous.measurementValue;
    Alert(patientId, current, now, "RapidSaturationDrop",
          Formatted("Rapid drop in oxygen saturation: %.1f%% to %.1f%% (drop of %.1f%%) in %d minutes",
                    [RealArg(previousSaturation), RealArg(current.value),
                     RealArg(previousSaturation - current.value),
                     IntArg(Num.TruncDiv(now - previous.timestamp, 60000))]))
  }

  /** What the history scan promises: nothing iff no entry qualifies, else the alert of the
      first qualifying entry. */
  ghost predicate RapidDropOutcome(patientId: int, current: Vitals, history: seq<PatientRecord>, now: int,
                                   r: Option<Alert>)
  {
    && (r.None? <==> forall k :: 0 <= k < |history| ==> !IsRapidDrop(current.value, history[k], now))
    && (r.Some? ==> exists k :: IsFirstRapidDrop(current.value, history, now, k)
                                && r.value == RapidDropAlert(patientId, current, history[k], now))
  }

  method CheckRapidDrop(patientId: int, current: Vitals, history: seq<PatientRecord>, now: int)
    returns (r: Option<Alert>)
    ensures r.None? <==> forall k :: 0 <= k < |history| ==> !IsRapidDrop(current.value, history[k], now)
    ensures r.Some? ==> exists k :: IsFirstRapidDrop(current.value, history, now, k)
                                    && r.value == RapidDropAlert(patientId, current, history[k], now)
  {
    var i := 0;
    while i < |history|
      invariant 0 <= i <= |history|
      invariant forall j :: 0 <= j < i ==> !IsRapidDrop(current.value, history[j], now)
    {
      var previousRecord := history[i];
      var timeDiff := now - previousRecord.timestamp;
      if timeDiff > RapidDropWindow {
        i := i + 1;
        continue;
      }
      var drop := previousRecord.measurementValue - current.value;
      if drop >= DropThreshold {
        assert IsFirstRapidDrop(current.value, history, now, i);
        return Some(RapidDropAlert(patientId, current, previousRecord, now));
      }
      i := i + 1;
    }
    return None;
  }

  /** `now` stands for both clock readings of the source (scan and alert time). */
  method CheckAlert(patientId: int, current: Vitals, history: Option<seq<PatientRecord>>, now: int)
    returns (r: Option<Alert>)
    ensures !IsSaturationType(current.vitalType) ==> r.None?
    ensures (IsSaturationType(current.vitalType) && current.value < 92.0)
            ==> r == CheckThresholds(patientId, current, now)
    ensures (IsSaturationType(current.vitalType) && current.value >= 92.0
             && (history.None? || history.value == []))
            ==> r.None?
    ensures (IsSaturationType(current.vitalType) && current.value >= 92.0
             && history.Some? && history.value != [])
            ==> RapidDropOutcome(patientId, current, history.value, now, r)
  {
    if !(current.vitalType == "BloodSaturation" || current.vitalType == "Saturation") {
      return None;
    }
    var thresholdAlert := CheckThresholds(patientId, current, now);
    if thresholdAlert.Some? {
      return thresholdAlert;
    }
    if history.Some? && history.value != [] {
      r := CheckRapidDrop(patientId, current, history.value, now);
      return;
    }
    return None;
  }
}
