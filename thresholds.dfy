/** Per-patient threshold limits: a threshold per record type, and a profile holding a list
    of them that starts with four defaults. */
module Thresholds {
  import opened Wrappers
  import opened Records

  /** The six record types a threshold check accepts. */
  predicate IsValidRecordType(t: string)
  {
    t in {"SystolicPressure", "DiastolicPressure", "BloodPressure", "BloodSaturation", "HeartRate", "ECG"}
  }

  predicate Outside(v: real, lo: real, hi: real)
  {
    v < lo || v > hi
  }

  function Max(a: real, b: real): real { if a >= b then a else b }
  function Min(a: real, b: real): real { if a <= b then a else b }

  class VitalsThreshold {
    const recordType: string
    var minNormal: real
    var maxNormal: real
    var criticalLow: real
    var criticalHigh: real
    var description: string

    constructor(recordType: string, minNormal: real, maxNormal: real, criticalLow: real, criticalHigh: real,
                description: string)
      ensures this.recordType == recordType && this.minNormal == minNormal && this.maxNormal == maxNormal
      ensures this.criticalLow == criticalLow && this.criticalHigh == criticalHigh
      ensures this.description == description
    {
      this.recordType := recordType;
      this.minNormal := minNormal;
      this.maxNormal := maxNormal;
      this.criticalLow := criticalLow;
      this.criticalHigh := criticalHigh;
      this.description := description;
    }

    /** Whether `record` breaks this threshold. A combined blood-pressure value is first split
        into a systolic and a diastolic number by `decode` (the source's text split of the
        number's decimal form), which gives `None` when the split does not yield two numbers. */
    function CheckThreshold(record: PatientRecord, decode: real -> Option<(real, real)>): (r: Result<bool>)
      reads this
      ensures r.Err? <==> !IsValidRecordType(record.recordType)
      ensures r.Err? ==> r.error == IllegalArgument("Invalid vital type: " + record.recordType)
      ensures r.Ok? && record.recordType != recordType ==> !r.value
      ensures r.Ok? && record.recordType == recordType ==> var v := record.measurementValue;
        && (recordType == "SystolicPressure" ==> (r.value <==> Outside(v, 90.0, 180.0)))
        && (recordType == "DiastolicPressure" ==> (r.value <==> Outside(v, 60.0, 120.0)))
        && (recordType == "BloodPressure" && decode(v).Some? ==>
              (r.value <==> Outside(decode(v).value.0, 90.0, 180.0) || Outside(decode(v).value.1, 60.0, 120.0)))
        && (recordType == "BloodPressure" && decode(v).None? ==> (r.value <==> Outside(v, criticalLow, criticalHigh)))
        && (recordType !in {"SystolicPressure", "DiastolicPressure", "BloodPressure"} ==>
              (r.value <==> Outside(v, Max(minNormal, criticalLow), Min(maxNormal, criticalHigh))))
    {
      if !IsValidRecordType(record.recordType) then
        Err(IllegalArgument("Invalid vital type: " + record.recordType))
      else if record.recordType != recordType then Ok(false)
      else
        var value := record.measurementValue;
        if recordType == "BloodPressure" then Ok(CheckBloodPressureThreshold(value, decode))
        else if recordType == "SystolicPressure" then Ok(value < 90.0 || value > 180.0)
        else if recordType == "DiastolicPressure" then Ok(value < 60.0 || value > 120.0)
        else Ok(value < criticalLow || value > criticalHigh || value < minNormal || value > maxNormal)
    }

    function CheckBloodPressureThreshold(value: real, decode: real -> Option<(real, real)>): bool
      reads this
    {
      match decode(value)
      case Some((systolic, diastolic)) =>
        var systolicViolation := systolic < 90.0 || systolic > 180.0;
        var diastolicViolation := diastolic < 60.0 || diastolic > 120.0;
        systolicViolation || diastolicViolation
      case None => value < criticalLow || value > criticalHigh
    }

    method SetMinNormal(x: real)
      modifies this`minNormal
      ensures minNormal == x
    {
      minNormal := x;
    }

    method SetMaxNormal(x: real)
      modifies this`maxNormal
      ensures maxNormal == x
    {
      maxNormal := x;
    }

    method SetCriticalLow(x: real)
      modifies this`criticalLow
      ensures criticalLow == x
    {
      criticalLow := x;
    }

    method SetCriticalHigh(x: real)
      modifies this`criticalHigh
      ensures criticalHigh == x
    {
      criticalHigh := x;
    }

    method SetDescription(x: string)
      modifies this`description
      ensures description == x
    {
      description := x;
    }
  }

  /** The limits of a single systolic or diastolic threshold are ignored: any two such
      thresholds of the same type agree on every record. */
  lemma PressureChecksIgnoreLimits(a: VitalsThreshold, b: VitalsThreshold, record: PatientRecord,
                                   decode: real -> Option<(real, real)>)
    requires a.recordType == b.recordType
    requires a.recordType == "SystolicPressure" || a.recordType == "DiastolicPressure"
    ensures a.CheckThreshold(record, decode) == b.CheckThreshold(record, decode)
  {
  }

  /** The thresholds whose type is not `t`, in their order (removeIf). */
  function WithoutType(ts: seq<VitalsThreshold>, t: string): (r: seq<VitalsThreshold>)
    ensures |r| <= |ts|
    ensures forall i :: 0 <= i < |r| ==> r[i] in ts && r[i].recordType != t
    ensures forall i :: 0 <= i < |ts| && ts[i].recordType != t ==> ts[i] in r
  {
    if ts == [] then []
    else (if ts[0].recordType == t then [] else [ts[0]]) + WithoutType(ts[1..], t)
  }

  /** Removal keeps the survivors in order: filtering a concatenation filters each part. */
  lemma {:induction false} WithoutTypeAppend(a: seq<VitalsThreshold>, b: seq<VitalsThreshold>, t: string)
    ensures WithoutType(a + b, t) == WithoutType(a, t) + WithoutType(b, t)
  {
    if a != [] {
      assert (a + b)[1..] == a[1..] + b;
      WithoutTypeAppend(a[1..], b, t);
    } else {
      assert a + b == b;
    }
  }

  /** Removing a type that no threshold has changes nothing. */
  lemma {:induction false} WithoutAbsentType(ts: seq<VitalsThreshold>, t: string)
    requires forall i :: 0 <= i < |ts| ==> ts[i].recordType != t
    ensures WithoutType(ts, t) == ts
  {
    if ts != [] {
      WithoutAbsentType(ts[1..], t);
      assert ts == [ts[0]] + ts[1..];
    }
  }

  /** The position of the first threshold of type `t`, or `|ts|` when there is none. */
  function FirstIndexOfType(ts: seq<VitalsThreshold>, t: string): (k: nat)
    ensures k <= |ts|
    ensures k < |ts| ==> ts[k].recordType == t
    ensures forall j :: 0 <= j < k ==> ts[j].recordType != t
  {
    if ts == [] then 0
    else if ts[0].recordType == t then 0
    else 1 + FirstIndexOfType(ts[1..], t)
  }

  /** The first threshold of type `t`, or null (findFirst on a filtered stream). */
  function FirstOfType(ts: seq<VitalsThreshold>, t: string): (r: VitalsThreshold?)
    ensures r == null <==> forall i :: 0 <= i < |ts| ==> ts[i].recordType != t
    ensures r != null ==> exists i :: 0 <= i < |ts| && ts[i] == r && r.recordType == t
                                      && forall j :: 0 <= j < i ==> ts[j].recordType != t
  {
    var k := FirstIndexOfType(ts, t);
    if k == |ts| then null else ts[k]
  }

  lemma FirstOfTypeCons(x: VitalsThreshold, ts: seq<VitalsThreshold>, t: string)
    ensures FirstOfType([x] + ts, t) == if x.recordType == t then x else FirstOfType(ts, t)
  {
    assert ([x] + ts)[1..] == ts;
  }

  /** Removing one type leaves the lookup of every other type as it was. */
  lemma {:induction false} RemoveKeepsOtherTypes(ts: seq<VitalsThreshold>, t: string, u: string)
    requires t != u
    ensures FirstOfType(WithoutType(ts, t), u) == FirstOfType(ts, u)
  {
    if ts != [] {
      var rest := WithoutType(ts[1..], t);
      RemoveKeepsOtherTypes(ts[1..], t, u);
      assert ts == [ts[0]] + ts[1..];
      FirstOfTypeCons(ts[0], ts[1..], u);
      if ts[0].recordType == t {
        assert WithoutType(ts, t) == rest;
      } else {
        assert WithoutType(ts, t) == [ts[0]] + rest;
        FirstOfTypeCons(ts[0], rest, u);
      }
    }
  }

  /** An added threshold is found only when no earlier one has its type. */
  lemma {:induction false} AddedThresholdShadowed(ts: seq<VitalsThreshold>, x: VitalsThreshold)
    ensures FirstOfType(ts + [x], x.recordType)
            == if FirstOfType(ts, x.recordType) == null then x else FirstOfType(ts, x.recordType)
  {
    if ts == [] {
      assert ts + [x] == [x] + [];
      FirstOfTypeCons(x, [], x.recordType);
    } else {
      assert ts + [x] == [ts[0]] + (ts[1..] + [x]);
      assert ts == [ts[0]] + ts[1..];
      AddedThresholdShadowed(ts[1..], x);
      FirstOfTypeCons(ts[0], ts[1..] + [x], x.recordType);
      FirstOfTypeCons(ts[0], ts[1..], x.recordType);
    }
  }

  class PatientThresholdProfile {
    var thresholds: seq<VitalsThreshold>

    /** The four defaults, in this order. */
    constructor()
      ensures |thresholds| == 4
      ensures forall i :: 0 <= i < 4 ==> fresh(thresholds[i])
      ensures forall i, j :: 0 <= i < j < 4 ==> thresholds[i] != thresholds[j]
      ensures thresholds[0].recordType == "BloodPressure" && thresholds[0].minNormal == 90.0
              && thresholds[0].maxNormal == 180.0 && thresholds[0].criticalLow == 60.0
              && thresholds[0].criticalHigh == 120.0
              && thresholds[0].description == "Blood pressure outside normal range"
      ensures thresholds[1].recordType == "BloodSaturation" && thresholds[1].minNormal == 92.0
              && thresholds[1].maxNormal == 100.0 && thresholds[1].criticalLow == 92.0
              && thresholds[1].criticalHigh == 100.0
              && thresholds[1].description == "Blood oxygen saturation below normal"
      ensures thresholds[2].recordType == "HeartRate" && thresholds[2].minNormal == 60.0
              && thresholds[2].maxNormal == 100.0 && thresholds[2].criticalLow == 40.0
              && thresholds[2].criticalHigh == 150.0
              && thresholds[2].description == "Heart rate outside normal range"
      ensures thresholds[3].recordType == "ECG" && thresholds[3].minNormal == -1000.0
              && thresholds[3].maxNormal == 1000.0 && thresholds[3].criticalLow == -2000.0
              && thresholds[3].criticalHigh == 2000.0
              && thresholds[3].description == "ECG reading abnormal"
    {
      var bp := new VitalsThreshold("BloodPressure", 90.0, 180.0, 60.0, 120.0, "Blood pressure outside normal range");
      var sat := new VitalsThreshold("BloodSaturation", 92.0, 100.0, 92.0, 100.0, "Blood oxygen saturation below normal");
      var hr := new VitalsThreshold("HeartRate", 60.0, 100.0, 40.0, 150.0, "Heart rate outside normal range");
      var ecg := new VitalsThreshold("ECG", -1000.0, 1000.0, -2000.0, 2000.0, "ECG reading abnormal");
      thresholds := [bp, sat, hr, ecg];
    }

    /** A copy of the list: later changes to the profile do not show in it. */
    method GetThresholds() returns (r: seq<VitalsThreshold>)
      ensures r == thresholds
    {
      return thresholds;
    }

    method AddThreshold(threshold: VitalsThreshold)
      modifies this`thresholds
      ensures thresholds == old(thresholds) + [threshold]
    {
      thresholds := thresholds + [threshold];
    }

    method RemoveThreshold(recordType: string)
      modifies this`thresholds
      ensures thresholds == WithoutType(old(thresholds), recordType)
      ensures GetThresholdForType(recordType) == null
    {
      thresholds := WithoutType(thresholds, recordType);
    }

    function GetThresholdForType(recordType: string): (r: VitalsThreshold?)
      reads this
      ensures r == null <==> forall i :: 0 <= i < |thresholds| ==> thresholds[i].recordType != recordType
      ensures r != null ==> exists i :: 0 <= i < |thresholds| && thresholds[i] == r && r.recordType == recordType
                                        && forall j :: 0 <= j < i ==> thresholds[j].recordType != recordType
    {
      FirstOfType(thresholds, recordType)
    }
  }
}
