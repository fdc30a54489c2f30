/** The patient table: patients by id, each with its records in arrival order and its own
    threshold profile. */
module DataManagement {
  import opened Records
  import opened Seqs
  import opened Thresholds

  predicate InWindow(rec: PatientRecord, startTime: int, endTime: int)
  {
    startTime <= rec.timestamp <= endTime
  }

  /** The records whose time lies in [startTime, endTime], both ends included, in order. */
  function RecordsInRange(rs: seq<PatientRecord>, startTime: int, endTime: int): (r: seq<PatientRecord>)
    ensures |r| <= |rs|
    ensures forall i :: 0 <= i < |r| ==> r[i] in rs && InWindow(r[i], startTime, endTime)
    ensures forall i :: 0 <= i < |rs| && InWindow(rs[i], startTime, endTime) ==> rs[i] in r
  {
    if rs == [] then []
    else
      var last := rs[|rs| - 1];
      var front := RecordsInRange(rs[..|rs| - 1], startTime, endTime);
      assert forall i :: 0 <= i < |rs| - 1 ==> rs[i] == rs[..|rs| - 1][i];
      front + (if InWindow(last, startTime, endTime) then [last] else [])
  }

  /** Adding a record extends a query by that record exactly when it falls in the window. */
  lemma RecordsInRangeAppend(rs: seq<PatientRecord>, rec: PatientRecord, startTime: int, endTime: int)
    ensures RecordsInRange(rs + [rec], startTime, endTime)
            == RecordsInRange(rs, startTime, endTime) + (if InWindow(rec, startTime, endTime) then [rec] else [])
  {
    assert (rs + [rec])[..|rs|] == rs;
  }

  /** A window that covers every time returns all records. */
  lemma {:induction false} RecordsInRangeAll(rs: seq<PatientRecord>, startTime: int, endTime: int)
    requires forall i :: 0 <= i < |rs| ==> InWindow(rs[i], startTime, endTime)
    ensures RecordsInRange(rs, startTime, endTime) == rs
  {
    if rs != [] {
      var front, last := rs[..|rs| - 1], rs[|rs| - 1];
      assert front + [last] == rs;
      assert InWindow(last, startTime, endTime);
      RecordsInRangeAll(front, startTime, endTime);
      RecordsInRangeAppend(front, last, startTime, endTime);
    }
  }

  /** A patient: its id, its records and its threshold profile. */
  class Patient {
    const patientId: int
    var records: seq<PatientRecord>
    const thresholdProfile: PatientThresholdProfile

    constructor(patientId: int)
      ensures this.patientId == patientId && records == [] && fresh(thresholdProfile)
    {
      this.patientId := patientId;
      records := [];
      thresholdProfile := new PatientThresholdProfile();
    }

    method AddRecord(measurementValue: real, recordType: string, timestamp: int)
      modifies this`records
      ensures records == old(records) + [PatientRecord(patientId, measurementValue, recordType, timestamp)]
    {
      records := records + [PatientRecord(patientId, measurementValue, recordType, timestamp)];
    }

    function GetRecords(startTime: int, endTime: int): seq<PatientRecord>
      reads this
    {
      RecordsInRange(records, startTime, endTime)
    }
  }

  class DataStorage {
    var patientMap: map<int, Patient>

    /** Each entry is filed under its own patient's id, so distinct ids hold distinct patients
        and every stored patient is found under its id. */
    ghost predicate Valid()
      reads this
    {
      && (forall id :: id in patientMap ==> patientMap[id].patientId == id)
      && (forall p :: p in patientMap.Values ==> p.patientId in patientMap && patientMap[p.patientId] == p)
    }

    /** The records of every patient, by id. */
    ghost function Table(): map<int, seq<PatientRecord>>
      reads this, patientMap.Values
    {
      map id | id in patientMap :: patientMap[id].records
    }

    constructor()
      ensures Valid() && patientMap == map[]
    {
      patientMap := map[];
    }

    method AddPatientData(patientId: int, measurementValue: real, recordType: string, timestamp: int)
      requires Valid()
      modifies this, patientMap.Values
      ensures Valid()
      ensures patientMap.Keys == old(patientMap.Keys) + {patientId}
      ensures patientId !in old(patientMap) ==> fresh(patientMap[patientId])
      ensures forall id :: id in old(patientMap) ==> patientMap[id] == old(patientMap[id])
      ensures var rec := PatientRecord(patientId, measurementValue, recordType, timestamp);
              Table() == old(Table())[patientId := (if patientId in old(Table()) then old(Table())[patientId] else []) + [rec]]
    {
      ghost var oldMap := patientMap;
      var patient: Patient;
      if patientId in patientMap {
        patient := patientMap[patientId];
      } else {
        patient := new Patient(patientId);
        patientMap := patientMap[patientId := patient];
      }
      patient.AddRecord(measurementValue, recordType, timestamp);
      forall id | id in oldMap && id != patientId
        ensures patientMap[id].records == old(patientMap[id].records)
      {
        assert patientMap[id] == oldMap[id] && oldMap[id].patientId == id;
      }
    }

    function GetRecords(patientId: int, startTime: int, endTime: int): (r: seq<PatientRecord>)
      reads this, patientMap.Values
      ensures patientId !in patientMap ==> r == []
      ensures patientId in patientMap ==>
                (forall i :: 0 <= i < |r| ==> r[i] in patientMap[patientId].records && InWindow(r[i], startTime, endTime))
                && (forall rec :: rec in patientMap[patientId].records && InWindow(rec, startTime, endTime) ==> rec in r)
    {
      if patientId in patientMap then patientMap[patientId].GetRecords(startTime, endTime) else []
    }

    function GetPatientThresholdProfile(patientId: int): (r: PatientThresholdProfile?)
      reads this
      ensures r == null <==> patientId !in patientMap
      ensures r != null ==> r == patientMap[patientId].thresholdProfile
    {
      if patientId in patientMap then patientMap[patientId].thresholdProfile else null
    }

    /** A copy of the table's patients: every patient once, each filed under its own id. */
    method GetAllPatients() returns (r: seq<Patient>)
      requires Valid()
      ensures forall p :: p in r <==> p in patientMap.Values
      ensures forall i :: 0 <= i < |r| ==> r[i].patientId in patientMap && patientMap[r[i].patientId] == r[i]
      ensures Distinct(r)
    {
      r := [];
      var remaining := patientMap.Values;
      while remaining != {}
        invariant remaining <= patientMap.Values
        invariant forall p :: p in r <==> p in patientMap.Values && p !in remaining
        invariant Distinct(r)
        decreases remaining
      {
        var p :| p in remaining;
        r := r + [p];
        remaining := remaining - {p};
      }
      forall i | 0 <= i < |r|
        ensures r[i].patientId in patientMap && patientMap[r[i].patientId] == r[i]
      {
        assert r[i] in patientMap.Values;
      }
    }

    method ClearAllRecords()
      modifies this`patientMap
      ensures Valid() && patientMap == map[]
    {
      patientMap := map[];
    }

    method ClearRecords(patientId: int)
      requires Valid()
      modifies this`patientMap
      ensures Valid() && patientMap == old(patientMap) - {patientId}
    {
      patientMap := patientMap - {patientId};
    }
  }
}
