/** ECG factory: each valid ECG reading is written, as an absolute value, into a ring of ten
    slots; once no slot holds zero, a reading more than 1.5 times the ring's average is an
    anomaly. The ring includes the reading just written. */
module EcgAlertFactory {
  import opened Wrappers
  import opened Records
  import opened Num
  import AlertFactory

  const WindowSize: nat := 10
  const AnomalyMultiplier: real := 1.5

  /** Every slot holds a reading (an empty slot is 0.0). */
  predicate EnoughReadings(buf: seq<real>)
  {
    forall i :: 0 <= i < |buf| ==> buf[i] != 0.0
  }

  function Average(buf: seq<real>): real
  {
    Sum(buf) / WindowSize as real
  }

  predicate IsAnomaly(buf: seq<real>, value: real)
  {
    EnoughReadings(buf) && Abs(value) > Average(buf) * AnomalyMultiplier && Average(buf) > 0.0
  }

  function AnomalyAlert(patientId: int, vitals: Vitals, timestamp: int, buf: seq<real>): Alert
  {
    var average := Average(buf);
    Alert(patientId, vitals, timestamp, "ECGAnomaly",
          Formatted("Abnormal ECG reading detected: %.2f (average: %.2f, threshold: %.2f)",
                    [RealArg(vitals.value), RealArg(average), RealArg(average * AnomalyMultiplier)]))
  }

  /** The factory's state as a value: the ring and the next slot to write. */
  datatype EcgState = EcgState(readings: seq<real>, index: nat)

  predicate ValidState(s: EcgState)
  {
    |s.readings| == WindowSize && s.index < WindowSize
  }

  const Initial := EcgState(seq(WindowSize, _ => 0.0), 0)

  /** One `createAlert` call on a state: the new state and what the call returns. */
  function Step(s: EcgState, patientId: int, vitals: Option<Vitals>, timestamp: int)
    : (out: (EcgState, Result<Option<Alert>>))
    requires ValidState(s)
    ensures ValidState(out.0)
    ensures out.1.Err? ==> out.0 == s
    ensures vitals.None? ==> out.1 == Err(IllegalArgument(AlertFactory.NullVitalsMessage))
    ensures vitals.Some? && timestamp <= 0 ==> out.1 == Err(IllegalArgument(AlertFactory.NonPositiveTimestampMessage))
    ensures vitals.Some? && timestamp > 0 && vitals.value.vitalType != "ECG"
            ==> out.1 == Err(IllegalArgument("Invalid vital type for ECG alert: " + vitals.value.vitalType))
    ensures out.1.Ok? <==> vitals.Some? && timestamp > 0 && vitals.value.vitalType == "ECG"
    ensures out.1.Ok? ==> out.0.readings == s.readings[s.index := Abs(vitals.value.value)]
                          && out.0.index == (s.index + 1) % WindowSize
    ensures out.1.Ok? ==> (out.1.value.Some? <==> IsAnomaly(out.0.readings, vitals.value.value))
    ensures out.1.Ok? && out.1.value.Some? ==>
              out.1.value.value.alertType == "ECGAnomaly" && out.1.value.value.patientId == patientId
              && out.1.value.value.vitals == vitals.value && out.1.value.value.timestamp == timestamp
  {
    var check := AlertFactory.ValidateParameters(patientId, vitals, timestamp);
    if check.Err? then (s, Err(check.error))
    else if vitals.value.vitalType != "ECG" then
      (s, Err(IllegalArgument("Invalid vital type for ECG alert: " + vitals.value.vitalType)))
    else
      var v := vitals.value;
      var next := Written(s, Abs(v.value));
      (next, Ok(Verdict(patientId, v, timestamp, next.readings)))
  }

  /** The state after writing `x` into the current slot and moving to the next one. */
  function Written(s: EcgState, x: real): (t: EcgState)
    requires ValidState(s)
    ensures ValidState(t)
  {
    EcgState(s.readings[s.index := x], (s.index + 1) % WindowSize)
  }

  /** What a valid call returns once the ring holds `buf`. */
  function Verdict(patientId: int, v: Vitals, timestamp: int, buf: seq<real>): Option<Alert>
  {
    if IsAnomaly(buf, v.value) then Some(AnomalyAlert(patientId, v, timestamp, buf)) else None
  }

  datatype EcgCall = EcgCall(patientId: int, vitals: Option<Vitals>, timestamp: int)

  /** A series of calls from a state: the final state and every call's result, in order. */
  function Replay(s: EcgState, calls: seq<EcgCall>): (out: (EcgState, seq<Result<Option<Alert>>>))
    requires ValidState(s)
    ensures ValidState(out.0)
    ensures |out.1| == |calls|
    decreases |calls|
  {
    if calls == [] then (s, [])
    else
      var first := Step(s, calls[0].patientId, calls[0].vitals, calls[0].timestamp);
      var rest := Replay(first.0, calls[1..]);
      (rest.0, [first.1] + rest.1)
  }

  predicate IsAlert(r: Result<Option<Alert>>)
  {
    r.Ok? && r.value.Some?
  }

  /** The ring holds only absolute values. */
  predicate NonNegative(buf: seq<real>)
  {
    forall i :: 0 <= i < |buf| ==> buf[i] >= 0.0
  }

  /** The `average > 0` test never decides: a full ring of absolute values has a positive sum. */
  lemma {:induction false} FullRingHasPositiveAverage(buf: seq<real>)
    requires |buf| == WindowSize && NonNegative(buf) && EnoughReadings(buf)
    ensures Average(buf) > 0.0
  {
    var zeros := buf[0 := 0.0];
    SumNonNegative(zeros);
    SumUpdate(zeros, 0, buf[0]);
    assert zeros[0 := buf[0]] == buf;
  }

  lemma {:induction false} ReplayKeepsNonNegative(s: EcgState, calls: seq<EcgCall>)
    requires ValidState(s) && NonNegative(s.readings)
    ensures NonNegative(Replay(s, calls).0.readings)
    decreases |calls|
  {
    if calls != [] {
      ReplayKeepsNonNegative(Step(s, calls[0].patientId, calls[0].vitals, calls[0].timestamp).0, calls[1..]);
    }
  }

  /** In every state a new factory can reach, a full ring has a positive average. */
  lemma ReachableFullRingHasPositiveAverage(calls: seq<EcgCall>)
    requires EnoughReadings(Replay(Initial, calls).0.readings)
    ensures Average(Replay(Initial, calls).0.readings) > 0.0
  {
    ReplayKeepsNonNegative(Initial, calls);
    FullRingHasPositiveAverage(Replay(Initial, calls).0.readings);
  }

  /** Slots from `index` on have never been written. */
  predicate UnwrittenTail(s: EcgState)
  {
    forall j :: s.index <= j < |s.readings| ==> s.readings[j] == 0.0
  }

  lemma {:induction false} NoAlertBeforeRingFills(s: EcgState, calls: seq<EcgCall>)
    requires ValidState(s) && UnwrittenTail(s)
    requires s.index + |calls| < WindowSize
    ensures forall i :: 0 <= i < |calls| ==> !IsAlert(Replay(s, calls).1[i])
    decreases |calls|
  {
    if calls != [] {
      var first := Step(s, calls[0].patientId, calls[0].vitals, calls[0].timestamp);
      if first.1.Ok? {
        assert first.0.readings[WindowSize - 1] == 0.0;
      }
      NoAlertBeforeRingFills(first.0, calls[1..]);
      var out := Replay(s, calls);
      forall i | 0 <= i < |calls|
        ensures !IsAlert(out.1[i])
      {
        if i > 0 {
          assert out.1[i] == Replay(first.0, calls[1..]).1[i - 1];
        }
      }
    }
  }

  /** However they go, the first nine calls on a new factory report no anomaly. */
  lemma FirstNineCallsNeverAlert(calls: seq<EcgCall>)
    requires |calls| <= 9
    ensures forall i :: 0 <= i < |calls| ==> !IsAlert(Replay(Initial, calls).1[i])
  {
    NoAlertBeforeRingFills(Initial, calls);
  }

  function Ones(n: nat, timestamp: int): seq<EcgCall>
  {
    seq(n, _ => EcgCall(1, Some(Vitals("ECG", 1.0)), timestamp))
  }

  /** The ring after n readings of 1.0 on a new factory. */
  function OnesRing(n: nat): EcgState
    requires n <= WindowSize
  {
    EcgState(seq(n, _ => 1.0) + seq(WindowSize - n, _ => 0.0), n % WindowSize)
  }

  lemma OnesSnoc(n: nat, timestamp: int)
    requires n > 0
    ensures Ones(n, timestamp) == Ones(n - 1, timestamp) + [EcgCall(1, Some(Vitals("ECG", 1.0)), timestamp)]
  {
  }

  lemma OneMoreOne(n: nat, timestamp: int)
    requires 0 < n <= WindowSize && timestamp > 0
    ensures Step(OnesRing(n - 1), 1, Some(Vitals("ECG", 1.0)), timestamp).0 == OnesRing(n)
  {
    var before := OnesRing(n - 1);
    assert Step(before, 1, Some(Vitals("ECG", 1.0)), timestamp).0 == Written(before, 1.0);
    assert forall i :: 0 <= i < WindowSize ==> before.readings[n - 1 := 1.0][i] == OnesRing(n).readings[i];
  }

  lemma {:induction false} OnesFillRing(n: nat, timestamp: int)
    requires n <= WindowSize && timestamp > 0
    ensures Replay(Initial, Ones(n, timestamp)).0 == OnesRing(n)
  {
    if n == 0 {
      assert Ones(0, timestamp) == [];
      assert OnesRing(0).readings == Initial.readings;
    } else {
      OnesSnoc(n, timestamp);
      OnesFillRing(n - 1, timestamp);
      ReplaySnoc(Initial, Ones(n - 1, timestamp), EcgCall(1, Some(Vitals("ECG", 1.0)), timestamp));
      OneMoreOne(n, timestamp);
    }
  }

  lemma {:induction false} ReplaySnoc(s: EcgState, calls: seq<EcgCall>, last: EcgCall)
    requires ValidState(s)
    ensures Replay(s, calls + [last]).0
            == Step(Replay(s, calls).0, last.patientId, last.vitals, last.timestamp).0
    ensures Replay(s, calls + [last]).1
            == Replay(s, calls).1 + [Step(Replay(s, calls).0, last.patientId, last.vitals, last.timestamp).1]
    decreases |calls|
  {
    if calls != [] {
      var first := Step(s, calls[0].patientId, calls[0].vitals, calls[0].timestamp);
      assert (calls + [last])[1..] == calls[1..] + [last];
      ReplaySnoc(first.0, calls[1..], last);
    }
  }

  /** Ten readings of 1.0 and then one of 2.5: the ring averages 1.15, so 2.5 is an anomaly. */
  lemma TenOnesThenSpike(timestamp: int)
    requires timestamp > 0
    ensures IsAlert(Replay(Initial, Ones(10, timestamp) + [EcgCall(1, Some(Vitals("ECG", 2.5)), timestamp)]).1[10])
  {
    var spike := EcgCall(1, Some(Vitals("ECG", 2.5)), timestamp);
    OnesFillRing(10, timestamp);
    ReplaySnoc(Initial, Ones(10, timestamp), spike);
    var full := Replay(Initial, Ones(10, timestamp)).0;
    assert full.readings == seq(10, _ => 1.0);
    var buf := full.readings[0 := 2.5];
    SumConstant(10, 1.0);
    SumUpdate(full.readings, 0, 2.5);
    assert Sum(buf) == 11.5;
    assert EnoughReadings(buf);
  }

  class ECGAlertFactory {
    const recentReadings: array<real>
    var currentIndex: nat

    ghost predicate Valid()
      reads this
    {
      recentReadings.Length == WindowSize && currentIndex < WindowSize
    }

    function State(): EcgState
      reads this, recentReadings
    {
      EcgState(recentReadings[..], currentIndex)
    }

    constructor()
      ensures Valid() && fresh(recentReadings)
      ensures State() == Initial
    {
      recentReadings := new real[WindowSize](_ => 0.0);
      currentIndex := 0;
    }

    method HasEnoughReadings() returns (b: bool)
      requires Valid()
      ensures b == EnoughReadings(recentReadings[..])
    {
      var i := 0;
      while i < recentReadings.Length
        invariant 0 <= i <= recentReadings.Length
        invariant forall j :: 0 <= j < i ==> recentReadings[j] != 0.0
      {
        if recentReadings[i] == 0.0 {
          return false;
        }
        i := i + 1;
      }
      return true;
    }

    method CalculateAverage() returns (average: real)
      requires Valid()
      ensures average == Average(recentReadings[..])
    {
      var sum := 0.0;
      var i := 0;
      while i < recentReadings.Length
        invariant 0 <= i <= recentReadings.Length
        invariant sum == Sum(recentReadings[..i])
      {
        assert recentReadings[..i + 1][..i] == recentReadings[..i];
        sum := sum + recentReadings[i];
        i := i + 1;
      }
      assert recentReadings[..i] == recentReadings[..];
      return sum / WindowSize as real;
    }

    method CreateAlert(patientId: int, vitals: Option<Vitals>, timestamp: int) returns (r: Result<Option<Alert>>)
      requires Valid()
      modifies this`currentIndex, recentReadings
      ensures Valid()
      ensures (State(), r) == Step(old(State()), patientId, vitals, timestamp)
    {
      var check := AlertFactory.ValidateParameters(patientId, vitals, timestamp);
      if check.Err? {
        return Err(check.error);
      }
      var v := vitals.value;
      if v.vitalType != "ECG" {
        return Err(IllegalArgument("Invalid vital type for ECG alert: " + v.vitalType));
      }
      ghost var before := State();
      recentReadings[currentIndex] := Abs(v.value);
      currentIndex := (currentIndex + 1) % WindowSize;
      assert State() == Written(before, Abs(v.value));
      var enough := HasEnoughReadings();
      if enough {
        var average := CalculateAverage();
        if Abs(v.value) > average * AnomalyMultiplier && average > 0.0 {
          return Ok(Some(AnomalyAlert(patientId, v, timestamp, recentReadings[..])));
        }
      }
      return Ok(None);
    }
  }
}
