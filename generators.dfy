/** The simulators' per-patient state: last blood-pressure and saturation values, clamped to
    fixed ranges, and a triggered/resolved alert flag. Random draws and the clock are
    parameters; a draw lies in the range `Random` guarantees for the call the source makes. */
module Generators {
  import opened Wrappers
  import opened Num
  import opened Text
  import opened Outputs

  const PatientCountMessage := "Patient count must be positive"

  class BloodPressureDataGenerator {
    const patientCount: int
    const lastSystolicValues: array<int>
    const lastDiastolicValues: array<int>

    /** Slots 1..patientCount belong to patients (slot 0 is unused). */
    ghost predicate Valid()
      reads this
    {
      && patientCount > 0
      && lastSystolicValues.Length == patientCount + 1
      && lastDiastolicValues.Length == patientCount + 1
      && lastSystolicValues != lastDiastolicValues
    }

    /** Every patient's values lie in the generator's ranges. */
    ghost predicate InRanges()
      requires Valid()
      reads this, lastSystolicValues, lastDiastolicValues
    {
      forall i :: 1 <= i <= patientCount ==>
        90 <= lastSystolicValues[i] <= 180 && 60 <= lastDiastolicValues[i] <= 120
    }

    /** `systolicDraws[i - 1]` and `diastolicDraws[i - 1]` are patient i's `nextInt(20)` and `nextInt(15)`. */
    constructor(patientCount: int, systolicDraws: seq<int>, diastolicDraws: seq<int>)
      requires patientCount > 0
      requires patientCount <= |systolicDraws| && patientCount <= |diastolicDraws|
      requires forall i :: 0 <= i < |systolicDraws| ==> 0 <= systolicDraws[i] < 20
      requires forall i :: 0 <= i < |diastolicDraws| ==> 0 <= diastolicDraws[i] < 15
      ensures Valid() && InRanges()
      ensures this.patientCount == patientCount
      ensures fresh(lastSystolicValues) && fresh(lastDiastolicValues)
      ensures forall i :: 1 <= i <= patientCount ==>
                lastSystolicValues[i] == 110 + systolicDraws[i - 1]
                && lastDiastolicValues[i] == 70 + diastolicDraws[i - 1]
    {
      var systolic := new int[patientCount + 1](_ => 0);
      var diastolic := new int[patientCount + 1](_ => 0);
      var i := 1;
      while i <= patientCount
        invariant 1 <= i <= patientCount + 1
        invariant forall j :: 1 <= j < i ==>
                    systolic[j] == 110 + systolicDraws[j - 1] && diastolic[j] == 70 + diastolicDraws[j - 1]
      {
        systolic[i] := 110 + systolicDraws[i - 1];
        diastolic[i] := 70 + diastolicDraws[i - 1];
        i := i + 1;
      }
      this.patientCount := patientCount;
      lastSystolicValues := systolic;
      lastDiastolicValues := diastolic;
    }

    static method Create(patientCount: int, systolicDraws: seq<int>, diastolicDraws: seq<int>)
      returns (r: Result<BloodPressureDataGenerator>)
      requires patientCount <= |systolicDraws| && patientCount <= |diastolicDraws|
      requires forall i :: 0 <= i < |systolicDraws| ==> 0 <= systolicDraws[i] < 20
      requires forall i :: 0 <= i < |diastolicDraws| ==> 0 <= diastolicDraws[i] < 15
      ensures r.Ok? <==> patientCount > 0
      ensures r.Err? ==> r.error == IllegalArgument(PatientCountMessage)
      ensures r.Ok? ==> fresh(r.value) && r.value.Valid() && r.value.InRanges() && r.value.patientCount == patientCount
    {
      if patientCount <= 0 {
        return Err(IllegalArgument(PatientCountMessage));
      }
      var g := new BloodPressureDataGenerator(patientCount, systolicDraws, diastolicDraws);
      return Ok(g);
    }

    /** `systolicDraw` and `diastolicDraw` are the two `nextInt(5)` calls; both outputs carry
        the same clock reading `now`. */
    method Generate(patientId: int, systolicDraw: int, diastolicDraw: int, now: int, out: OutputLog)
      requires Valid()
      requires 0 <= systolicDraw < 5 && 0 <= diastolicDraw < 5
      modifies lastSystolicValues, lastDiastolicValues, out`entries
      ensures InRanges() <== old(InRanges())
      ensures !(1 <= patientId <= patientCount) ==>
                lastSystolicValues[..] == old(lastSystolicValues[..])
                && lastDiastolicValues[..] == old(lastDiastolicValues[..])
                && out.entries == old(out.entries)
      ensures 1 <= patientId <= patientCount ==>
                var s := Clamp(old(lastSystolicValues[patientId]) + systolicDraw - 2, 90, 180);
                var d := Clamp(old(lastDiastolicValues[patientId]) + diastolicDraw - 2, 60, 120);
                && lastSystolicValues[..] == old(lastSystolicValues[..])[patientId := s]
                && lastDiastolicValues[..] == old(lastDiastolicValues[..])[patientId := d]
                && out.entries == old(out.entries) + [OutputEntry(patientId, now, "SystolicPressure", NatToString(s)),
                                                      OutputEntry(patientId, now, "DiastolicPressure", NatToString(d))]
      ensures 1 <= patientId <= patientCount ==>
                && ParseNat(out.entries[|out.entries| - 2].data) == lastSystolicValues[patientId]
                && ParseNat(out.entries[|out.entries| - 1].data) == lastDiastolicValues[patientId]
    {
      if patientId <= 0 || patientId > patientCount {
        return;
      }
      var systolicVariation := systolicDraw - 2;
      var diastolicVariation := diastolicDraw - 2;
      var newSystolic := Clamp(lastSystolicValues[patientId] + systolicVariation, 90, 180);
      var newDiastolic := Clamp(lastDiastolicValues[patientId] + diastolicVariation, 60, 120);
      ghost var systolic, diastolic := lastSystolicValues[..], lastDiastolicValues[..];
      lastSystolicValues[patientId] := newSystolic;
      lastDiastolicValues[patientId] := newDiastolic;
      assert lastSystolicValues[..] == systolic[patientId := newSystolic];
      assert lastDiastolicValues[..] == diastolic[patientId := newDiastolic];
      out.Output(patientId, now, "SystolicPressure", NatToString(newSystolic));
      out.Output(patientId, now, "DiastolicPressure", NatToString(newDiastolic));
      NatToStringRoundTrip(newSystolic);
      NatToStringRoundTrip(newDiastolic);
    }
  }

  /** Double.toString of a whole number followed by "%". */
  function SaturationText(v: nat): string
  {
    NatToString(v) + ".0%"
  }

  /** The text ends with "%" and its whole part reads back as the value. */
  lemma SaturationTextRoundTrip(v: nat)
    ensures var t := SaturationText(v);
            |t| > 3 && t[|t| - 1] == '%' && t[..|t| - 3] == NatToString(v) && ParseNat(t[..|t| - 3]) == v
  {
    NatToStringRoundTrip(v);
    var t := SaturationText(v);
    assert t[..|t| - 3] == NatToString(v);
  }

  /** The new saturation of patient `patientId`, or `None` when the array access throws
      (the exception is caught, so nothing else happens). */
  function SaturationStep(values: seq<int>, patientId: int, draw: int): (r: Option<nat>)
    requires 0 <= draw < 3
    ensures r.Some? <==> 0 <= patientId < |values|
    ensures r.Some? ==> 90 <= r.value <= 100
    ensures r.Some? && 90 <= values[patientId] <= 100 ==> -1 <= r.value - values[patientId] <= 1
  {
    if 0 <= patientId < |values| then Some(Clamp(values[patientId] + draw - 1, 90, 100)) else None
  }

  class BloodSaturationDataGenerator {
    const lastSaturationValues: array<int>

    /** `draws[i - 1]` is patient i's `nextInt(6)`. */
    constructor(patientCount: int, draws: seq<int>)
      requires patientCount + 1 >= 0
      requires patientCount <= |draws|
      requires forall i :: 0 <= i < |draws| ==> 0 <= draws[i] < 6
      ensures fresh(lastSaturationValues) && lastSaturationValues.Length == patientCount + 1
      ensures forall i :: 1 <= i <= patientCount ==> lastSaturationValues[i] == 95 + draws[i - 1]
      ensures patientCount >= 0 ==> lastSaturationValues[0] == 0
    {
      var values := new int[patientCount + 1](_ => 0);
      var i := 1;
      while i <= patientCount
        invariant 1 <= i <= patientCount + 1 || (patientCount == -1 && i == 1)
        invariant forall j :: 1 <= j < i && j <= patientCount ==> values[j] == 95 + draws[j - 1]
        invariant patientCount >= 0 ==> values[0] == 0
      {
        values[i] := 95 + draws[i - 1];
        i := i + 1;
      }
      lastSaturationValues := values;
    }

    /** `draw` is the `nextInt(3)` call. */
    method Generate(patientId: int, draw: int, now: int, out: OutputLog)
      requires 0 <= draw < 3
      modifies lastSaturationValues, out`entries
      ensures SaturationStep(old(lastSaturationValues[..]), patientId, draw).None? ==>
                lastSaturationValues[..] == old(lastSaturationValues[..]) && out.entries == old(out.entries)
      ensures SaturationStep(old(lastSaturationValues[..]), patientId, draw).Some? ==>
                var v := SaturationStep(old(lastSaturationValues[..]), patientId, draw).value;
                && lastSaturationValues[..] == old(lastSaturationValues[..])[patientId := v]
                && out.entries == old(out.entries) + [OutputEntry(patientId, now, "Saturation", SaturationText(v))]
    {
      if patientId < 0 || patientId >= lastSaturationValues.Length {
        return;
      }
      var variation := draw - 1;
      var newSaturationValue := lastSaturationValues[patientId] + variation;
      newSaturationValue := Clamp(newSaturationValue, 90, 100);
      lastSaturationValues[patientId] := newSaturationValue;
      out.Output(patientId, now, "Saturation", SaturationText(newSaturationValue));
    }
  }

  /** Patient 0 is served: on a new generator its slot holds 0, which the clamp lifts to 90. */
  lemma PatientZeroServed(values: seq<int>, draw: int)
    requires |values| > 0 && values[0] == 0 && 0 <= draw < 3
    ensures SaturationStep(values, 0, draw) == Some(90)
  {
  }

  /** Only patients 1..patientCount are served, as for the blood-pressure generator. */
  function CheckedSaturationStep(values: seq<int>, patientCount: int, patientId: int, draw: int): (r: Option<nat>)
    requires |values| == patientCount + 1 && 0 <= draw < 3
    ensures r.Some? <==> 1 <= patientId <= patientCount
    ensures r.Some? ==> r == SaturationStep(values, patientId, draw)
  {
    if 1 <= patientId <= patientCount then SaturationStep(values, patientId, draw) else None
  }

  /** 1 - e^(-0.1), the chance of at least one event of a Poisson process of rate 0.1 per call. */
  const TriggerProbability: real := 0.09516258196404043
  const ResolveProbability: real := 0.9

  lemma TriggerProbabilityBounds()
    ensures 0.05 < TriggerProbability < 0.5
  {
  }

  /** The new flag and the emitted text for one call, or `None` when nothing happens (no draw
      below the threshold, or an id outside the array, which throws and is caught). */
  function AlertStep(states: seq<bool>, patientId: int, r: real): (res: Option<(bool, string)>)
    requires 0.0 <= r < 1.0
    ensures res.Some? ==> 0 <= patientId < |states| && res.value.0 != states[patientId]
    ensures res.Some? ==> res.value.1 == if res.value.0 then "triggered" else "resolved"
    ensures 0 <= patientId < |states| ==>
              (res.Some? <==> if states[patientId] then r < ResolveProbability else r < TriggerProbability)
  {
    if !(0 <= patientId < |states|) then None
    else if states[patientId] then
      if r < ResolveProbability then Some((false, "resolved")) else None
    else
      if r < TriggerProbability then Some((true, "triggered")) else None
  }

  predicate Draws(rs: seq<real>)
  {
    forall i :: 0 <= i < |rs| ==> 0.0 <= rs[i] < 1.0
  }

  /** The texts one patient emits over a series of calls. */
  function Emitted(states: seq<bool>, patientId: int, rs: seq<real>): seq<string>
    requires Draws(rs)
    decreases |rs|
  {
    if rs == [] then []
    else
      match AlertStep(states, patientId, rs[0])
      case None => Emitted(states, patientId, rs[1..])
      case Some((flag, text)) => [text] + Emitted(states[patientId := flag], patientId, rs[1..])
  }

  predicate Alternating(texts: seq<string>)
  {
    forall i :: 0 <= i < |texts| - 1 ==> texts[i] != texts[i + 1]
  }

  /** A patient's events alternate, starting with the opposite of its current state. */
  lemma {:induction false} EmittedAlternates(states: seq<bool>, patientId: int, rs: seq<real>)
    requires 0 <= patientId < |states| && Draws(rs)
    ensures Alternating(Emitted(states, patientId, rs))
    ensures Emitted(states, patientId, rs) != [] ==>
              Emitted(states, patientId, rs)[0] == if states[patientId] then "resolved" else "triggered"
    decreases |rs|
  {
    if rs != [] {
      match AlertStep(states, patientId, rs[0])
      case None =>
        EmittedAlternates(states, patientId, rs[1..]);
      case Some((flag, text)) =>
        EmittedAlternates(states[patientId := flag], patientId, rs[1..]);
    }
  }

  class AlertGenerator {
    const alertStates: array<bool>

    constructor(patientCount: int)
      requires patientCount + 1 >= 0
      ensures fresh(alertStates) && alertStates.Length == patientCount + 1
      ensures forall i :: 0 <= i < alertStates.Length ==> !alertStates[i]
    {
      alertStates := new bool[patientCount + 1](_ => false);
    }

    /** `r` is the `nextDouble()` call. */
    method Generate(patientId: int, r: real, now: int, out: OutputLog)
      requires 0.0 <= r < 1.0
      modifies alertStates, out`entries
      ensures AlertStep(old(alertStates[..]), patientId, r).None? ==>
                alertStates[..] == old(alertStates[..]) && out.entries == old(out.entries)
      ensures AlertStep(old(alertStates[..]), patientId, r).Some? ==>
                var (flag, text) := AlertStep(old(alertStates[..]), patientId, r).value;
                && alertStates[..] == old(alertStates[..])[patientId := flag]
                && out.entries == old(out.entries) + [OutputEntry(patientId, now, "Alert", text)]
    {
      if patientId < 0 || patientId >= alertStates.Length {
        return;
      }
      if alertStates[patientId] {
        if r < ResolveProbability {
          alertStates[patientId] := false;
          out.Output(patientId, now, "Alert", "resolved");
        }
      } else {
        var alertTriggered := r < TriggerProbability;
        if alertTriggered {
          alertStates[patientId] := true;
          out.Output(patientId, now, "Alert", "triggered");
        }
      }
    }
  }

  /** Patient 0 can be triggered on a new generator. */
  lemma PatientZeroCanTrigger(states: seq<bool>)
    requires |states| > 0 && !states[0]
    ensures AlertStep(states, 0, 0.05) == Some((true, "triggered"))
  {
  }

  /** Only patients 1..patientCount change state or emit. */
  function CheckedAlertStep(states: seq<bool>, patientCount: int, patientId: int, r: real): (res: Option<(bool, string)>)
    requires |states| == patientCount + 1 && 0.0 <= r < 1.0
    ensures res.Some? ==> 1 <= patientId <= patientCount && res == AlertStep(states, patientId, r)
    ensures 1 <= patientId <= patientCount ==> res == AlertStep(states, patientId, r)
  {
    if 1 <= patientId <= patientCount then AlertStep(states, patientId, r) else None
  }
}
