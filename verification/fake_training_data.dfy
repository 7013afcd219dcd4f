/**
 * The synthetic OBD-II training data generator: base sensor readings from
 * random draws, a fault code chosen by force or by a fixed chain of
 * threshold rules, the effect that fault has on its sensor, the OK/fault
 * verdict, and the loop that collects rows, optionally half faults and half
 * OK. Every random draw is an input, constrained to the range it is drawn
 * from.
 */
module FakeTrainingData {
  import opened Records

  /** The ten fault codes, in the order of their natural-fault rules. */
  const FaultTypes: seq<string> := [
    "coolant_overheat", "fuel_low", "rpm_spike", "speed_high", "throttle_stuck",
    "intake_temp_high", "air_flow_low", "barometric_low", "ambient_high", "fuel_rate_high"]

  const NoFault: string := "none"
  const Random: string := "random"
  const VerdictFault: string := "fault"
  const VerdictOk: string := "OK"

  /** The 20 OBD-II readings of one row, with the time it was generated. */
  datatype ObdData = ObdData(
    timestamp: string,
    engineLoad: real,
    coolantTemp: real,
    fuelPressure: real,
    intakeManifoldP: real,
    rpm: int,
    speed: real,
    timingAdvance: real,
    intakeAirTemp: real,
    airFlowRate: real,
    throttlePos: real,
    engineRunTime: int,
    fuelLevel: real,
    warmupsSinceClear: int,
    barometricP: real,
    ambientAirTemp: real,
    cmdThrottleAct: real,
    timeWithMilOn: int,
    timeSinceCodes: int,
    hybridBattLife: real,
    fuelRate: real)

  /** A generated row: the readings with their `fault_code` and `verdict` labels. */
  datatype ObdRow = ObdRow(data: ObdData, faultCode: string, verdict: string)

  /**
   * The random draws one call consumes, in source terms: Gaussian draws are
   * any real; `uniform`, `randint` and `choice` draws lie in their ranges
   * (DrawsInRange). `effectUnit` is the `random()` value in [0, 1) behind the
   * effect's `uniform(a, b) = a + (b - a) * random()`.
   */
  datatype Draws = Draws(
    timestamp: string,
    rpmGauss: real,
    speedNoise: real,
    throttleNoise: real,
    fuelLevel: real,
    coolantGauss: real,
    engineLoad: real,
    fuelPressure: real,
    intakeManifoldP: real,
    timingAdvance: real,
    intakeAirTemp: real,
    airFlowRate: real,
    engineRunTime: int,
    warmupsSinceClear: int,
    barometricP: real,
    ambientAirTemp: real,
    cmdThrottleNoise: real,
    timeWithMilOn: int,
    timeSinceCodes: int,
    hybridBattLife: real,
    fuelRate: real,
    choice: int,
    effectUnit: real,
    effectRpm: int,
    effectThrottleHigh: bool)

  predicate DrawsInRange(w: Draws)
  {
    && -5.0 <= w.speedNoise <= 5.0
    && -10.0 <= w.throttleNoise <= 10.0
    && 5.0 <= w.fuelLevel <= 100.0
    && 20.0 <= w.engineLoad <= 90.0
    && 30.0 <= w.fuelPressure <= 70.0
    && 30.0 <= w.intakeManifoldP <= 90.0
    && -5.0 <= w.timingAdvance <= 25.0
    && 15.0 <= w.intakeAirTemp <= 50.0
    && 10.0 <= w.airFlowRate <= 200.0
    && 0 <= w.engineRunTime <= 36000
    && 0 <= w.warmupsSinceClear <= 50
    && 85.0 <= w.barometricP <= 105.0
    && -5.0 <= w.ambientAirTemp <= 35.0
    && -5.0 <= w.cmdThrottleNoise <= 5.0
    && 0 <= w.timeWithMilOn <= 3600 * 2
    && 0 <= w.timeSinceCodes <= 3600 * 24 * 7
    && 50.0 <= w.hybridBattLife <= 100.0
    && 1.0 <= w.fuelRate <= 20.0
    && 0 <= w.choice < |FaultTypes|
    && 0.0 <= w.effectUnit < 1.0
    && 5600 <= w.effectRpm <= 7000
  }

  /** Python's `int(x)`: truncation toward zero. */
  function Trunc(x: real): (n: int)
    ensures x >= 0.0 ==> n as real <= x < n as real + 1.0
    ensures x < 0.0 ==> n as real - 1.0 < x <= n as real
  {
    if x >= 0.0 then x.Floor else -((-x).Floor)
  }

  function Clamp(lo: real, hi: real, x: real): (y: real)
    requires lo <= hi
    ensures lo <= y <= hi
    ensures lo <= x <= hi ==> y == x
  {
    if hi < (if lo < x then x else lo) then hi else if lo < x then x else lo
  }

  /** `uniform(a, b)` from the underlying `random()` value `u`. */
  function Uniform(a: real, b: real, u: real): (x: real)
    requires a <= b && 0.0 <= u < 1.0
    ensures a <= x <= b
  {
    MulNonNegative(b - a, u);
    MulNonNegative(b - a, 1.0 - u);
    assert (b - a) - (b - a) * u == (b - a) * (1.0 - u);
    a + (b - a) * u
  }

  lemma MulNonNegative(x: real, y: real)
    requires 0.0 <= x && 0.0 <= y
    ensures 0.0 <= x * y
  {
  }

  /** The base readings, before any fault is decided. */
  function BaseReadings(w: Draws): (d: ObdData)
    ensures 0.0 <= d.throttlePos <= 100.0
    ensures DrawsInRange(w) ==> d.fuelLevel >= 5.0
  {
    var rpm := 2500.0 + w.rpmGauss;
    var speed := rpm / 40.0 + w.speedNoise;
    var throttlePos := Clamp(0.0, 100.0, speed * 0.5 + w.throttleNoise);
    ObdData(
      w.timestamp, w.engineLoad, 95.0 + w.coolantGauss, w.fuelPressure, w.intakeManifoldP,
      Trunc(rpm), speed, w.timingAdvance, w.intakeAirTemp, w.airFlowRate, throttlePos,
      w.engineRunTime, w.fuelLevel, w.warmupsSinceClear, w.barometricP, w.ambientAirTemp,
      throttlePos + w.cmdThrottleNoise, w.timeWithMilOn, w.timeSinceCodes, w.hybridBattLife, w.fuelRate)
  }

  /** The threshold each fault code stands for. */
  predicate Condition(code: string, d: ObdData)
  {
    if code == "coolant_overheat" then d.coolantTemp > 115.0
    else if code == "fuel_low" then d.fuelLevel < 5.0
    else if code == "rpm_spike" then d.rpm > 5500
    else if code == "speed_high" then d.speed > 120.0
    else if code == "throttle_stuck" then d.throttlePos < 5.0 || d.throttlePos > 95.0
    else if code == "intake_temp_high" then d.intakeAirTemp > 45.0
    else if code == "air_flow_low" then d.airFlowRate < 20.0
    else if code == "barometric_low" then d.barometricP < 88.0
    else if code == "ambient_high" then d.ambientAirTemp > 30.0
    else if code == "fuel_rate_high" then d.fuelRate > 18.0
    else false
  }

  /** The natural-fault chain of `elif`s. */
  function NaturalFault(d: ObdData): string
  {
    if d.coolantTemp > 115.0 then "coolant_overheat"
    else if d.fuelLevel < 5.0 then "fuel_low"
    else if d.rpm > 5500 then "rpm_spike"
    else if d.speed > 120.0 then "speed_high"
    else if d.throttlePos < 5.0 || d.throttlePos > 95.0 then "throttle_stuck"
    else if d.intakeAirTemp > 45.0 then "intake_temp_high"
    else if d.airFlowRate < 20.0 then "air_flow_low"
    else if d.barometricP < 88.0 then "barometric_low"
    else if d.ambientAirTemp > 30.0 then "ambient_high"
    else if d.fuelRate > 18.0 then "fuel_rate_high"
    else NoFault
  }

  /**
   * The chain picks the first fault code, in the order of `FaultTypes`,
   * whose threshold the readings cross, and "none" exactly when they cross
   * none of them.
   */
  lemma NaturalFaultIsFirstMatch(d: ObdData)
    ensures NaturalFault(d) == NoFault <==> forall i :: 0 <= i < |FaultTypes| ==> !Condition(FaultTypes[i], d)
    ensures forall i :: 0 <= i < |FaultTypes| && NaturalFault(d) == FaultTypes[i] ==>
      Condition(FaultTypes[i], d) && forall j :: 0 <= j < i ==> !Condition(FaultTypes[j], d)
  {
    forall i | 0 <= i < |FaultTypes| && NaturalFault(d) == NoFault
      ensures !Condition(FaultTypes[i], d)
    {
      FaultTypesIndex(i);
    }
    if forall i :: 0 <= i < |FaultTypes| ==> !Condition(FaultTypes[i], d) {
      assert !Condition(FaultTypes[0], d) && !Condition(FaultTypes[1], d) && !Condition(FaultTypes[2], d);
      assert !Condition(FaultTypes[3], d) && !Condition(FaultTypes[4], d) && !Condition(FaultTypes[5], d);
      assert !Condition(FaultTypes[6], d) && !Condition(FaultTypes[7], d) && !Condition(FaultTypes[8], d);
      assert !Condition(FaultTypes[9], d);
    }
    forall i | 0 <= i < |FaultTypes| && NaturalFault(d) == FaultTypes[i]
      ensures Condition(FaultTypes[i], d) && forall j :: 0 <= j < i ==> !Condition(FaultTypes[j], d)
    {
      FaultTypesIndex(i);
      forall j | 0 <= j < i
        ensures !Condition(FaultTypes[j], d)
      {
        FaultTypesIndex(j);
      }
    }
  }

  lemma FaultTypesIndex(i: int)
    requires 0 <= i < |FaultTypes|
    ensures i == 0 || i == 1 || i == 2 || i == 3 || i == 4 || i == 5 || i == 6 || i == 7 || i == 8 || i == 9
  {
  }

  /**
   * With the base fuel level drawn from [5, 100], the `fuel_low` rule never
   * fires on its own: that code only appears when it is forced or picked at
   * random.
   */
  lemma NaturalFaultNeverFuelLow(w: Draws)
    requires DrawsInRange(w)
    ensures NaturalFault(BaseReadings(w)) != "fuel_low"
  {
  }

  /**
   * `d` with the readings that the effect of `code` overwrites taken from
   * `src`: the coolant temperature for "coolant_overheat", both throttle
   * readings for "throttle_stuck", and so on; none for any other code.
   */
  function WithEffectFields(code: string, d: ObdData, src: ObdData): ObdData
  {
    if code == "coolant_overheat" then d.(coolantTemp := src.coolantTemp)
    else if code == "fuel_low" then d.(fuelLevel := src.fuelLevel)
    else if code == "rpm_spike" then d.(rpm := src.rpm)
    else if code == "speed_high" then d.(speed := src.speed)
    else if code == "throttle_stuck" then d.(throttlePos := src.throttlePos, cmdThrottleAct := src.cmdThrottleAct)
    else if code == "intake_temp_high" then d.(intakeAirTemp := src.intakeAirTemp)
    else if code == "air_flow_low" then d.(airFlowRate := src.airFlowRate)
    else if code == "barometric_low" then d.(barometricP := src.barometricP)
    else if code == "ambient_high" then d.(ambientAirTemp := src.ambientAirTemp)
    else if code == "fuel_rate_high" then d.(fuelRate := src.fuelRate)
    else d
  }

  /** `d'` differs from `d` at most in the readings the effect of `code` overwrites. */
  predicate ChangesOnlyEffectFields(code: string, d: ObdData, d': ObdData)
  {
    d' == WithEffectFields(code, d, d')
  }

  /**
   * The fault effects: the reading behind the fault code is redrawn from a
   * range well past its threshold (and the commanded throttle follows a
   * stuck throttle); nothing else changes, and "none" changes nothing.
   */
  method ApplyFaultEffect(data: ObdData, faultCode: string, w: Draws) returns (data': ObdData)
    requires 0.0 <= w.effectUnit < 1.0 && 5600 <= w.effectRpm <= 7000
    ensures faultCode in FaultTypes ==> Condition(faultCode, data')
    ensures ChangesOnlyEffectFields(faultCode, data, data')
    ensures faultCode == "throttle_stuck" ==> data'.cmdThrottleAct == data'.throttlePos
  {
    data' := data;
    var u := w.effectUnit;
    if faultCode == "coolant_overheat" {
      data' := data'.(coolantTemp := Uniform(120.0, 140.0, u));
    } else if faultCode == "fuel_low" {
      data' := data'.(fuelLevel := Uniform(0.0, 4.0, u));
    } else if faultCode == "rpm_spike" {
      data' := data'.(rpm := w.effectRpm);
    } else if faultCode == "speed_high" {
      data' := data'.(speed := Uniform(125.0, 180.0, u));
    } else if faultCode == "throttle_stuck" {
      data' := data'.(throttlePos := if w.effectThrottleHigh then 100.0 else 0.0);
      data' := data'.(cmdThrottleAct := data'.throttlePos);
    } else if faultCode == "intake_temp_high" {
      data' := data'.(intakeAirTemp := Uniform(50.0, 70.0, u));
    } else if faultCode == "air_flow_low" {
      data' := data'.(airFlowRate := Uniform(0.0, 10.0, u));
    } else if faultCode == "barometric_low" {
      data' := data'.(barometricP := Uniform(60.0, 87.0, u));
    } else if faultCode == "ambient_high" {
      data' := data'.(ambientAirTemp := Uniform(35.0, 50.0, u));
    } else if faultCode == "fuel_rate_high" {
      data' := data'.(fuelRate := Uniform(20.0, 50.0, u));
    }
  }

  /**
   * `generate_fake_obd_data`: a forced fault code is kept, "random" picks one
   * of the ten, and otherwise the natural chain decides; the code's effect
   * is applied and the row is labelled.
   */
  method GenerateFakeObdData(forceFault: Option<string>, w: Draws) returns (row: ObdRow)
    requires DrawsInRange(w)
    ensures forceFault.Some? && forceFault.value in FaultTypes ==> row.faultCode == forceFault.value
    ensures forceFault == Some(Random) ==> row.faultCode == FaultTypes[w.choice]
    ensures (forceFault.None? || (forceFault.value !in FaultTypes && forceFault.value != Random)) ==>
              row.faultCode == NaturalFault(BaseReadings(w))
    ensures row.faultCode in FaultTypes || row.faultCode == NoFault
    ensures row.faultCode in FaultTypes ==> Condition(row.faultCode, row.data)
    ensures ChangesOnlyEffectFields(row.faultCode, BaseReadings(w), row.data)
    ensures row.verdict == (if row.faultCode != NoFault then VerdictFault else VerdictOk)
  {
    var data := BaseReadings(w);
    var faultCode: string;
    if forceFault.Some? && forceFault.value in FaultTypes {
      faultCode := forceFault.value;
    } else if forceFault == Some(Random) {
      faultCode := FaultTypes[w.choice];
    } else {
      faultCode := NaturalFault(data);
    }
    data := ApplyFaultEffect(data, faultCode, w);
    var verdict := if faultCode != NoFault then VerdictFault else VerdictOk;
    row := ObdRow(data, faultCode, verdict);
  }

  /** How many of `rows` carry the verdict `v`. */
  function CountVerdict(rows: seq<ObdRow>, v: string): nat
  {
    if rows == [] then 0
    else CountVerdict(rows[..|rows| - 1], v) + (if rows[|rows| - 1].verdict == v then 1 else 0)
  }

  lemma CountVerdictAppend(rows: seq<ObdRow>, row: ObdRow, v: string)
    ensures CountVerdict(rows + [row], v) == CountVerdict(rows, v) + (if row.verdict == v then 1 else 0)
  {
    assert (rows + [row])[..|rows|] == rows;
  }

  /** Every row is labelled "fault" or "OK"; the counts of the two add up to the number of rows. */
  lemma {:induction false} CountVerdictTotal(rows: seq<ObdRow>)
    requires forall i :: 0 <= i < |rows| ==> rows[i].verdict in {VerdictFault, VerdictOk}
    ensures CountVerdict(rows, VerdictOk) + CountVerdict(rows, VerdictFault) == |rows|
    decreases |rows|
  {
    if rows != [] {
      CountVerdictTotal(rows[..|rows| - 1]);
    }
  }

  /**
   * One pass of the row loop's body: a row is generated ("random" when a
   * fault is wanted in balanced mode, the natural chain otherwise) and kept
   * unless balanced mode wants the other verdict, in which case the loop
   * `continue`s. A row forced at random is always a fault, so it is always kept.
   */
  method DrawRow(balanceLabels: bool, wantFault: bool, w: Draws) returns (row: ObdRow, keep: bool)
    requires DrawsInRange(w)
    ensures row.verdict == (if row.faultCode != NoFault then VerdictFault else VerdictOk)
    ensures keep <==> !balanceLabels || (row.verdict == VerdictFault) == wantFault
    ensures balanceLabels && wantFault ==> keep
  {
    if balanceLabels {
      row := GenerateFakeObdData(if wantFault then Some(Random) else None, w);
      keep := true;
      if wantFault && row.verdict == VerdictOk {
        keep := false;
      }
      if !wantFault && row.verdict == VerdictFault {
        keep := false;
      }
    } else {
      row := GenerateFakeObdData(None, w);
      keep := true;
    }
  }

  /** `rows.append(row)` and `counts[row["verdict"]] += 1`. */
  method AppendRow(rows: seq<ObdRow>, counts: map<string, nat>, row: ObdRow)
    returns (rows': seq<ObdRow>, counts': map<string, nat>)
    requires row.verdict in {VerdictFault, VerdictOk}
    requires counts == map[VerdictOk := CountVerdict(rows, VerdictOk), VerdictFault := CountVerdict(rows, VerdictFault)]
    ensures rows' == rows + [row]
    ensures counts' == map[VerdictOk := CountVerdict(rows', VerdictOk), VerdictFault := CountVerdict(rows', VerdictFault)]
  {
    CountVerdictAppend(rows, row, VerdictOk);
    CountVerdictAppend(rows, row, VerdictFault);
    rows' := rows + [row];
    counts' := counts[row.verdict := counts[row.verdict] + 1];
  }

  /**
   * The row loop of `save_fake_data_csv` over a finite supply of draws (one
   * per call of the generator; the loop also stops when the supply runs
   * out). In balanced mode the first `n // 2` rows are faults and the rest
   * are OK, rejected rows being drawn again; `counts` tallies the verdicts.
   */
  method SaveFakeData(n: int, balanceLabels: bool, attempts: seq<Draws>)
    returns (rows: seq<ObdRow>, counts: map<string, nat>, used: nat)
    requires forall j :: 0 <= j < |attempts| ==> DrawsInRange(attempts[j])
    ensures used <= |attempts| && |rows| <= used
    ensures |rows| <= n || rows == []
    ensures |rows| < n ==> used == |attempts|
    ensures forall i :: 0 <= i < |rows| ==> rows[i].verdict == (if rows[i].faultCode != NoFault then VerdictFault else VerdictOk)
    ensures balanceLabels ==> forall i :: 0 <= i < |rows| ==> rows[i].verdict == (if i < n / 2 then VerdictFault else VerdictOk)
    ensures balanceLabels && |rows| < n / 2 ==> |rows| == used
    ensures counts == map[VerdictOk := CountVerdict(rows, VerdictOk), VerdictFault := CountVerdict(rows, VerdictFault)]
    ensures counts[VerdictOk] + counts[VerdictFault] == |rows|
  {
    rows, counts := [], map[VerdictOk := 0, VerdictFault := 0];
    var half := n / 2;
    used := 0;
    while |rows| < n && used < |attempts|
      invariant used <= |attempts| && |rows| <= used
      invariant |rows| <= n || rows == []
      invariant forall i :: 0 <= i < |rows| ==> rows[i].verdict == (if rows[i].faultCode != NoFault then VerdictFault else VerdictOk)
      invariant balanceLabels ==> forall i :: 0 <= i < |rows| ==> rows[i].verdict == (if i < half then VerdictFault else VerdictOk)
      invariant balanceLabels && |rows| < half ==> |rows| == used
      invariant counts == map[VerdictOk := CountVerdict(rows, VerdictOk), VerdictFault := CountVerdict(rows, VerdictFault)]
    {
      var row, keep := DrawRow(balanceLabels, |rows| < half, attempts[used]);
      used := used + 1;
      if keep {
        rows, counts := AppendRow(rows, counts, row);
      }
    }
    CountVerdictTotal(rows);
  }
}
