/** A monitored cell's reading and the two ways the dashboard changes it:
    the simulated telemetry step (app2.py, simulate_real_time_data) and the
    manual update (app2.py:234-241), plus the reading a new cell starts from
    (app2.py:183-191). */
module Telemetry {
  import opened Chemistry
  import opened CellKeys

  /** A clock reading supplied by the caller, as an integer; nothing in the
      model looks at its value. */
  type Time = int

  /** One cell's entry of the monitored set. `minVoltage` and `maxVoltage`
      are copied from the chemistry when the cell is created. */
  datatype CellReading = CellReading(
    voltage: real,
    current: real,
    temp: real,
    capacity: real,
    minVoltage: real,
    maxVoltage: real,
    timestamp: Time)

  function Abs(x: real): (r: real)
    ensures 0.0 <= r && (r == x || r == -x)
  {
    if x < 0.0 then -x else x
  }

  function Max(a: real, b: real): real { if a >= b then a else b }

  function Min(a: real, b: real): real { if a <= b then a else b }

  /** The derived field: capacity is the product of the reading's own voltage
      and the magnitude of its current. */
  predicate CapacityConsistent(r: CellReading) {
    r.capacity == r.voltage * Abs(r.current)
  }

  /** Temperature range the simulation clamps to, in degrees Celsius. */
  const MinSimTemp: real := 0.0
  const MaxSimTemp: real := 50.0

  /** Largest magnitude of each noise draw (`random.uniform(-b, b)`). */
  const VoltageNoiseBound: real := 0.05
  const TempNoiseBound: real := 1.0
  const CurrentNoiseBound: real := 2.0

  /** The three random draws of one simulation step. */
  datatype Noise = Noise(voltage: real, temp: real, current: real)

  predicate NoiseInBounds(n: Noise) {
    && -VoltageNoiseBound <= n.voltage <= VoltageNoiseBound
    && -TempNoiseBound <= n.temp <= TempNoiseBound
    && -CurrentNoiseBound <= n.current <= CurrentNoiseBound
  }

  /** The next simulated reading of the cell named `cellKey`: voltage and
      temperature perturbed and clamped, current perturbed and not clamped,
      capacity recomputed, every other field kept. */
  function SimulateRealTimeData(cellKey: string, base: CellReading, noise: Noise, now: Time): (r: CellReading)
    requires WellFormedKey(cellKey)
    requires NoiseInBounds(noise)
    ensures var specs := GetCellSpecs(ChemistryOf(cellKey).value);
      && specs.minVoltage <= r.voltage <= specs.maxVoltage
      && (specs.minVoltage <= base.voltage + noise.voltage <= specs.maxVoltage ==> r.voltage == base.voltage + noise.voltage)
      && (base.voltage + noise.voltage < specs.minVoltage ==> r.voltage == specs.minVoltage)
      && (specs.maxVoltage < base.voltage + noise.voltage ==> r.voltage == specs.maxVoltage)
    ensures MinSimTemp <= r.temp <= MaxSimTemp
    ensures MinSimTemp <= base.temp + noise.temp <= MaxSimTemp ==> r.temp == base.temp + noise.temp
    ensures base.temp + noise.temp < MinSimTemp ==> r.temp == MinSimTemp
    ensures MaxSimTemp < base.temp + noise.temp ==> r.temp == MaxSimTemp
    ensures r.current == base.current + noise.current
    ensures CapacityConsistent(r)
    ensures r.minVoltage == base.minVoltage && r.maxVoltage == base.maxVoltage
    ensures r.timestamp == now
  {
    var specs := GetCellSpecs(ChemistryOf(cellKey).value);
    var newVoltage := Max(specs.minVoltage, Min(specs.maxVoltage, base.voltage + noise.voltage));
    var newTemp := Max(MinSimTemp, Min(MaxSimTemp, base.temp + noise.temp));
    var newCurrent := base.current + noise.current;
    base.(voltage := newVoltage, temp := newTemp, current := newCurrent,
          capacity := newVoltage * Abs(newCurrent), timestamp := now)
  }

  /** A step never moves a reading further than its noise bound: a voltage
      inside its window moves by at most 0.05 V, a temperature inside the
      clamp range by at most 1 degree, the current by at most 2 A. */
  lemma SimulationStepIsBounded(cellKey: string, base: CellReading, noise: Noise, now: Time)
    requires WellFormedKey(cellKey)
    requires NoiseInBounds(noise)
    ensures var specs := GetCellSpecs(ChemistryOf(cellKey).value);
            var r := SimulateRealTimeData(cellKey, base, noise, now);
      && (specs.minVoltage <= base.voltage <= specs.maxVoltage ==> Abs(r.voltage - base.voltage) <= VoltageNoiseBound)
      && (MinSimTemp <= base.temp <= MaxSimTemp ==> Abs(r.temp - base.temp) <= TempNoiseBound)
      && Abs(r.current - base.current) <= CurrentNoiseBound
  {
  }

  /** The reading a newly monitored cell starts from: its chemistry's nominal
      voltage, no current, no capacity, and an ambient temperature. */
  function SeedReading(cellType: string, temp: real, now: Time): (r: CellReading)
    ensures r.minVoltage == GetCellSpecs(cellType).minVoltage && r.maxVoltage == GetCellSpecs(cellType).maxVoltage
    ensures r.minVoltage < r.voltage < r.maxVoltage
    ensures r.voltage == GetCellSpecs(cellType).nominalVoltage
    ensures r.current == 0.0 && CapacityConsistent(r)
    ensures r.temp == temp && r.timestamp == now
  {
    var specs := GetCellSpecs(cellType);
    CellReading(specs.nominalVoltage, 0.0, temp, 0.0, specs.minVoltage, specs.maxVoltage, now)
  }

  /** A manual update: new voltage, current and temperature as entered, the
      capacity derived from them, the stored limits untouched. */
  function ManualUpdate(base: CellReading, voltage: real, current: real, temp: real, now: Time): (r: CellReading)
    ensures CapacityConsistent(r)
    ensures r.voltage == voltage && r.current == current && r.temp == temp && r.timestamp == now
    ensures r.minVoltage == base.minVoltage && r.maxVoltage == base.maxVoltage
  {
    base.(voltage := voltage, current := current, temp := temp,
          capacity := voltage * Abs(current), timestamp := now)
  }
}
