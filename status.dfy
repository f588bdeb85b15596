/** The status classifier of a cell reading (app2.py, check_cell_status):
    threshold rules for voltage, current and temperature that yield a
    severity and an ordered list of alerts. */
module Status {
  import opened Chemistry
  import opened CellKeys
  import opened Telemetry

  /** Severity, ordered Good < Warning < Critical. */
  datatype Level = Good | Warning | Critical

  function Rank(l: Level): nat {
    match l
    case Good => 0
    case Warning => 1
    case Critical => 2
  }

  function MaxLevel(a: Level, b: Level): Level {
    if Rank(a) >= Rank(b) then a else b
  }

  /** One alert, carrying the values the source's message quotes. */
  datatype Alert =
    | VoltageLow(voltage: real, minVoltage: real)
    | VoltageHigh(voltage: real, maxVoltage: real)
    | CurrentHigh(absCurrent: real, maxCurrent: real)
    | TemperatureHigh(temp: real)
    | TemperatureElevated(temp: real)
    | TemperatureLow(temp: real)

  /** The dimension an alert reports on: 0 voltage, 1 current, 2 temperature. */
  function Dimension(a: Alert): nat {
    match a
    case VoltageLow(_, _) => 0
    case VoltageHigh(_, _) => 0
    case CurrentHigh(_, _) => 1
    case _ => 2
  }

  /** Alerts come voltage first, then current, then temperature, with at
      most one alert per dimension. */
  predicate OrderedByDimension(alerts: seq<Alert>) {
    forall i, j :: 0 <= i < j < |alerts| ==> Dimension(alerts[i]) < Dimension(alerts[j])
  }

  /** Temperature thresholds in degrees Celsius. */
  const TempCriticalAbove: real := 45.0
  const TempWarningAbove: real := 40.0
  const TempWarningBelow: real := 0.0

  /** The alert `a` is one the rules raise for `cell` under `specs`. */
  predicate Fires(a: Alert, cell: CellReading, specs: ChemistrySpec) {
    match a
    case VoltageLow(v, m) => v == cell.voltage && m == specs.minVoltage && v < m
    case VoltageHigh(v, m) => v == cell.voltage && m == specs.maxVoltage && v > m
    case CurrentHigh(c, m) => c == Abs(cell.current) && m == specs.maxCurrent && c > m
    case TemperatureHigh(t) => t == cell.temp && t > TempCriticalAbove
    case TemperatureElevated(t) => t == cell.temp && TempWarningAbove < t <= TempCriticalAbove
    case TemperatureLow(t) => t == cell.temp && t < TempWarningBelow
  }

  /** A verdict: the severity and the alerts in the order raised. */
  datatype Assessment = Assessment(status: Level, alerts: seq<Alert>)

  function VoltageCheck(cell: CellReading, specs: ChemistrySpec): Assessment {
    if cell.voltage < specs.minVoltage then Assessment(Critical, [VoltageLow(cell.voltage, specs.minVoltage)])
    else if cell.voltage > specs.maxVoltage then Assessment(Critical, [VoltageHigh(cell.voltage, specs.maxVoltage)])
    else Assessment(Good, [])
  }

  function CurrentCheck(cell: CellReading, specs: ChemistrySpec): Assessment {
    if Abs(cell.current) > specs.maxCurrent then Assessment(Warning, [CurrentHigh(Abs(cell.current), specs.maxCurrent)])
    else Assessment(Good, [])
  }

  function TemperatureCheck(cell: CellReading): Assessment {
    if cell.temp > TempCriticalAbove then Assessment(Critical, [TemperatureHigh(cell.temp)])
    else if cell.temp > TempWarningAbove then Assessment(Warning, [TemperatureElevated(cell.temp)])
    else if cell.temp < TempWarningBelow then Assessment(Warning, [TemperatureLow(cell.temp)])
    else Assessment(Good, [])
  }

  /** The verdict as the maximum of the three independent per-dimension
      verdicts, with their alerts concatenated in dimension order. */
  function Classify(cell: CellReading, specs: ChemistrySpec): (r: Assessment)
    requires WellFormed(specs)
    ensures
      && (r.status == Good <==> r.alerts == [])
      && (r.status == Critical <==>
            cell.voltage < specs.minVoltage || cell.voltage > specs.maxVoltage || cell.temp > TempCriticalAbove)
      && (r.status == Warning <==>
            && specs.minVoltage <= cell.voltage <= specs.maxVoltage && cell.temp <= TempCriticalAbove
            && (Abs(cell.current) > specs.maxCurrent || cell.temp > TempWarningAbove || cell.temp < TempWarningBelow))
      && OrderedByDimension(r.alerts)
      && (forall a :: a in r.alerts ==> Fires(a, cell, specs))
      && (VoltageLow(cell.voltage, specs.minVoltage) in r.alerts <==> cell.voltage < specs.minVoltage)
      && (VoltageHigh(cell.voltage, specs.maxVoltage) in r.alerts <==> cell.voltage > specs.maxVoltage)
      && (CurrentHigh(Abs(cell.current), specs.maxCurrent) in r.alerts <==> Abs(cell.current) > specs.maxCurrent)
      && (TemperatureHigh(cell.temp) in r.alerts <==> cell.temp > TempCriticalAbove)
      && (TemperatureElevated(cell.temp) in r.alerts <==> TempWarningAbove < cell.temp <= TempCriticalAbove)
      && (TemperatureLow(cell.temp) in r.alerts <==> cell.temp < TempWarningBelow)
  {
    var v := VoltageCheck(cell, specs);
    var c := CurrentCheck(cell, specs);
    var t := TemperatureCheck(cell);
    Assessment(MaxLevel(MaxLevel(v.status, c.status), t.status), v.alerts + c.alerts + t.alerts)
  }

  /** The source's step-by-step classifier: voltage may set Critical, the
      current and the milder temperature rules lift Good to Warning and
      leave a worse status alone, a high temperature sets Critical. It
      agrees with the maximum-of-dimensions verdict. */
  method CheckCellStatus(cell: CellReading, cellType: string) returns (status: Level, alerts: seq<Alert>)
    ensures Assessment(status, alerts) == Classify(cell, GetCellSpecs(cellType))
  {
    var specs := GetCellSpecs(cellType);
    var voltage := cell.voltage;
    var current := cell.current;
    var temp := cell.temp;

    status := Good;
    alerts := [];

    if voltage < specs.minVoltage {
      status := Critical;
      alerts := alerts + [VoltageLow(voltage, specs.minVoltage)];
    } else if voltage > specs.maxVoltage {
      status := Critical;
      alerts := alerts + [VoltageHigh(voltage, specs.maxVoltage)];
    }
    ghost var v := VoltageCheck(cell, specs);
    assert status == v.status && alerts == v.alerts;

    if Abs(current) > specs.maxCurrent {
      status := if status == Good then Warning else status;
      alerts := alerts + [CurrentHigh(Abs(current), specs.maxCurrent)];
    }
    ghost var c := CurrentCheck(cell, specs);
    assert status == MaxLevel(v.status, c.status) && alerts == v.alerts + c.alerts;

    if temp > TempCriticalAbove {
      status := Critical;
      alerts := alerts + [TemperatureHigh(temp)];
    } else if temp > TempWarningAbove {
      status := if status == Good then Warning else status;
      alerts := alerts + [TemperatureElevated(temp)];
    } else if temp < TempWarningBelow {
      status := if status == Good then Warning else status;
      alerts := alerts + [TemperatureLow(temp)];
    }
    ghost var t := TemperatureCheck(cell);
    assert status == MaxLevel(MaxLevel(v.status, c.status), t.status);
    assert alerts == v.alerts + c.alerts + t.alerts;
  }

  /** Worked cases: an undervolted lfp cell is Critical with one voltage
      alert; an lfp cell drawing 150 A at nominal voltage and temperature is a
      Warning with one current alert; an lfp cell at 46 degrees is Critical. */
  lemma ClassifyExamples(now: Time)
    ensures Classify(CellReading(2.5, 0.0, 30.0, 0.0, 2.8, 3.6, now), GetCellSpecs("lfp"))
         == Assessment(Critical, [VoltageLow(2.5, 2.8)])
    ensures Classify(CellReading(3.2, 150.0, 30.0, 480.0, 2.8, 3.6, now), GetCellSpecs("lfp"))
         == Assessment(Warning, [CurrentHigh(150.0, 100.0)])
    ensures Classify(CellReading(3.2, 0.0, 46.0, 0.0, 2.8, 3.6, now), GetCellSpecs("lfp")).status == Critical
  {
  }

  /** A freshly seeded cell at ambient temperature raises no alert. */
  lemma SeededCellIsGood(cellType: string, temp: real, now: Time)
    requires 25.0 <= temp <= 35.0
    ensures Classify(SeedReading(cellType, temp, now), GetCellSpecs(cellType)) == Assessment(Good, [])
  {
  }

  /** After a simulation step the voltage is inside its window and the
      temperature is not below zero, so the only alerts left are a high
      current and a hot cell, and the cell is Critical exactly when it is
      hotter than 45 degrees. */
  lemma SimulatedCellAlerts(cellKey: string, base: CellReading, noise: Noise, now: Time)
    requires WellFormedKey(cellKey)
    requires NoiseInBounds(noise)
    ensures var r := SimulateRealTimeData(cellKey, base, noise, now);
            var a := Classify(r, GetCellSpecs(ChemistryOf(cellKey).value));
      && (forall x :: x in a.alerts ==> x.CurrentHigh? || x.TemperatureHigh? || x.TemperatureElevated?)
      && (a.status == Critical <==> r.temp > TempCriticalAbove)
  {
  }
}
