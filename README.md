# Battery-cell telemetry model

This project is a Dafny model of the cell-telemetry core of a simulated battery-cell
monitoring dashboard (`app2.py`). The dashboard keeps a small ordered set of monitored
cells. Each cell has a voltage, a current, a temperature and a derived capacity, and the
dashboard classifies each one against its chemistry's limits. On every monitoring tick it
perturbs every reading with random noise and appends one snapshot per cell to a bounded
history log.

The model is split into these modules:

- `Chemistry` (`chemistry.dfy`): the table of four chemistries (lfp, nmc, lto, lifepo4).
  Each entry gives the nominal, minimum and maximum voltage and the maximum current.
  An unknown identifier falls back to lfp, as the code does.
- `CellKeys` (`cell_keys.dfy`): the key `cell_{n}_{type}` that names a cell.
  - Python's `str.split` with a separator, its inverse `join`, and `str(n)` for naturals.
  - The parse `key.split('_')[2]` that recovers the chemistry. Where Python would raise
    `IndexError` (fewer than three pieces), the parse returns `None`.
- `Telemetry` (`telemetry.dfy`): a cell's reading and the three ways readings are made.
  - The simulation step: voltage and temperature are clamped, the current is not.
  - The manual update.
  - The reading a seeded cell starts from.
- `Status` (`status.dfy`): the classifier. It yields a severity (Good < Warning < Critical)
  and the ordered alerts.
  - `Classify` is a reference definition: the maximum of three independent per-dimension
    verdicts.
  - `CheckCellStatus` keeps the code's step-by-step form and is proved equal to `Classify`.
- `Overview` (`overview.dfy`): the overview figures total voltage, total capacity and
  active-cell count.
- `Session` (`session.dfy`): class `MonitorSession` holds the session state.
  - `keys` is the mapping's key order, `cells` the mapping, `history` the log.
  - It has the operations seeding, manual update and tick.
  - Its invariant `Valid()`: every key occurs once and parses, every capacity is
    `voltage * |current|`, every voltage is non-negative, and the log holds at most 800
    entries.

Values are Dafny `real`. The code only compares, adds and multiplies them, so nothing here
depends on floating point. Randomness becomes parameters, whose preconditions are the bounds
of the `random.uniform` calls:

- the seed temperature lies in [25, 35];
- the voltage noise lies in ±0.05;
- the temperature noise lies in ±1.0;
- the current noise lies in ±2.0.

The clock becomes a parameter `now` of type `Time`. It is an integer supplied by the
caller, and nothing in the model looks at its value.

Facts about the code that the model keeps as written:

- The comment at app2.py:264 says "Keep only last 100 data points per cell". The cap itself
  is the constant 800 (app2.py:265): after a tick the history keeps its newest 800 entries,
  however many cells are monitored. The model keeps the constant.
- An unknown chemistry identifier silently gets the lfp limits (app2.py:97). It is not
  rejected.
- The noise bounds 0.05, 1.0 and 2.0 (app2.py:141-143) and the temperature clamp range
  [0, 50] (app2.py:148) are hard-coded.
- The temperature thresholds 45, 40 and 0 (app2.py:123, 126, 129) are hard-coded. The
  "Advanced Settings" inputs at app2.py:486-487 are never read by the classifier.

## Model

| member | source | states |
|---|---|---|
| Chemistry.GetCellSpecs | app2.py:65-97 | every limit set returned has 0 < min_voltage < nominal_voltage < max_voltage and max_current >= 0; an identifier outside the table yields the lfp entry |
| Chemistry.KnownChemistries | app2.py:67-96 | the table holds exactly lfp, nmc, lto and lifepo4, and each entry is well formed |
| Chemistry.UnknownChemistryIsLfp | app2.py:97 | any identifier other than the four yields exactly the lfp limits (3.2 / 2.8 / 3.6 V, 100 A) |
| Status.Classify | app2.py:106-133 | status is Good iff there is no alert; Critical iff voltage < min, voltage > max or temp > 45; Warning iff none of those but abs(current) > max_current, temp > 40 or temp < 0; alerts strictly ordered voltage, current, temperature (so at most one per dimension); each of the six alerts is present iff its rule fires, and every alert carries the reading's own values |
| Status.CheckCellStatus | app2.py:99-133 | the step-by-step classifier (Critical overrides; Warning only lifts Good and never downgrades) returns exactly the maximum of the per-dimension verdicts, with alerts in the order raised |
| Status.ClassifyExamples | app2.py:110-125 | lfp at 2.5 V is Critical with exactly one voltage-low alert; lfp at 150 A, nominal otherwise, is Warning with exactly one current alert; lfp at 46 degrees is Critical |
| Status.SeededCellIsGood | app2.py:183-191 | a freshly seeded cell (nominal voltage, no current, 25-35 degrees) is Good with no alert |
| Status.SimulatedCellAlerts | app2.py:145-149 | after a simulation step voltage-low/high and temperature-low alerts cannot fire, and the cell is Critical exactly when its temperature exceeds 45 |
| Telemetry.SimulateRealTimeData | app2.py:135-158 | for any noise: voltage lies in the key's chemistry window [min, max] and equals old voltage + noise inside it, the nearest bound outside; temperature likewise in [0, 50]; current is old current + noise, unclamped; capacity = new voltage * abs(new current); stored limits kept; timestamp = now |
| Telemetry.SimulationStepIsBounded | app2.py:141-149 | a voltage inside its window moves by at most 0.05, a temperature inside [0, 50] by at most 1.0, the current by at most 2.0 |
| Telemetry.SeedReading | app2.py:180-191 | a new cell stores its chemistry's window (min_voltage and max_voltage of its limits) and starts at its chemistry's nominal voltage, strictly inside that window, with current 0 and capacity 0 (consistent), at the given temperature and time |
| Telemetry.ManualUpdate | app2.py:235-241 | the entered voltage, current and temperature are stored, capacity becomes voltage * abs(current), min_voltage and max_voltage are untouched, the timestamp is now |
| CellKeys.Split | app2.py:137 | str.split: at least one piece, no piece contains the separator, a string without separator is its own single piece, and the first piece is shorter than the string exactly when the string contains the separator |
| CellKeys.JoinSplit | app2.py:137 | joining the pieces of a split with the separator gives the string back |
| CellKeys.SplitJoin | app2.py:137 | splitting the join of separator-free pieces gives the pieces back |
| CellKeys.NatToString | app2.py:182 | str(n) is a non-empty string of decimal digits |
| CellKeys.ParseNatToString | app2.py:182 | reading back the digits of str(n) gives n, so str is injective |
| CellKeys.CellKey | app2.py:182 | the key f"cell_{i+1}_{cell_type}" is 6 characters longer than the digits and the chemistry together; how it splits is in CellKeySplit |
| CellKeys.CellKeySplit | app2.py:182 | the key splits at '_' into "cell", the decimal digits of the index, then the pieces of the chemistry |
| CellKeys.SplitCount | app2.py:137 | str.split yields exactly one piece more than the string has separators |
| CellKeys.ChemistryOf | app2.py:137 | key.split('_')[2], the parse also used at lines 212, 297, 319 and 529: present exactly when the key holds at least two '_', absent where Python raises IndexError; a present result contains no '_'. The round trip with the key build is in CellKeyRoundTrip |
| CellKeys.CellKeyRoundTrip | app2.py:182 | every key cell_{n}_{type} parses; split('_')[2] returns type exactly when type contains no '_', otherwise only its part before the first '_' |
| CellKeys.CellKeyInjective | app2.py:178-183 | two keys are equal only for equal index and equal chemistry, so seeding never overwrites a cell |
| Session.KeepLast | app2.py:265-266 | the truncated log has min(len, 800) entries and is the suffix of the log of that length |
| Session.KeepLastIsFifo | app2.py:264-266 | truncation drops no more entries than the older log holds, so every entry appended by the tick is kept as the log's suffix |
| Session.SeedKeys | app2.py:178-182 | the i-th seeded key is cell_{i+1}_{type_i}; all seeded keys parse and are pairwise distinct |
| Session.Snapshot | app2.py:253-262 | one history entry per cell in mapping order, each stamped with the tick time and copying that cell's voltage, current, temperature and capacity |
| Session.SimulatedReadingIsGood | app2.py:145-156 | a simulated reading has a derived capacity, a non-negative voltage, and lies within its clamp ranges |
| Session.SimulatedCellsValid | app2.py:248-249 | replacing every cell by its simulated reading keeps the monitored set consistent and puts every cell within its clamp ranges |
| Session.MonitorSession.constructor | app2.py:56-59 | a new session has no cells and no history |
| Session.MonitorSession.SeedCells | app2.py:176-191 | if the requested count differs from the current one: the set is rebuilt; it has exactly the keys cell_{i+1}_{type_i} in order, each at its seed reading; no cell is active and the total capacity is 0. If the count is equal, nothing changes. History is untouched and the invariant is kept |
| Session.MonitorSession.UpdateCell | app2.py:215-241 | only the selected cell changes, to its manual update; key order and history are untouched and the invariant is kept |
| Session.MonitorSession.Tick | app2.py:245-266 | every cell becomes its simulated reading with its own noise and is then within its clamp ranges; the history becomes the newest 800 of the old history followed by one snapshot per cell in mapping order; the invariant (including history length <= 800) is kept |
| Session.MonitorSession.SimulateAll | app2.py:248-249 | in mapping order, every cell is replaced by its simulated next reading and the key set is unchanged |
| Session.MonitorSession.RecordHistory | app2.py:252-266 | the history becomes KeepLast(old history + one snapshot per cell, 800) |
| Overview.ActiveCells | app2.py:280 | the active-cell count is at most the number of cells, and zero exactly when every current is 0 |
| Overview.TotalVoltage | app2.py:277 | the sum of the voltages over the cells in mapping order; non-negative voltages give a non-negative total (its bracketing is in TotalVoltageBounds) |
| Overview.TotalCapacity | app2.py:279 | the sum of the capacities in mapping order; for cells with derived capacity and non-negative voltage the total is non-negative (its value for idle cells is in IdleCellsHaveNoCapacity) |
| Overview.IdleCellsHaveNoCapacity | app2.py:279-280 | when no cell is active, the total capacity is 0 |
| Overview.TotalVoltageBounds | app2.py:277 | if every voltage lies in [lo, hi], the total voltage lies in [n*lo, n*hi] |

## Left out

- Decimal rounding (`round(..., 3/1/2)` at app2.py:153-156, 186, 239) is not modelled. The model stores unrounded values, so its capacity equals voltage * abs(current) of the stored fields exactly. In the source that holds only up to rounding: capacity is rounded from the unrounded product (app2.py:156).
- Alert message text (f-strings with emoji) is not modelled. Each alert is a constructor carrying the numbers its message quotes.
- Streamlit page, widgets, CSS, Plotly charts and tables (app2.py:1-53, 160-243 widget parts, 270-558) are presentation and are not modelled. Widget choices enter the model as parameters: the cell count and types, the selected cell, and the entered values.
- The guard `monitoring_active and auto_refresh`, `time.sleep` and `st.rerun` (app2.py:245-246, 268) are runtime plumbing. `Tick` models the body of the guarded block.
- The clock: `datetime.now()` is called per cell in the source. Each model operation takes a single `now` instead.
- The `random` module is replaced by noise and temperature parameters bounded as the `uniform` calls bound them.
- The average temperature (`np.mean`, app2.py:278), the pandas group statistics and the correlation matrix are floating-point library statistics and are not modelled.
- CSV export (app2.py:491-511) is I/O. The "Clear Historical Data" and "Reset All Cells" buttons (app2.py:513-522) are widget handlers outside the modelled core.
- The "Advanced Settings" sliders (app2.py:480-487) are read but never used, so the model uses the constants the code hard-codes.
- w1.py, an interactive prompt session, is not part of this model.
- Telemetry.SimulateRealTimeData: requires a key that `split('_')[2]` can parse. On other keys the source raises `IndexError`, and the session invariant guarantees every key parses.
- Session.MonitorSession.UpdateCell: requires the selected key to be present and the values to lie within the input widgets' ranges: voltage in [0, 5], temperature in [-20, 80]. The select box only offers present keys (app2.py:209).
