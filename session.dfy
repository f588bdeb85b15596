/** The dashboard's session state: the ordered mapping of monitored cells and
    the bounded history log, with the operations that change them: seeding
    (app2.py:176-191), a manual update (app2.py:234-241) and a monitoring
    tick (app2.py:245-266). */
module Session {
  import opened Chemistry
  import opened CellKeys
  import opened Telemetry
  import opened Overview

  /** Largest number of history entries kept after a tick. */
  const HistoryCap: nat := 800

  /** One snapshot of one cell, taken at a tick. */
  datatype HistoryEntry = HistoryEntry(
    timestamp: Time,
    cellId: string,
    voltage: real,
    current: real,
    temp: real,
    capacity: real)

  function EntryOf(now: Time, key: string, r: CellReading): HistoryEntry {
    HistoryEntry(now, key, r.voltage, r.current, r.temp, r.capacity)
  }

  /** `log[-cap:]` when the log is longer than `cap`, the log itself otherwise:
      the newest `cap` entries, the oldest dropped first. */
  function KeepLast<T>(log: seq<T>, cap: nat): (r: seq<T>)
    ensures |r| == if |log| > cap then cap else |log|
    ensures r == log[|log| - |r|..]
  {
    if |log| > cap then log[|log| - cap..] else log
  }

  /** Truncation only ever drops the oldest entries: the log is what was
      dropped followed by what was kept, and the newest entries survive. */
  lemma KeepLastIsFifo<T>(older: seq<T>, newer: seq<T>, cap: nat)
    requires |newer| <= cap
    ensures var kept := KeepLast(older + newer, cap);
      && |older + newer| - |kept| <= |older|
      && kept[|kept| - |newer|..] == newer
  {
  }

  predicate Distinct(keys: seq<string>) {
    forall i, j :: 0 <= i < j < |keys| ==> keys[i] != keys[j]
  }

  /** The keys of a freshly seeded set of cells, one per selected chemistry. */
  function SeedKeys(cellTypes: seq<string>): (keys: seq<string>)
    ensures |keys| == |cellTypes|
    ensures forall i :: 0 <= i < |keys| ==> keys[i] == CellKey(i + 1, cellTypes[i]) && WellFormedKey(keys[i])
    ensures Distinct(keys)
  {
    var keys := seq(|cellTypes|, i requires 0 <= i < |cellTypes| => CellKey(i + 1, cellTypes[i]));
    forall i | 0 <= i < |keys| ensures WellFormedKey(keys[i]) {
      CellKeyRoundTrip(i + 1, cellTypes[i]);
    }
    forall i, j | 0 <= i < j < |keys| ensures keys[i] != keys[j] {
      if keys[i] == keys[j] {
        CellKeyInjective(i + 1, cellTypes[i], j + 1, cellTypes[j]);
      }
    }
    keys
  }

  /** The readings of the cells in mapping order. */
  function Readings(keys: seq<string>, cells: map<string, CellReading>): (rs: seq<CellReading>)
    requires forall i :: 0 <= i < |keys| ==> keys[i] in cells
    ensures |rs| == |keys|
    ensures forall i :: 0 <= i < |keys| ==> rs[i] == cells[keys[i]]
  {
    seq(|keys|, i requires 0 <= i < |keys| => cells[keys[i]])
  }

  /** One history entry per cell, in mapping order, all stamped `now`. */
  function Snapshot(keys: seq<string>, cells: map<string, CellReading>, now: Time): (s: seq<HistoryEntry>)
    requires forall i :: 0 <= i < |keys| ==> keys[i] in cells
    ensures |s| == |keys|
    ensures forall i :: 0 <= i < |keys| ==> s[i] == EntryOf(now, keys[i], cells[keys[i]])
  {
    seq(|keys|, i requires 0 <= i < |keys| => EntryOf(now, keys[i], cells[keys[i]]))
  }

  /** A reading a cell may hold: its capacity is derived and its voltage is
      not negative. */
  predicate GoodReading(r: CellReading) {
    CapacityConsistent(r) && 0.0 <= r.voltage
  }

  /** A reading inside the ranges a simulation step clamps to: the voltage
      window of the chemistry named by the key and the temperature range. */
  predicate WithinSimLimits(key: string, r: CellReading)
    requires WellFormedKey(key)
  {
    var specs := GetCellSpecs(ChemistryOf(key).value);
    specs.minVoltage <= r.voltage <= specs.maxVoltage && MinSimTemp <= r.temp <= MaxSimTemp
  }

  /** A simulated reading is a good one and lies within the clamp ranges. */
  lemma SimulatedReadingIsGood(key: string, base: CellReading, noise: Noise, now: Time)
    requires WellFormedKey(key)
    requires NoiseInBounds(noise)
    ensures GoodReading(SimulateRealTimeData(key, base, noise, now))
    ensures WithinSimLimits(key, SimulateRealTimeData(key, base, noise, now))
  {
  }

  /** The monitored set is consistent: the key order lists each key of the
      mapping exactly once, every key parses, and every reading is good. */
  predicate CellsValid(keys: seq<string>, cells: map<string, CellReading>) {
    && Distinct(keys)
    && (forall i :: 0 <= i < |keys| ==> keys[i] in cells)
    && (forall k :: k in cells ==> k in keys)
    && (forall k :: k in cells ==> WellFormedKey(k) && GoodReading(cells[k]))
  }

  /** Replacing every cell by its simulated next reading keeps the set
      consistent and puts every cell within the clamp ranges. */
  lemma SimulatedCellsValid(keys: seq<string>, before: map<string, CellReading>,
                            after: map<string, CellReading>, noise: seq<Noise>, now: Time)
    requires CellsValid(keys, before)
    requires after.Keys == before.Keys
    requires |noise| == |keys|
    requires forall i :: 0 <= i < |noise| ==> NoiseInBounds(noise[i])
    requires forall i :: 0 <= i < |keys| ==>
      after[keys[i]] == SimulateRealTimeData(keys[i], before[keys[i]], noise[i], now)
    ensures CellsValid(keys, after)
    ensures forall k :: k in after ==> WithinSimLimits(k, after[k])
  {
    forall k | k in after
      ensures GoodReading(after[k]) && WithinSimLimits(k, after[k])
    {
      var i :| 0 <= i < |keys| && keys[i] == k;
      SimulatedReadingIsGood(k, before[k], noise[i], now);
    }
  }

  class MonitorSession {
    /** The keys of `cells` in insertion order (Python dicts keep it). */
    var keys: seq<string>
    var cells: map<string, CellReading>
    var history: seq<HistoryEntry>

    ghost predicate Valid()
      reads this
    {
      CellsValid(keys, cells) && |history| <= HistoryCap
    }

    /** The readings of the monitored cells in mapping order. */
    function Values(): seq<CellReading>
      reads this
      requires Valid()
    {
      Readings(keys, cells)
    }

    /** A new session monitors nothing and has no history. */
    constructor ()
      ensures Valid()
      ensures keys == [] && cells == map[] && history == []
    {
      keys := [];
      cells := map[];
      history := [];
    }

    /** Rebuilds the monitored set when the requested number of cells differs
        from the current one: the `i`th cell is named `cell_{i+1}_{type}` and
        starts from its chemistry's seed reading at the `i`th ambient temperature. */
    method SeedCells(cellTypes: seq<string>, temps: seq<real>, now: Time)
      requires Valid()
      requires |temps| == |cellTypes|
      requires forall i :: 0 <= i < |temps| ==> 25.0 <= temps[i] <= 35.0
      modifies this
      ensures Valid()
      ensures history == old(history)
      ensures old(|keys|) == |cellTypes| ==> keys == old(keys) && cells == old(cells)
      ensures old(|keys|) != |cellTypes| ==>
        && keys == SeedKeys(cellTypes)
        && (forall i :: 0 <= i < |cellTypes| ==> cells[keys[i]] == SeedReading(cellTypes[i], temps[i], now))
        && ActiveCells(Values()) == 0 && TotalCapacity(Values()) == 0.0
    {
      if |keys| != |cellTypes| {
        ghost var seedKeys := SeedKeys(cellTypes);
        var newKeys: seq<string> := [];
        var newCells: map<string, CellReading> := map[];
        for i := 0 to |cellTypes|
          invariant newKeys == seedKeys[..i]
          invariant forall j :: 0 <= j < i ==> newKeys[j] in newCells
          invariant forall k :: k in newCells ==> k in newKeys
          invariant forall j :: 0 <= j < i ==> newCells[newKeys[j]] == SeedReading(cellTypes[j], temps[j], now)
        {
          var cellType := cellTypes[i];
          var key := CellKey(i + 1, cellType);
          assert key == seedKeys[i];
          assert forall j :: 0 <= j < i ==> newKeys[j] != key;
          newCells := newCells[key := SeedReading(cellType, temps[i], now)];
          newKeys := newKeys + [key];
          assert newKeys == seedKeys[..i + 1];
        }
        assert newKeys == seedKeys;
        keys := newKeys;
        cells := newCells;
        IdleCellsHaveNoCapacity(Values());
      }
    }

    /** Overwrites a cell's voltage, current and temperature with the values
        entered (within the input widgets' ranges) and recomputes its capacity. */
    method UpdateCell(key: string, voltage: real, current: real, temp: real, now: Time)
      requires Valid()
      requires key in cells
      requires 0.0 <= voltage <= 5.0
      requires -20.0 <= temp <= 80.0
      modifies this
      ensures Valid()
      ensures keys == old(keys) && history == old(history)
      ensures cells == old(cells)[key := ManualUpdate(old(cells)[key], voltage, current, temp, now)]
    {
      cells := cells[key := ManualUpdate(cells[key], voltage, current, temp, now)];
    }

    /** One monitoring tick: every cell, in mapping order, is replaced by its
        simulated next reading; then one snapshot per cell is appended to the
        history, which is cut back to its newest HistoryCap entries. */
    method Tick(noise: seq<Noise>, now: Time)
      requires Valid()
      requires |noise| == |keys|
      requires forall i :: 0 <= i < |noise| ==> NoiseInBounds(noise[i])
      modifies this
      ensures Valid()
      ensures keys == old(keys) && cells.Keys == old(cells).Keys
      ensures forall i :: 0 <= i < |keys| ==>
        cells[keys[i]] == SimulateRealTimeData(keys[i], old(cells)[keys[i]], noise[i], now)
      ensures forall k :: k in cells ==> WithinSimLimits(k, cells[k])
      ensures history == KeepLast(old(history) + Snapshot(keys, cells, now), HistoryCap)
    {
      ghost var before := cells;
      SimulateAll(noise, now);
      SimulatedCellsValid(keys, before, cells, noise, now);
      RecordHistory(now);
    }

    /** The first half of a tick: each cell in mapping order is overwritten
        with its simulated next reading. */
    method SimulateAll(noise: seq<Noise>, now: Time)
      requires Valid()
      requires |noise| == |keys|
      requires forall i :: 0 <= i < |noise| ==> NoiseInBounds(noise[i])
      modifies this`cells
      ensures cells.Keys == old(cells).Keys
      ensures forall i :: 0 <= i < |keys| ==>
        cells[keys[i]] == SimulateRealTimeData(keys[i], old(cells)[keys[i]], noise[i], now)
    {
      for i := 0 to |keys|
        invariant cells.Keys == old(cells).Keys
        invariant forall j :: 0 <= j < i ==>
          cells[keys[j]] == SimulateRealTimeData(keys[j], old(cells)[keys[j]], noise[j], now)
        invariant forall j :: i <= j < |keys| ==> cells[keys[j]] == old(cells)[keys[j]]
      {
        var key := keys[i];
        assert cells[key] == old(cells)[key];
        var next := SimulateRealTimeData(key, cells[key], noise[i], now);
        assert forall j :: 0 <= j < |keys| && j != i ==> keys[j] != key;
        cells := cells[key := next];
      }
    }

    /** The second half of a tick: one snapshot per cell, in mapping order,
        appended to the history, then the history cut back to HistoryCap. */
    method RecordHistory(now: Time)
      requires Valid()
      modifies this`history
      ensures Valid()
      ensures history == KeepLast(old(history) + Snapshot(keys, cells, now), HistoryCap)
    {
      for i := 0 to |keys|
        invariant history == old(history) + Snapshot(keys[..i], cells, now)
      {
        var data := cells[keys[i]];
        history := history + [HistoryEntry(now, keys[i], data.voltage, data.current, data.temp, data.capacity)];
        assert Snapshot(keys[..i + 1], cells, now) == Snapshot(keys[..i], cells, now) + [EntryOf(now, keys[i], data)];
      }
      assert keys[..|keys|] == keys;

      if |history| > HistoryCap {
        history := history[|history| - HistoryCap..];
      }
    }
  }
}
