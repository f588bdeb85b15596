/** The dashboard's overview figures over the monitored cells, in mapping
    order (app2.py:277-280). */
module Overview {
  import opened Telemetry

  /** Sum of the cells' voltages; non-negative voltages give a non-negative total. */
  function TotalVoltage(cells: seq<CellReading>): (total: real)
    ensures (forall i :: 0 <= i < |cells| ==> 0.0 <= cells[i].voltage) ==> 0.0 <= total
    decreases |cells|
  {
    if cells == [] then 0.0 else cells[0].voltage + TotalVoltage(cells[1..])
  }

  /** Sum of the cells' capacities; cells whose capacity is derived from a
      non-negative voltage give a non-negative total. */
  function TotalCapacity(cells: seq<CellReading>): (total: real)
    ensures (forall i :: 0 <= i < |cells| ==> CapacityConsistent(cells[i]) && 0.0 <= cells[i].voltage) ==> 0.0 <= total
    decreases |cells|
  {
    if cells == [] then 0.0 else cells[0].capacity + TotalCapacity(cells[1..])
  }

  /** Number of cells carrying a non-zero current. */
  function ActiveCells(cells: seq<CellReading>): (n: nat)
    ensures n <= |cells|
    ensures n == 0 <==> forall i :: 0 <= i < |cells| ==> cells[i].current == 0.0
    decreases |cells|
  {
    if cells == [] then 0
    else (if cells[0].current != 0.0 then 1 else 0) + ActiveCells(cells[1..])
  }

  /** When no cell is active, the derived capacities, and so their total, are zero. */
  lemma {:induction false} IdleCellsHaveNoCapacity(cells: seq<CellReading>)
    requires forall i :: 0 <= i < |cells| ==> CapacityConsistent(cells[i])
    requires ActiveCells(cells) == 0
    ensures TotalCapacity(cells) == 0.0
    decreases |cells|
  {
    if cells != [] {
      IdleCellsHaveNoCapacity(cells[1..]);
    }
  }

  /** Adding one value inside [lo, hi] to a total bracketed by `k` window
      ends gives a total bracketed by `k + 1` of them. */
  lemma BracketStep(k: real, lo: real, hi: real, v: real, total: real)
    requires k * lo <= total <= k * hi
    requires lo <= v <= hi
    ensures (k + 1.0) * lo <= v + total <= (k + 1.0) * hi
  {
  }

  /** The voltage total of cells kept inside windows is bracketed by the sums
      of the windows' ends. */
  lemma {:induction false} TotalVoltageBounds(cells: seq<CellReading>, lo: real, hi: real)
    requires forall i :: 0 <= i < |cells| ==> lo <= cells[i].voltage <= hi
    ensures (|cells| as real) * lo <= TotalVoltage(cells) <= (|cells| as real) * hi
    decreases |cells|
  {
    if cells != [] {
      var rest := cells[1..];
      TotalVoltageBounds(rest, lo, hi);
      BracketStep(|rest| as real, lo, hi, cells[0].voltage, TotalVoltage(rest));
    }
  }
}
