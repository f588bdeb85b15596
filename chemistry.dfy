/** The table of supported battery chemistries and their operating limits
    (app2.py, get_cell_specs). */
module Chemistry {

  /** Operating limits of one chemistry: voltages in volts, current in amperes.
      `color` is the dashboard's display colour and has no behaviour. */
  datatype ChemistrySpec = ChemistrySpec(
    nominalVoltage: real,
    minVoltage: real,
    maxVoltage: real,
    maxCurrent: real,
    color: string)

  /** The nominal voltage lies strictly inside a positive voltage window and the
      current limit is not negative. */
  predicate WellFormed(s: ChemistrySpec) {
    0.0 < s.minVoltage < s.nominalVoltage < s.maxVoltage && 0.0 <= s.maxCurrent
  }

  /** The chemistry every unknown identifier falls back to. */
  const DefaultChemistry: string := "lfp"

  const SpecTable: map<string, ChemistrySpec> := map[
    "lfp" := ChemistrySpec(3.2, 2.8, 3.6, 100.0, "#2E8B57"),
    "nmc" := ChemistrySpec(3.6, 3.2, 4.0, 120.0, "#4169E1"),
    "lto" := ChemistrySpec(2.4, 1.5, 2.8, 200.0, "#FF6347"),
    "lifepo4" := ChemistrySpec(3.3, 2.5, 3.65, 150.0, "#9370DB")
  ]

  /** Limits of `cellType`; an identifier outside the table silently gets the lfp limits. */
  function GetCellSpecs(cellType: string): (s: ChemistrySpec)
    ensures WellFormed(s)
    ensures cellType !in SpecTable ==> s == SpecTable[DefaultChemistry]
  {
    if cellType in SpecTable then SpecTable[cellType] else SpecTable[DefaultChemistry]
  }

  /** Exactly four chemistries are known. */
  lemma KnownChemistries()
    ensures SpecTable.Keys == {"lfp", "nmc", "lto", "lifepo4"}
    ensures forall t :: t in SpecTable ==> WellFormed(SpecTable[t])
  {
  }

  /** Any other identifier, the empty one and different spellings included,
      yields exactly the lfp limits. */
  lemma UnknownChemistryIsLfp(cellType: string)
    requires cellType !in {"lfp", "nmc", "lto", "lifepo4"}
    ensures GetCellSpecs(cellType) == ChemistrySpec(3.2, 2.8, 3.6, 100.0, "#2E8B57")
  {
  }
}
