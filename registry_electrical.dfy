/**
 * The unit types of electric charge, electric current and electric potential difference: their symbol registries
 * (unit_registry.go), key tables (serialize_compact.go) and decoders,
 * selected by unit type.  The Go code selects all 22 in one switch
 * (unit_registry.go, lookupUnit and lookupUnitByName in quantity.go, the
 * dimension switch of serialize.go); the model splits that switch into a
 * few groups only so that each proof about it stays small.  The groups
 * follow no structure of the Go code.
 */
module ElectricalUnits {
  import opened Results
  import opened JsonValue
  import opened Units
  import opened Quantities
  import SerializeCompact
  import ElectricCharge
  import ElectricCurrent
  import ElectricPotentialDifference

  predicate Has(k: Kind) {
    k == ElectricChargeUnit || k == ElectricCurrentUnit || k == ElectricPotentialDifferenceUnit
  }

  /** The predefined electric charge units carry that type and its dimension string. */
  lemma ElectricChargeOfKind()
    ensures forall u | u in ElectricCharge.All() :: OfKind(ElectricChargeUnit, u)
  {
  }

  /** The predefined electric current units carry that type and its dimension string. */
  lemma ElectricCurrentOfKind()
    ensures forall u | u in ElectricCurrent.All() :: OfKind(ElectricCurrentUnit, u)
  {
  }

  /** The predefined electric potential difference units carry that type and its dimension string. */
  lemma ElectricPotentialDifferenceOfKind()
    ensures forall u | u in ElectricPotentialDifference.All() :: OfKind(ElectricPotentialDifferenceUnit, u)
  {
  }

  /** The symbol registry of a unit type; it holds only units of that type and dimension. */
  function SymbolTable(k: Kind): (r: map<string, Unit>)
    requires Has(k)
    ensures forall symbol | symbol in r :: OfKind(k, r[symbol])
  {
    if k == ElectricChargeUnit then ElectricCharge.SymbolsHoldOnlyAll(); ElectricChargeOfKind(); ElectricCharge.Symbols()
    else if k == ElectricCurrentUnit then ElectricCurrent.SymbolsHoldOnlyAll(); ElectricCurrentOfKind(); ElectricCurrent.Symbols()
    else ElectricPotentialDifference.SymbolsHoldOnlyAll(); ElectricPotentialDifferenceOfKind(); ElectricPotentialDifference.Symbols()
  }

  /** The compact key table of a unit type; it holds only units of that type and dimension. */
  function KeyTable(k: Kind): (r: map<string, Unit>)
    requires Has(k)
    ensures forall key | key in r :: OfKind(k, r[key])
  {
    if k == ElectricChargeUnit then ElectricCharge.KeysHoldOnlyAll(); ElectricChargeOfKind(); ElectricCharge.Keys()
    else if k == ElectricCurrentUnit then ElectricCurrent.KeysHoldOnlyAll(); ElectricCurrentOfKind(); ElectricCurrent.Keys()
    else ElectricPotentialDifference.KeysHoldOnlyAll(); ElectricPotentialDifferenceOfKind(); ElectricPotentialDifference.Keys()
  }

  function Unmarshal(k: Kind, j: Json): (r: Result<Quantity>)
    requires Has(k)
    ensures r.Ok? ==> OfKind(k, r.value.unit)
  {
    match k
    case ElectricChargeUnit => ElectricChargeOfKind(); ElectricCharge.Unmarshal(j)
    case ElectricCurrentUnit => ElectricCurrentOfKind(); ElectricCurrent.Unmarshal(j)
    case ElectricPotentialDifferenceUnit => ElectricPotentialDifferenceOfKind(); ElectricPotentialDifference.Unmarshal(j)
  }

  function UnmarshalCompact(k: Kind, j: Json): (r: Result<Quantity>)
    requires Has(k)
    ensures r.Ok? <==> SerializeCompact.DecodeCompactJson(j).Some? && SerializeCompact.DecodeCompactJson(j).value.unit in KeyTable(k)
    ensures r.Ok? ==> r.value == New(SerializeCompact.DecodeCompactJson(j).value.value, KeyTable(k)[SerializeCompact.DecodeCompactJson(j).value.unit])
    ensures r.Ok? ==> OfKind(k, r.value.unit)
  {
    match k
    case ElectricChargeUnit => ElectricChargeOfKind(); ElectricChargeKeys(k); ElectricCharge.UnmarshalCompact(j)
    case ElectricCurrentUnit => ElectricCurrentOfKind(); ElectricCurrentKeys(k); ElectricCurrent.UnmarshalCompact(j)
    case ElectricPotentialDifferenceUnit => ElectricPotentialDifferenceOfKind(); ElectricPotentialDifferenceKeys(k); ElectricPotentialDifference.UnmarshalCompact(j)
  }

  /** The ElectricCharge unit type selects ElectricCharge.Unmarshal. */
  lemma ElectricChargeDecoder(k: Kind, j: Json)
    requires k == ElectricChargeUnit
    ensures Unmarshal(k, j) == ElectricCharge.Unmarshal(j)
  {
  }

  /** The ElectricCurrent unit type selects ElectricCurrent.Unmarshal. */
  lemma ElectricCurrentDecoder(k: Kind, j: Json)
    requires k == ElectricCurrentUnit
    ensures Unmarshal(k, j) == ElectricCurrent.Unmarshal(j)
  {
  }

  /** The ElectricPotentialDifference unit type selects ElectricPotentialDifference.Unmarshal. */
  lemma ElectricPotentialDifferenceDecoder(k: Kind, j: Json)
    requires k == ElectricPotentialDifferenceUnit
    ensures Unmarshal(k, j) == ElectricPotentialDifference.Unmarshal(j)
  {
  }

  /** The ElectricCharge unit type selects ElectricCharge's symbol registry. */
  lemma ElectricChargeSymbols(k: Kind)
    requires k == ElectricChargeUnit
    ensures SymbolTable(k) == ElectricCharge.Symbols()
  {
  }

  /** The ElectricCharge unit type selects ElectricCharge's compact key table. */
  lemma ElectricChargeKeys(k: Kind)
    requires k == ElectricChargeUnit
    ensures KeyTable(k) == ElectricCharge.Keys()
  {
  }

  /** The ElectricCurrent unit type selects ElectricCurrent's symbol registry. */
  lemma ElectricCurrentSymbols(k: Kind)
    requires k == ElectricCurrentUnit
    ensures SymbolTable(k) == ElectricCurrent.Symbols()
  {
  }

  /** The ElectricCurrent unit type selects ElectricCurrent's compact key table. */
  lemma ElectricCurrentKeys(k: Kind)
    requires k == ElectricCurrentUnit
    ensures KeyTable(k) == ElectricCurrent.Keys()
  {
  }

  /** The ElectricPotentialDifference unit type selects ElectricPotentialDifference's symbol registry. */
  lemma ElectricPotentialDifferenceSymbols(k: Kind)
    requires k == ElectricPotentialDifferenceUnit
    ensures SymbolTable(k) == ElectricPotentialDifference.Symbols()
  {
  }

  /** The ElectricPotentialDifference unit type selects ElectricPotentialDifference's compact key table. */
  lemma ElectricPotentialDifferenceKeys(k: Kind)
    requires k == ElectricPotentialDifferenceUnit
    ensures KeyTable(k) == ElectricPotentialDifference.Keys()
  {
  }
}
