/**
 * The unit types of mass, concentration and fuel efficiency: their symbol registries
 * (unit_registry.go), key tables (serialize_compact.go) and decoders,
 * selected by unit type.  The Go code selects all 22 in one switch
 * (unit_registry.go, lookupUnit and lookupUnitByName in quantity.go, the
 * dimension switch of serialize.go); the model splits that switch into a
 * few groups only so that each proof about it stays small.  The groups
 * follow no structure of the Go code.
 */
module MaterialUnits {
  import opened Results
  import opened JsonValue
  import opened Units
  import opened Quantities
  import SerializeCompact
  import Concentration
  import FuelEfficiency
  import Mass

  predicate Has(k: Kind) {
    k == MassUnit || k == ConcentrationUnit || k == FuelEfficiencyUnit
  }

  /** The predefined mass units carry that type and its dimension string. */
  lemma MassOfKind()
    ensures forall u | u in Mass.All() :: OfKind(MassUnit, u)
  {
  }

  /** The predefined concentration units carry that type and its dimension string. */
  lemma ConcentrationOfKind()
    ensures forall u | u in Concentration.All() :: OfKind(ConcentrationUnit, u)
  {
  }

  /** The predefined fuel efficiency units carry that type and its dimension string. */
  lemma FuelEfficiencyOfKind()
    ensures forall u | u in FuelEfficiency.All() :: OfKind(FuelEfficiencyUnit, u)
  {
  }

  /** The symbol registry of a unit type; it holds only units of that type and dimension. */
  function SymbolTable(k: Kind): (r: map<string, Unit>)
    requires Has(k)
    ensures forall symbol | symbol in r :: OfKind(k, r[symbol])
  {
    if k == MassUnit then Mass.SymbolsHoldOnlyAll(); MassOfKind(); Mass.Symbols()
    else if k == ConcentrationUnit then Concentration.SymbolsHoldOnlyAll(); ConcentrationOfKind(); Concentration.Symbols()
    else FuelEfficiency.SymbolsHoldOnlyAll(); FuelEfficiencyOfKind(); FuelEfficiency.Symbols()
  }

  /** The compact key table of a unit type; it holds only units of that type and dimension. */
  function KeyTable(k: Kind): (r: map<string, Unit>)
    requires Has(k)
    ensures forall key | key in r :: OfKind(k, r[key])
  {
    if k == MassUnit then Mass.KeysHoldOnlyAll(); MassOfKind(); Mass.Keys()
    else if k == ConcentrationUnit then Concentration.KeysHoldOnlyAll(); ConcentrationOfKind(); Concentration.Keys()
    else FuelEfficiency.KeysHoldOnlyAll(); FuelEfficiencyOfKind(); FuelEfficiency.Keys()
  }

  function Unmarshal(k: Kind, j: Json): (r: Result<Quantity>)
    requires Has(k) && (k == FuelEfficiencyUnit ==> FuelEfficiency.CanUnmarshal(j))
    ensures r.Ok? ==> OfKind(k, r.value.unit)
  {
    match k
    case MassUnit => MassOfKind(); Mass.Unmarshal(j)
    case ConcentrationUnit => ConcentrationOfKind(); Concentration.Unmarshal(j)
    case FuelEfficiencyUnit => FuelEfficiencyOfKind(); FuelEfficiency.Unmarshal(j)
  }

  function UnmarshalCompact(k: Kind, j: Json): (r: Result<Quantity>)
    requires Has(k) && (k == FuelEfficiencyUnit ==> FuelEfficiency.CanUnmarshalCompact(j))
    ensures r.Ok? <==> SerializeCompact.DecodeCompactJson(j).Some? && SerializeCompact.DecodeCompactJson(j).value.unit in KeyTable(k)
    ensures r.Ok? ==> r.value == New(SerializeCompact.DecodeCompactJson(j).value.value, KeyTable(k)[SerializeCompact.DecodeCompactJson(j).value.unit])
    ensures r.Ok? ==> OfKind(k, r.value.unit)
  {
    match k
    case MassUnit => MassOfKind(); MassKeys(k); Mass.UnmarshalCompact(j)
    case ConcentrationUnit => ConcentrationOfKind(); ConcentrationKeys(k); Concentration.UnmarshalCompact(j)
    case FuelEfficiencyUnit => FuelEfficiencyOfKind(); FuelEfficiencyKeys(k); FuelEfficiency.UnmarshalCompact(j)
  }

  /** The Mass unit type selects Mass.Unmarshal. */
  lemma MassDecoder(k: Kind, j: Json)
    requires k == MassUnit
    ensures Unmarshal(k, j) == Mass.Unmarshal(j)
  {
  }

  /** The Concentration unit type selects Concentration.Unmarshal. */
  lemma ConcentrationDecoder(k: Kind, j: Json)
    requires k == ConcentrationUnit
    ensures Unmarshal(k, j) == Concentration.Unmarshal(j)
  {
  }

  /** The FuelEfficiency unit type selects FuelEfficiency.Unmarshal. */
  lemma FuelEfficiencyDecoder(k: Kind, j: Json)
    requires k == FuelEfficiencyUnit
    ensures FuelEfficiency.CanUnmarshal(j) ==> Unmarshal(k, j) == FuelEfficiency.Unmarshal(j)
  {
  }

  /** The Mass unit type selects Mass's symbol registry. */
  lemma MassSymbols(k: Kind)
    requires k == MassUnit
    ensures SymbolTable(k) == Mass.Symbols()
  {
  }

  /** The Mass unit type selects Mass's compact key table. */
  lemma MassKeys(k: Kind)
    requires k == MassUnit
    ensures KeyTable(k) == Mass.Keys()
  {
  }

  /** The Concentration unit type selects Concentration's symbol registry. */
  lemma ConcentrationSymbols(k: Kind)
    requires k == ConcentrationUnit
    ensures SymbolTable(k) == Concentration.Symbols()
  {
  }

  /** The Concentration unit type selects Concentration's compact key table. */
  lemma ConcentrationKeys(k: Kind)
    requires k == ConcentrationUnit
    ensures KeyTable(k) == Concentration.Keys()
  {
  }

  /** The FuelEfficiency unit type selects FuelEfficiency's symbol registry. */
  lemma FuelEfficiencySymbols(k: Kind)
    requires k == FuelEfficiencyUnit
    ensures SymbolTable(k) == FuelEfficiency.Symbols()
  {
  }

  /** The FuelEfficiency unit type selects FuelEfficiency's compact key table. */
  lemma FuelEfficiencyKeys(k: Kind)
    requires k == FuelEfficiencyUnit
    ensures KeyTable(k) == FuelEfficiency.Keys()
  {
  }
}
