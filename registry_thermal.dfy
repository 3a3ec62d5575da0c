/**
 * The unit types of temperature, pressure, flow rate, power and energy: their symbol registries
 * (unit_registry.go), key tables (serialize_compact.go) and decoders,
 * selected by unit type.  The Go code selects all 22 in one switch
 * (unit_registry.go, lookupUnit and lookupUnitByName in quantity.go, the
 * dimension switch of serialize.go); the model splits that switch into a
 * few groups only so that each proof about it stays small.  The groups
 * follow no structure of the Go code.
 */
module ThermalUnits {
  import opened Results
  import opened JsonValue
  import opened Units
  import opened Quantities
  import SerializeCompact
  import Energy
  import FlowRate
  import Power
  import Pressure
  import Temperature

  predicate Has(k: Kind) {
    k == TemperatureUnit || k == PressureUnit || k == FlowRateUnit || k == PowerUnit || k == EnergyUnit
  }

  /** The predefined temperature units carry that type and its dimension string. */
  lemma TemperatureOfKind()
    ensures forall u | u in Temperature.All() :: OfKind(TemperatureUnit, u)
  {
  }

  /** The predefined pressure units carry that type and its dimension string. */
  lemma PressureOfKind()
    ensures forall u | u in Pressure.All() :: OfKind(PressureUnit, u)
  {
  }

  /** The predefined flow rate units carry that type and its dimension string. */
  lemma FlowRateOfKind()
    ensures forall u | u in FlowRate.All() :: OfKind(FlowRateUnit, u)
  {
  }

  /** The predefined power units carry that type and its dimension string. */
  lemma PowerOfKind()
    ensures forall u | u in Power.All() :: OfKind(PowerUnit, u)
  {
  }

  /** The predefined energy units carry that type and its dimension string. */
  lemma EnergyOfKind()
    ensures forall u | u in Energy.All() :: OfKind(EnergyUnit, u)
  {
  }

  /** The symbol registry of a unit type; it holds only units of that type and dimension. */
  function SymbolTable(k: Kind): (r: map<string, Unit>)
    requires Has(k)
    ensures forall symbol | symbol in r :: OfKind(k, r[symbol])
  {
    if k == TemperatureUnit then Temperature.SymbolsHoldOnlyAll(); TemperatureOfKind(); Temperature.Symbols()
    else if k == PressureUnit then Pressure.SymbolsHoldOnlyAll(); PressureOfKind(); Pressure.Symbols()
    else if k == FlowRateUnit then FlowRate.SymbolsHoldOnlyAll(); FlowRateOfKind(); FlowRate.Symbols()
    else if k == PowerUnit then Power.SymbolsHoldOnlyAll(); PowerOfKind(); Power.Symbols()
    else Energy.SymbolsHoldOnlyAll(); EnergyOfKind(); Energy.Symbols()
  }

  /** The compact key table of a unit type; it holds only units of that type and dimension. */
  function KeyTable(k: Kind): (r: map<string, Unit>)
    requires Has(k)
    ensures forall key | key in r :: OfKind(k, r[key])
  {
    if k == TemperatureUnit then Temperature.KeysHoldOnlyAll(); TemperatureOfKind(); Temperature.Keys()
    else if k == PressureUnit then Pressure.KeysHoldOnlyAll(); PressureOfKind(); Pressure.Keys()
    else if k == FlowRateUnit then FlowRate.KeysHoldOnlyAll(); FlowRateOfKind(); FlowRate.Keys()
    else if k == PowerUnit then Power.KeysHoldOnlyAll(); PowerOfKind(); Power.Keys()
    else Energy.KeysHoldOnlyAll(); EnergyOfKind(); Energy.Keys()
  }

  function Unmarshal(k: Kind, j: Json): (r: Result<Quantity>)
    requires Has(k)
    ensures r.Ok? ==> OfKind(k, r.value.unit)
  {
    match k
    case TemperatureUnit => TemperatureOfKind(); Temperature.Unmarshal(j)
    case PressureUnit => PressureOfKind(); Pressure.Unmarshal(j)
    case FlowRateUnit => FlowRateOfKind(); FlowRate.Unmarshal(j)
    case PowerUnit => PowerOfKind(); Power.Unmarshal(j)
    case EnergyUnit => EnergyOfKind(); Energy.Unmarshal(j)
  }

  function UnmarshalCompact(k: Kind, j: Json): (r: Result<Quantity>)
    requires Has(k)
    ensures r.Ok? <==> SerializeCompact.DecodeCompactJson(j).Some? && SerializeCompact.DecodeCompactJson(j).value.unit in KeyTable(k)
    ensures r.Ok? ==> r.value == New(SerializeCompact.DecodeCompactJson(j).value.value, KeyTable(k)[SerializeCompact.DecodeCompactJson(j).value.unit])
    ensures r.Ok? ==> OfKind(k, r.value.unit)
  {
    match k
    case TemperatureUnit => TemperatureOfKind(); TemperatureKeys(k); Temperature.UnmarshalCompact(j)
    case PressureUnit => PressureOfKind(); PressureKeys(k); Pressure.UnmarshalCompact(j)
    case FlowRateUnit => FlowRateOfKind(); FlowRateKeys(k); FlowRate.UnmarshalCompact(j)
    case PowerUnit => PowerOfKind(); PowerKeys(k); Power.UnmarshalCompact(j)
    case EnergyUnit => EnergyOfKind(); EnergyKeys(k); Energy.UnmarshalCompact(j)
  }

  /** The Temperature unit type selects Temperature.Unmarshal. */
  lemma TemperatureDecoder(k: Kind, j: Json)
    requires k == TemperatureUnit
    ensures Unmarshal(k, j) == Temperature.Unmarshal(j)
  {
  }

  /** The Pressure unit type selects Pressure.Unmarshal. */
  lemma PressureDecoder(k: Kind, j: Json)
    requires k == PressureUnit
    ensures Unmarshal(k, j) == Pressure.Unmarshal(j)
  {
  }

  /** The FlowRate unit type selects FlowRate.Unmarshal. */
  lemma FlowRateDecoder(k: Kind, j: Json)
    requires k == FlowRateUnit
    ensures Unmarshal(k, j) == FlowRate.Unmarshal(j)
  {
  }

  /** The Power unit type selects Power.Unmarshal. */
  lemma PowerDecoder(k: Kind, j: Json)
    requires k == PowerUnit
    ensures Unmarshal(k, j) == Power.Unmarshal(j)
  {
  }

  /** The Energy unit type selects Energy.Unmarshal. */
  lemma EnergyDecoder(k: Kind, j: Json)
    requires k == EnergyUnit
    ensures Unmarshal(k, j) == Energy.Unmarshal(j)
  {
  }

  /** The Temperature unit type selects Temperature's symbol registry. */
  lemma TemperatureSymbols(k: Kind)
    requires k == TemperatureUnit
    ensures SymbolTable(k) == Temperature.Symbols()
  {
  }

  /** The Temperature unit type selects Temperature's compact key table. */
  lemma TemperatureKeys(k: Kind)
    requires k == TemperatureUnit
    ensures KeyTable(k) == Temperature.Keys()
  {
  }

  /** The Pressure unit type selects Pressure's symbol registry. */
  lemma PressureSymbols(k: Kind)
    requires k == PressureUnit
    ensures SymbolTable(k) == Pressure.Symbols()
  {
  }

  /** The Pressure unit type selects Pressure's compact key table. */
  lemma PressureKeys(k: Kind)
    requires k == PressureUnit
    ensures KeyTable(k) == Pressure.Keys()
  {
  }

  /** The FlowRate unit type selects FlowRate's symbol registry. */
  lemma FlowRateSymbols(k: Kind)
    requires k == FlowRateUnit
    ensures SymbolTable(k) == FlowRate.Symbols()
  {
  }

  /** The FlowRate unit type selects FlowRate's compact key table. */
  lemma FlowRateKeys(k: Kind)
    requires k == FlowRateUnit
    ensures KeyTable(k) == FlowRate.Keys()
  {
  }

  /** The Power unit type selects Power's symbol registry. */
  lemma PowerSymbols(k: Kind)
    requires k == PowerUnit
    ensures SymbolTable(k) == Power.Symbols()
  {
  }

  /** The Power unit type selects Power's compact key table. */
  lemma PowerKeys(k: Kind)
    requires k == PowerUnit
    ensures KeyTable(k) == Power.Keys()
  {
  }

  /** The Energy unit type selects Energy's symbol registry. */
  lemma EnergySymbols(k: Kind)
    requires k == EnergyUnit
    ensures SymbolTable(k) == Energy.Symbols()
  {
  }

  /** The Energy unit type selects Energy's compact key table. */
  lemma EnergyKeys(k: Kind)
    requires k == EnergyUnit
    ensures KeyTable(k) == Energy.Keys()
  {
  }
}
