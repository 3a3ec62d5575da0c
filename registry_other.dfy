/**
 * The unit types of information, illuminance and dispersion: their symbol registries
 * (unit_registry.go), key tables (serialize_compact.go) and decoders,
 * selected by unit type.  The Go code selects all 22 in one switch
 * (unit_registry.go, lookupUnit and lookupUnitByName in quantity.go, the
 * dimension switch of serialize.go); the model splits that switch into a
 * few groups only so that each proof about it stays small.  The groups
 * follow no structure of the Go code.
 */
module OtherUnits {
  import opened Results
  import opened JsonValue
  import opened Units
  import opened Quantities
  import SerializeCompact
  import Dispersion
  import Illuminance
  import Information

  predicate Has(k: Kind) {
    k == InformationUnit || k == IlluminanceUnit || k == DispersionUnit
  }

  /** The predefined information units carry that type and its dimension string. */
  lemma InformationOfKind()
    ensures forall u | u in Information.All() :: OfKind(InformationUnit, u)
  {
  }

  /** The predefined illuminance units carry that type and its dimension string. */
  lemma IlluminanceOfKind()
    ensures forall u | u in Illuminance.All() :: OfKind(IlluminanceUnit, u)
  {
  }

  /** The predefined dispersion units carry that type and its dimension string. */
  lemma DispersionOfKind()
    ensures forall u | u in Dispersion.All() :: OfKind(DispersionUnit, u)
  {
  }

  /** The symbol registry of a unit type; it holds only units of that type and dimension. */
  function SymbolTable(k: Kind): (r: map<string, Unit>)
    requires Has(k)
    ensures forall symbol | symbol in r :: OfKind(k, r[symbol])
  {
    if k == InformationUnit then Information.SymbolsHoldOnlyAll(); InformationOfKind(); Information.Symbols()
    else if k == IlluminanceUnit then Illuminance.SymbolsHoldOnlyAll(); IlluminanceOfKind(); Illuminance.Symbols()
    else Dispersion.SymbolsHoldOnlyAll(); DispersionOfKind(); Dispersion.Symbols()
  }

  /** The compact key table of a unit type; it holds only units of that type and dimension. */
  function KeyTable(k: Kind): (r: map<string, Unit>)
    requires Has(k)
    ensures forall key | key in r :: OfKind(k, r[key])
  {
    if k == InformationUnit then Information.KeysHoldOnlyAll(); InformationOfKind(); Information.Keys()
    else if k == IlluminanceUnit then Illuminance.KeysHoldOnlyAll(); IlluminanceOfKind(); Illuminance.Keys()
    else Dispersion.KeysHoldOnlyAll(); DispersionOfKind(); Dispersion.Keys()
  }

  function Unmarshal(k: Kind, j: Json): (r: Result<Quantity>)
    requires Has(k)
    ensures r.Ok? ==> OfKind(k, r.value.unit)
  {
    match k
    case InformationUnit => InformationOfKind(); Information.Unmarshal(j)
    case IlluminanceUnit => IlluminanceOfKind(); Illuminance.Unmarshal(j)
    case DispersionUnit => DispersionOfKind(); Dispersion.Unmarshal(j)
  }

  function UnmarshalCompact(k: Kind, j: Json): (r: Result<Quantity>)
    requires Has(k)
    ensures r.Ok? <==> SerializeCompact.DecodeCompactJson(j).Some? && SerializeCompact.DecodeCompactJson(j).value.unit in KeyTable(k)
    ensures r.Ok? ==> r.value == New(SerializeCompact.DecodeCompactJson(j).value.value, KeyTable(k)[SerializeCompact.DecodeCompactJson(j).value.unit])
    ensures r.Ok? ==> OfKind(k, r.value.unit)
  {
    match k
    case InformationUnit => InformationOfKind(); InformationKeys(k); Information.UnmarshalCompact(j)
    case IlluminanceUnit => IlluminanceOfKind(); IlluminanceKeys(k); Illuminance.UnmarshalCompact(j)
    case DispersionUnit => DispersionOfKind(); DispersionKeys(k); Dispersion.UnmarshalCompact(j)
  }

  /** The Information unit type selects Information.Unmarshal. */
  lemma InformationDecoder(k: Kind, j: Json)
    requires k == InformationUnit
    ensures Unmarshal(k, j) == Information.Unmarshal(j)
  {
  }

  /** The Illuminance unit type selects Illuminance.Unmarshal. */
  lemma IlluminanceDecoder(k: Kind, j: Json)
    requires k == IlluminanceUnit
    ensures Unmarshal(k, j) == Illuminance.Unmarshal(j)
  {
  }

  /** The Dispersion unit type selects Dispersion.Unmarshal. */
  lemma DispersionDecoder(k: Kind, j: Json)
    requires k == DispersionUnit
    ensures Unmarshal(k, j) == Dispersion.Unmarshal(j)
  {
  }

  /** The Information unit type selects Information's symbol registry. */
  lemma InformationSymbols(k: Kind)
    requires k == InformationUnit
    ensures SymbolTable(k) == Information.Symbols()
  {
  }

  /** The Information unit type selects Information's compact key table. */
  lemma InformationKeys(k: Kind)
    requires k == InformationUnit
    ensures KeyTable(k) == Information.Keys()
  {
  }

  /** The Illuminance unit type selects Illuminance's symbol registry. */
  lemma IlluminanceSymbols(k: Kind)
    requires k == IlluminanceUnit
    ensures SymbolTable(k) == Illuminance.Symbols()
  {
  }

  /** The Illuminance unit type selects Illuminance's compact key table. */
  lemma IlluminanceKeys(k: Kind)
    requires k == IlluminanceUnit
    ensures KeyTable(k) == Illuminance.Keys()
  {
  }

  /** The Dispersion unit type selects Dispersion's symbol registry. */
  lemma DispersionSymbols(k: Kind)
    requires k == DispersionUnit
    ensures SymbolTable(k) == Dispersion.Symbols()
  {
  }

  /** The Dispersion unit type selects Dispersion's compact key table. */
  lemma DispersionKeys(k: Kind)
    requires k == DispersionUnit
    ensures KeyTable(k) == Dispersion.Keys()
  {
  }
}
