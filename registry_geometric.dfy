/**
 * The unit types of length, area, volume and angle: their symbol registries
 * (unit_registry.go), key tables (serialize_compact.go) and decoders,
 * selected by unit type.  The Go code selects all 22 in one switch
 * (unit_registry.go, lookupUnit and lookupUnitByName in quantity.go, the
 * dimension switch of serialize.go); the model splits that switch into a
 * few groups only so that each proof about it stays small.  The groups
 * follow no structure of the Go code.
 */
module GeometricUnits {
  import opened Results
  import opened JsonValue
  import opened Units
  import opened Quantities
  import SerializeCompact
  import Angle
  import Area
  import Length
  import Volume

  predicate Has(k: Kind) {
    k == LengthUnit || k == AreaUnit || k == VolumeUnit || k == AngleUnit
  }

  /** The predefined length units carry that type and its dimension string. */
  lemma LengthOfKind()
    ensures forall u | u in Length.All() :: OfKind(LengthUnit, u)
  {
  }

  /** The predefined area units carry that type and its dimension string. */
  lemma AreaOfKind()
    ensures forall u | u in Area.All() :: OfKind(AreaUnit, u)
  {
  }

  /** The predefined volume units carry that type and its dimension string. */
  lemma VolumeOfKind()
    ensures forall u | u in Volume.All() :: OfKind(VolumeUnit, u)
  {
  }

  /** The predefined angle units carry that type and its dimension string. */
  lemma AngleOfKind()
    ensures forall u | u in Angle.All() :: OfKind(AngleUnit, u)
  {
  }

  /** The symbol registry of a unit type; it holds only units of that type and dimension. */
  function SymbolTable(k: Kind): (r: map<string, Unit>)
    requires Has(k)
    ensures forall symbol | symbol in r :: OfKind(k, r[symbol])
  {
    if k == LengthUnit then Length.SymbolsHoldOnlyAll(); LengthOfKind(); Length.Symbols()
    else if k == AreaUnit then Area.SymbolsHoldOnlyAll(); AreaOfKind(); Area.Symbols()
    else if k == VolumeUnit then Volume.SymbolsHoldOnlyAll(); VolumeOfKind(); Volume.Symbols()
    else Angle.SymbolsHoldOnlyAll(); AngleOfKind(); Angle.Symbols()
  }

  /** The compact key table of a unit type; it holds only units of that type and dimension. */
  function KeyTable(k: Kind): (r: map<string, Unit>)
    requires Has(k)
    ensures forall key | key in r :: OfKind(k, r[key])
  {
    if k == LengthUnit then Length.KeysHoldOnlyAll(); LengthOfKind(); Length.Keys()
    else if k == AreaUnit then Area.KeysHoldOnlyAll(); AreaOfKind(); Area.Keys()
    else if k == VolumeUnit then Volume.KeysHoldOnlyAll(); VolumeOfKind(); Volume.Keys()
    else Angle.KeysHoldOnlyAll(); AngleOfKind(); Angle.Keys()
  }

  function Unmarshal(k: Kind, j: Json): (r: Result<Quantity>)
    requires Has(k)
    ensures r.Ok? ==> OfKind(k, r.value.unit)
  {
    match k
    case LengthUnit => LengthOfKind(); Length.Unmarshal(j)
    case AreaUnit => AreaOfKind(); Area.Unmarshal(j)
    case VolumeUnit => VolumeOfKind(); Volume.Unmarshal(j)
    case AngleUnit => AngleOfKind(); Angle.Unmarshal(j)
  }

  function UnmarshalCompact(k: Kind, j: Json): (r: Result<Quantity>)
    requires Has(k)
    ensures r.Ok? <==> SerializeCompact.DecodeCompactJson(j).Some? && SerializeCompact.DecodeCompactJson(j).value.unit in KeyTable(k)
    ensures r.Ok? ==> r.value == New(SerializeCompact.DecodeCompactJson(j).value.value, KeyTable(k)[SerializeCompact.DecodeCompactJson(j).value.unit])
    ensures r.Ok? ==> OfKind(k, r.value.unit)
  {
    match k
    case LengthUnit => LengthOfKind(); LengthKeys(k); Length.UnmarshalCompact(j)
    case AreaUnit => AreaOfKind(); AreaKeys(k); Area.UnmarshalCompact(j)
    case VolumeUnit => VolumeOfKind(); VolumeKeys(k); Volume.UnmarshalCompact(j)
    case AngleUnit => AngleOfKind(); AngleKeys(k); Angle.UnmarshalCompact(j)
  }

  /** The Length unit type selects Length.Unmarshal. */
  lemma LengthDecoder(k: Kind, j: Json)
    requires k == LengthUnit
    ensures Unmarshal(k, j) == Length.Unmarshal(j)
  {
  }

  /** The Area unit type selects Area.Unmarshal. */
  lemma AreaDecoder(k: Kind, j: Json)
    requires k == AreaUnit
    ensures Unmarshal(k, j) == Area.Unmarshal(j)
  {
  }

  /** The Volume unit type selects Volume.Unmarshal. */
  lemma VolumeDecoder(k: Kind, j: Json)
    requires k == VolumeUnit
    ensures Unmarshal(k, j) == Volume.Unmarshal(j)
  {
  }

  /** The Angle unit type selects Angle.Unmarshal. */
  lemma AngleDecoder(k: Kind, j: Json)
    requires k == AngleUnit
    ensures Unmarshal(k, j) == Angle.Unmarshal(j)
  {
  }

  /** The Length unit type selects Length's symbol registry. */
  lemma LengthSymbols(k: Kind)
    requires k == LengthUnit
    ensures SymbolTable(k) == Length.Symbols()
  {
  }

  /** The Length unit type selects Length's compact key table. */
  lemma LengthKeys(k: Kind)
    requires k == LengthUnit
    ensures KeyTable(k) == Length.Keys()
  {
  }

  /** The Area unit type selects Area's symbol registry. */
  lemma AreaSymbols(k: Kind)
    requires k == AreaUnit
    ensures SymbolTable(k) == Area.Symbols()
  {
  }

  /** The Area unit type selects Area's compact key table. */
  lemma AreaKeys(k: Kind)
    requires k == AreaUnit
    ensures KeyTable(k) == Area.Keys()
  {
  }

  /** The Volume unit type selects Volume's symbol registry. */
  lemma VolumeSymbols(k: Kind)
    requires k == VolumeUnit
    ensures SymbolTable(k) == Volume.Symbols()
  {
  }

  /** The Volume unit type selects Volume's compact key table. */
  lemma VolumeKeys(k: Kind)
    requires k == VolumeUnit
    ensures KeyTable(k) == Volume.Keys()
  {
  }

  /** The Angle unit type selects Angle's symbol registry. */
  lemma AngleSymbols(k: Kind)
    requires k == AngleUnit
    ensures SymbolTable(k) == Angle.Symbols()
  {
  }

  /** The Angle unit type selects Angle's compact key table. */
  lemma AngleKeys(k: Kind)
    requires k == AngleUnit
    ensures KeyTable(k) == Angle.Keys()
  {
  }
}
