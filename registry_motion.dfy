/**
 * The unit types of duration, frequency, speed and acceleration: their symbol registries
 * (unit_registry.go), key tables (serialize_compact.go) and decoders,
 * selected by unit type.  The Go code selects all 22 in one switch
 * (unit_registry.go, lookupUnit and lookupUnitByName in quantity.go, the
 * dimension switch of serialize.go); the model splits that switch into a
 * few groups only so that each proof about it stays small.  The groups
 * follow no structure of the Go code.
 */
module MotionUnits {
  import opened Results
  import opened JsonValue
  import opened Units
  import opened Quantities
  import SerializeCompact
  import Acceleration
  import Duration
  import Frequency
  import Speed

  predicate Has(k: Kind) {
    k == DurationUnit || k == FrequencyUnit || k == SpeedUnit || k == AccelerationUnit
  }

  /** The predefined duration units carry that type and its dimension string. */
  lemma DurationOfKind()
    ensures forall u | u in Duration.All() :: OfKind(DurationUnit, u)
  {
  }

  /** The predefined frequency units carry that type and its dimension string. */
  lemma FrequencyOfKind()
    ensures forall u | u in Frequency.All() :: OfKind(FrequencyUnit, u)
  {
  }

  /** The predefined speed units carry that type and its dimension string. */
  lemma SpeedOfKind()
    ensures forall u | u in Speed.All() :: OfKind(SpeedUnit, u)
  {
  }

  /** The predefined acceleration units carry that type and its dimension string. */
  lemma AccelerationOfKind()
    ensures forall u | u in Acceleration.All() :: OfKind(AccelerationUnit, u)
  {
  }

  /** The symbol registry of a unit type; it holds only units of that type and dimension. */
  function SymbolTable(k: Kind): (r: map<string, Unit>)
    requires Has(k)
    ensures forall symbol | symbol in r :: OfKind(k, r[symbol])
  {
    if k == DurationUnit then Duration.SymbolsHoldOnlyAll(); DurationOfKind(); Duration.Symbols()
    else if k == FrequencyUnit then Frequency.SymbolsHoldOnlyAll(); FrequencyOfKind(); Frequency.Symbols()
    else if k == SpeedUnit then Speed.SymbolsHoldOnlyAll(); SpeedOfKind(); Speed.Symbols()
    else Acceleration.SymbolsHoldOnlyAll(); AccelerationOfKind(); Acceleration.Symbols()
  }

  /** The compact key table of a unit type; it holds only units of that type and dimension. */
  function KeyTable(k: Kind): (r: map<string, Unit>)
    requires Has(k)
    ensures forall key | key in r :: OfKind(k, r[key])
  {
    if k == DurationUnit then Duration.KeysHoldOnlyAll(); DurationOfKind(); Duration.Keys()
    else if k == FrequencyUnit then Frequency.KeysHoldOnlyAll(); FrequencyOfKind(); Frequency.Keys()
    else if k == SpeedUnit then Speed.KeysHoldOnlyAll(); SpeedOfKind(); Speed.Keys()
    else Acceleration.KeysHoldOnlyAll(); AccelerationOfKind(); Acceleration.Keys()
  }

  function Unmarshal(k: Kind, j: Json): (r: Result<Quantity>)
    requires Has(k)
    ensures r.Ok? ==> OfKind(k, r.value.unit)
  {
    match k
    case DurationUnit => DurationOfKind(); Duration.Unmarshal(j)
    case FrequencyUnit => FrequencyOfKind(); Frequency.Unmarshal(j)
    case SpeedUnit => SpeedOfKind(); Speed.Unmarshal(j)
    case AccelerationUnit => AccelerationOfKind(); Acceleration.Unmarshal(j)
  }

  function UnmarshalCompact(k: Kind, j: Json): (r: Result<Quantity>)
    requires Has(k)
    ensures r.Ok? <==> SerializeCompact.DecodeCompactJson(j).Some? && SerializeCompact.DecodeCompactJson(j).value.unit in KeyTable(k)
    ensures r.Ok? ==> r.value == New(SerializeCompact.DecodeCompactJson(j).value.value, KeyTable(k)[SerializeCompact.DecodeCompactJson(j).value.unit])
    ensures r.Ok? ==> OfKind(k, r.value.unit)
  {
    match k
    case DurationUnit => DurationOfKind(); DurationKeys(k); Duration.UnmarshalCompact(j)
    case FrequencyUnit => FrequencyOfKind(); FrequencyKeys(k); Frequency.UnmarshalCompact(j)
    case SpeedUnit => SpeedOfKind(); SpeedKeys(k); Speed.UnmarshalCompact(j)
    case AccelerationUnit => AccelerationOfKind(); AccelerationKeys(k); Acceleration.UnmarshalCompact(j)
  }

  /** The Duration unit type selects Duration.Unmarshal. */
  lemma DurationDecoder(k: Kind, j: Json)
    requires k == DurationUnit
    ensures Unmarshal(k, j) == Duration.Unmarshal(j)
  {
  }

  /** The Frequency unit type selects Frequency.Unmarshal. */
  lemma FrequencyDecoder(k: Kind, j: Json)
    requires k == FrequencyUnit
    ensures Unmarshal(k, j) == Frequency.Unmarshal(j)
  {
  }

  /** The Speed unit type selects Speed.Unmarshal. */
  lemma SpeedDecoder(k: Kind, j: Json)
    requires k == SpeedUnit
    ensures Unmarshal(k, j) == Speed.Unmarshal(j)
  {
  }

  /** The Acceleration unit type selects Acceleration.Unmarshal. */
  lemma AccelerationDecoder(k: Kind, j: Json)
    requires k == AccelerationUnit
    ensures Unmarshal(k, j) == Acceleration.Unmarshal(j)
  {
  }

  /** The Duration unit type selects Duration's symbol registry. */
  lemma DurationSymbols(k: Kind)
    requires k == DurationUnit
    ensures SymbolTable(k) == Duration.Symbols()
  {
  }

  /** The Duration unit type selects Duration's compact key table. */
  lemma DurationKeys(k: Kind)
    requires k == DurationUnit
    ensures KeyTable(k) == Duration.Keys()
  {
  }

  /** The Frequency unit type selects Frequency's symbol registry. */
  lemma FrequencySymbols(k: Kind)
    requires k == FrequencyUnit
    ensures SymbolTable(k) == Frequency.Symbols()
  {
  }

  /** The Frequency unit type selects Frequency's compact key table. */
  lemma FrequencyKeys(k: Kind)
    requires k == FrequencyUnit
    ensures KeyTable(k) == Frequency.Keys()
  {
  }

  /** The Speed unit type selects Speed's symbol registry. */
  lemma SpeedSymbols(k: Kind)
    requires k == SpeedUnit
    ensures SymbolTable(k) == Speed.Symbols()
  {
  }

  /** The Speed unit type selects Speed's compact key table. */
  lemma SpeedKeys(k: Kind)
    requires k == SpeedUnit
    ensures KeyTable(k) == Speed.Keys()
  {
  }

  /** The Acceleration unit type selects Acceleration's symbol registry. */
  lemma AccelerationSymbols(k: Kind)
    requires k == AccelerationUnit
    ensures SymbolTable(k) == Acceleration.Symbols()
  {
  }

  /** The Acceleration unit type selects Acceleration's compact key table. */
  lemma AccelerationKeys(k: Kind)
    requires k == AccelerationUnit
    ensures KeyTable(k) == Acceleration.Keys()
  {
  }
}
