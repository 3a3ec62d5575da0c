/**
 * BaseUnit (unit.go): a unit of one dimension with an affine conversion to
 * the dimension's base unit, and the unit types built on it.
 */
module Units {
  import opened Results

  /** A unit: value-in-base = value * coefficient + offset, unless it is the base unit itself. */
  datatype BaseUnit = BaseUnit(
    dimension: string,
    symbol: string,
    name: string,
    coefficient: real,
    offset: real,
    isBase: bool)

  function NewBaseUnit(dimension: string, symbol: string, name: string,
                       coefficient: real, offset: real, isBase: bool): (u: BaseUnit)
    ensures u.dimension == dimension && u.symbol == symbol && u.name == name
    ensures u.coefficient == coefficient && u.offset == offset && u.isBase == isBase
  {
    BaseUnit(dimension, symbol, name, coefficient, offset, isBase)
  }

  /** The base unit leaves a value alone; every other unit applies its affine map. */
  function ConvertToBaseUnit(u: BaseUnit, value: real): (r: real)
    ensures u.isBase ==> r == value
    ensures !u.isBase ==> r == value * u.coefficient + u.offset
  {
    if u.isBase then value
    else if u.offset != 0.0 then value * u.coefficient + u.offset
    else value * u.coefficient
  }

  /** The inverse of the affine map.  A zero coefficient (a division by zero in Go) is excluded. */
  function ConvertFromBaseUnit(u: BaseUnit, value: real): (r: real)
    requires u.isBase || u.coefficient != 0.0
    ensures u.isBase ==> r == value
    ensures !u.isBase ==> r * u.coefficient + u.offset == value
  {
    if u.isBase then value
    else if u.offset != 0.0 then (value - u.offset) / u.coefficient
    else value / u.coefficient
  }

  lemma FromBaseUndoesToBase(u: BaseUnit, value: real)
    requires u.isBase || u.coefficient != 0.0
    ensures ConvertFromBaseUnit(u, ConvertToBaseUnit(u, value)) == value
  {
    if !u.isBase {
      var b := ConvertToBaseUnit(u, value);
      var r := ConvertFromBaseUnit(u, b);
      assert r * u.coefficient == value * u.coefficient;
    }
  }

  lemma ToBaseUndoesFromBase(u: BaseUnit, value: real)
    requires u.isBase || u.coefficient != 0.0
    ensures ConvertToBaseUnit(u, ConvertFromBaseUnit(u, value)) == value
  {
  }

  /** Two units are the same when dimension and symbol agree; name and factors are not compared. */
  function Equals(u: BaseUnit, other: BaseUnit): (r: bool)
    ensures r <==> u.dimension == other.dimension && u.symbol == other.symbol
  {
    if u.dimension != other.dimension then false
    else u.symbol == other.symbol
  }

  lemma EqualsIsEquivalence(a: BaseUnit, b: BaseUnit, c: BaseUnit)
    ensures Equals(a, a)
    ensures Equals(a, b) == Equals(b, a)
    ensures Equals(a, b) && Equals(b, c) ==> Equals(a, c)
  {
  }

  /**
   * The Go unit types (TemperatureUnit, PressureUnit, ...), each a BaseUnit
   * under its own type; the type decides which methods apply (fuel
   * efficiency overrides the conversions) and which type assertions succeed.
   */
  datatype Kind =
    | TemperatureUnit | PressureUnit | FlowRateUnit | PowerUnit | EnergyUnit
    | LengthUnit | MassUnit | DurationUnit | AngleUnit | AreaUnit | VolumeUnit
    | AccelerationUnit | ConcentrationUnit | DispersionUnit | SpeedUnit
    | ElectricChargeUnit | ElectricCurrentUnit | ElectricPotentialDifferenceUnit
    | FrequencyUnit | IlluminanceUnit | InformationUnit | FuelEfficiencyUnit
    | GeneralUnit

  /** A value of one of the unit types. */
  datatype Unit = Unit(kind: Kind, base: BaseUnit)

  /** The zero value of a unit type (`var zero T`). */
  function ZeroUnit(k: Kind): (u: Unit)
    ensures u.kind == k && u.base.symbol == "" && u.base.dimension == ""
  {
    Unit(k, BaseUnit("", "", "", 0.0, 0.0, false))
  }

  /** The dimension string every predefined unit of a type carries, and the label the decoders switch on. */
  function DimensionName(k: Kind): string
  {
    match k
    case TemperatureUnit => "temperature"
    case PressureUnit => "pressure"
    case FlowRateUnit => "flowrate"
    case PowerUnit => "power"
    case EnergyUnit => "energy"
    case LengthUnit => "length"
    case MassUnit => "mass"
    case DurationUnit => "duration"
    case AngleUnit => "angle"
    case AreaUnit => "area"
    case VolumeUnit => "volume"
    case AccelerationUnit => "acceleration"
    case ConcentrationUnit => "concentration"
    case DispersionUnit => "dispersion"
    case SpeedUnit => "speed"
    case ElectricChargeUnit => "electric_charge"
    case ElectricCurrentUnit => "electric_current"
    case ElectricPotentialDifferenceUnit => "electric_potential_difference"
    case FrequencyUnit => "frequency"
    case IlluminanceUnit => "illuminance"
    case InformationUnit => "information"
    case FuelEfficiencyUnit => "fuel_efficiency"
    case GeneralUnit => "general"
  }

  /** The dimension switch shared by lookupUnit, lookupUnitByName and the decoders. */
  function KindOfDimension(d: string): Option<Kind>
  {
    match d
    case "temperature" => Some(TemperatureUnit)
    case "pressure" => Some(PressureUnit)
    case "flowrate" => Some(FlowRateUnit)
    case "power" => Some(PowerUnit)
    case "energy" => Some(EnergyUnit)
    case "length" => Some(LengthUnit)
    case "mass" => Some(MassUnit)
    case "duration" => Some(DurationUnit)
    case "angle" => Some(AngleUnit)
    case "area" => Some(AreaUnit)
    case "volume" => Some(VolumeUnit)
    case "acceleration" => Some(AccelerationUnit)
    case "concentration" => Some(ConcentrationUnit)
    case "dispersion" => Some(DispersionUnit)
    case "speed" => Some(SpeedUnit)
    case "electric_charge" => Some(ElectricChargeUnit)
    case "electric_current" => Some(ElectricCurrentUnit)
    case "electric_potential_difference" => Some(ElectricPotentialDifferenceUnit)
    case "frequency" => Some(FrequencyUnit)
    case "illuminance" => Some(IlluminanceUnit)
    case "information" => Some(InformationUnit)
    case "fuel_efficiency" => Some(FuelEfficiencyUnit)
    case "general" => Some(GeneralUnit)
    case _ => None
  }

  /** Every unit type is reached by its own dimension string. */
  lemma KindOfDimensionName(k: Kind)
    ensures KindOfDimension(DimensionName(k)) == Some(k)
  {
  }

  /** The dimension switch reaches a unit type only by that type's own dimension string. */
  lemma DimensionOfKind(d: string)
    ensures KindOfDimension(d).Some? ==> DimensionName(KindOfDimension(d).value) == d
  {
  }

  /** A unit carries the type and the dimension string of unit type k. */
  predicate OfKind(k: Kind, u: Unit) {
    u.kind == k && u.base.dimension == DimensionName(k)
  }
}
