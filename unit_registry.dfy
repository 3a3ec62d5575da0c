/**
 * The registries selected by unit type: the Lookup<Dimension>Unit function
 * (unit_registry.go:206-335), the key table (serialize_compact.go:14-206)
 * and the Unmarshal<Dimension> and UnmarshalCompact<Dimension> decoders of
 * a unit type, as lookupUnit, lookupUnitByName and the measurement decoders
 * call them.  The dispatch goes through groups of unit types, one module
 * each, which keeps each proof small; the <Kind>Registry, <Kind>Keys and
 * <Kind>Decoder lemmas name the table and decoder each unit type selects.
 */
module UnitRegistry {
  import opened Results
  import opened JsonValue
  import opened Units
  import opened Quantities
  import SerializeCompact
  import FuelEfficiency
  import Acceleration
  import Angle
  import Area
  import Concentration
  import Dispersion
  import Duration
  import ElectricCharge
  import ElectricCurrent
  import ElectricPotentialDifference
  import Energy
  import FlowRate
  import Frequency
  import Illuminance
  import Information
  import Length
  import Mass
  import Power
  import Pressure
  import Speed
  import Temperature
  import Volume
  import ThermalUnits
  import GeometricUnits
  import MotionUnits
  import ElectricalUnits
  import MaterialUnits
  import OtherUnits

  /** Every unit type but the general one has a symbol registry and a key table. */
  predicate HasTables(k: Kind) {
    k != GeneralUnit
  }

  /** The symbol registry of a unit type; it holds only units of that type and dimension. */
  function SymbolTable(k: Kind): (r: map<string, Unit>)
    requires HasTables(k)
    ensures forall symbol | symbol in r :: OfKind(k, r[symbol])
  {
    if ThermalUnits.Has(k) then ThermalUnits.SymbolTable(k)
    else if GeometricUnits.Has(k) then GeometricUnits.SymbolTable(k)
    else if MotionUnits.Has(k) then MotionUnits.SymbolTable(k)
    else if ElectricalUnits.Has(k) then ElectricalUnits.SymbolTable(k)
    else if MaterialUnits.Has(k) then MaterialUnits.SymbolTable(k)
    else if OtherUnits.Has(k) then OtherUnits.SymbolTable(k)
    else assert false; map[]
  }

  /** Lookup<Dimension>Unit of unit type k: the registered unit and true, or the zero unit and false. */
  function Lookup(k: Kind, symbol: string): (r: (Unit, bool))
    requires HasTables(k)
    ensures r.1 <==> symbol in SymbolTable(k)
    ensures r.1 ==> r.0 == SymbolTable(k)[symbol] && OfKind(k, r.0)
    ensures !r.1 ==> r.0 == ZeroUnit(k)
  {
    if symbol in SymbolTable(k) then (SymbolTable(k)[symbol], true)
    else (ZeroUnit(k), false)
  }

  /** The compact key table of a unit type; it holds only units of that type and dimension. */
  function KeyTable(k: Kind): (r: map<string, Unit>)
    requires HasTables(k)
    ensures forall key | key in r :: OfKind(k, r[key])
  {
    if ThermalUnits.Has(k) then ThermalUnits.KeyTable(k)
    else if GeometricUnits.Has(k) then GeometricUnits.KeyTable(k)
    else if MotionUnits.Has(k) then MotionUnits.KeyTable(k)
    else if ElectricalUnits.Has(k) then ElectricalUnits.KeyTable(k)
    else if MaterialUnits.Has(k) then MaterialUnits.KeyTable(k)
    else if OtherUnits.Has(k) then OtherUnits.KeyTable(k)
    else assert false; map[]
  }

  /** The <dimension>UnitsByKey lookup of unit type k: the unit under the key and true, or the zero unit and false. */
  function LookupKey(k: Kind, key: string): (r: (Unit, bool))
    requires HasTables(k)
    ensures r.1 <==> key in KeyTable(k)
    ensures r.1 ==> r.0 == KeyTable(k)[key] && OfKind(k, r.0)
    ensures !r.1 ==> r.0 == ZeroUnit(k)
  {
    if key in KeyTable(k) then (KeyTable(k)[key], true)
    else (ZeroUnit(k), false)
  }

  /** UnmarshalFuelEfficiency panics on 0 L/100km (NewFuelEfficiency); no other decoder can. */
  predicate CanUnmarshal(k: Kind, j: Json) {
    k == FuelEfficiencyUnit ==> FuelEfficiency.CanUnmarshal(j)
  }

  /** Unmarshal<Dimension> of unit type k: a quantity in a unit of that type and dimension, or an error. */
  function Unmarshal(k: Kind, j: Json): (r: Result<Quantity>)
    requires HasTables(k) && CanUnmarshal(k, j)
    ensures r.Ok? ==> OfKind(k, r.value.unit)
  {
    if ThermalUnits.Has(k) then ThermalUnits.Unmarshal(k, j)
    else if GeometricUnits.Has(k) then GeometricUnits.Unmarshal(k, j)
    else if MotionUnits.Has(k) then MotionUnits.Unmarshal(k, j)
    else if ElectricalUnits.Has(k) then ElectricalUnits.Unmarshal(k, j)
    else if MaterialUnits.Has(k) then MaterialUnits.Unmarshal(k, j)
    else if OtherUnits.Has(k) then OtherUnits.Unmarshal(k, j)
    else assert false; Err(UnknownDimension(""))
  }

  /** UnmarshalCompactFuelEfficiency panics on 0 L/100km; no other compact decoder can. */
  predicate CanUnmarshalCompact(k: Kind, j: Json) {
    k == FuelEfficiencyUnit ==> FuelEfficiency.CanUnmarshalCompact(j)
  }

  /** UnmarshalCompact<Dimension> of unit type k: the unit of the key in its table, the value copied. */
  function UnmarshalCompact(k: Kind, j: Json): (r: Result<Quantity>)
    requires HasTables(k) && CanUnmarshalCompact(k, j)
    ensures r.Ok? <==> SerializeCompact.DecodeCompactJson(j).Some? && SerializeCompact.DecodeCompactJson(j).value.unit in KeyTable(k)
    ensures r.Ok? ==> r.value == New(SerializeCompact.DecodeCompactJson(j).value.value, KeyTable(k)[SerializeCompact.DecodeCompactJson(j).value.unit])
  {
    if ThermalUnits.Has(k) then ThermalUnits.UnmarshalCompact(k, j)
    else if GeometricUnits.Has(k) then GeometricUnits.UnmarshalCompact(k, j)
    else if MotionUnits.Has(k) then MotionUnits.UnmarshalCompact(k, j)
    else if ElectricalUnits.Has(k) then ElectricalUnits.UnmarshalCompact(k, j)
    else if MaterialUnits.Has(k) then MaterialUnits.UnmarshalCompact(k, j)
    else if OtherUnits.Has(k) then OtherUnits.UnmarshalCompact(k, j)
    else assert false; Err(UnknownDimension(""))
  }



  /** The unit types of ThermalUnits reach its symbol registry. */
  lemma InThermalSymbols(k: Kind)
    requires ThermalUnits.Has(k)
    ensures SymbolTable(k) == ThermalUnits.SymbolTable(k)
  {
  }

  /** The unit types of ThermalUnits reach its key table. */
  lemma InThermalKeys(k: Kind)
    requires ThermalUnits.Has(k)
    ensures KeyTable(k) == ThermalUnits.KeyTable(k)
  {
  }

  /** The unit types of ThermalUnits reach its decoder. */
  lemma InThermalDecoder(k: Kind, j: Json)
    requires ThermalUnits.Has(k) && CanUnmarshal(k, j)
    ensures Unmarshal(k, j) == ThermalUnits.Unmarshal(k, j)
  {
  }

  /** A unit type of GeometricUnits belongs to no earlier family of the switch. */
  lemma GeometricNotEarlier(k: Kind)
    requires GeometricUnits.Has(k)
    ensures !ThermalUnits.Has(k)
  {
  }

  /** The unit types of GeometricUnits reach its symbol registry. */
  lemma InGeometricSymbols(k: Kind)
    requires GeometricUnits.Has(k)
    ensures SymbolTable(k) == GeometricUnits.SymbolTable(k)
  {
    GeometricNotEarlier(k);
  }

  /** The unit types of GeometricUnits reach its key table. */
  lemma InGeometricKeys(k: Kind)
    requires GeometricUnits.Has(k)
    ensures KeyTable(k) == GeometricUnits.KeyTable(k)
  {
    GeometricNotEarlier(k);
  }

  /** The unit types of GeometricUnits reach its decoder. */
  lemma InGeometricDecoder(k: Kind, j: Json)
    requires GeometricUnits.Has(k) && CanUnmarshal(k, j)
    ensures Unmarshal(k, j) == GeometricUnits.Unmarshal(k, j)
  {
    GeometricNotEarlier(k);
  }

  /** A unit type of MotionUnits belongs to no earlier family of the switch. */
  lemma MotionNotEarlier(k: Kind)
    requires MotionUnits.Has(k)
    ensures !ThermalUnits.Has(k) && !GeometricUnits.Has(k)
  {
  }

  /** The unit types of MotionUnits reach its symbol registry. */
  lemma InMotionSymbols(k: Kind)
    requires MotionUnits.Has(k)
    ensures SymbolTable(k) == MotionUnits.SymbolTable(k)
  {
    MotionNotEarlier(k);
  }

  /** The unit types of MotionUnits reach its key table. */
  lemma InMotionKeys(k: Kind)
    requires MotionUnits.Has(k)
    ensures KeyTable(k) == MotionUnits.KeyTable(k)
  {
    MotionNotEarlier(k);
  }

  /** The unit types of MotionUnits reach its decoder. */
  lemma InMotionDecoder(k: Kind, j: Json)
    requires MotionUnits.Has(k) && CanUnmarshal(k, j)
    ensures Unmarshal(k, j) == MotionUnits.Unmarshal(k, j)
  {
    MotionNotEarlier(k);
  }

  /** A unit type of ElectricalUnits belongs to no earlier family of the switch. */
  lemma ElectricalNotEarlier(k: Kind)
    requires ElectricalUnits.Has(k)
    ensures !ThermalUnits.Has(k) && !GeometricUnits.Has(k) && !MotionUnits.Has(k)
  {
  }

  /** The unit types of ElectricalUnits reach its symbol registry. */
  lemma InElectricalSymbols(k: Kind)
    requires ElectricalUnits.Has(k)
    ensures SymbolTable(k) == ElectricalUnits.SymbolTable(k)
  {
    ElectricalNotEarlier(k);
  }

  /** The unit types of ElectricalUnits reach its key table. */
  lemma InElectricalKeys(k: Kind)
    requires ElectricalUnits.Has(k)
    ensures KeyTable(k) == ElectricalUnits.KeyTable(k)
  {
    ElectricalNotEarlier(k);
  }

  /** The unit types of ElectricalUnits reach its decoder. */
  lemma InElectricalDecoder(k: Kind, j: Json)
    requires ElectricalUnits.Has(k) && CanUnmarshal(k, j)
    ensures Unmarshal(k, j) == ElectricalUnits.Unmarshal(k, j)
  {
    ElectricalNotEarlier(k);
  }

  /** A unit type of MaterialUnits belongs to no earlier family of the switch. */
  lemma MaterialNotEarlier(k: Kind)
    requires MaterialUnits.Has(k)
    ensures !ThermalUnits.Has(k) && !GeometricUnits.Has(k) && !MotionUnits.Has(k) && !ElectricalUnits.Has(k)
  {
  }

  /** The unit types of MaterialUnits reach its symbol registry. */
  lemma InMaterialSymbols(k: Kind)
    requires MaterialUnits.Has(k)
    ensures SymbolTable(k) == MaterialUnits.SymbolTable(k)
  {
    MaterialNotEarlier(k);
  }

  /** The unit types of MaterialUnits reach its key table. */
  lemma InMaterialKeys(k: Kind)
    requires MaterialUnits.Has(k)
    ensures KeyTable(k) == MaterialUnits.KeyTable(k)
  {
    MaterialNotEarlier(k);
  }

  /** The unit types of MaterialUnits reach its decoder. */
  lemma InMaterialDecoder(k: Kind, j: Json)
    requires MaterialUnits.Has(k) && CanUnmarshal(k, j)
    ensures Unmarshal(k, j) == MaterialUnits.Unmarshal(k, j)
  {
    MaterialNotEarlier(k);
  }

  /** A unit type of OtherUnits belongs to no earlier family of the switch. */
  lemma OtherNotEarlier(k: Kind)
    requires OtherUnits.Has(k)
    ensures !ThermalUnits.Has(k) && !GeometricUnits.Has(k) && !MotionUnits.Has(k) && !ElectricalUnits.Has(k) && !MaterialUnits.Has(k)
  {
  }

  /** The unit types of OtherUnits reach its symbol registry. */
  lemma InOtherSymbols(k: Kind)
    requires OtherUnits.Has(k)
    ensures SymbolTable(k) == OtherUnits.SymbolTable(k)
  {
    OtherNotEarlier(k);
  }

  /** The unit types of OtherUnits reach its key table. */
  lemma InOtherKeys(k: Kind)
    requires OtherUnits.Has(k)
    ensures KeyTable(k) == OtherUnits.KeyTable(k)
  {
    OtherNotEarlier(k);
  }

  /** The unit types of OtherUnits reach its decoder. */
  lemma InOtherDecoder(k: Kind, j: Json)
    requires OtherUnits.Has(k) && CanUnmarshal(k, j)
    ensures Unmarshal(k, j) == OtherUnits.Unmarshal(k, j)
  {
    OtherNotEarlier(k);
  }

  /** The temperature unit type selects the temperature symbol registry, as lookupUnit does. */
  lemma TemperatureRegistry()
    ensures SymbolTable(TemperatureUnit) == Temperature.Symbols()
  {
    InThermalSymbols(TemperatureUnit);
    ThermalUnits.TemperatureSymbols(TemperatureUnit);
  }

  /** The temperature unit type selects the temperature compact key table, as lookupUnitByName does. */
  lemma TemperatureKeys()
    ensures KeyTable(TemperatureUnit) == Temperature.Keys()
  {
    InThermalKeys(TemperatureUnit);
    ThermalUnits.TemperatureKeys(TemperatureUnit);
  }

  /** The temperature unit type selects UnmarshalTemperature. */
  lemma TemperatureDecoder(j: Json)
    ensures CanUnmarshal(TemperatureUnit, j) && Unmarshal(TemperatureUnit, j) == Temperature.Unmarshal(j)
  {
    InThermalDecoder(TemperatureUnit, j);
    ThermalUnits.TemperatureDecoder(TemperatureUnit, j);
  }

  /** The pressure unit type selects the pressure symbol registry, as lookupUnit does. */
  lemma PressureRegistry()
    ensures SymbolTable(PressureUnit) == Pressure.Symbols()
  {
    InThermalSymbols(PressureUnit);
    ThermalUnits.PressureSymbols(PressureUnit);
  }

  /** The pressure unit type selects the pressure compact key table, as lookupUnitByName does. */
  lemma PressureKeys()
    ensures KeyTable(PressureUnit) == Pressure.Keys()
  {
    InThermalKeys(PressureUnit);
    ThermalUnits.PressureKeys(PressureUnit);
  }

  /** The pressure unit type selects UnmarshalPressure. */
  lemma PressureDecoder(j: Json)
    ensures CanUnmarshal(PressureUnit, j) && Unmarshal(PressureUnit, j) == Pressure.Unmarshal(j)
  {
    InThermalDecoder(PressureUnit, j);
    ThermalUnits.PressureDecoder(PressureUnit, j);
  }

  /** The flow rate unit type selects the flow rate symbol registry, as lookupUnit does. */
  lemma FlowRateRegistry()
    ensures SymbolTable(FlowRateUnit) == FlowRate.Symbols()
  {
    InThermalSymbols(FlowRateUnit);
    ThermalUnits.FlowRateSymbols(FlowRateUnit);
  }

  /** The flow rate unit type selects the flow rate compact key table, as lookupUnitByName does. */
  lemma FlowRateKeys()
    ensures KeyTable(FlowRateUnit) == FlowRate.Keys()
  {
    InThermalKeys(FlowRateUnit);
    ThermalUnits.FlowRateKeys(FlowRateUnit);
  }

  /** The flow rate unit type selects UnmarshalFlowRate. */
  lemma FlowRateDecoder(j: Json)
    ensures CanUnmarshal(FlowRateUnit, j) && Unmarshal(FlowRateUnit, j) == FlowRate.Unmarshal(j)
  {
    InThermalDecoder(FlowRateUnit, j);
    ThermalUnits.FlowRateDecoder(FlowRateUnit, j);
  }

  /** The power unit type selects the power symbol registry, as lookupUnit does. */
  lemma PowerRegistry()
    ensures SymbolTable(PowerUnit) == Power.Symbols()
  {
    InThermalSymbols(PowerUnit);
    ThermalUnits.PowerSymbols(PowerUnit);
  }

  /** The power unit type selects the power compact key table, as lookupUnitByName does. */
  lemma PowerKeys()
    ensures KeyTable(PowerUnit) == Power.Keys()
  {
    InThermalKeys(PowerUnit);
    ThermalUnits.PowerKeys(PowerUnit);
  }

  /** The power unit type selects UnmarshalPower. */
  lemma PowerDecoder(j: Json)
    ensures CanUnmarshal(PowerUnit, j) && Unmarshal(PowerUnit, j) == Power.Unmarshal(j)
  {
    InThermalDecoder(PowerUnit, j);
    ThermalUnits.PowerDecoder(PowerUnit, j);
  }

  /** The energy unit type selects the energy symbol registry, as lookupUnit does. */
  lemma EnergyRegistry()
    ensures SymbolTable(EnergyUnit) == Energy.Symbols()
  {
    InThermalSymbols(EnergyUnit);
    ThermalUnits.EnergySymbols(EnergyUnit);
  }

  /** The energy unit type selects the energy compact key table, as lookupUnitByName does. */
  lemma EnergyKeys()
    ensures KeyTable(EnergyUnit) == Energy.Keys()
  {
    InThermalKeys(EnergyUnit);
    ThermalUnits.EnergyKeys(EnergyUnit);
  }

  /** The energy unit type selects UnmarshalEnergy. */
  lemma EnergyDecoder(j: Json)
    ensures CanUnmarshal(EnergyUnit, j) && Unmarshal(EnergyUnit, j) == Energy.Unmarshal(j)
  {
    InThermalDecoder(EnergyUnit, j);
    ThermalUnits.EnergyDecoder(EnergyUnit, j);
  }

  /** The length unit type selects the length symbol registry, as lookupUnit does. */
  lemma LengthRegistry()
    ensures SymbolTable(LengthUnit) == Length.Symbols()
  {
    InGeometricSymbols(LengthUnit);
    GeometricUnits.LengthSymbols(LengthUnit);
  }

  /** The length unit type selects the length compact key table, as lookupUnitByName does. */
  lemma LengthKeys()
    ensures KeyTable(LengthUnit) == Length.Keys()
  {
    InGeometricKeys(LengthUnit);
    GeometricUnits.LengthKeys(LengthUnit);
  }

  /** The length unit type selects UnmarshalLength. */
  lemma LengthDecoder(j: Json)
    ensures CanUnmarshal(LengthUnit, j) && Unmarshal(LengthUnit, j) == Length.Unmarshal(j)
  {
    InGeometricDecoder(LengthUnit, j);
    GeometricUnits.LengthDecoder(LengthUnit, j);
  }

  /** The area unit type selects the area symbol registry, as lookupUnit does. */
  lemma AreaRegistry()
    ensures SymbolTable(AreaUnit) == Area.Symbols()
  {
    InGeometricSymbols(AreaUnit);
    GeometricUnits.AreaSymbols(AreaUnit);
  }

  /** The area unit type selects the area compact key table, as lookupUnitByName does. */
  lemma AreaKeys()
    ensures KeyTable(AreaUnit) == Area.Keys()
  {
    InGeometricKeys(AreaUnit);
    GeometricUnits.AreaKeys(AreaUnit);
  }

  /** The area unit type selects UnmarshalArea. */
  lemma AreaDecoder(j: Json)
    ensures CanUnmarshal(AreaUnit, j) && Unmarshal(AreaUnit, j) == Area.Unmarshal(j)
  {
    InGeometricDecoder(AreaUnit, j);
    GeometricUnits.AreaDecoder(AreaUnit, j);
  }

  /** The volume unit type selects the volume symbol registry, as lookupUnit does. */
  lemma VolumeRegistry()
    ensures SymbolTable(VolumeUnit) == Volume.Symbols()
  {
    InGeometricSymbols(VolumeUnit);
    GeometricUnits.VolumeSymbols(VolumeUnit);
  }

  /** The volume unit type selects the volume compact key table, as lookupUnitByName does. */
  lemma VolumeKeys()
    ensures KeyTable(VolumeUnit) == Volume.Keys()
  {
    InGeometricKeys(VolumeUnit);
    GeometricUnits.VolumeKeys(VolumeUnit);
  }

  /** The volume unit type selects UnmarshalVolume. */
  lemma VolumeDecoder(j: Json)
    ensures CanUnmarshal(VolumeUnit, j) && Unmarshal(VolumeUnit, j) == Volume.Unmarshal(j)
  {
    InGeometricDecoder(VolumeUnit, j);
    GeometricUnits.VolumeDecoder(VolumeUnit, j);
  }

  /** The angle unit type selects the angle symbol registry, as lookupUnit does. */
  lemma AngleRegistry()
    ensures SymbolTable(AngleUnit) == Angle.Symbols()
  {
    InGeometricSymbols(AngleUnit);
    GeometricUnits.AngleSymbols(AngleUnit);
  }

  /** The angle unit type selects the angle compact key table, as lookupUnitByName does. */
  lemma AngleKeys()
    ensures KeyTable(AngleUnit) == Angle.Keys()
  {
    InGeometricKeys(AngleUnit);
    GeometricUnits.AngleKeys(AngleUnit);
  }

  /** The angle unit type selects UnmarshalAngle. */
  lemma AngleDecoder(j: Json)
    ensures CanUnmarshal(AngleUnit, j) && Unmarshal(AngleUnit, j) == Angle.Unmarshal(j)
  {
    InGeometricDecoder(AngleUnit, j);
    GeometricUnits.AngleDecoder(AngleUnit, j);
  }

  /** The duration unit type selects the duration symbol registry, as lookupUnit does. */
  lemma DurationRegistry()
    ensures SymbolTable(DurationUnit) == Duration.Symbols()
  {
    InMotionSymbols(DurationUnit);
    MotionUnits.DurationSymbols(DurationUnit);
  }

  /** The duration unit type selects the duration compact key table, as lookupUnitByName does. */
  lemma DurationKeys()
    ensures KeyTable(DurationUnit) == Duration.Keys()
  {
    InMotionKeys(DurationUnit);
    MotionUnits.DurationKeys(DurationUnit);
  }

  /** The duration unit type selects UnmarshalDuration. */
  lemma DurationDecoder(j: Json)
    ensures CanUnmarshal(DurationUnit, j) && Unmarshal(DurationUnit, j) == Duration.Unmarshal(j)
  {
    InMotionDecoder(DurationUnit, j);
    MotionUnits.DurationDecoder(DurationUnit, j);
  }

  /** The frequency unit type selects the frequency symbol registry, as lookupUnit does. */
  lemma FrequencyRegistry()
    ensures SymbolTable(FrequencyUnit) == Frequency.Symbols()
  {
    InMotionSymbols(FrequencyUnit);
    MotionUnits.FrequencySymbols(FrequencyUnit);
  }

  /** The frequency unit type selects the frequency compact key table, as lookupUnitByName does. */
  lemma FrequencyKeys()
    ensures KeyTable(FrequencyUnit) == Frequency.Keys()
  {
    InMotionKeys(FrequencyUnit);
    MotionUnits.FrequencyKeys(FrequencyUnit);
  }

  /** The frequency unit type selects UnmarshalFrequency. */
  lemma FrequencyDecoder(j: Json)
    ensures CanUnmarshal(FrequencyUnit, j) && Unmarshal(FrequencyUnit, j) == Frequency.Unmarshal(j)
  {
    InMotionDecoder(FrequencyUnit, j);
    MotionUnits.FrequencyDecoder(FrequencyUnit, j);
  }

  /** The speed unit type selects the speed symbol registry, as lookupUnit does. */
  lemma SpeedRegistry()
    ensures SymbolTable(SpeedUnit) == Speed.Symbols()
  {
    InMotionSymbols(SpeedUnit);
    MotionUnits.SpeedSymbols(SpeedUnit);
  }

  /** The speed unit type selects the speed compact key table, as lookupUnitByName does. */
  lemma SpeedKeys()
    ensures KeyTable(SpeedUnit) == Speed.Keys()
  {
    InMotionKeys(SpeedUnit);
    MotionUnits.SpeedKeys(SpeedUnit);
  }

  /** The speed unit type selects UnmarshalSpeed. */
  lemma SpeedDecoder(j: Json)
    ensures CanUnmarshal(SpeedUnit, j) && Unmarshal(SpeedUnit, j) == Speed.Unmarshal(j)
  {
    InMotionDecoder(SpeedUnit, j);
    MotionUnits.SpeedDecoder(SpeedUnit, j);
  }

  /** The acceleration unit type selects the acceleration symbol registry, as lookupUnit does. */
  lemma AccelerationRegistry()
    ensures SymbolTable(AccelerationUnit) == Acceleration.Symbols()
  {
    InMotionSymbols(AccelerationUnit);
    MotionUnits.AccelerationSymbols(AccelerationUnit);
  }

  /** The acceleration unit type selects the acceleration compact key table, as lookupUnitByName does. */
  lemma AccelerationKeys()
    ensures KeyTable(AccelerationUnit) == Acceleration.Keys()
  {
    InMotionKeys(AccelerationUnit);
    MotionUnits.AccelerationKeys(AccelerationUnit);
  }

  /** The acceleration unit type selects UnmarshalAcceleration. */
  lemma AccelerationDecoder(j: Json)
    ensures CanUnmarshal(AccelerationUnit, j) && Unmarshal(AccelerationUnit, j) == Acceleration.Unmarshal(j)
  {
    InMotionDecoder(AccelerationUnit, j);
    MotionUnits.AccelerationDecoder(AccelerationUnit, j);
  }

  /** The electric charge unit type selects the electric charge symbol registry, as lookupUnit does. */
  lemma ElectricChargeRegistry()
    ensures SymbolTable(ElectricChargeUnit) == ElectricCharge.Symbols()
  {
    InElectricalSymbols(ElectricChargeUnit);
    ElectricalUnits.ElectricChargeSymbols(ElectricChargeUnit);
  }

  /** The electric charge unit type selects the electric charge compact key table, as lookupUnitByName does. */
  lemma ElectricChargeKeys()
    ensures KeyTable(ElectricChargeUnit) == ElectricCharge.Keys()
  {
    InElectricalKeys(ElectricChargeUnit);
    ElectricalUnits.ElectricChargeKeys(ElectricChargeUnit);
  }

  /** The electric charge unit type selects UnmarshalElectricCharge. */
  lemma ElectricChargeDecoder(j: Json)
    ensures CanUnmarshal(ElectricChargeUnit, j) && Unmarshal(ElectricChargeUnit, j) == ElectricCharge.Unmarshal(j)
  {
    InElectricalDecoder(ElectricChargeUnit, j);
    ElectricalUnits.ElectricChargeDecoder(ElectricChargeUnit, j);
  }

  /** The electric current unit type selects the electric current symbol registry, as lookupUnit does. */
  lemma ElectricCurrentRegistry()
    ensures SymbolTable(ElectricCurrentUnit) == ElectricCurrent.Symbols()
  {
    InElectricalSymbols(ElectricCurrentUnit);
    ElectricalUnits.ElectricCurrentSymbols(ElectricCurrentUnit);
  }

  /** The electric current unit type selects the electric current compact key table, as lookupUnitByName does. */
  lemma ElectricCurrentKeys()
    ensures KeyTable(ElectricCurrentUnit) == ElectricCurrent.Keys()
  {
    InElectricalKeys(ElectricCurrentUnit);
    ElectricalUnits.ElectricCurrentKeys(ElectricCurrentUnit);
  }

  /** The electric current unit type selects UnmarshalElectricCurrent. */
  lemma ElectricCurrentDecoder(j: Json)
    ensures CanUnmarshal(ElectricCurrentUnit, j) && Unmarshal(ElectricCurrentUnit, j) == ElectricCurrent.Unmarshal(j)
  {
    InElectricalDecoder(ElectricCurrentUnit, j);
    ElectricalUnits.ElectricCurrentDecoder(ElectricCurrentUnit, j);
  }

  /** The electric potential difference unit type selects the electric potential difference symbol registry, as lookupUnit does. */
  lemma ElectricPotentialDifferenceRegistry()
    ensures SymbolTable(ElectricPotentialDifferenceUnit) == ElectricPotentialDifference.Symbols()
  {
    InElectricalSymbols(ElectricPotentialDifferenceUnit);
    ElectricalUnits.ElectricPotentialDifferenceSymbols(ElectricPotentialDifferenceUnit);
  }

  /** The electric potential difference unit type selects the electric potential difference compact key table, as lookupUnitByName does. */
  lemma ElectricPotentialDifferenceKeys()
    ensures KeyTable(ElectricPotentialDifferenceUnit) == ElectricPotentialDifference.Keys()
  {
    InElectricalKeys(ElectricPotentialDifferenceUnit);
    ElectricalUnits.ElectricPotentialDifferenceKeys(ElectricPotentialDifferenceUnit);
  }

  /** The electric potential difference unit type selects UnmarshalElectricPotentialDifference. */
  lemma ElectricPotentialDifferenceDecoder(j: Json)
    ensures CanUnmarshal(ElectricPotentialDifferenceUnit, j) && Unmarshal(ElectricPotentialDifferenceUnit, j) == ElectricPotentialDifference.Unmarshal(j)
  {
    InElectricalDecoder(ElectricPotentialDifferenceUnit, j);
    ElectricalUnits.ElectricPotentialDifferenceDecoder(ElectricPotentialDifferenceUnit, j);
  }

  /** The mass unit type selects the mass symbol registry, as lookupUnit does. */
  lemma MassRegistry()
    ensures SymbolTable(MassUnit) == Mass.Symbols()
  {
    InMaterialSymbols(MassUnit);
    MaterialUnits.MassSymbols(MassUnit);
  }

  /** The mass unit type selects the mass compact key table, as lookupUnitByName does. */
  lemma MassKeys()
    ensures KeyTable(MassUnit) == Mass.Keys()
  {
    InMaterialKeys(MassUnit);
    MaterialUnits.MassKeys(MassUnit);
  }

  /** The mass unit type selects UnmarshalMass. */
  lemma MassDecoder(j: Json)
    ensures CanUnmarshal(MassUnit, j) && Unmarshal(MassUnit, j) == Mass.Unmarshal(j)
  {
    InMaterialDecoder(MassUnit, j);
    MaterialUnits.MassDecoder(MassUnit, j);
  }

  /** The concentration unit type selects the concentration symbol registry, as lookupUnit does. */
  lemma ConcentrationRegistry()
    ensures SymbolTable(ConcentrationUnit) == Concentration.Symbols()
  {
    InMaterialSymbols(ConcentrationUnit);
    MaterialUnits.ConcentrationSymbols(ConcentrationUnit);
  }

  /** The concentration unit type selects the concentration compact key table, as lookupUnitByName does. */
  lemma ConcentrationKeys()
    ensures KeyTable(ConcentrationUnit) == Concentration.Keys()
  {
    InMaterialKeys(ConcentrationUnit);
    MaterialUnits.ConcentrationKeys(ConcentrationUnit);
  }

  /** The concentration unit type selects UnmarshalConcentration. */
  lemma ConcentrationDecoder(j: Json)
    ensures CanUnmarshal(ConcentrationUnit, j) && Unmarshal(ConcentrationUnit, j) == Concentration.Unmarshal(j)
  {
    InMaterialDecoder(ConcentrationUnit, j);
    MaterialUnits.ConcentrationDecoder(ConcentrationUnit, j);
  }

  /** The fuel efficiency unit type selects the fuel efficiency symbol registry, as lookupUnit does. */
  lemma FuelEfficiencyRegistry()
    ensures SymbolTable(FuelEfficiencyUnit) == FuelEfficiency.Symbols()
  {
    InMaterialSymbols(FuelEfficiencyUnit);
    MaterialUnits.FuelEfficiencySymbols(FuelEfficiencyUnit);
  }

  /** The fuel efficiency unit type selects the fuel efficiency compact key table, as lookupUnitByName does. */
  lemma FuelEfficiencyKeys()
    ensures KeyTable(FuelEfficiencyUnit) == FuelEfficiency.Keys()
  {
    InMaterialKeys(FuelEfficiencyUnit);
    MaterialUnits.FuelEfficiencyKeys(FuelEfficiencyUnit);
  }

  /** The fuel efficiency unit type selects UnmarshalFuelEfficiency, wherever that does not panic. */
  lemma FuelEfficiencyDecoder(j: Json)
    ensures FuelEfficiency.CanUnmarshal(j) ==> CanUnmarshal(FuelEfficiencyUnit, j) && Unmarshal(FuelEfficiencyUnit, j) == FuelEfficiency.Unmarshal(j)
  {
    if FuelEfficiency.CanUnmarshal(j) {
      InMaterialDecoder(FuelEfficiencyUnit, j);
      MaterialUnits.FuelEfficiencyDecoder(FuelEfficiencyUnit, j);
    }
  }

  /** The information unit type selects the information symbol registry, as lookupUnit does. */
  lemma InformationRegistry()
    ensures SymbolTable(InformationUnit) == Information.Symbols()
  {
    InOtherSymbols(InformationUnit);
    OtherUnits.InformationSymbols(InformationUnit);
  }

  /** The information unit type selects the information compact key table, as lookupUnitByName does. */
  lemma InformationKeys()
    ensures KeyTable(InformationUnit) == Information.Keys()
  {
    InOtherKeys(InformationUnit);
    OtherUnits.InformationKeys(InformationUnit);
  }

  /** The information unit type selects UnmarshalInformation. */
  lemma InformationDecoder(j: Json)
    ensures CanUnmarshal(InformationUnit, j) && Unmarshal(InformationUnit, j) == Information.Unmarshal(j)
  {
    InOtherDecoder(InformationUnit, j);
    OtherUnits.InformationDecoder(InformationUnit, j);
  }

  /** The illuminance unit type selects the illuminance symbol registry, as lookupUnit does. */
  lemma IlluminanceRegistry()
    ensures SymbolTable(IlluminanceUnit) == Illuminance.Symbols()
  {
    InOtherSymbols(IlluminanceUnit);
    OtherUnits.IlluminanceSymbols(IlluminanceUnit);
  }

  /** The illuminance unit type selects the illuminance compact key table, as lookupUnitByName does. */
  lemma IlluminanceKeys()
    ensures KeyTable(IlluminanceUnit) == Illuminance.Keys()
  {
    InOtherKeys(IlluminanceUnit);
    OtherUnits.IlluminanceKeys(IlluminanceUnit);
  }

  /** The illuminance unit type selects UnmarshalIlluminance. */
  lemma IlluminanceDecoder(j: Json)
    ensures CanUnmarshal(IlluminanceUnit, j) && Unmarshal(IlluminanceUnit, j) == Illuminance.Unmarshal(j)
  {
    InOtherDecoder(IlluminanceUnit, j);
    OtherUnits.IlluminanceDecoder(IlluminanceUnit, j);
  }

  /** The dispersion unit type selects the dispersion symbol registry, as lookupUnit does. */
  lemma DispersionRegistry()
    ensures SymbolTable(DispersionUnit) == Dispersion.Symbols()
  {
    InOtherSymbols(DispersionUnit);
    OtherUnits.DispersionSymbols(DispersionUnit);
  }

  /** The dispersion unit type selects the dispersion compact key table, as lookupUnitByName does. */
  lemma DispersionKeys()
    ensures KeyTable(DispersionUnit) == Dispersion.Keys()
  {
    InOtherKeys(DispersionUnit);
    OtherUnits.DispersionKeys(DispersionUnit);
  }

  /** The dispersion unit type selects UnmarshalDispersion. */
  lemma DispersionDecoder(j: Json)
    ensures CanUnmarshal(DispersionUnit, j) && Unmarshal(DispersionUnit, j) == Dispersion.Unmarshal(j)
  {
    InOtherDecoder(DispersionUnit, j);
    OtherUnits.DispersionDecoder(DispersionUnit, j);
  }
}
