/**
 * The cases of quantity_json_test.go, stated on the model of the JSON
 * methods of Quantity[T] and Compact[T].
 */
module QuantityJsonExamples {
  import opened Results
  import opened JsonValue
  import opened Units
  import opened Quantities
  import opened SerializeKeys
  import opened QuantityJson
  import Serialize
  import Temperature
  import Pressure
  import Length
  import ElectricCharge
  import UnitRegistry

  /** 25 °C is written with its name and symbol under "unit" and the dimension beside them (quantity_json_test.go:17). */
  lemma MarshalCelsius()
    ensures MarshalJSON(New(25.0, Temperature.Celsius())) ==
              JObject(map["value" := JNumber(25.0),
                          "unit" := JObject(map["name" := JString("Celsius"), "symbol" := JString("°C")]),
                          "dimension" := JString("temperature")])
  {
  }

  lemma CelsiusRegistered()
    ensures "°C" in UnitRegistry.SymbolTable(TemperatureUnit) && UnitRegistry.SymbolTable(TemperatureUnit)["°C"] == Temperature.Celsius()
  {
    UnitRegistry.TemperatureRegistry();
  }

  lemma KilopascalRegistered()
    ensures "kPa" in UnitRegistry.SymbolTable(PressureUnit) && UnitRegistry.SymbolTable(PressureUnit)["kPa"] == Pressure.Kilopascal()
  {
    UnitRegistry.PressureRegistry();
  }

  lemma XXNotRegistered()
    ensures "XX" !in UnitRegistry.SymbolTable(TemperatureUnit)
  {
    UnitRegistry.TemperatureRegistry();
  }

  /** A temperature document fills a temperature variable (quantity_json_test.go:55-71). */
  method UnmarshalCelsius() returns (v: QuantityVar, err: Option<Error>)
    ensures err.None? && v.value == 25.0 && v.unit == Temperature.Celsius()
  {
    v := new QuantityVar(TemperatureUnit);
    CelsiusRegistered();
    err := v.UnmarshalJSON(MarshalJSON(New(25.0, Temperature.Celsius())));
  }

  /** A pressure document into a temperature variable is a type mismatch (quantity_json_test.go:198-206). */
  lemma PressureIntoTemperature()
    ensures LookupUnit(TemperatureUnit, "pressure", "kPa") == Err(UnitTypeMismatch)
  {
    KilopascalRegistered();
    LookupOtherKind(TemperatureUnit, PressureUnit, "kPa");
  }

  /** The value is stored even then, and the unit is left as it was. */
  method UnmarshalPressureIntoTemperature() returns (v: QuantityVar, err: Option<Error>)
    ensures err == Some(UnitTypeMismatch) && v.value == 101.325 && v.unit == ZeroUnit(TemperatureUnit)
  {
    v := new QuantityVar(TemperatureUnit);
    PressureIntoTemperature();
    err := v.UnmarshalJSON(MarshalJSON(New(101.325, Pressure.Kilopascal())));
  }

  /** An unregistered symbol is an error (quantity_json_test.go:208-217). */
  lemma UnknownTemperatureSymbol()
    ensures LookupUnit(TemperatureUnit, "temperature", "XX") == Err(UnknownUnitSymbol("XX", "temperature"))
  {
    XXNotRegistered();
    LookupUnknownSymbol(TemperatureUnit, TemperatureUnit, "XX");
  }

  /** A capitalised word such as a unit name is lowered, and nothing else. */
  lemma SnakeCaseOfWord(w: string)
    requires IsWord(w) && ' ' !in w
    ensures SnakeCase(w) == ToLower(w)
  {
    assert ReplaceSpaces(w) == w;
    SnakeWord(w, true);
  }

  /** The key of a quantity, from the snake_case forms of its dimension and unit name. */
  lemma KeyOf(q: Quantity, k: Kind, name: string)
    requires q.unit.base.dimension == DimensionName(k) && SnakeCase(q.unit.base.name) == name
    ensures CompactKey(q) == DimensionName(k) + "_" + name
  {
    DimensionNameIsSnakeCase(k);
  }

  /** The key of a quantity whose unit name is one capitalised word. */
  lemma KeyOfWord(q: Quantity, k: Kind, w: string, lw: string, dim: string, key: string)
    requires q.unit.base.dimension == DimensionName(k) && DimensionName(k) == dim && q.unit.base.name == w
    requires IsWord(w) && ' ' !in w && ToLower(w) == lw
    requires key == dim + "_" + lw
    ensures CompactKey(q) == key
  {
    SnakeCaseOfWord(w);
    KeyOf(q, k, lw);
  }

  lemma CelsiusKeyText() ensures "temperature" + "_" + "celsius" == "temperature_celsius" {}
  lemma MeterKeyText() ensures "length" + "_" + "meter" == "length_meter" {}
  lemma KilopascalKeyText() ensures "pressure" + "_" + "kilopascal" == "pressure_kilopascal" {}

  lemma CelsiusKey()
    ensures CompactKey(New(25.0, Temperature.Celsius())) == "temperature_celsius"
  {
    CelsiusWord();
    CelsiusFields();
    CelsiusKeyText();
    KeyOfWord(New(25.0, Temperature.Celsius()), TemperatureUnit, "Celsius", "celsius", "temperature", "temperature_celsius");
  }

  lemma CelsiusWord() ensures IsWord("Celsius") && ' ' !in "Celsius" && ToLower("Celsius") == "celsius" {
    assert "Celsius"[0] == 'C';
  }

  lemma CelsiusFields()
    ensures Temperature.Celsius().base.name == "Celsius" && Temperature.Celsius().base.dimension == DimensionName(TemperatureUnit) && DimensionName(TemperatureUnit) == "temperature"
  {
  }

  lemma MeterKey()
    ensures CompactKey(New(100.0, Length.Meter())) == "length_meter"
  {
    MeterWord();
    MeterFields();
    MeterKeyText();
    KeyOfWord(New(100.0, Length.Meter()), LengthUnit, "Meter", "meter", "length", "length_meter");
  }

  lemma MeterWord() ensures IsWord("Meter") && ' ' !in "Meter" && ToLower("Meter") == "meter" {
    assert "Meter"[0] == 'M';
  }

  lemma MeterFields()
    ensures Length.Meter().base.name == "Meter" && Length.Meter().base.dimension == DimensionName(LengthUnit) && DimensionName(LengthUnit) == "length"
  {
  }

  lemma KilopascalKey()
    ensures CompactKey(New(101.325, Pressure.Kilopascal())) == "pressure_kilopascal"
  {
    SnakeCaseKilopascal();
    KeyOf(New(101.325, Pressure.Kilopascal()), PressureUnit, "kilopascal");
    KilopascalKeyText();
  }

  /** The compact keys of the tests (quantity_json_test.go:220-256). */
  lemma CompactMarshalKeys()
    ensures Serialize.DecodeLegacyCompact(CompactMarshalJSON(New(25.0, Temperature.Celsius()))).value.unit == "temperature_celsius"
    ensures Serialize.DecodeLegacyCompact(CompactMarshalJSON(New(101.325, Pressure.Kilopascal()))).value.unit == "pressure_kilopascal"
    ensures Serialize.DecodeLegacyCompact(CompactMarshalJSON(New(100.0, Length.Meter()))).value.unit == "length_meter"
  {
    CelsiusKey();
    KilopascalKey();
    MeterKey();
  }

  lemma CelsiusKeyed()
    ensures "temperature_celsius" in UnitRegistry.KeyTable(TemperatureUnit)
    ensures UnitRegistry.KeyTable(TemperatureUnit)["temperature_celsius"] == Temperature.Celsius()
  {
    UnitRegistry.TemperatureKeys();
    assert "temperature_celsius" in Temperature.Keys() && Temperature.Keys()["temperature_celsius"] == Temperature.Celsius();
  }

  lemma KilopascalKeyed()
    ensures "pressure_kilopascal" in UnitRegistry.KeyTable(PressureUnit)
    ensures UnitRegistry.KeyTable(PressureUnit)["pressure_kilopascal"] == Pressure.Kilopascal()
  {
    UnitRegistry.PressureKeys();
    assert "pressure_kilopascal" in Pressure.Keys() && Pressure.Keys()["pressure_kilopascal"] == Pressure.Kilopascal();
  }

  lemma OneWordDimensions()
    ensures '_' !in DimensionName(TemperatureUnit) && '_' !in DimensionName(PressureUnit)
  {
    MultiWordDimensions(TemperatureUnit);
    MultiWordDimensions(PressureUnit);
  }

  /** 25 °C survives the compact form (quantity_json_test.go:312-330). */
  method CompactCelsiusRoundTrip() returns (restored: Quantity, err: Option<Error>)
    ensures err.None? && restored == New(25.0, Temperature.Celsius())
  {
    CelsiusKey();
    CelsiusKeyed();
    OneWordDimensions();
    restored, err := CompactMarshalUnmarshal(TemperatureUnit, New(25.0, Temperature.Celsius()));
  }

  /** 101.325 kPa survives the compact form (quantity_json_test.go:332-349). */
  method CompactKilopascalRoundTrip() returns (restored: Quantity, err: Option<Error>)
    ensures err.None? && restored == New(101.325, Pressure.Kilopascal())
  {
    KilopascalKey();
    KilopascalKeyed();
    OneWordDimensions();
    restored, err := CompactMarshalUnmarshal(PressureUnit, New(101.325, Pressure.Kilopascal()));
  }

  /** 1 C does not: its key "electric_charge_coulomb" is read as the dimension "electric". */
  lemma CompactCoulombFails()
    ensures var raw := Serialize.DecodeLegacyCompact(CompactMarshalJSON(New(1.0, ElectricCharge.Coulomb()))).value;
            LookupUnitByName(ElectricChargeUnit, ParseUnitKey(raw.unit).0, ParseUnitKey(raw.unit).1) == Err(UnknownDimension("electric"))
  {
    MultiWordDimensions(ElectricChargeUnit);
    ElectricChargeKeySplit();
    CompactMultiWordFails(ElectricChargeUnit, New(1.0, ElectricCharge.Coulomb()));
  }
}
