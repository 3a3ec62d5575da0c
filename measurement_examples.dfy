/**
 * The cases of serialize_test.go, serialize_general_test.go and
 * serialize_compact_test.go that decode a measurement of unknown
 * dimension, stated on the model.
 */
module MeasurementExamples {
  import opened Results
  import opened JsonValue
  import opened Units
  import opened Quantities
  import opened SerializeKeys
  import opened Measurement
  import Serialize
  import SerializeCompact
  import QuantityJson
  import QuantityJsonExamples
  import General
  import Temperature
  import Length
  import Volume
  import UnitRegistry

  /** {"value": v, "unit": {"name": name, "symbol": symbol}, "dimension": dimension}: the legacy full format. */
  function LegacyDoc(value: real, name: string, symbol: string, dimension: string): Json
  {
    JObject(map["value" := JNumber(value),
                "unit" := JObject(map["name" := JString(name), "symbol" := JString(symbol)]),
                "dimension" := JString(dimension)])
  }

  /** Such a document is the full format of its dimension, and every part of it is read. */
  lemma ParseLegacyDoc(value: real, name: string, symbol: string, dimension: string)
    requires symbol != ""
    ensures Serialize.DetectFormat(LegacyDoc(value, name, symbol, dimension)) == Ok((Serialize.FormatFull, dimension))
    ensures Serialize.UnmarshalValue(LegacyDoc(value, name, symbol, dimension)) == Ok(value)
    ensures Serialize.UnmarshalUnitInfo(LegacyDoc(value, name, symbol, dimension)) == Ok(Serialize.UnitInfo(symbol, name, ""))
    ensures Serialize.ParseMeasurement(LegacyDoc(value, name, symbol, dimension)) ==
              Ok(Serialize.ParsedMeasurement(value, symbol, name, "", dimension, Serialize.FormatFull))
  {
    var j := LegacyDoc(value, name, symbol, dimension);
    assert Serialize.DecodeMeasurement(j) == Some(Serialize.MeasurementJson(value, Serialize.UnitFullJson(name, symbol, "")));
  }

  /** 25 °C in the legacy full format (serialize_test.go:180-204). */
  lemma TemperatureDocDecodes()
    ensures CanUnmarshalMeasurement(LegacyDoc(25.0, "Celsius", "°C", "temperature"))
    ensures UnmarshalMeasurement(LegacyDoc(25.0, "Celsius", "°C", "temperature")) == Ok(AnyMeasurement(New(25.0, Temperature.Celsius()), "temperature"))
  {
    ParseLegacyDoc(25.0, "Celsius", "°C", "temperature");
    TemperatureDocRegistered();
    KnownDimensionDecodes(LegacyDoc(25.0, "Celsius", "°C", "temperature"), TemperatureUnit, New(25.0, Temperature.Celsius()));
  }

  lemma TemperatureDocRegistered()
    ensures UnitRegistry.CanUnmarshal(TemperatureUnit, LegacyDoc(25.0, "Celsius", "°C", "temperature"))
    ensures UnitRegistry.Unmarshal(TemperatureUnit, LegacyDoc(25.0, "Celsius", "°C", "temperature")) == Ok(New(25.0, Temperature.Celsius()))
  {
    TemperatureDocUnmarshals();
    UnitRegistry.TemperatureDecoder(LegacyDoc(25.0, "Celsius", "°C", "temperature"));
  }


  lemma TemperatureDocUnmarshals()
    ensures Temperature.Unmarshal(LegacyDoc(25.0, "Celsius", "°C", "temperature")) == Ok(New(25.0, Temperature.Celsius()))
  {
    var j := LegacyDoc(25.0, "Celsius", "°C", "temperature");
    ParseLegacyDoc(25.0, "Celsius", "°C", "temperature");
    Temperature.CelsiusListedFirst();
    Serialize.FirstMatchBySymbol(Serialize.ParseMeasurement(j).value, Temperature.Cases(), 0);
  }

  /** AsTemperature then gives the quantity back. */
  lemma TemperatureDocAsTemperature()
    ensures As(AnyMeasurement(New(25.0, Temperature.Celsius()), "temperature"), TemperatureUnit) == (New(25.0, Temperature.Celsius()), true)
    ensures !As(AnyMeasurement(New(25.0, Temperature.Celsius()), "temperature"), LengthUnit).1
  {
  }

  /** 10 m in the legacy full format (serialize_test.go:206-228). */
  lemma LengthDocDecodes()
    ensures CanUnmarshalMeasurement(LegacyDoc(10.0, "Meter", "m", "length"))
    ensures UnmarshalMeasurement(LegacyDoc(10.0, "Meter", "m", "length")) == Ok(AnyMeasurement(New(10.0, Length.Meter()), "length"))
  {
    ParseLegacyDoc(10.0, "Meter", "m", "length");
    LengthDocRegistered();
    KnownDimensionDecodes(LegacyDoc(10.0, "Meter", "m", "length"), LengthUnit, New(10.0, Length.Meter()));
  }

  lemma LengthDocRegistered()
    ensures UnitRegistry.CanUnmarshal(LengthUnit, LegacyDoc(10.0, "Meter", "m", "length"))
    ensures UnitRegistry.Unmarshal(LengthUnit, LegacyDoc(10.0, "Meter", "m", "length")) == Ok(New(10.0, Length.Meter()))
  {
    LengthDocUnmarshals();
    UnitRegistry.LengthDecoder(LegacyDoc(10.0, "Meter", "m", "length"));
  }


  lemma LengthDocUnmarshals()
    ensures Length.Unmarshal(LegacyDoc(10.0, "Meter", "m", "length")) == Ok(New(10.0, Length.Meter()))
  {
    var j := LegacyDoc(10.0, "Meter", "m", "length");
    ParseLegacyDoc(10.0, "Meter", "m", "length");
    Length.MeterListedFirst();
    Serialize.FirstMatchBySymbol(Serialize.ParseMeasurement(j).value, Length.Cases(), 0);
  }

  /** 5 L in the legacy full format (serialize_test.go:230-252). */
  lemma VolumeDocDecodes()
    ensures CanUnmarshalMeasurement(LegacyDoc(5.0, "Liter", "L", "volume"))
    ensures UnmarshalMeasurement(LegacyDoc(5.0, "Liter", "L", "volume")) == Ok(AnyMeasurement(New(5.0, Volume.Liter()), "volume"))
  {
    ParseLegacyDoc(5.0, "Liter", "L", "volume");
    VolumeDocRegistered();
    KnownDimensionDecodes(LegacyDoc(5.0, "Liter", "L", "volume"), VolumeUnit, New(5.0, Volume.Liter()));
  }

  lemma VolumeDocRegistered()
    ensures UnitRegistry.CanUnmarshal(VolumeUnit, LegacyDoc(5.0, "Liter", "L", "volume"))
    ensures UnitRegistry.Unmarshal(VolumeUnit, LegacyDoc(5.0, "Liter", "L", "volume")) == Ok(New(5.0, Volume.Liter()))
  {
    VolumeDocUnmarshals();
    UnitRegistry.VolumeDecoder(LegacyDoc(5.0, "Liter", "L", "volume"));
  }


  lemma VolumeDocUnmarshals()
    ensures Volume.Unmarshal(LegacyDoc(5.0, "Liter", "L", "volume")) == Ok(New(5.0, Volume.Liter()))
  {
    var j := LegacyDoc(5.0, "Liter", "L", "volume");
    ParseLegacyDoc(5.0, "Liter", "L", "volume");
    Volume.LiterListedFirst();
    Serialize.FirstMatchBySymbol(Serialize.ParseMeasurement(j).value, Volume.Cases(), 4);
  }

  /** A legacy document of a dimension the switch does not know becomes a custom general unit. */
  lemma UnknownDimensionDoc(value: real, name: string, symbol: string, dimension: string)
    requires symbol != "" && name != "" && KindOfDimension(dimension).None?
    ensures CanUnmarshalMeasurement(LegacyDoc(value, name, symbol, dimension))
    ensures UnmarshalMeasurement(LegacyDoc(value, name, symbol, dimension)) ==
              Ok(AnyMeasurement(New(value, General.NewGeneralUnit(symbol, name)), "general"))
  {
    ParseLegacyDoc(value, name, symbol, dimension);
    UnknownDimensionFallsBack(LegacyDoc(value, name, symbol, dimension));
  }

  lemma InvalidDimensionUnknown() ensures KindOfDimension("invalid_dimension").None? {}
  lemma UnknownDimensionUnknown() ensures KindOfDimension("unknown_dimension").None? {}

  /** "invalid_dimension" falls back to general (serialize_test.go:254-268). */
  lemma InvalidDimensionFallsBack()
    ensures CanUnmarshalMeasurement(LegacyDoc(10.0, "m", "m", "invalid_dimension"))
    ensures UnmarshalMeasurement(LegacyDoc(10.0, "m", "m", "invalid_dimension")) ==
              Ok(AnyMeasurement(New(10.0, General.NewGeneralUnit("m", "m")), "general"))
  {
    InvalidDimensionUnknown();
    UnknownDimensionDoc(10.0, "m", "m", "invalid_dimension");
  }

  /** "unknown_dimension" falls back to general and keeps symbol and value (serialize_general_test.go:17-22). */
  lemma CustomDimensionFallsBack()
    ensures CanUnmarshalMeasurement(LegacyDoc(42.0, "custom", "custom", "unknown_dimension"))
    ensures UnmarshalMeasurement(LegacyDoc(42.0, "custom", "custom", "unknown_dimension")) ==
              Ok(AnyMeasurement(New(42.0, General.NewGeneralUnit("custom", "custom")), "general"))
  {
    UnknownDimensionUnknown();
    UnknownDimensionDoc(42.0, "custom", "custom", "unknown_dimension");
  }

  /** No case of UnmarshalTemperature takes the symbol "unknown_unit". */
  lemma UnknownUnitHasNoCase()
    ensures forall i | 0 <= i < |Temperature.Cases()| :: "unknown_unit" !in Temperature.Cases()[i].symbols
  {
  }

  /**
   * A temperature document with an unknown unit falls back to general
   * instead of failing (serialize_general_test.go:24-29).
   */
  lemma UnknownTemperatureUnitFallsBack()
    ensures CanUnmarshalMeasurement(LegacyDoc(25.0, "unknown_unit", "unknown_unit", "temperature"))
    ensures UnmarshalMeasurement(LegacyDoc(25.0, "unknown_unit", "unknown_unit", "temperature")) ==
              Ok(AnyMeasurement(New(25.0, General.NewGeneralUnit("unknown_unit", "unknown_unit")), "general"))
  {
    var j := LegacyDoc(25.0, "unknown_unit", "unknown_unit", "temperature");
    ParseLegacyDoc(25.0, "unknown_unit", "unknown_unit", "temperature");
    UnknownUnitHasNoCase();
    var p := Serialize.ParseMeasurement(j).value;
    assert forall i | 0 <= i < |Temperature.Cases()| :: !Serialize.CaseMatches(p, Temperature.Cases()[i]);
    assert UnitRegistry.Unmarshal(TemperatureUnit, j).Err?;
    DecoderFailureFallsBack(j, TemperatureUnit);
  }

  /** A "general" document with the symbol "unit" is the base unit (serialize_general_test.go:31-36). */
  lemma GeneralDocDecodes()
    ensures CanUnmarshalMeasurement(LegacyDoc(100.0, "Unit", "unit", "general"))
    ensures UnmarshalMeasurement(LegacyDoc(100.0, "Unit", "unit", "general")) ==
              Ok(AnyMeasurement(New(100.0, General.GeneralUnitBase()), "general"))
  {
    var j := LegacyDoc(100.0, "Unit", "unit", "general");
    ParseLegacyDoc(100.0, "Unit", "unit", "general");
    GeneralDimensionDecodes(j, New(100.0, General.GeneralUnitBase()));
  }

  /** {"value": v, "unit": key}: the minimal format. */
  function MinimalDoc(value: real, key: string): Json
  {
    JObject(map["value" := JNumber(value), "unit" := JString(key)])
  }

  /** Such a document is the minimal format of the key's prefix, with the key and no symbol. */
  lemma ParseMinimalDoc(value: real, key: string)
    ensures Serialize.DetectFormat(MinimalDoc(value, key)) == Ok((Serialize.FormatMinimal, ParseUnitKey(key).0))
    ensures Serialize.ParseMeasurement(MinimalDoc(value, key)) ==
              Ok(Serialize.ParsedMeasurement(value, "", "", key, ParseUnitKey(key).0, Serialize.FormatMinimal))
  {
    var j := MinimalDoc(value, key);
    assert Serialize.DecodeMeasurementMinimal(j) == Some(Serialize.MeasurementMinimalJson(value, key));
    assert Serialize.DecodeLegacyCompact(j) == Some(Serialize.LegacyCompactJson(value, key, ""));
  }

  lemma LengthMeterKeySplit()
    ensures ParseUnitKey("length_meter") == ("length", "meter")
  {
    assert "length_meter" == "length" + "_" + "meter";
    ParseUnitKeyOfJoin("length", "meter");
  }

  /** The key "length_meter" picks the first case of UnmarshalLength by its key name. */
  lemma MinimalMeterUnmarshals()
    ensures Length.Unmarshal(MinimalDoc(100.0, "length_meter")) == Ok(New(100.0, Length.Meter()))
  {
    MinimalMeterDecodes();
  }

  lemma MinimalMeterDecodes()
    ensures Serialize.DecodeUnit("length", "length", Length.Cases(), MinimalDoc(100.0, "length_meter")) == Ok((100.0, Length.Meter()))
  {
    ParseMinimalDoc(100.0, "length_meter");
    LengthMeterKeySplit();
    MinimalMeterMatches();
  }

  lemma MinimalMeterMatches()
    ensures var p := Serialize.ParsedMeasurement(100.0, "", "", "length_meter", "length", Serialize.FormatMinimal);
            Serialize.FirstMatch(p, Length.Cases()) == Some(Length.Meter())
  {
    var p := Serialize.ParsedMeasurement(100.0, "", "", "length_meter", "length", Serialize.FormatMinimal);
    var cases := Length.Cases();
    assert cases[0].keyName == "meter" && cases[0].unit == Length.Meter();
    MeterKeyMatches();
    FirstCaseMatches(p, cases);
  }

  lemma MeterKeyMatches()
    ensures Serialize.MatchUnitByKey(Serialize.ParsedMeasurement(100.0, "", "", "length_meter", "length", Serialize.FormatMinimal), "meter")
  {
    LengthMeterKeySplit();
  }

  /** A Go `switch` takes its first case when that one matches. */
  lemma FirstCaseMatches(p: Serialize.ParsedMeasurement, cases: seq<Serialize.Case>)
    requires |cases| > 0 && Serialize.CaseMatches(p, cases[0])
    ensures Serialize.FirstMatch(p, cases) == Some(cases[0].unit)
  {
  }

  /** The minimal format is detected too (serialize_compact_test.go:153-173). */
  lemma MinimalDocDecodes()
    ensures CanUnmarshalMeasurement(MinimalDoc(100.0, "length_meter"))
    ensures UnmarshalMeasurement(MinimalDoc(100.0, "length_meter")) == Ok(AnyMeasurement(New(100.0, Length.Meter()), "length"))
  {
    MinimalDocParts();
    KnownDimensionDecodes(MinimalDoc(100.0, "length_meter"), LengthUnit, New(100.0, Length.Meter()));
  }

  /** The document is detected as a length in the minimal format, and the length decoder reads 100 m. */
  lemma MinimalDocParts()
    ensures Serialize.DetectFormat(MinimalDoc(100.0, "length_meter")) == Ok((Serialize.FormatMinimal, DimensionName(LengthUnit)))
    ensures UnitRegistry.CanUnmarshal(LengthUnit, MinimalDoc(100.0, "length_meter"))
    ensures UnitRegistry.Unmarshal(LengthUnit, MinimalDoc(100.0, "length_meter")) == Ok(New(100.0, Length.Meter()))
  {
    ParseMinimalDoc(100.0, "length_meter");
    LengthMeterKeySplit();
    MinimalDocRegistered();
    assert DimensionName(LengthUnit) == "length";
  }

  lemma MinimalDocRegistered()
    ensures UnitRegistry.CanUnmarshal(LengthUnit, MinimalDoc(100.0, "length_meter"))
    ensures UnitRegistry.Unmarshal(LengthUnit, MinimalDoc(100.0, "length_meter")) == Ok(New(100.0, Length.Meter()))
  {
    MinimalMeterUnmarshals();
    UnitRegistry.LengthDecoder(MinimalDoc(100.0, "length_meter"));
  }

  lemma CelsiusUnitKey()
    ensures UnitKey(DimensionName(TemperatureUnit), Temperature.Celsius().base.name) == "temperature_celsius"
  {
    QuantityJsonExamples.CelsiusFields();
    QuantityJsonExamples.CelsiusWord();
    QuantityJson.DimensionNameIsLower(TemperatureUnit);
    QuantityJsonExamples.SnakeCaseOfWord("Celsius");
    QuantityJsonExamples.CelsiusKeyText();
  }

  /** The compact key of 25 °C names its own table entry, so the compact decoder tags it "temperature". */
  lemma CompactCelsiusMeasurement()
    ensures UnmarshalCompactMeasurement(SerializeCompact.MarshalCompactGeneric(New(25.0, Temperature.Celsius()), true)) ==
              Ok(AnyMeasurement(New(25.0, Temperature.Celsius()), "temperature"))
  {
    var q := New(25.0, Temperature.Celsius());
    CelsiusUnitKey();
    QuantityJsonExamples.CelsiusKeyed();
    QuantityJsonExamples.OneWordDimensions();
    assert DimensionName(TemperatureUnit) == "temperature";
    assert OfKind(TemperatureUnit, q.unit);
    CompactMeasurementRoundTrip(TemperatureUnit, q, true);
  }
}
