# go-unit in Dafny

A Dafny model of the core of go-unit, a Go library for physical quantities. Every quantity is a value in a unit. Every unit belongs to a dimension (temperature, length, fuel efficiency and 19 more, plus "general") and converts affinely to and from that dimension's base unit. The model covers:

- the conversion arithmetic and the quantity operations;
- every predefined unit table;
- the symbol registries and the compact-key tables;
- the three JSON formats of a measurement (full, compact, minimal), with their detection and decoding and the fallback to "general";
- the `MarshalJSON`/`UnmarshalJSON` methods of `Quantity[T]` and `Compact[T]`;
- the parsing of text such as `"5.5 km"`.

Each module follows one Go file, or one concern of a large Go file:

- `Units` (unit.go): `BaseUnit`, its conversions and `Equals`. `Unit` pairs a base unit with its Go unit type, a `Kind`.
- `Quantities` (quantity.go, fuel_efficiency.go): `Quantity`, `Equal`, `ConvertTo`, `Add`, `Subtract` and the scalar operations. The L/100km override of both conversions is dispatched here, on the unit's symbol, as the Go method set does.
- `General`, `Temperature` … `FuelEfficiency` (the per-dimension files):
  - the constant unit table, its symbol registry and its key table;
  - the cases of its `Unmarshal<Dim>` switch, and the decoders;
  - round-trip lemmas and the conversions the Go tests check, stated exactly.
- `ThermalUnits`, `GeometricUnits`, `MotionUnits`, `ElectricalUnits`, `MaterialUnits`, `OtherUnits` group the dimensions into families. `UnitRegistry` dispatches on the unit type over these families (unit_registry.go and the key tables of serialize_compact.go).
- `SerializeKeys` (serialize.go): `toSnakeCase`, as a method with the loop of the Go code, proved equal to a recursive specification; `unitKey` and `parseUnitKey`.
- `JsonValue`: a decoded JSON document (RFC 8259 values). The JSON structs of serialize.go are encoded into it and decoded from it.
- `Serialize` (serialize.go): `detectFormat`, `unmarshalValue`, `unmarshalUnitInfo`, `parseMeasurement`, `matchUnitByKey`, the shared shape of the per-dimension decoders, and the three writers.
- `SerializeCompact` (serialize_compact.go): the compact decoder pattern, `marshalCompactGeneric` and `isCompactFormat`.
- `Measurement` (serialize.go, serialize_compact.go): `AnyMeasurement` and the `As<Dim>` assertions. `UnmarshalMeasurement` with its fallback, and `unmarshalCompactMeasurement`.
- `QuantityJson` (quantity.go):
  - `lookupUnit` and `lookupUnitByName`;
  - `indexOf`, as a loop;
  - `parseCompactUnitKey`;
  - the two `MarshalJSON` functions;
  - the classes `QuantityVar` and `CompactVar`, whose `UnmarshalJSON` methods assign the fields of the variable they are called on, as the Go methods do through their receiver.
- `Conversion`, `ConversionTables` (conversion.go):
  - `ParseError`;
  - the pattern of `parseValueAndUnit`, modelled by its match semantics;
  - `strings.TrimSpace`;
  - the value of a decimal numeral;
  - the alias switch of each `Parse<Dim>`.
- `MeasurementExamples`, `QuantityJsonExamples`, `ConversionExamples`: the cases of the Go tests, as lemmas.

Values are exact reals, so conversions round-trip exactly. Go panics are preconditions:

- an incompatible `ConvertTo`, `Add` or `Subtract`;
- a division by zero;
- 0 L/100km.

Go errors are structured values of `Results.Error`.

Two behaviours of the code are modelled as written. Each has lemmas that exhibit it.

- The Fahrenheit offset `-32*5/9` (temperature.go:32) is a Go untyped integer constant, that is -17. The comment at temperature.go:31, `(F - 32) * 5/9 = C`, describes the textbook scale, but with an offset of -17 0 °C is 30.6 °F and 25 °C is 75.6 °F. The Go tests also expect 75.6 (`Temperature.FahrenheitOffsetIsTruncated`, `Temperature.CelsiusConversions`).
- `unmarshalCompactMeasurement` routes on the text before the first `_`. A dimension whose name holds `_` (electric charge, electric current, electric potential difference, fuel efficiency) therefore never comes back from the compact form as itself: `Measurement.CompactMultiWordIsGeneral`, `QuantityJson.CompactMultiWordFails`.

## Model

| member | source | states |
|---|---|---|
| Units.NewBaseUnit | unit.go:16-25 | The base unit holds exactly the dimension, symbol, name, coefficient, offset and base flag given. |
| Units.ConvertToBaseUnit | unit.go:48-60 | A base unit returns the value unchanged; any other unit returns value * coefficient + offset. |
| Units.ConvertFromBaseUnit | unit.go:63-75 | A base unit returns the value unchanged; for any other unit the result r satisfies r * coefficient + offset == value. A zero coefficient is excluded. |
| Units.FromBaseUndoesToBase | unit.go:48-75 | Converting from the base unit undoes converting to it. |
| Units.ToBaseUndoesFromBase | unit.go:48-75 | Converting to the base unit undoes converting from it. |
| Units.Equals | unit.go:78-90 | True exactly when dimension and symbol agree; name, coefficient and offset are not compared. |
| Units.EqualsIsEquivalence | unit.go:78-90 | Equals is reflexive, symmetric and transitive. |
| Units.ZeroUnit | quantity.go:383 | The zero value of a unit type keeps the type and has an empty symbol and an empty dimension. |
| Units.KindOfDimensionName | serialize.go:496-637 | The dimension switch maps the dimension string of every unit type back to that type. |
| Units.DimensionOfKind | serialize.go:496-637 | The switch reaches a unit type only through that type's own dimension string. |
| Quantities.ToBase | fuel_efficiency.go:58-69 | For L/100km the result times the value is 100. Every other unit gives ConvertToBaseUnit of its base unit. A value of 0 L/100km panics and is excluded. |
| Quantities.FromBase | fuel_efficiency.go:72-83 | For L/100km the result times the value is 100. Every other unit gives ConvertFromBaseUnit. A zero value for L/100km panics and is excluded. |
| Quantities.RoundTripThroughBase | fuel_efficiency.go:58-83 | Converting any value of any unit to the base unit and back gives the value back, the inverse unit included. |
| Quantities.RoundTripFromBase | fuel_efficiency.go:58-83 | Converting from the base unit and back to it gives the value back, and nothing panics on the way. |
| Quantities.New | quantity.go:59-64 | The quantity holds exactly the value and unit given. |
| Quantities.Equal | quantity.go:43-56 | True exactly when the dimensions agree and the base-unit values differ by less than 1e-9. |
| Quantities.EqualReflexiveSymmetric | quantity.go:43-56 | Equal is reflexive and symmetric. |
| Quantities.ConvertTo | quantity.go:67-90 | The result has the target unit. An Equals target keeps the number unchanged; any other target keeps the value in the base unit. Incompatible dimensions panic and are excluded. |
| Quantities.ConvertToIsEqual | quantity.go:43-90 | A converted quantity is Equal to the original. |
| Quantities.ConvertToAndBack | quantity.go:67-90 | Converting to another unit of the same dimension and back gives exactly the original quantity. |
| Quantities.Add | quantity.go:93-108 | The result keeps the first quantity's unit; its value is the first value plus the second converted to that unit. |
| Quantities.Subtract | quantity.go:111-126 | The result keeps the first quantity's unit; its value is the first value minus the second converted to that unit. |
| Quantities.SubtractUndoesAdd | quantity.go:93-126 | Subtracting a quantity that was added gives back exactly the original quantity. |
| Quantities.AddSameUnitCommutes | quantity.go:93-108 | With equal units, Add commutes and adds the plain values. |
| Quantities.AddIsLinearWithoutOffset | quantity.go:93-108 | For a unit without offset (and not L/100km) the base value of a sum is the sum of the base values. |
| Quantities.MultiplyByScalar | quantity.go:129-134 | Keeps the unit and multiplies the value by the scalar. |
| Quantities.DivideByScalar | quantity.go:137-146 | Keeps the unit; the result times the scalar is the original value. Division by zero panics and is excluded. |
| Quantities.DivideUndoesMultiply | quantity.go:129-146 | Dividing by a nonzero scalar undoes multiplying by it. |
| Quantities.ScalingIsLinearWithoutOffset | quantity.go:129-134 | For a unit without offset, scaling commutes with conversion to the base unit. |
| General.All | general.go:11-24 | The one predefined general unit is the base unit "unit", named "General Unit", with dimension "general". |
| General.NewGeneral | general.go:27-29 | A general quantity holds exactly the value and general unit given. |
| General.NewGeneralUnit | general.go:32-43 | A custom general unit has dimension "general", the given symbol and name, coefficient 1 and offset 0, and is not a base unit. Converting it to the base unit leaves every value unchanged. |
| General.NewGeneralUnitWithConversion | general.go:47-58 | A custom general unit with the given coefficient and offset; converting v to the base unit gives v * coefficient + offset. |
| General.CustomUnitActsAsBase | general_test.go:7-63 | A quantity in a NewGeneralUnit unit is Equal to the same number of base units. Adding them doubles the number and subtracting them gives 0. |
| General.ConversionExample | general_test.go:39 | With coefficient 2 and offset 10, 5 xu is 20 base units, and 20 base units convert back to 5 xu. |
| General.CustomUnitOf | serialize.go:1481-1509 | The custom unit built for a payload not in the base unit has dimension "general". Its symbol is the payload's symbol, or else the unit part of the key. Its name is the payload's name, or else that symbol. |
| General.UnmarshalGeneral | serialize.go:1481-1509 | Succeeds exactly when the document parses with dimension "general", keeping the value. The symbol "unit", or a key whose unit part matches "unit", gives the base unit. Any other payload gives CustomUnitOf the payload. Any other dimension is an ExpectedDimension error. |
| General.UnmarshalGeneralRoundTrip | serialize_general_test.go:76-146 | The base unit written by marshalGeneric is read back unchanged. |
| General.UnmarshalCustomRoundTrip | serialize_general_test.go:76-146 | A custom unit with a nonempty name and a symbol other than "unit" is read back unchanged from the full format. |
| General.UnmarshalDropsConversion | serialize.go:1481-1509 | The coefficient and offset of NewGeneralUnitWithConversion are not serialised. The unit comes back as a plain NewGeneralUnit with the same symbol and name. |
| General.UnmarshalCompactGeneral | serialize_compact.go:738-755 | Succeeds exactly when the compact document decodes; the value is kept. The key "general_general_unit" gives the base unit; any other key gives NewGeneralUnit(n, n), with n the unit part of the key. |
| General.BaseUnitKey | serialize.go:104-106 | The compact key of the general base unit is "general_general_unit". |
| General.UnmarshalCompactGeneralRoundTrip | serialize_compact.go:738-755 | The base unit is read back from the compact form, with or without the symbol. |
| General.UnmarshalCompactCustom | serialize_compact.go:738-755 | A custom unit whose key is not the base unit's comes back as NewGeneralUnit(n, n), where n is the snake_case of its name. Its own symbol is lost. |
| Temperature.Make | unit.go:16-25 | A unit of the temperature type whose base unit holds dimension "temperature" and exactly the symbol, name, coefficient, offset and base flag given. |
| Temperature.All | temperature.go:16-45 | Every predefined temperature unit has the temperature type and dimension "temperature"; Celsius is predefined and the only base unit among them; every coefficient is positive, and the offsets of Fahrenheit and Kelvin are -17 and -273.15. |
| Temperature.SymbolsFindAll | unit_registry.go:8-14 | The symbol registry maps the symbol of every predefined temperature unit to that unit. |
| Temperature.SymbolsHoldOnlyAll | unit_registry.go:8-14 | Every entry of the symbol registry, aliases included, is a predefined temperature unit. |
| Temperature.Lookup | unit_registry.go:206-209 | Found exactly when the symbol is registered; then the registered unit, which is predefined; otherwise the zero temperature unit. |
| Temperature.LookupFindsAll | unit_registry.go:206-209 | Every predefined temperature unit is found, with true, under its own symbol. |
| Temperature.CasesHoldOnlyAll | serialize.go:713-718 | Every case of the decoder switch yields a predefined temperature unit. |
| Temperature.Unmarshal | serialize.go:701-724 | Succeeds exactly when the shared decoder does for dimension "temperature" and these cases; the result is the decoded value in a predefined temperature unit. |
| Temperature.CasesListAll | serialize.go:713-718 | Every predefined temperature unit has a non-empty symbol, and the first case whose symbols list it is the case of that unit. |
| Temperature.UnmarshalRoundTrip | serialize.go:701-724 | Any value in any predefined temperature unit, written in the full format, is decoded back to the same quantity. |
| Temperature.KeysHoldOnlyAll | serialize_compact.go:14-18 | Every entry of the compact key table is a predefined temperature unit. |
| Temperature.UnmarshalCompact | serialize_compact.go:232-242 | Succeeds exactly when the shared compact decoder finds the key in the temperature key table; the result is the value in that predefined unit. |
| Temperature.CelsiusConversions | quantity_test.go:8-37 | 25 °C is 75.6 °F and 298.15 K, and 75.6 °F converts back to 25 °C. |
| Temperature.FahrenheitOffsetIsTruncated | temperature.go:26-35 | The Fahrenheit offset is the integer constant -32*5/9 = -17 rather than -160/9, so the scale is shifted: 0 °C is 30.6 °F and 32 °F is 7/9 °C. |
| Temperature.MixedUnitArithmetic | quantity_test.go:62-102 | 20 °C + 68 °F is 367/9 °C (about 40.78) and 20 °C - 68 °F is -7/9 °C (about -0.78). |
| Pressure.Make | unit.go:16-25 | A unit of the pressure type whose base unit holds dimension "pressure" and exactly the symbol, name, coefficient, offset and base flag given. |
| Pressure.All | pressure.go:18-67 | Every predefined pressure unit has the pressure type and dimension "pressure"; Pascal is predefined and the only base unit among them; no unit has an offset and every coefficient is positive. |
| Pressure.SymbolsFindAll | unit_registry.go:16-23 | The symbol registry maps the symbol of every predefined pressure unit to that unit. |
| Pressure.SymbolsHoldOnlyAll | unit_registry.go:16-23 | Every entry of the symbol registry, aliases included, is a predefined pressure unit. |
| Pressure.Lookup | unit_registry.go:212-215 | Found exactly when the symbol is registered; then the registered unit, which is predefined; otherwise the zero pressure unit. |
| Pressure.LookupFindsAll | unit_registry.go:212-215 | Every predefined pressure unit is found, with true, under its own symbol. |
| Pressure.CasesHoldOnlyAll | serialize.go:744-753 | Every case of the decoder switch yields a predefined pressure unit. |
| Pressure.Unmarshal | serialize.go:732-759 | Succeeds exactly when the shared decoder does for dimension "pressure" and these cases; the result is the decoded value in a predefined pressure unit. |
| Pressure.CasesListAll | serialize.go:744-753 | Every predefined pressure unit has a non-empty symbol, and the first case whose symbols list it is the case of that unit. |
| Pressure.UnmarshalRoundTrip | serialize.go:732-759 | Any value in any predefined pressure unit, written in the full format, is decoded back to the same quantity. |
| Pressure.KeysHoldOnlyAll | serialize_compact.go:20-26 | Every entry of the compact key table is a predefined pressure unit. |
| Pressure.UnmarshalCompact | serialize_compact.go:255-265 | Succeeds exactly when the shared compact decoder finds the key in the pressure key table; the result is the value in that predefined unit. |
| Pressure.Examples | quantity_test.go:39-60 | 101325 Pa is 1.01325 bar; 1 kPa is 1000 Pa. |
| FlowRate.Make | unit.go:16-25 | A unit of the flow rate type whose base unit holds dimension "flowrate" and exactly the symbol, name, coefficient, offset and base flag given. |
| FlowRate.All | flowrate.go:16-45 | Every predefined flow rate unit has the flow rate type and dimension "flowrate"; CubicMetersPerHour is predefined and the only base unit among them; no unit has an offset and every coefficient is positive. |
| FlowRate.SymbolsFindAll | unit_registry.go:25-29 | The symbol registry maps the symbol of every predefined flow rate unit to that unit. |
| FlowRate.SymbolsHoldOnlyAll | unit_registry.go:25-29 | Every entry of the symbol registry, aliases included, is a predefined flow rate unit. |
| FlowRate.Lookup | unit_registry.go:218-221 | Found exactly when the symbol is registered; then the registered unit, which is predefined; otherwise the zero flow rate unit. |
| FlowRate.LookupFindsAll | unit_registry.go:218-221 | Every predefined flow rate unit is found, with true, under its own symbol. |
| FlowRate.CasesHoldOnlyAll | serialize.go:779-784 | Every case of the decoder switch yields a predefined flow rate unit. |
| FlowRate.Unmarshal | serialize.go:767-790 | Succeeds exactly when the shared decoder does for dimension "flowrate" and these cases; the result is the decoded value in a predefined flow rate unit. |
| FlowRate.CasesListAll | serialize.go:779-784 | Every predefined flow rate unit has a non-empty symbol, and the first case whose symbols list it is the case of that unit. |
| FlowRate.UnmarshalRoundTrip | serialize.go:767-790 | Any value in any predefined flow rate unit, written in the full format, is decoded back to the same quantity. |
| FlowRate.KeysHoldOnlyAll | serialize_compact.go:116-120 | Every entry of the compact key table is a predefined flow rate unit. |
| FlowRate.UnmarshalCompact | serialize_compact.go:462-472 | Succeeds exactly when the shared compact decoder finds the key in the flow rate key table; the result is the value in that predefined unit. |
| FlowRate.Examples | flowrate.go:16-45 | 1 L/s is 3.6 m³/h; 1 CFM is 1.699 m³/h. |
| Power.Make | unit.go:16-25 | A unit of the power type whose base unit holds dimension "power" and exactly the symbol, name, coefficient, offset and base flag given. |
| Power.All | power.go:16-45 | Every predefined power unit has the power type and dimension "power"; Watt is predefined and the only base unit among them; no unit has an offset and every coefficient is positive. |
| Power.SymbolsFindAll | unit_registry.go:31-35 | The symbol registry maps the symbol of every predefined power unit to that unit. |
| Power.SymbolsHoldOnlyAll | unit_registry.go:31-35 | Every entry of the symbol registry, aliases included, is a predefined power unit. |
| Power.Lookup | unit_registry.go:224-227 | Found exactly when the symbol is registered; then the registered unit, which is predefined; otherwise the zero power unit. |
| Power.LookupFindsAll | unit_registry.go:224-227 | Every predefined power unit is found, with true, under its own symbol. |
| Power.CasesHoldOnlyAll | serialize.go:810-815 | Every case of the decoder switch yields a predefined power unit. |
| Power.Unmarshal | serialize.go:798-821 | Succeeds exactly when the shared decoder does for dimension "power" and these cases; the result is the decoded value in a predefined power unit. |
| Power.CasesListAll | serialize.go:810-815 | Every predefined power unit has a non-empty symbol, and the first case whose symbols list it is the case of that unit. |
| Power.UnmarshalRoundTrip | serialize.go:798-821 | Any value in any predefined power unit, written in the full format, is decoded back to the same quantity. |
| Power.KeysHoldOnlyAll | serialize_compact.go:122-126 | Every entry of the compact key table is a predefined power unit. |
| Power.UnmarshalCompact | serialize_compact.go:485-495 | Succeeds exactly when the shared compact decoder finds the key in the power key table; the result is the value in that predefined unit. |
| Power.Examples | power.go:16-45 | 1000 W is 1 kW; 1 BTU/h is 0.29307107 W. |
| Energy.Make | unit.go:16-25 | A unit of the energy type whose base unit holds dimension "energy" and exactly the symbol, name, coefficient, offset and base flag given. |
| Energy.All | energy.go:16-45 | Every predefined energy unit has the energy type and dimension "energy"; Joule is predefined and the only base unit among them; no unit has an offset and every coefficient is positive. |
| Energy.SymbolsFindAll | unit_registry.go:37-41 | The symbol registry maps the symbol of every predefined energy unit to that unit. |
| Energy.SymbolsHoldOnlyAll | unit_registry.go:37-41 | Every entry of the symbol registry, aliases included, is a predefined energy unit. |
| Energy.Lookup | unit_registry.go:230-233 | Found exactly when the symbol is registered; then the registered unit, which is predefined; otherwise the zero energy unit. |
| Energy.LookupFindsAll | unit_registry.go:230-233 | Every predefined energy unit is found, with true, under its own symbol. |
| Energy.CasesHoldOnlyAll | serialize.go:841-846 | Every case of the decoder switch yields a predefined energy unit. |
| Energy.Unmarshal | serialize.go:829-852 | Succeeds exactly when the shared decoder does for dimension "energy" and these cases; the result is the decoded value in a predefined energy unit. |
| Energy.CasesListAll | serialize.go:841-846 | Every predefined energy unit has a non-empty symbol, and the first case whose symbols list it is the case of that unit. |
| Energy.UnmarshalRoundTrip | serialize.go:829-852 | Any value in any predefined energy unit, written in the full format, is decoded back to the same quantity. |
| Energy.KeysHoldOnlyAll | serialize_compact.go:128-132 | Every entry of the compact key table is a predefined energy unit. |
| Energy.UnmarshalCompact | serialize_compact.go:508-518 | Succeeds exactly when the shared compact decoder finds the key in the energy key table; the result is the value in that predefined unit. |
| Energy.Examples | energy.go:16-45 | 3600000 J is 1 kWh; 1 BTU is 1055.06 J. |
| Length.Make | unit.go:16-25 | A unit of the length type whose base unit holds dimension "length" and exactly the symbol, name, coefficient, offset and base flag given. |
| Length.All | length.go:23-122 | Every predefined length unit has the length type and dimension "length"; Meter is predefined and the only base unit among them; no unit has an offset and every coefficient is positive. |
| Length.SymbolsFindAll | unit_registry.go:43-54 | The symbol registry maps the symbol of every predefined length unit to that unit. |
| Length.SymbolsHoldOnlyAll | unit_registry.go:43-54 | Every entry of the symbol registry, aliases included, is a predefined length unit. |
| Length.Lookup | unit_registry.go:236-239 | Found exactly when the symbol is registered; then the registered unit, which is predefined; otherwise the zero length unit. |
| Length.LookupFindsAll | unit_registry.go:236-239 | Every predefined length unit is found, with true, under its own symbol. |
| Length.CasesHoldOnlyAll | serialize.go:872-891 | Every case of the decoder switch yields a predefined length unit. |
| Length.Unmarshal | serialize.go:860-897 | Succeeds exactly when the shared decoder does for dimension "length" and these cases; the result is the decoded value in a predefined length unit. |
| Length.CasesListAll | serialize.go:872-891 | Every predefined length unit has a non-empty symbol, and the first case whose symbols list it is the case of that unit. |
| Length.UnmarshalRoundTrip | serialize.go:860-897 | Any value in any predefined length unit, written in the full format, is decoded back to the same quantity. |
| Length.KeysHoldOnlyAll | serialize_compact.go:28-39 | Every entry of the compact key table is a predefined length unit. |
| Length.UnmarshalCompact | serialize_compact.go:278-288 | Succeeds exactly when the shared compact decoder finds the key in the length key table; the result is the value in that predefined unit. |
| Length.Examples | length_test.go:16-128 | 10 m is 0.01 km; 10 m + 5 ft is 11.524 m and 10 m - 5 ft is 8.476 m; 10 m 2 is 20 m and 10 m / 2 is 5 m. |
| Mass.Make | unit.go:16-25 | A unit of the mass type whose base unit holds dimension "mass" and exactly the symbol, name, coefficient, offset and base flag given. |
| Mass.All | mass.go:22-111 | Every predefined mass unit has the mass type and dimension "mass"; Kilogram is predefined and the only base unit among them; no unit has an offset and every coefficient is positive. |
| Mass.SymbolsFindAll | unit_registry.go:56-66 | The symbol registry maps the symbol of every predefined mass unit to that unit. |
| Mass.SymbolsHoldOnlyAll | unit_registry.go:56-66 | Every entry of the symbol registry, aliases included, is a predefined mass unit. |
| Mass.Lookup | unit_registry.go:242-245 | Found exactly when the symbol is registered; then the registered unit, which is predefined; otherwise the zero mass unit. |
| Mass.LookupFindsAll | unit_registry.go:242-245 | Every predefined mass unit is found, with true, under its own symbol. |
| Mass.CasesHoldOnlyAll | serialize.go:917-934 | Every case of the decoder switch yields a predefined mass unit. |
| Mass.Unmarshal | serialize.go:905-940 | Succeeds exactly when the shared decoder does for dimension "mass" and these cases; the result is the decoded value in a predefined mass unit. |
| Mass.CasesListAll | serialize.go:917-934 | Every predefined mass unit has a non-empty symbol, and the first case whose symbols list it is the case of that unit. |
| Mass.UnmarshalRoundTrip | serialize.go:905-940 | Any value in any predefined mass unit, written in the full format, is decoded back to the same quantity. |
| Mass.KeysHoldOnlyAll | serialize_compact.go:41-51 | Every entry of the compact key table is a predefined mass unit. |
| Mass.UnmarshalCompact | serialize_compact.go:301-311 | Succeeds exactly when the shared compact decoder finds the key in the mass key table; the result is the value in that predefined unit. |
| Mass.Examples | mass_test.go:8-79 | 75 kg is 75000 g; 75 kg + 10 lb is 79.5359237 kg; the metric ton and the short ton are different units. |
| Duration.Make | unit.go:16-25 | A unit of the duration type whose base unit holds dimension "duration" and exactly the symbol, name, coefficient, offset and base flag given. |
| Duration.All | duration.go:20-89 | Every predefined duration unit has the duration type and dimension "duration"; Second is predefined and the only base unit among them; no unit has an offset and every coefficient is positive. |
| Duration.SymbolsFindAll | unit_registry.go:68-76 | The symbol registry maps the symbol of every predefined duration unit to that unit. |
| Duration.SymbolsHoldOnlyAll | unit_registry.go:68-76 | Every entry of the symbol registry, aliases included, is a predefined duration unit. |
| Duration.Lookup | unit_registry.go:248-251 | Found exactly when the symbol is registered; then the registered unit, which is predefined; otherwise the zero duration unit. |
| Duration.LookupFindsAll | unit_registry.go:248-251 | Every predefined duration unit is found, with true, under its own symbol. |
| Duration.CasesHoldOnlyAll | serialize.go:960-973 | Every case of the decoder switch yields a predefined duration unit. |
| Duration.Unmarshal | serialize.go:948-979 | Succeeds exactly when the shared decoder does for dimension "duration" and these cases; the result is the decoded value in a predefined duration unit. |
| Duration.CasesListAll | serialize.go:960-973 | Every predefined duration unit has a non-empty symbol, and the first case whose symbols list it is the case of that unit. |
| Duration.UnmarshalRoundTrip | serialize.go:948-979 | Any value in any predefined duration unit, written in the full format, is decoded back to the same quantity. |
| Duration.KeysHoldOnlyAll | serialize_compact.go:53-61 | Every entry of the compact key table is a predefined duration unit. |
| Duration.UnmarshalCompact | serialize_compact.go:324-334 | Succeeds exactly when the shared compact decoder finds the key in the duration key table; the result is the value in that predefined unit. |
| Duration.Examples | duration_test.go:8-88 | 60 s is 1 min and 60000 ms; 60 s + 2 min is 180 s; an hour is 3600 s and a day 86400 s. |
| Angle.Make | unit.go:16-25 | A unit of the angle type whose base unit holds dimension "angle" and exactly the symbol, name, coefficient, offset and base flag given. |
| Angle.All | angle.go:21-80 | Every predefined angle unit has the angle type and dimension "angle"; Radian is predefined and the only base unit among them; no unit has an offset and every coefficient is positive. |
| Angle.SymbolsFindAll | unit_registry.go:78-85 | The symbol registry maps the symbol of every predefined angle unit to that unit. |
| Angle.SymbolsHoldOnlyAll | unit_registry.go:78-85 | Every entry of the symbol registry, aliases included, is a predefined angle unit. |
| Angle.Lookup | unit_registry.go:254-257 | Found exactly when the symbol is registered; then the registered unit, which is predefined; otherwise the zero angle unit. |
| Angle.LookupFindsAll | unit_registry.go:254-257 | Every predefined angle unit is found, with true, under its own symbol. |
| Angle.CasesHoldOnlyAll | serialize.go:999-1010 | Every case of the decoder switch yields a predefined angle unit. |
| Angle.Unmarshal | serialize.go:987-1016 | Succeeds exactly when the shared decoder does for dimension "angle" and these cases; the result is the decoded value in a predefined angle unit. |
| Angle.CasesListAll | serialize.go:999-1010 | Every predefined angle unit has a non-empty symbol, and the first case whose symbols list it is the case of that unit. |
| Angle.UnmarshalRoundTrip | serialize.go:987-1016 | Any value in any predefined angle unit, written in the full format, is decoded back to the same quantity. |
| Angle.KeysHoldOnlyAll | serialize_compact.go:63-70 | Every entry of the compact key table is a predefined angle unit. |
| Angle.UnmarshalCompact | serialize_compact.go:347-357 | Succeeds exactly when the shared compact decoder finds the key in the angle key table; the result is the value in that predefined unit. |
| Angle.CancelPi | angle.go:31-40 | π is positive, so it cancels from both sides of an equation. |
| Angle.DegreesToRevolutionsAndGradians | angle.go:21-80 | v degrees are v/360 revolutions and v/0.9 gradians, whatever the value of π. |
| Angle.Examples | angle_test.go:8-46 | 90° is π/2 rad, 0.25 rev and 100 grad. |
| Angle.MixedUnitAddition | angle_test.go:48-88 | 90° + π/4 rad is 135°. |
| Area.Make | unit.go:16-25 | A unit of the area type whose base unit holds dimension "area" and exactly the symbol, name, coefficient, offset and base flag given. |
| Area.All | area.go:23-122 | Every predefined area unit has the area type and dimension "area"; SquareMeter is predefined and the only base unit among them; no unit has an offset and every coefficient is positive. |
| Area.SymbolsFindAll | unit_registry.go:87-98 | The symbol registry maps the symbol of every predefined area unit to that unit. |
| Area.SymbolsHoldOnlyAll | unit_registry.go:87-98 | Every entry of the symbol registry, aliases included, is a predefined area unit. |
| Area.Lookup | unit_registry.go:260-263 | Found exactly when the symbol is registered; then the registered unit, which is predefined; otherwise the zero area unit. |
| Area.LookupFindsAll | unit_registry.go:260-263 | Every predefined area unit is found, with true, under its own symbol. |
| Area.CasesHoldOnlyAll | serialize.go:1036-1055 | Every case of the decoder switch yields a predefined area unit. |
| Area.Unmarshal | serialize.go:1024-1061 | Succeeds exactly when the shared decoder does for dimension "area" and these cases; the result is the decoded value in a predefined area unit. |
| Area.CasesListAll | serialize.go:1036-1055 | Every predefined area unit has a non-empty symbol, and the first case whose symbols list it is the case of that unit. |
| Area.UnmarshalRoundTrip | serialize.go:1024-1061 | Any value in any predefined area unit, written in the full format, is decoded back to the same quantity. |
| Area.KeysHoldOnlyAll | serialize_compact.go:72-83 | Every entry of the compact key table is a predefined area unit. |
| Area.UnmarshalCompact | serialize_compact.go:370-380 | Succeeds exactly when the shared compact decoder finds the key in the area key table; the result is the value in that predefined unit. |
| Area.Examples | area.go:33-122 | 1 km² is 100 ha. |
| Volume.Make | unit.go:16-25 | A unit of the volume type whose base unit holds dimension "volume" and exactly the symbol, name, coefficient, offset and base flag given. |
| Volume.All | volume.go:27-166 | Every predefined volume unit has the volume type and dimension "volume"; CubicMeter is predefined and the only base unit among them; no unit has an offset and every coefficient is positive. |
| Volume.SymbolsFindAll | unit_registry.go:100-115 | The symbol registry maps the symbol of every predefined volume unit to that unit. |
| Volume.SymbolsHoldOnlyAll | unit_registry.go:100-115 | Every entry of the symbol registry, aliases included, is a predefined volume unit. |
| Volume.Lookup | unit_registry.go:266-269 | Found exactly when the symbol is registered; then the registered unit, which is predefined; otherwise the zero volume unit. |
| Volume.LookupFindsAll | unit_registry.go:266-269 | Every predefined volume unit is found, with true, under its own symbol. |
| Volume.CasesHoldOnlyAll | serialize.go:1081-1108 | Every case of the decoder switch yields a predefined volume unit. |
| Volume.Unmarshal | serialize.go:1069-1114 | Succeeds exactly when the shared decoder does for dimension "volume" and these cases; the result is the decoded value in a predefined volume unit. |
| Volume.CasesListAll | serialize.go:1081-1108 | Every predefined volume unit has a non-empty symbol, and the first case whose symbols list it is the case of that unit. |
| Volume.UnmarshalRoundTrip | serialize.go:1069-1114 | Any value in any predefined volume unit, written in the full format, is decoded back to the same quantity. |
| Volume.KeysHoldOnlyAll | serialize_compact.go:85-100 | Every entry of the compact key table is a predefined volume unit. |
| Volume.UnmarshalCompact | serialize_compact.go:393-403 | Succeeds exactly when the shared compact decoder finds the key in the volume key table; the result is the value in that predefined unit. |
| Volume.Examples | volume.go:27-166 | 1 m³ is 1000 L; 1 mL and 1 cm³ are Equal quantities although the units differ. |
| Acceleration.Make | unit.go:16-25 | A unit of the acceleration type whose base unit holds dimension "acceleration" and exactly the symbol, name, coefficient, offset and base flag given. |
| Acceleration.All | acceleration.go:16-45 | Every predefined acceleration unit has the acceleration type and dimension "acceleration"; MetersPerSecondSquared is predefined and the only base unit among them; no unit has an offset and every coefficient is positive. |
| Acceleration.SymbolsFindAll | unit_registry.go:117-121 | The symbol registry maps the symbol of every predefined acceleration unit to that unit. |
| Acceleration.SymbolsHoldOnlyAll | unit_registry.go:117-121 | Every entry of the symbol registry, aliases included, is a predefined acceleration unit. |
| Acceleration.Lookup | unit_registry.go:272-275 | Found exactly when the symbol is registered; then the registered unit, which is predefined; otherwise the zero acceleration unit. |
| Acceleration.LookupFindsAll | unit_registry.go:272-275 | Every predefined acceleration unit is found, with true, under its own symbol. |
| Acceleration.CasesHoldOnlyAll | serialize.go:1134-1139 | Every case of the decoder switch yields a predefined acceleration unit. |
| Acceleration.Unmarshal | serialize.go:1122-1145 | Succeeds exactly when the shared decoder does for dimension "acceleration" and these cases; the result is the decoded value in a predefined acceleration unit. |
| Acceleration.CasesListAll | serialize.go:1134-1139 | Every predefined acceleration unit has a non-empty symbol, and the first case whose symbols list it is the case of that unit. |
| Acceleration.UnmarshalRoundTrip | serialize.go:1122-1145 | Any value in any predefined acceleration unit, written in the full format, is decoded back to the same quantity. |
| Acceleration.KeysHoldOnlyAll | serialize_compact.go:110-114 | Every entry of the compact key table is a predefined acceleration unit. |
| Acceleration.UnmarshalCompact | serialize_compact.go:439-449 | Succeeds exactly when the shared compact decoder finds the key in the acceleration key table; the result is the value in that predefined unit. |
| Acceleration.Examples | acceleration_test.go:7-119 | 9.8 m/s² + 1 g is 19.60665 m/s² and 9.8 m/s² - 1 g is -0.00665 m/s²; ft/s² has coefficient 0.3048. |
| Concentration.Make | unit.go:16-25 | A unit of the concentration type whose base unit holds dimension "concentration" and exactly the symbol, name, coefficient, offset and base flag given. |
| Concentration.All | concentration.go:17-56 | Every predefined concentration unit has the concentration type and dimension "concentration"; GramsPerLiter is predefined and the only base unit among them; no unit has an offset and every coefficient is positive. |
| Concentration.SymbolsFindAll | unit_registry.go:123-128 | The symbol registry maps the symbol of every predefined concentration unit to that unit. |
| Concentration.SymbolsHoldOnlyAll | unit_registry.go:123-128 | Every entry of the symbol registry, aliases included, is a predefined concentration unit. |
| Concentration.Lookup | unit_registry.go:278-281 | Found exactly when the symbol is registered; then the registered unit, which is predefined; otherwise the zero concentration unit. |
| Concentration.LookupFindsAll | unit_registry.go:278-281 | Every predefined concentration unit is found, with true, under its own symbol. |
| Concentration.CasesHoldOnlyAll | serialize.go:1165-1172 | Every case of the decoder switch yields a predefined concentration unit. |
| Concentration.Unmarshal | serialize.go:1153-1178 | Succeeds exactly when the shared decoder does for dimension "concentration" and these cases; the result is the decoded value in a predefined concentration unit. |
| Concentration.CasesListAll | serialize.go:1165-1172 | Every predefined concentration unit has a non-empty symbol, and the first case whose symbols list it is the case of that unit. |
| Concentration.UnmarshalRoundTrip | serialize.go:1153-1178 | Any value in any predefined concentration unit, written in the full format, is decoded back to the same quantity. |
| Concentration.KeysHoldOnlyAll | serialize_compact.go:134-139 | Every entry of the compact key table is a predefined concentration unit. |
| Concentration.UnmarshalCompact | serialize_compact.go:531-541 | Succeeds exactly when the shared compact decoder finds the key in the concentration key table; the result is the value in that predefined unit. |
| Concentration.Examples | concentration_test.go:8-88 | 5 g/L is 5000 mg/L, 5000 ppm and 5000000 ppb; 5 g/L + 2000 mg/L is 7 g/L. |
| Dispersion.Make | unit.go:16-25 | A unit of the dispersion type whose base unit holds dimension "dispersion" and exactly the symbol, name, coefficient, offset and base flag given. |
| Dispersion.All | dispersion.go:17-56 | Every predefined dispersion unit has the dispersion type and dimension "dispersion"; PartsPerMillion is predefined and the only base unit among them; no unit has an offset and every coefficient is positive. |
| Dispersion.SymbolsFindAll | unit_registry.go:130-135 | The symbol registry maps the symbol of every predefined dispersion unit to that unit. |
| Dispersion.SymbolsHoldOnlyAll | unit_registry.go:130-135 | Every entry of the symbol registry, aliases included, is a predefined dispersion unit. |
| Dispersion.Lookup | unit_registry.go:284-287 | Found exactly when the symbol is registered; then the registered unit, which is predefined; otherwise the zero dispersion unit. |
| Dispersion.LookupFindsAll | unit_registry.go:284-287 | Every predefined dispersion unit is found, with true, under its own symbol. |
| Dispersion.CasesHoldOnlyAll | serialize.go:1198-1205 | Every case of the decoder switch yields a predefined dispersion unit. |
| Dispersion.Unmarshal | serialize.go:1186-1211 | Succeeds exactly when the shared decoder does for dimension "dispersion" and these cases; the result is the decoded value in a predefined dispersion unit. |
| Dispersion.CasesListAll | serialize.go:1198-1205 | Every predefined dispersion unit has a non-empty symbol, and the first case whose symbols list it is the case of that unit. |
| Dispersion.UnmarshalRoundTrip | serialize.go:1186-1211 | Any value in any predefined dispersion unit, written in the full format, is decoded back to the same quantity. |
| Dispersion.KeysHoldOnlyAll | serialize_compact.go:141-146 | Every entry of the compact key table is a predefined dispersion unit. |
| Dispersion.UnmarshalCompact | serialize_compact.go:554-564 | Succeeds exactly when the shared compact decoder finds the key in the dispersion key table; the result is the value in that predefined unit. |
| Dispersion.Examples | dispersion_test.go:8-88 | 100 ppm is 0.01 %, 100000 ppb and 1e8 ppt; 100 ppm + 0.005 % is 150 ppm. |
| Speed.Make | unit.go:16-25 | A unit of the speed type whose base unit holds dimension "speed" and exactly the symbol, name, coefficient, offset and base flag given. |
| Speed.All | speed.go:18-67 | Every predefined speed unit has the speed type and dimension "speed"; MetersPerSecond is predefined and the only base unit among them; no unit has an offset and every coefficient is positive. |
| Speed.SymbolsFindAll | unit_registry.go:137-143 | The symbol registry maps the symbol of every predefined speed unit to that unit. |
| Speed.SymbolsHoldOnlyAll | unit_registry.go:137-143 | Every entry of the symbol registry, aliases included, is a predefined speed unit. |
| Speed.Lookup | unit_registry.go:290-293 | Found exactly when the symbol is registered; then the registered unit, which is predefined; otherwise the zero speed unit. |
| Speed.LookupFindsAll | unit_registry.go:290-293 | Every predefined speed unit is found, with true, under its own symbol. |
| Speed.CasesHoldOnlyAll | serialize.go:1299-1308 | Every case of the decoder switch yields a predefined speed unit. |
| Speed.Unmarshal | serialize.go:1287-1314 | Succeeds exactly when the shared decoder does for dimension "speed" and these cases; the result is the decoded value in a predefined speed unit. |
| Speed.CasesListAll | serialize.go:1299-1308 | Every predefined speed unit has a non-empty symbol, and the first case whose symbols list it is the case of that unit. |
| Speed.UnmarshalRoundTrip | serialize.go:1287-1314 | Any value in any predefined speed unit, written in the full format, is decoded back to the same quantity. |
| Speed.KeysHoldOnlyAll | serialize_compact.go:102-108 | Every entry of the compact key table is a predefined speed unit. |
| Speed.UnmarshalCompact | serialize_compact.go:416-426 | Succeeds exactly when the shared compact decoder finds the key in the speed key table; the result is the value in that predefined unit. |
| Speed.Examples | speed.go:18-37 | 36 km/h is 10 m/s. |
| ElectricCharge.Make | unit.go:16-25 | A unit of the electric charge type whose base unit holds dimension "electric_charge" and exactly the symbol, name, coefficient, offset and base flag given. |
| ElectricCharge.All | electric_charge.go:18-67 | Every predefined electric charge unit has the electric charge type and dimension "electric_charge"; Coulomb is predefined and the only base unit among them; no unit has an offset and every coefficient is positive. |
| ElectricCharge.SymbolsFindAll | unit_registry.go:145-151 | The symbol registry maps the symbol of every predefined electric charge unit to that unit. |
| ElectricCharge.SymbolsHoldOnlyAll | unit_registry.go:145-151 | Every entry of the symbol registry, aliases included, is a predefined electric charge unit. |
| ElectricCharge.Lookup | unit_registry.go:296-299 | Found exactly when the symbol is registered; then the registered unit, which is predefined; otherwise the zero electric charge unit. |
| ElectricCharge.LookupFindsAll | unit_registry.go:296-299 | Every predefined electric charge unit is found, with true, under its own symbol. |
| ElectricCharge.CasesHoldOnlyAll | serialize.go:1231-1240 | Every case of the decoder switch yields a predefined electric charge unit. |
| ElectricCharge.Unmarshal | serialize.go:1219-1246 | Succeeds exactly when the shared decoder does for dimension "electric_charge" and these cases; the result is the decoded value in a predefined electric charge unit. |
| ElectricCharge.CasesListAll | serialize.go:1231-1240 | Every predefined electric charge unit has a non-empty symbol, and the first case whose symbols list it is the case of that unit. |
| ElectricCharge.UnmarshalRoundTrip | serialize.go:1219-1246 | Any value in any predefined electric charge unit, written in the full format, is decoded back to the same quantity. |
| ElectricCharge.KeysHoldOnlyAll | serialize_compact.go:148-154 | Every entry of the compact key table is a predefined electric charge unit. |
| ElectricCharge.UnmarshalCompact | serialize_compact.go:577-587 | Succeeds exactly when the shared compact decoder finds the key in the electric charge key table; the result is the value in that predefined unit. |
| ElectricCharge.Examples | electric_charge_test.go:8-97 | 1000 C + 1 Ah is 4600 C, 1000 C - 1 Ah is -2600 C, and 1000 C is 2500/9 mAh (about 277.78). |
| ElectricCurrent.Make | unit.go:16-25 | A unit of the electric current type whose base unit holds dimension "electric_current" and exactly the symbol, name, coefficient, offset and base flag given. |
| ElectricCurrent.All | electric_current.go:17-56 | Every predefined electric current unit has the electric current type and dimension "electric_current"; Ampere is predefined and the only base unit among them; no unit has an offset and every coefficient is positive. |
| ElectricCurrent.SymbolsFindAll | unit_registry.go:153-158 | The symbol registry maps the symbol of every predefined electric current unit to that unit. |
| ElectricCurrent.SymbolsHoldOnlyAll | unit_registry.go:153-158 | Every entry of the symbol registry, aliases included, is a predefined electric current unit. |
| ElectricCurrent.Lookup | unit_registry.go:302-305 | Found exactly when the symbol is registered; then the registered unit, which is predefined; otherwise the zero electric current unit. |
| ElectricCurrent.LookupFindsAll | unit_registry.go:302-305 | Every predefined electric current unit is found, with true, under its own symbol. |
| ElectricCurrent.CasesHoldOnlyAll | serialize.go:1266-1273 | Every case of the decoder switch yields a predefined electric current unit. |
| ElectricCurrent.Unmarshal | serialize.go:1254-1279 | Succeeds exactly when the shared decoder does for dimension "electric_current" and these cases; the result is the decoded value in a predefined electric current unit. |
| ElectricCurrent.CasesListAll | serialize.go:1266-1273 | Every predefined electric current unit has a non-empty symbol, and the first case whose symbols list it is the case of that unit. |
| ElectricCurrent.UnmarshalRoundTrip | serialize.go:1254-1279 | Any value in any predefined electric current unit, written in the full format, is decoded back to the same quantity. |
| ElectricCurrent.KeysHoldOnlyAll | serialize_compact.go:156-161 | Every entry of the compact key table is a predefined electric current unit. |
| ElectricCurrent.UnmarshalCompact | serialize_compact.go:600-610 | Succeeds exactly when the shared compact decoder finds the key in the electric current key table; the result is the value in that predefined unit. |
| ElectricCurrent.Examples | electric_current_test.go:8-88 | 2.5 A is 2500 mA and 0.0025 kA; 2.5 A + 500 mA is 3 A and 2.5 A - 500 mA is 2 A. |
| ElectricPotentialDifference.Make | unit.go:16-25 | A unit of the electric potential difference type whose base unit holds dimension "electric_potential_difference" and exactly the symbol, name, coefficient, offset and base flag given. |
| ElectricPotentialDifference.All | electric_potential_difference.go:18-67 | Every predefined electric potential difference unit has the electric potential difference type and dimension "electric_potential_difference"; Volt is predefined and the only base unit among them; no unit has an offset and every coefficient is positive. |
| ElectricPotentialDifference.SymbolsFindAll | unit_registry.go:160-166 | The symbol registry maps the symbol of every predefined electric potential difference unit to that unit. |
| ElectricPotentialDifference.SymbolsHoldOnlyAll | unit_registry.go:160-166 | Every entry of the symbol registry, aliases included, is a predefined electric potential difference unit. |
| ElectricPotentialDifference.Lookup | unit_registry.go:308-311 | Found exactly when the symbol is registered; then the registered unit, which is predefined; otherwise the zero electric potential difference unit. |
| ElectricPotentialDifference.LookupFindsAll | unit_registry.go:308-311 | Every predefined electric potential difference unit is found, with true, under its own symbol. |
| ElectricPotentialDifference.CasesHoldOnlyAll | serialize.go:1334-1343 | Every case of the decoder switch yields a predefined electric potential difference unit. |
| ElectricPotentialDifference.Unmarshal | serialize.go:1322-1349 | Succeeds exactly when the shared decoder does for dimension "electric_potential_difference" and these cases; the result is the decoded value in a predefined electric potential difference unit. |
| ElectricPotentialDifference.CasesListAll | serialize.go:1334-1343 | Every predefined electric potential difference unit has a non-empty symbol, and the first case whose symbols list it is the case of that unit. |
| ElectricPotentialDifference.UnmarshalRoundTrip | serialize.go:1322-1349 | Any value in any predefined electric potential difference unit, written in the full format, is decoded back to the same quantity. |
| ElectricPotentialDifference.KeysHoldOnlyAll | serialize_compact.go:163-169 | Every entry of the compact key table is a predefined electric potential difference unit. |
| ElectricPotentialDifference.UnmarshalCompact | serialize_compact.go:623-633 | Succeeds exactly when the shared compact decoder finds the key in the electric potential difference key table; the result is the value in that predefined unit. |
| ElectricPotentialDifference.Examples | electric_potential_difference_test.go:8-97 | 5 V is 5000 mV; 5 V + 500 mV is 5.5 V and 5 V - 500 mV is 4.5 V; "mV" and "MV" are different units. |
| Frequency.Make | unit.go:16-25 | A unit of the frequency type whose base unit holds dimension "frequency" and exactly the symbol, name, coefficient, offset and base flag given. |
| Frequency.All | frequency.go:19-78 | Every predefined frequency unit has the frequency type and dimension "frequency"; Hertz is predefined and the only base unit among them; no unit has an offset and every coefficient is positive. |
| Frequency.SymbolsFindAll | unit_registry.go:168-175 | The symbol registry maps the symbol of every predefined frequency unit to that unit. |
| Frequency.SymbolsHoldOnlyAll | unit_registry.go:168-175 | Every entry of the symbol registry, aliases included, is a predefined frequency unit. |
| Frequency.Lookup | unit_registry.go:314-317 | Found exactly when the symbol is registered; then the registered unit, which is predefined; otherwise the zero frequency unit. |
| Frequency.LookupFindsAll | unit_registry.go:314-317 | Every predefined frequency unit is found, with true, under its own symbol. |
| Frequency.CasesHoldOnlyAll | serialize.go:1418-1429 | Every case of the decoder switch yields a predefined frequency unit. |
| Frequency.Unmarshal | serialize.go:1406-1435 | Succeeds exactly when the shared decoder does for dimension "frequency" and these cases; the result is the decoded value in a predefined frequency unit. |
| Frequency.CasesListAll | serialize.go:1418-1429 | Every predefined frequency unit has a non-empty symbol, and the first case whose symbols list it is the case of that unit. |
| Frequency.UnmarshalRoundTrip | serialize.go:1406-1435 | Any value in any predefined frequency unit, written in the full format, is decoded back to the same quantity. |
| Frequency.KeysHoldOnlyAll | serialize_compact.go:171-178 | Every entry of the compact key table is a predefined frequency unit. |
| Frequency.UnmarshalCompact | serialize_compact.go:646-656 | Succeeds exactly when the shared compact decoder finds the key in the frequency key table; the result is the value in that predefined unit. |
| Frequency.Examples | frequency_test.go:9-89 | 1000 Hz is 60000 rpm and back; 2 kHz - 1000 Hz is 1 kHz. |
| Illuminance.Make | unit.go:16-25 | A unit of the illuminance type whose base unit holds dimension "illuminance" and exactly the symbol, name, coefficient, offset and base flag given. |
| Illuminance.All | illuminance.go:17-56 | Every predefined illuminance unit has the illuminance type and dimension "illuminance"; Lux is predefined and the only base unit among them; no unit has an offset and every coefficient is positive. |
| Illuminance.SymbolsFindAll | unit_registry.go:177-182 | The symbol registry maps the symbol of every predefined illuminance unit to that unit. |
| Illuminance.SymbolsHoldOnlyAll | unit_registry.go:177-182 | Every entry of the symbol registry, aliases included, is a predefined illuminance unit. |
| Illuminance.Lookup | unit_registry.go:320-323 | Found exactly when the symbol is registered; then the registered unit, which is predefined; otherwise the zero illuminance unit. |
| Illuminance.LookupFindsAll | unit_registry.go:320-323 | Every predefined illuminance unit is found, with true, under its own symbol. |
| Illuminance.CasesHoldOnlyAll | serialize.go:1455-1462 | Every case of the decoder switch yields a predefined illuminance unit. |
| Illuminance.Unmarshal | serialize.go:1443-1468 | Succeeds exactly when the shared decoder does for dimension "illuminance" and these cases; the result is the decoded value in a predefined illuminance unit. |
| Illuminance.CasesListAll | serialize.go:1455-1462 | Every predefined illuminance unit has a non-empty symbol, and the first case whose symbols list it is the case of that unit. |
| Illuminance.UnmarshalRoundTrip | serialize.go:1443-1468 | Any value in any predefined illuminance unit, written in the full format, is decoded back to the same quantity. |
| Illuminance.KeysHoldOnlyAll | serialize_compact.go:180-185 | Every entry of the compact key table is a predefined illuminance unit. |
| Illuminance.UnmarshalCompact | serialize_compact.go:669-679 | Succeeds exactly when the shared compact decoder finds the key in the illuminance key table; the result is the value in that predefined unit. |
| Illuminance.Examples | illuminance_test.go:9-89 | 1000 lx is 0.1 ph and 1000000 nx; 1000 lx + 10 fc is 1107.639 lx. |
| Information.Make | unit.go:16-25 | A unit of the information type whose base unit holds dimension "information" and exactly the symbol, name, coefficient, offset and base flag given. |
| Information.All | information.go:25-144 | Every predefined information unit has the information type and dimension "information"; Byte is predefined and the only base unit among them; no unit has an offset and every coefficient is positive. |
| Information.SymbolsFindAll | unit_registry.go:184-197 | The symbol registry maps the symbol of every predefined information unit to that unit. |
| Information.SymbolsHoldOnlyAll | unit_registry.go:184-197 | Every entry of the symbol registry, aliases included, is a predefined information unit. |
| Information.Lookup | unit_registry.go:326-329 | Found exactly when the symbol is registered; then the registered unit, which is predefined; otherwise the zero information unit. |
| Information.LookupFindsAll | unit_registry.go:326-329 | Every predefined information unit is found, with true, under its own symbol. |
| Information.CasesHoldOnlyAll | serialize.go:1369-1392 | Every case of the decoder switch yields a predefined information unit. |
| Information.Unmarshal | serialize.go:1357-1398 | Succeeds exactly when the shared decoder does for dimension "information" and these cases; the result is the decoded value in a predefined information unit. |
| Information.CasesListAll | serialize.go:1369-1392 | Every predefined information unit has a non-empty symbol, and the first case whose symbols list it is the case of that unit. |
| Information.UnmarshalRoundTrip | serialize.go:1357-1398 | Any value in any predefined information unit, written in the full format, is decoded back to the same quantity. |
| Information.KeysHoldOnlyAll | serialize_compact.go:187-200 | Every entry of the compact key table is a predefined information unit. |
| Information.UnmarshalCompact | serialize_compact.go:692-702 | Succeeds exactly when the shared compact decoder finds the key in the information key table; the result is the value in that predefined unit. |
| Information.Examples | information_test.go:8-57 | 1000 B is 1 KB, 1 KiB is 1024 B, 1 MiB is 1024 KiB, 8 bit is 1 B and 1 B is 8 bit. |
| Information.MixedPrefixArithmetic | information_test.go:59-85 | 1024 B + 1 KiB is 2048 B, and 1 KiB - 1024 B is 0 KiB. |
| FuelEfficiency.Make | unit.go:16-25 | A unit of the fuel efficiency type whose base unit holds dimension "fuel_efficiency" and exactly the symbol, name, coefficient, offset and base flag given. |
| FuelEfficiency.All | fuel_efficiency.go:16-45 | Every predefined fuel efficiency unit has the fuel efficiency type and dimension "fuel_efficiency"; KilometersPerLiter is predefined and the only base unit among them; no unit has an offset, and the coefficient is positive for every unit except L/100km, whose -100 marks the inverse conversion. |
| FuelEfficiency.SymbolsFindAll | unit_registry.go:199-203 | The symbol registry maps the symbol of every predefined fuel efficiency unit to that unit. |
| FuelEfficiency.SymbolsHoldOnlyAll | unit_registry.go:199-203 | Every entry of the symbol registry, aliases included, is a predefined fuel efficiency unit. |
| FuelEfficiency.Lookup | unit_registry.go:332-335 | Found exactly when the symbol is registered; then the registered unit, which is predefined; otherwise the zero fuel efficiency unit. |
| FuelEfficiency.LookupFindsAll | unit_registry.go:332-335 | Every predefined fuel efficiency unit is found, with true, under its own symbol. |
| FuelEfficiency.CasesHoldOnlyAll | serialize.go:1524-1529 | Every case of the decoder switch yields a predefined fuel efficiency unit. |
| FuelEfficiency.Unmarshal | serialize.go:1512-1535 | Succeeds exactly when the shared decoder does for dimension "fuel_efficiency" and these cases; the result is the decoded value in a predefined fuel efficiency unit. |
| FuelEfficiency.CasesListAll | serialize.go:1524-1529 | Every predefined fuel efficiency unit has a non-empty symbol, and the first case whose symbols list it is the case of that unit. |
| FuelEfficiency.UnmarshalRoundTrip | serialize.go:1512-1535 | Any value in any predefined fuel efficiency unit, written in the full format, is decoded back to the same quantity (0 L/100km excepted: decoding it panics in NewFuelEfficiency). |
| FuelEfficiency.KeysHoldOnlyAll | serialize_compact.go:202-206 | Every entry of the compact key table is a predefined fuel efficiency unit. |
| FuelEfficiency.UnmarshalCompact | serialize_compact.go:715-725 | Succeeds exactly when the shared compact decoder finds the key in the fuel efficiency key table; the result is the value in that predefined unit. |
| FuelEfficiency.NewFuelEfficiency | fuel_efficiency.go:49-55 | The quantity holds the value and unit given. A value of 0 L/100km panics and is excluded, so the quantity can always be converted. |
| FuelEfficiency.InverseConversions | fuel_efficiency_test.go:9-46 | 5 L/100km is 20 km/L; 10 km/L is 10 L/100km; 10 km/L is 10/0.425144 mpg. |
| FuelEfficiency.ConsumptionRoundTrip | fuel_efficiency.go:58-83 | Any nonzero consumption in L/100km converts to km/L and back unchanged. |
| FuelEfficiency.MixedInverseAddition | fuel_efficiency_test.go:48-101 | 5 L/100km + 10 km/L is 15 L/100km, because 10 km/L is 10 L/100km. |
| UnitRegistry.SymbolTable | unit_registry.go:8-203 | The symbol registry of a unit type holds only units of that type and dimension; the <Kind>Registry lemmas name the registry of each type. |
| UnitRegistry.Lookup | unit_registry.go:206-335 | Found exactly when the symbol is registered, returning the registered unit; otherwise the zero unit. |
| UnitRegistry.KeyTable | serialize_compact.go:14-206 | The compact key table of a unit type holds only units of that type and dimension; the <Kind>Keys lemmas name the table of each type. |
| UnitRegistry.Unmarshal | serialize.go:701-1535 | The decoder of a unit type returns only units of that type and dimension; the <Kind>Decoder lemmas name the decoder of each type. |
| UnitRegistry.TemperatureRegistry | quantity.go:387-390 | In lookupUnit the dimension "temperature" consults LookupTemperatureUnit: the temperature unit type selects the temperature symbol registry. |
| UnitRegistry.TemperatureKeys | quantity.go:276-279 | In lookupUnitByName the dimension "temperature" consults temperatureUnitsByKey: the temperature unit type selects the temperature key table. |
| UnitRegistry.TemperatureDecoder | serialize.go:497-502 | The "temperature" case calls UnmarshalTemperature: the temperature unit type selects that decoder. |
| UnitRegistry.PressureRegistry | quantity.go:391-394 | In lookupUnit the dimension "pressure" consults LookupPressureUnit: the pressure unit type selects the pressure symbol registry. |
| UnitRegistry.PressureKeys | quantity.go:280-283 | In lookupUnitByName the dimension "pressure" consults pressureUnitsByKey: the pressure unit type selects the pressure key table. |
| UnitRegistry.PressureDecoder | serialize.go:503-508 | The "pressure" case calls UnmarshalPressure: the pressure unit type selects that decoder. |
| UnitRegistry.FlowRateRegistry | quantity.go:395-398 | In lookupUnit the dimension "flowrate" consults LookupFlowRateUnit: the flowrate unit type selects the flowrate symbol registry. |
| UnitRegistry.FlowRateKeys | quantity.go:284-287 | In lookupUnitByName the dimension "flowrate" consults flowRateUnitsByKey: the flowrate unit type selects the flowrate key table. |
| UnitRegistry.FlowRateDecoder | serialize.go:509-514 | The "flowrate" case calls UnmarshalFlowRate: the flowrate unit type selects that decoder. |
| UnitRegistry.PowerRegistry | quantity.go:399-402 | In lookupUnit the dimension "power" consults LookupPowerUnit: the power unit type selects the power symbol registry. |
| UnitRegistry.PowerKeys | quantity.go:288-291 | In lookupUnitByName the dimension "power" consults powerUnitsByKey: the power unit type selects the power key table. |
| UnitRegistry.PowerDecoder | serialize.go:515-520 | The "power" case calls UnmarshalPower: the power unit type selects that decoder. |
| UnitRegistry.EnergyRegistry | quantity.go:403-406 | In lookupUnit the dimension "energy" consults LookupEnergyUnit: the energy unit type selects the energy symbol registry. |
| UnitRegistry.EnergyKeys | quantity.go:292-295 | In lookupUnitByName the dimension "energy" consults energyUnitsByKey: the energy unit type selects the energy key table. |
| UnitRegistry.EnergyDecoder | serialize.go:521-526 | The "energy" case calls UnmarshalEnergy: the energy unit type selects that decoder. |
| UnitRegistry.LengthRegistry | quantity.go:407-410 | In lookupUnit the dimension "length" consults LookupLengthUnit: the length unit type selects the length symbol registry. |
| UnitRegistry.LengthKeys | quantity.go:296-299 | In lookupUnitByName the dimension "length" consults lengthUnitsByKey: the length unit type selects the length key table. |
| UnitRegistry.LengthDecoder | serialize.go:527-532 | The "length" case calls UnmarshalLength: the length unit type selects that decoder. |
| UnitRegistry.MassRegistry | quantity.go:411-414 | In lookupUnit the dimension "mass" consults LookupMassUnit: the mass unit type selects the mass symbol registry. |
| UnitRegistry.MassKeys | quantity.go:300-303 | In lookupUnitByName the dimension "mass" consults massUnitsByKey: the mass unit type selects the mass key table. |
| UnitRegistry.MassDecoder | serialize.go:533-538 | The "mass" case calls UnmarshalMass: the mass unit type selects that decoder. |
| UnitRegistry.DurationRegistry | quantity.go:415-418 | In lookupUnit the dimension "duration" consults LookupDurationUnit: the duration unit type selects the duration symbol registry. |
| UnitRegistry.DurationKeys | quantity.go:304-307 | In lookupUnitByName the dimension "duration" consults durationUnitsByKey: the duration unit type selects the duration key table. |
| UnitRegistry.DurationDecoder | serialize.go:539-544 | The "duration" case calls UnmarshalDuration: the duration unit type selects that decoder. |
| UnitRegistry.AngleRegistry | quantity.go:419-422 | In lookupUnit the dimension "angle" consults LookupAngleUnit: the angle unit type selects the angle symbol registry. |
| UnitRegistry.AngleKeys | quantity.go:308-311 | In lookupUnitByName the dimension "angle" consults angleUnitsByKey: the angle unit type selects the angle key table. |
| UnitRegistry.AngleDecoder | serialize.go:545-550 | The "angle" case calls UnmarshalAngle: the angle unit type selects that decoder. |
| UnitRegistry.AreaRegistry | quantity.go:423-426 | In lookupUnit the dimension "area" consults LookupAreaUnit: the area unit type selects the area symbol registry. |
| UnitRegistry.AreaKeys | quantity.go:312-315 | In lookupUnitByName the dimension "area" consults areaUnitsByKey: the area unit type selects the area key table. |
| UnitRegistry.AreaDecoder | serialize.go:551-556 | The "area" case calls UnmarshalArea: the area unit type selects that decoder. |
| UnitRegistry.VolumeRegistry | quantity.go:427-430 | In lookupUnit the dimension "volume" consults LookupVolumeUnit: the volume unit type selects the volume symbol registry. |
| UnitRegistry.VolumeKeys | quantity.go:316-319 | In lookupUnitByName the dimension "volume" consults volumeUnitsByKey: the volume unit type selects the volume key table. |
| UnitRegistry.VolumeDecoder | serialize.go:557-562 | The "volume" case calls UnmarshalVolume: the volume unit type selects that decoder. |
| UnitRegistry.AccelerationRegistry | quantity.go:431-434 | In lookupUnit the dimension "acceleration" consults LookupAccelerationUnit: the acceleration unit type selects the acceleration symbol registry. |
| UnitRegistry.AccelerationKeys | quantity.go:320-323 | In lookupUnitByName the dimension "acceleration" consults accelerationUnitsByKey: the acceleration unit type selects the acceleration key table. |
| UnitRegistry.AccelerationDecoder | serialize.go:563-568 | The "acceleration" case calls UnmarshalAcceleration: the acceleration unit type selects that decoder. |
| UnitRegistry.ConcentrationRegistry | quantity.go:435-438 | In lookupUnit the dimension "concentration" consults LookupConcentrationUnit: the concentration unit type selects the concentration symbol registry. |
| UnitRegistry.ConcentrationKeys | quantity.go:324-327 | In lookupUnitByName the dimension "concentration" consults concentrationUnitsByKey: the concentration unit type selects the concentration key table. |
| UnitRegistry.ConcentrationDecoder | serialize.go:569-574 | The "concentration" case calls UnmarshalConcentration: the concentration unit type selects that decoder. |
| UnitRegistry.DispersionRegistry | quantity.go:439-442 | In lookupUnit the dimension "dispersion" consults LookupDispersionUnit: the dispersion unit type selects the dispersion symbol registry. |
| UnitRegistry.DispersionKeys | quantity.go:328-331 | In lookupUnitByName the dimension "dispersion" consults dispersionUnitsByKey: the dispersion unit type selects the dispersion key table. |
| UnitRegistry.DispersionDecoder | serialize.go:575-580 | The "dispersion" case calls UnmarshalDispersion: the dispersion unit type selects that decoder. |
| UnitRegistry.SpeedRegistry | quantity.go:443-446 | In lookupUnit the dimension "speed" consults LookupSpeedUnit: the speed unit type selects the speed symbol registry. |
| UnitRegistry.SpeedKeys | quantity.go:332-335 | In lookupUnitByName the dimension "speed" consults speedUnitsByKey: the speed unit type selects the speed key table. |
| UnitRegistry.SpeedDecoder | serialize.go:623-628 | The "speed" case calls UnmarshalSpeed: the speed unit type selects that decoder. |
| UnitRegistry.ElectricChargeRegistry | quantity.go:447-450 | In lookupUnit the dimension "electric_charge" consults LookupElectricChargeUnit: the electric charge unit type selects the electric charge symbol registry. |
| UnitRegistry.ElectricChargeKeys | quantity.go:336-339 | In lookupUnitByName the dimension "electric_charge" consults electricChargeUnitsByKey: the electric charge unit type selects the electric charge key table. |
| UnitRegistry.ElectricChargeDecoder | serialize.go:581-586 | The "electric_charge" case calls UnmarshalElectricCharge: the electric charge unit type selects that decoder. |
| UnitRegistry.ElectricCurrentRegistry | quantity.go:451-454 | In lookupUnit the dimension "electric_current" consults LookupElectricCurrentUnit: the electric current unit type selects the electric current symbol registry. |
| UnitRegistry.ElectricCurrentKeys | quantity.go:340-343 | In lookupUnitByName the dimension "electric_current" consults electricCurrentUnitsByKey: the electric current unit type selects the electric current key table. |
| UnitRegistry.ElectricCurrentDecoder | serialize.go:587-592 | The "electric_current" case calls UnmarshalElectricCurrent: the electric current unit type selects that decoder. |
| UnitRegistry.ElectricPotentialDifferenceRegistry | quantity.go:455-458 | In lookupUnit the dimension "electric_potential_difference" consults LookupElectricPotentialDifferenceUnit: the electric potential difference unit type selects the electric potential difference symbol registry. |
| UnitRegistry.ElectricPotentialDifferenceKeys | quantity.go:344-347 | In lookupUnitByName the dimension "electric_potential_difference" consults electricPotentialDifferenceUnitsByKey: the electric potential difference unit type selects the electric potential difference key table. |
| UnitRegistry.ElectricPotentialDifferenceDecoder | serialize.go:593-598 | The "electric_potential_difference" case calls UnmarshalElectricPotentialDifference: the electric potential difference unit type selects that decoder. |
| UnitRegistry.FrequencyRegistry | quantity.go:459-462 | In lookupUnit the dimension "frequency" consults LookupFrequencyUnit: the frequency unit type selects the frequency symbol registry. |
| UnitRegistry.FrequencyKeys | quantity.go:348-351 | In lookupUnitByName the dimension "frequency" consults frequencyUnitsByKey: the frequency unit type selects the frequency key table. |
| UnitRegistry.FrequencyDecoder | serialize.go:605-610 | The "frequency" case calls UnmarshalFrequency: the frequency unit type selects that decoder. |
| UnitRegistry.IlluminanceRegistry | quantity.go:463-466 | In lookupUnit the dimension "illuminance" consults LookupIlluminanceUnit: the illuminance unit type selects the illuminance symbol registry. |
| UnitRegistry.IlluminanceKeys | quantity.go:352-355 | In lookupUnitByName the dimension "illuminance" consults illuminanceUnitsByKey: the illuminance unit type selects the illuminance key table. |
| UnitRegistry.IlluminanceDecoder | serialize.go:611-616 | The "illuminance" case calls UnmarshalIlluminance: the illuminance unit type selects that decoder. |
| UnitRegistry.InformationRegistry | quantity.go:467-470 | In lookupUnit the dimension "information" consults LookupInformationUnit: the information unit type selects the information symbol registry. |
| UnitRegistry.InformationKeys | quantity.go:356-359 | In lookupUnitByName the dimension "information" consults informationUnitsByKey: the information unit type selects the information key table. |
| UnitRegistry.InformationDecoder | serialize.go:599-604 | The "information" case calls UnmarshalInformation: the information unit type selects that decoder. |
| UnitRegistry.FuelEfficiencyRegistry | quantity.go:471-474 | In lookupUnit the dimension "fuel_efficiency" consults LookupFuelEfficiencyUnit: the fuel efficiency unit type selects the fuel efficiency symbol registry. |
| UnitRegistry.FuelEfficiencyKeys | quantity.go:360-363 | In lookupUnitByName the dimension "fuel_efficiency" consults fuelEfficiencyUnitsByKey: the fuel efficiency unit type selects the fuel efficiency key table. |
| UnitRegistry.FuelEfficiencyDecoder | serialize.go:617-622 | The "fuel_efficiency" case calls UnmarshalFuelEfficiency: the fuel efficiency unit type selects that decoder (whenever that decoder is defined, that is for a payload that is not 0 L/100km). |
| UnitRegistry.LookupKey | quantity.go:274-363 | The <dimension>UnitsByKey lookup: found exactly when the key is in the type's table, returning that entry, which has the type; otherwise the zero unit. |
| UnitRegistry.UnmarshalCompact | serialize_compact.go:232-755 | Succeeds exactly when the compact document decodes and its key is in the type's table; then it returns the value with that table entry. |
| SerializeKeys.Lower | serialize.go:89 | Maps an ASCII capital letter to its lower-case form and leaves any other character unchanged. |
| SerializeKeys.ToLower | serialize.go:105 | strings.ToLower: same length, each character lowered. |
| SerializeKeys.ReplaceSpaces | serialize.go:77 | Same length; each space becomes '_' and every other character is kept. |
| SerializeKeys.EmitKeepsAtStart | serialize.go:80-98 | After a character is written, the builder ends in '_' (or is empty) exactly when that character was '_'. |
| SerializeKeys.SnakeStep | serialize.go:80-98 | One character of the input, seen as the loop and as the recursive specification see it. |
| SerializeKeys.SnakeStepKeeps | serialize.go:80-98 | One iteration of the loop preserves the invariant: what has been written plus the specification of the rest is the whole result. |
| SerializeKeys.ToSnakeCase | serialize.go:75-100 | The loop over the characters writes exactly SnakeCase of the input. |
| SerializeKeys.SnakeShape | serialize.go:75-100 | The output has no capital letter, no "__", and no space if the input has none. Starting at the beginning, it has no leading '_'. |
| SerializeKeys.SnakeCaseShape | serialize.go:75-100 | toSnakeCase never writes a capital letter, a space, "__" or a leading '_'. |
| SerializeKeys.SnakeOfSnake | serialize.go:75-100 | Text without capitals or "__" (and without a leading '_' at the start) is written out unchanged. |
| SerializeKeys.SnakeCaseIdempotent | serialize.go:75-100 | Applying toSnakeCase a second time changes nothing. |
| SerializeKeys.SnakeAppend | serialize.go:80-98 | The conversion of a + b is that of a followed by that of b, with b started from the state a left behind. |
| SerializeKeys.SnakeWord | serialize.go:80-98 | A word is lowered. A capitalised word that does not start the output gets an '_' in front. |
| SerializeKeys.LowerWords | serialize.go:89 | Each word of a list lowered. |
| SerializeKeys.SnakeOfUnderscoredWords | serialize.go:75-100 | Words joined by '_' come out lowered and joined by '_'. |
| SerializeKeys.SnakeOfCamelWords | serialize.go:75-100 | Capitalised words written together come out lowered and joined by '_'. |
| SerializeKeys.ReplaceSpacesOfWords | serialize.go:77 | Joining words by spaces and then replacing the spaces joins them by '_'. |
| SerializeKeys.SnakeCaseOfSpacedName | serialize.go:75-100 | A name of words separated by spaces gives its words lowered and joined by '_'. |
| SerializeKeys.SnakeCaseOfCamelName | serialize.go:75-100 | A name of capitalised words written together gives its words lowered and joined by '_'. |
| SerializeKeys.SnakeCaseCamel | serialize_compact_test.go:13-19 | "KilometersPerHour" becomes "kilometers_per_hour". |
| SerializeKeys.SnakeCaseAcronym | serialize_compact_test.go:13-19 | "BTU" becomes "b_t_u". |
| SerializeKeys.SnakeCaseDigits | serialize_compact_test.go:13-19 | "LitersPer100Kilometers" becomes "liters_per100_kilometers". |
| SerializeKeys.SnakeCaseSpaced | speed.go:32 | "Kilometers per Hour" becomes "kilometers_per_hour". |
| SerializeKeys.SnakeCaseSquareMeter | area.go:27 | "Square Meter" becomes "square_meter". |
| SerializeKeys.SnakeCasePsi | pressure.go:52 | "Pounds per Square Inch" becomes "pounds_per_square_inch". |
| SerializeKeys.SnakeCaseCfm | flowrate.go:40 | "Cubic Feet per Minute" becomes "cubic_feet_per_minute". |
| SerializeKeys.SnakeCaseFahrenheit | temperature.go:30 | "Fahrenheit" becomes "fahrenheit". |
| SerializeKeys.SnakeCaseGeneralUnit | general.go:18 | "General Unit" becomes "general_unit". |
| SerializeKeys.SnakeCaseKilopascal | pressure.go:32 | "Kilopascal" becomes "kilopascal". |
| SerializeKeys.FirstUnderscore | serialize.go:111 | strings.Index(s, "_"): -1 exactly when s has no '_', otherwise the position of its first '_'. |
| SerializeKeys.FirstUnderscoreOfJoin | serialize.go:111 | In a + "_" + b with no '_' in a, the first '_' comes right after a. |
| SerializeKeys.ParseUnitKey | serialize.go:110-116 | A key without '_' is all dimension with an empty unit part. Otherwise the two parts joined by '_' give the key back, and the dimension part holds no '_'. |
| SerializeKeys.ParseUnitKeyOfJoin | serialize.go:110-116 | a + "_" + b splits into a and b when a holds no '_'. |
| SerializeKeys.ParseUnitKeyOfUnitKey | serialize.go:104-116 | The partner of unitKey: for a dimension without '_', the key splits back into the lowered dimension and the snake_case name. |
| SerializeKeys.ParseUnitKeySimple | serialize_compact_test.go:55-57 | "temperature_celsius" splits into "temperature" and "celsius". |
| SerializeKeys.ParseUnitKeyMultiWord | serialize_compact_test.go:55-57 | "electric_current_milliampere" splits into "electric" and "current_milliampere". |
| SerializeKeys.ParseUnitKeyNoUnderscore | serialize_compact_test.go:49-67 | "celsius" is all dimension, with an empty unit part. |
| SerializeKeys.EqualFold | serialize.go:272 | True exactly when the two texts are equal after lowering. |
| SerializeKeys.CamelStep | serialize.go:75-100 | toSnakeCase of a word followed by text whose output starts with "_" is the lowered word (with a leading "_" for a capital not at the start) followed by that output. |
| SerializeKeys.EmitShape | serialize.go:75-100 | What toSnakeCase writes for one character: no capital, no space unless the character is one, no "__", ending in '_' exactly when the character is '_', and not starting with '_' at the start of the output. |
| Serialize.EncodingsDecode | serialize.go:25-71 | Each of the three JSON structs decodes back to itself after encoding. |
| Serialize.DetectFormat | serialize.go:120-179 | The result is one of the three formats. A document with no "unit" member is the MissingUnit error, and only such a document gets it. The compact and minimal formats give a dimension without '_'. |
| Serialize.UnmarshalValue | serialize.go:182-190 | Succeeds exactly when the document is an object with a numeric (or missing or null) "value", and returns that number. |
| Serialize.UnmarshalUnitInfo | serialize.go:194-230 | Succeeds only when the format is detected. The full format yields no key; the compact and minimal formats yield no name. |
| Serialize.ParseMeasurement | serialize.go:243-264 | Succeeds exactly when the format is detected and the value is read. It keeps that format, dimension and value. When the unit information fails, symbol, name and key are all empty. |
| Serialize.MatchUnitByKey | serialize.go:267-273 | True exactly when there is a key and its unit part equals the name up to ASCII case. |
| Serialize.FirstMatch | serialize.go:712-719 | None exactly when no case matches. Otherwise it is the unit of a matching case that no earlier case precedes. |
| Serialize.FirstMatchBySymbol | serialize.go:712-719 | Without a key, the first case whose symbols hold the parsed symbol is picked. |
| Serialize.DecodeUnit | serialize.go:701-724 | Succeeds exactly when the document parses with the expected dimension and a case matches; returns the value and that case's unit. A document of another dimension is an ExpectedDimension error. |
| Serialize.MarshalWithFormat | serialize.go:681-692 | Any format number other than compact and minimal writes the full format. |
| Serialize.DetectMarshalledFormat | serialize.go:120-179 | The partner of MarshalWithFormat: each format written is detected as itself. The full format gives back the dimension, the others give the key's prefix. |
| Serialize.MarshalledKeyPrefix | serialize.go:104-116 | For a one-word dimension the key's prefix is the lowered dimension. |
| Serialize.MultiWordDimensionIsCut | serialize.go:104-116 | For a dimension first_rest the prefix is only the lowered first word. |
| Serialize.ParseMarshalledFull | serialize.go:243-264 | The full format of a quantity with a symbol parses back to its value, symbol, name and dimension, with no key. |
| Serialize.DecodeMarshalledFull | serialize.go:701-724 | A unit whose symbol first appears in case i decodes from its full format to the same value and unit. |
| Serialize.DecodeMarshalledFullUnknown | serialize.go:719-722 | A unit listed by no case is rejected with its symbol and an empty key. |
| Serialize.DecodeOtherDimension | serialize.go:707-710 | A payload of another dimension is rejected as ExpectedDimension before any unit is looked at. |
| SerializeCompact.CompactJsonRoundTrip | serialize.go:44-49 | The compact struct decodes back to itself after encoding. |
| SerializeCompact.DecodeCompactUnit | serialize_compact.go:232-242 | Succeeds exactly when the document decodes and its key is in the table: the value with the table entry. Any other key is an UnknownCompactKey error that carries the key. |
| SerializeCompact.CompactRoundTrip | serialize_compact.go:209-242 | A unit whose unitKey is its table key comes back unchanged, with or without the symbol. |
| SerializeCompact.CompactRoundTripFails | serialize_compact.go:209-242 | A unit whose unitKey is not a table key fails with exactly that key. |
| SerializeCompact.MarshalledCompactIsCompact | serialize_compact.go:917-932 | Everything marshalCompactGeneric writes is recognised as compact. |
| SerializeCompact.OtherFormatsAreNotCompact | serialize_compact.go:917-932 | Neither the full nor the compact form written by marshalGeneric counts as compact, and neither does a key without '_'. |
| Measurement.As | serialize.go:288-469 | The type assertion succeeds exactly when the held quantity has the unit type asked for, and then returns it. Otherwise it returns the zero quantity. |
| Measurement.AsFollowsTag | serialize.go:277-469 | On a tagged measurement, exactly one assertion succeeds: the one for the type the dimension names. |
| Measurement.GeneralTag | serialize.go:629 | The tag "general" names the general unit type. |
| Measurement.GeneralOnlyByName | serialize.go:629 | Only the dimension "general" selects the general unit type. |
| Measurement.FallbackInfo | serialize.go:482-492 | The unit information createFallback reads, or all-empty information when it cannot be read. |
| Measurement.Fallback | serialize.go:482-492 | A general measurement with a custom unit. The value is the document's (0 if unreadable). The symbol is the payload's, or else the key's unit part. The name is the payload's, or else the symbol. |
| Measurement.UnmarshalMeasurement | serialize.go:474-639 | Fails exactly on a format error, or when a "general" document fails UnmarshalGeneral. Otherwise the result is tagged with the detected dimension or is the general fallback. |
| Measurement.UnmarshalDimension | serialize.go:496-637 | The switch fails only for "general" when UnmarshalGeneral fails. Otherwise the result is tagged with the dimension or is the fallback. |
| Measurement.UnmarshalGeneralCase | serialize.go:629-634 | The "general" case passes UnmarshalGeneral's error on; its results are tagged "general". |
| Measurement.UnmarshalKnown | serialize.go:497-628 | One case of the switch: the decoder's quantity tagged with the dimension, or the fallback when the decoder fails. |
| Measurement.UnknownDimensionFallsBack | serialize.go:635-637 | An unknown dimension gives the general fallback. |
| Measurement.DecoderFailureFallsBack | serialize.go:497-628 | A known dimension whose decoder fails also gives the general fallback. |
| Measurement.KnownDimensionDecodes | serialize.go:497-628 | A document of a known dimension that its decoder accepts comes back tagged with that dimension. |
| Measurement.GeneralDimensionDecodes | serialize.go:629-634 | A "general" document comes back as whatever UnmarshalGeneral makes of it. |
| Measurement.UnmarshalMeasurementRoundTrip | serialize.go:474-639 | Whatever the type's own decoder reads back from the full format, UnmarshalMeasurement reads back too, tagged with the dimension. As<Dimension> then returns it. |
| Measurement.PrefixIsNotFuelEfficiency | serialize_compact.go:758-914 | A key prefix has no '_', so it never selects fuel efficiency. |
| Measurement.CompactKind | serialize_compact.go:758-914 | The key's prefix selects a unit type that has a key table, never general or fuel efficiency. When it selects none, the prefix names no type or names general. |
| Measurement.UnmarshalCompactMeasurement | serialize_compact.go:758-914 | An undecodable document is a JSON type error. Success comes exactly when the key's type (if any) has the key in its table. The value is kept; general and unknown prefixes are tagged "general". |
| Measurement.CompactMeasurementRoundTrip | serialize_compact.go:758-914 | A quantity of a one-word dimension whose key is in its table comes back from the compact form, tagged with its dimension. |
| Measurement.CompactMultiWordIsGeneral | serialize_compact.go:758-914 | A quantity of a multi-word dimension comes back from the compact form as a general quantity with the same value. |
| Measurement.MultiWordKeyPrefix | serialize.go:104-116 | The key prefix of a multi-word dimension names no dimension. |
| Measurement.LowerOfPrefixes | serialize.go:105 | Lowering "electric" and "fuel" leaves them unchanged. |
| Measurement.CompactMeasurementOfKind | serialize_compact.go:758-914 | A key whose prefix names a unit type whose key table holds it decodes through that type, tagged with the dimension name. |
| Measurement.CompactKindOfKey | serialize_compact.go:758-914 | The unitKey of a quantity of a one-word dimension selects the compact decoder of its own unit type. |
| MeasurementExamples.ParseLegacyDoc | serialize.go:243-264 | A legacy full document of a dimension, a symbol and a value parses into exactly those parts. |
| MeasurementExamples.TemperatureDocDecodes | serialize_test.go:180-204 | The legacy document of 25 °C is read back as 25 °C tagged "temperature". |
| MeasurementExamples.TemperatureDocAsTemperature | serialize.go:288-293 | AsTemperature then gives the quantity back. |
| MeasurementExamples.LengthDocDecodes | serialize_test.go:206-228 | The legacy document of 10 m is read back as 10 m tagged "length". |
| MeasurementExamples.VolumeDocDecodes | serialize_test.go:230-252 | The legacy document of 5 L is read back as 5 L tagged "volume". |
| MeasurementExamples.UnknownDimensionDoc | serialize.go:635-637 | A document of an unknown dimension becomes a general quantity with the same value in a custom unit with its symbol. |
| MeasurementExamples.InvalidDimensionFallsBack | serialize_test.go:254-268 | "invalid_dimension" falls back to general. |
| MeasurementExamples.CustomDimensionFallsBack | serialize_general_test.go:17-23 | "unknown_dimension" falls back to general and keeps the symbol and value. |
| MeasurementExamples.UnknownUnitHasNoCase | serialize.go:712-722 | No case of UnmarshalTemperature accepts the symbol "unknown_unit". |
| MeasurementExamples.UnknownTemperatureUnitFallsBack | serialize_general_test.go:24-30 | A temperature document with an unknown unit falls back to general instead of failing. |
| MeasurementExamples.GeneralDocDecodes | serialize_general_test.go:31-37 | A "general" document with the symbol "unit" is the general base unit. |
| MeasurementExamples.ParseMinimalDoc | serialize.go:120-264 | A minimal document with a key and no symbol is detected as minimal, under the key's prefix. |
| MeasurementExamples.MinimalMeterUnmarshals | serialize.go:860-903 | The key "length_meter" selects the first case of UnmarshalLength by its key name. |
| MeasurementExamples.FirstCaseMatches | serialize.go:712-719 | A Go switch takes its first case when that case matches. |
| MeasurementExamples.MinimalDocDecodes | serialize_compact_test.go:153-173 | The minimal document of 100 m is detected and read back as 100 m tagged "length". |
| MeasurementExamples.CompactCelsiusMeasurement | serialize_compact_test.go:153-173 | The compact document of 25 °C has a key that names its own table entry, so the compact decoder tags it "temperature". |
| QuantityJson.LookupUnit | quantity.go:382-491 | Succeeds exactly when the dimension is that of the type, and the type is general or its registry holds the symbol. Returns the registered unit, or NewGeneralUnit(symbol, symbol) for general. An unknown dimension is an error. |
| QuantityJson.LookupUnknownSymbol | quantity.go:382-491 | An unregistered symbol is an UnknownUnitSymbol error, whatever type is asked for. |
| QuantityJson.LookupOtherKind | quantity.go:382-491 | A unit found for another unit type fails the type assertion (UnitTypeMismatch). |
| QuantityJson.LookupUnitByName | quantity.go:269-379 | Succeeds exactly when the dimension is that of the type, and the type is general or the key dimension_name is in its table. Returns the table entry, or NewGeneralUnit(name, name). An unknown dimension is an error. |
| QuantityJson.LookupByNameUnknownKey | quantity.go:269-379 | A key missing from its table is an UnknownUnitKey error, whatever type is asked for. |
| QuantityJson.MarshalJSON | quantity.go:154-173 | The document decodes to exactly the value, the unit's name and symbol, and the dimension. |
| QuantityJson.CompactMarshalJSON | quantity.go:209-220 | The document decodes to the value, the unit key and the symbol. The "symbol" member is present exactly when the symbol is not empty. |
| QuantityJson.DimensionNameIsSnakeText | quantity.go:209-220 | Every dimension string is lower-case words joined by single underscores. |
| QuantityJson.DimensionNameIsSnakeCase | serialize.go:75-100 | toSnakeCase leaves every dimension string unchanged. |
| QuantityJson.DimensionNameIsLower | serialize.go:105 | strings.ToLower leaves every dimension string unchanged. |
| QuantityJson.MultiWordDimensions | quantity.go:250-256 | A dimension string contains '_' exactly for electric charge, electric current, electric potential difference and fuel efficiency. |
| QuantityJson.PrefixesNameNoDimension | quantity.go:269-379 | "electric" and "fuel" name no dimension. |
| QuantityJson.MultiWordDimensionPrefix | quantity.go:250-256 | A multi-word dimension splits after "electric" or "fuel", which name no dimension, and rejoins to itself. |
| QuantityJson.IndexOf | quantity.go:259-266 | Returns the first position where sep occurs in s, or -1 exactly when it occurs nowhere. |
| QuantityJson.OccursUnderscore | quantity.go:259-266 | The separator "_" occurs at i exactly when s[i] is '_'. |
| QuantityJson.IndexOfUnderscore | quantity.go:259-266 | indexOf(s, "_") is the first '_' of s, as strings.Index finds it. |
| QuantityJson.ParseCompactUnitKey | quantity.go:250-256 | Gives the same split as parseUnitKey. |
| QuantityJson.QuantityVar.constructor | quantity.go:37-40 | The zero value of Quantity[T]: value 0 and the zero unit of the type. |
| QuantityJson.QuantityVar.UnmarshalJSON | quantity.go:176-200 | A document that does not decode changes nothing and reports a JSON error. Otherwise the value is stored. The unit is set only when lookupUnit succeeds; otherwise its error is returned and the unit is kept. |
| QuantityJson.CompactVar.constructor | quantity.go:203-206 | The zero value of Compact[T]: value 0 and the zero unit of the type. |
| QuantityJson.CompactVar.UnmarshalJSON | quantity.go:223-247 | A document that does not decode changes nothing. Otherwise the value is stored and the key split at its first '_'. The unit is set only when lookupUnitByName succeeds; otherwise its error is returned. |
| QuantityJson.MarshalJSONRoundTrip | quantity.go:154-200 | When the type's registry maps the unit's symbol to the unit, MarshalJSON and lookupUnit give back the value and the unit. |
| QuantityJson.MarshalUnmarshal | quantity_json_test.go:108-187 | A fresh variable of the quantity's type receives the marshalled quantity unchanged, and no error is reported. |
| QuantityJson.GeneralUnitComesBackCustom | quantity.go:475-476 | The general base unit comes back as NewGeneralUnit("unit", "unit"), which differs from the base unit. |
| QuantityJson.CompactRoundTrip | quantity.go:209-247 | For a one-word dimension whose key is in the table, the compact form gives back the value and the unit. |
| QuantityJson.CompactMarshalUnmarshal | quantity_json_test.go:311-349 | A fresh Compact variable of the quantity's type receives it unchanged, and no error is reported. |
| QuantityJson.CompactKeyOfKind | quantity.go:209-210 | The compact key of a quantity of a unit type is that type's dimension string, '_' and the snake_case of the unit name. |
| QuantityJson.MultiWordKeyPrefix | quantity.go:250-256 | Any key under a multi-word dimension splits after the first word of the dimension. |
| QuantityJson.CompactMultiWordPrefix | quantity.go:209-256 | The key written for a quantity of a multi-word dimension is read back with only the first word of the dimension. |
| QuantityJson.CompactMultiWordFails | quantity.go:223-256 | A multi-word dimension never comes back from the compact form. The key splits inside the dimension, and the first word is an UnknownDimension error. |
| QuantityJson.LegacyMeasurementFields | quantity.go:154-173 | The object MarshalJSON writes reads back as value, unit name and symbol, and dimension. |
| QuantityJson.LegacyCompactFields | quantity.go:209-220 | The object Compact.MarshalJSON writes reads back as value, key and symbol, and carries a "symbol" member exactly when the symbol is not empty. |
| QuantityJsonExamples.MarshalCelsius | quantity_json_test.go:8-53 | 25 °C is written as value 25, unit {name "Celsius", symbol "°C"} and dimension "temperature". |
| QuantityJsonExamples.UnmarshalCelsius | quantity_json_test.go:55-71 | A temperature document fills a temperature variable with 25 °C and no error. |
| QuantityJsonExamples.PressureIntoTemperature | quantity_json_test.go:198-206 | A pressure unit asked for as a temperature is a type mismatch. |
| QuantityJsonExamples.UnmarshalPressureIntoTemperature | quantity_json_test.go:198-206 | The mismatch is reported. The value 101.325 is stored anyway, and the unit stays the zero unit. |
| QuantityJsonExamples.UnknownTemperatureSymbol | quantity_json_test.go:208-217 | "XX" is an unknown temperature symbol. |
| QuantityJsonExamples.CompactMarshalKeys | quantity_json_test.go:220-256 | The compact keys are "temperature_celsius", "pressure_kilopascal" and "length_meter". |
| QuantityJsonExamples.CompactCelsiusRoundTrip | quantity_json_test.go:312-330 | 25 °C survives the compact form. |
| QuantityJsonExamples.CompactKilopascalRoundTrip | quantity_json_test.go:332-349 | 101.325 kPa survives the compact form. |
| QuantityJsonExamples.CompactCoulombFails | quantity.go:223-256 | 1 C does not survive: the key "electric_charge_coulomb" is read as the dimension "electric". |
| Conversion.ErrorText | conversion.go:19-21 | The message opens with the fixed prefix, then quotes the input, and ends with the message. |
| Conversion.FirstIndexOf | conversion.go:19-21 | The first position of c in s, or the length of s when c does not occur. |
| Conversion.InputOfErrorTextRoundTrip | conversion.go:19-21 | The partner of ErrorText: an input without a quote character is read back from the message. |
| Conversion.LeadingSpaces | conversion.go:100 | Counts the white space at the start of s; the next character, if any, is not white space. |
| Conversion.TrailingSpaces | conversion.go:100 | Counts the white space at the end of s; the character before it, if any, is not white space. |
| Conversion.TrimSpace | conversion.go:100 | strings.TrimSpace: the result is s without white space at either end, and it is empty exactly when s is all white space. |
| Conversion.TrimSpaceOfPadded | conversion.go:100 | The partner of TrimSpace: text with no white space at its ends is exactly what remains after padding it with white space. |
| Conversion.TrimSpaceIdempotent | conversion.go:100 | Trimming twice trims nothing more. |
| Conversion.SignLength | conversion.go:24 | The length of the optional sign [-+]. |
| Conversion.DigitsEnd | conversion.go:24 | The end of the run of digits starting at i; the next character, if any, is not a digit. |
| Conversion.SpacesEnd | conversion.go:24 | The end of the run of \s characters starting at i. |
| Conversion.NumeralEnd | conversion.go:24 | When found, the numeral group ends there and the whole pattern matches with it. |
| Conversion.NumeralEndIsLongest | conversion.go:24 | The partner of NumeralEnd: any match makes NumeralEnd succeed with a numeral at least as long, and the white space after it is all of it. |
| Conversion.MatchedNumeralEnds | conversion.go:24 | A matched numeral is followed by a non-digit and then by the white space up to the unit. |
| Conversion.NumeralWithPoint | conversion.go:24 | A matched numeral with a point is exactly the one NumeralEnd finds. |
| Conversion.NumeralWithoutPoint | conversion.go:24 | A matched numeral without a point is the run of digits after the sign. |
| Conversion.NoMatchExactly | conversion.go:101-107 | NumeralEnd finds nothing exactly when the pattern matches nowhere. |
| Conversion.DigitsValueAppend | conversion.go:112 | Appending digits b to digits a scales a by ten per digit of b and adds b. |
| Conversion.DecimalNotation | conversion.go:112 | The numeral a.b is valid and denotes a + b / 10 to the power of the length of b. |
| Conversion.PointNumeralParts | conversion.go:112 | In the numeral a.b there is no sign, the point comes right after a, and a and b are the two sides of it. |
| Conversion.IntegerNotation | conversion.go:112 | A numeral without a point denotes its digits. |
| Conversion.SignedNotation | conversion.go:112 | A leading minus negates the value; a leading plus keeps it. |
| Conversion.NumeralEndIsLongestOfAll | conversion.go:24 | No match has a longer numeral than the one NumeralEnd finds. |
| Conversion.RestOfTrimmedNotBlank | conversion.go:110 | What follows a position inside trimmed text is not blank. |
| Conversion.MessagesDiffer | conversion.go:103-117 | The two error messages of parseValueAndUnit differ. |
| Conversion.ParseValueAndUnit | conversion.go:99-121 | Errors carry the trimmed input. It is the invalid-format error exactly when the pattern matches nowhere. A success is the longest numeral's value and the trimmed rest, a non-empty unit text. |
| Conversion.ParseMatched | conversion.go:99-121 | Once the longest numeral is known and in range, the result is its value and the trimmed rest of the text. |
| Conversion.ParseFormatted | conversion.go:99-121 | The FormatWithUnit round trip: a numeral, a separator and a unit token parse back to the numeral's value and the token. |
| Conversion.FindAlias | conversion.go:37-47 | None exactly when no case lists the token. Otherwise it is the unit of the first case that lists it, as a Go switch picks. |
| Conversion.LowerIdempotent | conversion.go:37 | Lowering twice is lowering once. |
| Conversion.WellFormedAliasesSelect | conversion.go:37-47 | In a switch whose tokens are lower-case and distinct, a listed token in any letter case selects its own case. |
| Conversion.Cases | conversion.go:37-47 | One case per token list, in order, each with its unit. |
| Conversion.CasesSelectSymbol | conversion.go:37-47 | A unit whose lowered symbol its case lists is selected by that symbol in any letter case. |
| Conversion.ParseWithUnknown | conversion.go:48-50 | A token that no case selects is reported as "unknown ... unit", with the whole input. |
| Conversion.UnlistedToken | conversion.go:37-50 | A token that no case lists selects nothing. |
| Conversion.ParsedUnitIsCase | conversion.go:27-57 | A parsed quantity carries the unit of one of the cases. |
| Conversion.ParseWithSymbol | conversion.go:27-57 | A quantity written with the symbol of case i's unit, when that case lists the symbol, is parsed back to that quantity. |
| Conversion.ParseWithListedSymbol | conversion.go:27-57 | The same with " " as the separator, for a unit every one of whose cases lists its symbol. |
| Conversion.ParseWith | conversion.go:27-57 | Passes on parseValueAndUnit's error. Succeeds exactly when some case lists the lowered token, with the first such case's unit. Otherwise it is "unknown <noun> unit: " and the token, with the untrimmed input. |
| Conversion.ParseWithFormatted | conversion.go:27-57 | Formatted text whose token a well-formed switch lists, in any letter case, parses back. |
| Conversion.Pow10 | conversion.go:112 | Ten to the n is positive. |
| Conversion.ScaledSum | conversion.go:112 | Dividing x * p + y by p gives x plus y / p. |
| Conversion.FormattedIsTrimmed | conversion.go:100 | Text written as a numeral, a blank separator and a unit token has no white space to trim. |
| Conversion.FormattedMatch | conversion.go:24 | In such text the longest numeral is the one written, followed by exactly the separator. |
| Conversion.FormattedParts | conversion.go:24 | Such text falls apart into the numeral written and the unit token, which has nothing to trim. |
| Conversion.LowerCaseUnchanged | conversion.go:37 | Lowering text without capitals changes nothing. |
| Conversion.CasesWellFormed | conversion.go:37-47 | A switch whose tokens are lower-case, and listed by no later case, is well formed. |
| Conversion.TrimSpaceOfParts | conversion.go:100 | A text made of white space, a part with no white space at either end, and white space trims to that part. |
| Conversion.TrimSpaceOfTrimmed | conversion.go:100 | Text with no white space at either end is left unchanged by TrimSpace. |
| Conversion.NumeralEndAtPoint | conversion.go:24 | Digits, a point, at least one digit and a tail the pattern accepts: the numeral group of the match ends after the second run of digits. |
| Conversion.DecimalValue | conversion.go:112 | The numeral a.b is well formed, and ParseFloat reads it as a + b / 10^(number of digits of b). |
| Conversion.NumeralStart | conversion.go:24 | A numeral the pattern accepts never starts with white space, so the trim of line 100 cannot eat into it. |
| Conversion.ParseWithToken | conversion.go:27-57 | numeral + separator + token, where the switch lists the lowered token for units[i], parses to the numeral value in units[i]. |
| Conversion.ParseWithUnlistedToken | conversion.go:49-54 | numeral + separator + token, where no case lists the lowered token, fails with "unknown <noun> unit: <token>" naming the whole text. |
| ConversionTables.TemperatureUnitsAreAll | conversion.go:37-47 | The units of the temperature switch are exactly the predefined temperature units: each case yields one, and each one has a case. |
| ConversionTables.TemperatureAliasesWellFormed | conversion.go:37-47 | Every token of the temperature switch is lower-case and no token is listed by two cases, so each token selects its own case. |
| ConversionTables.ParseTemperature | conversion.go:27-57 | A parsed temperature quantity is in a predefined temperature unit; otherwise the ParseError of parseValueAndUnit, or "unknown temperature unit: " and the unit text with the whole input. |
| ConversionTables.ParseTemperatureSymbol | conversion.go:27-57 | Every predefined temperature unit, written as a numeral, a space and its symbol (the text FormatWithUnit writes), is parsed back to that value in that unit. |
| ConversionTables.PressureUnitsAreAll | conversion.go:70-86 | The units of the pressure switch are exactly the predefined pressure units: each case yields one, and each one has a case. |
| ConversionTables.PressureAliasesWellFormed | conversion.go:70-86 | Every token of the pressure switch is lower-case and no token is listed by two cases, so each token selects its own case. |
| ConversionTables.ParsePressure | conversion.go:60-96 | A parsed pressure quantity is in a predefined pressure unit; otherwise the ParseError of parseValueAndUnit, or "unknown pressure unit: " and the unit text with the whole input. |
| ConversionTables.ParsePressureSymbol | conversion.go:60-96 | Every predefined pressure unit, written as a numeral, a space and its symbol (the text FormatWithUnit writes), is parsed back to that value in that unit. |
| ConversionTables.LengthUnitsAreAll | conversion.go:134-165 | The units of the length switch are exactly the predefined length units: each case yields one, and each one has a case. |
| ConversionTables.LengthAliasesWellFormed | conversion.go:134-165 | Every token of the length switch is lower-case and no token is listed by two cases, so each token selects its own case. |
| ConversionTables.ParseLength | conversion.go:124-175 | A parsed length quantity is in a predefined length unit; otherwise the ParseError of parseValueAndUnit, or "unknown length unit: " and the unit text with the whole input. |
| ConversionTables.ParseLengthSymbol | conversion.go:124-175 | Every predefined length unit, written as a numeral, a space and its symbol (the text FormatWithUnit writes), is parsed back to that value in that unit. |
| ConversionTables.MassUnitsAreAll | conversion.go:188-216 | The units of the mass switch are exactly the predefined mass units: each case yields one, and each one has a case. |
| ConversionTables.MassAliasesWellFormed | conversion.go:188-216 | Every token of the mass switch is lower-case and no token is listed by two cases, so each token selects its own case. |
| ConversionTables.ParseMass | conversion.go:178-226 | A parsed mass quantity is in a predefined mass unit; otherwise the ParseError of parseValueAndUnit, or "unknown mass unit: " and the unit text with the whole input. |
| ConversionTables.ParseMassSymbol | conversion.go:178-226 | Every predefined mass unit, written as a numeral, a space and its symbol (the text FormatWithUnit writes), is parsed back to that value in that unit. |
| ConversionTables.DurationUnitsAreAll | conversion.go:239-261 | The units of the duration switch are exactly the predefined duration units: each case yields one, and each one has a case. |
| ConversionTables.DurationAliasesWellFormed | conversion.go:239-261 | Every token of the duration switch is lower-case and no token is listed by two cases, so each token selects its own case. |
| ConversionTables.ParseDuration | conversion.go:229-271 | A parsed duration quantity is in a predefined duration unit; otherwise the ParseError of parseValueAndUnit, or "unknown duration unit: " and the unit text with the whole input. |
| ConversionTables.ParseDurationSymbol | conversion.go:229-271 | Every predefined duration unit, written as a numeral, a space and its symbol (the text FormatWithUnit writes), is parsed back to that value in that unit. |
| ConversionTables.AngleUnitsAreAll | conversion.go:284-303 | The units of the angle switch are exactly the predefined angle units: each case yields one, and each one has a case. |
| ConversionTables.AngleAliasesWellFormed | conversion.go:284-303 | Every token of the angle switch is lower-case and no token is listed by two cases, so each token selects its own case. |
| ConversionTables.ParseAngle | conversion.go:274-313 | A parsed angle quantity is in a predefined angle unit; otherwise the ParseError of parseValueAndUnit, or "unknown angle unit: " and the unit text with the whole input. |
| ConversionTables.ParseAngleSymbol | conversion.go:274-313 | Every predefined angle unit, written as a numeral, a space and its symbol (the text FormatWithUnit writes), is parsed back to that value in that unit. |
| ConversionTables.AreaUnitsAreAll | conversion.go:326-357 | The units of the area switch are exactly the predefined area units: each case yields one, and each one has a case. |
| ConversionTables.AreaAliasesWellFormed | conversion.go:326-357 | Every token of the area switch is lower-case and no token is listed by two cases, so each token selects its own case. |
| ConversionTables.ParseArea | conversion.go:316-367 | A parsed area quantity is in a predefined area unit; otherwise the ParseError of parseValueAndUnit, or "unknown area unit: " and the unit text with the whole input. |
| ConversionTables.ParseAreaSymbol | conversion.go:316-367 | Every predefined area unit, written as a numeral, a space and its symbol (the text FormatWithUnit writes), is parsed back to that value in that unit. |
| ConversionTables.VolumeUnitsAreAll | conversion.go:380-423 | The units of the volume switch are exactly the predefined volume units: each case yields one, and each one has a case. |
| ConversionTables.VolumeAliasesWellFormed | conversion.go:380-423 | Every token of the volume switch is lower-case and no token is listed by two cases, so each token selects its own case. |
| ConversionTables.ParseVolume | conversion.go:370-433 | A parsed volume quantity is in a predefined volume unit; otherwise the ParseError of parseValueAndUnit, or "unknown volume unit: " and the unit text with the whole input. |
| ConversionTables.ParseVolumeSymbol | conversion.go:370-433 | Every predefined volume unit, written as a numeral, a space and its symbol (the text FormatWithUnit writes), is parsed back to that value in that unit. |
| ConversionTables.AccelerationUnitsAreAll | conversion.go:446-456 | The units of the acceleration switch are exactly the predefined acceleration units: each case yields one, and each one has a case. |
| ConversionTables.AccelerationAliasesWellFormed | conversion.go:446-456 | Every token of the acceleration switch is lower-case and no token is listed by two cases, so each token selects its own case. |
| ConversionTables.ParseAcceleration | conversion.go:436-466 | A parsed acceleration quantity is in a predefined acceleration unit; otherwise the ParseError of parseValueAndUnit, or "unknown acceleration unit: " and the unit text with the whole input. |
| ConversionTables.ParseAccelerationSymbol | conversion.go:436-466 | Every predefined acceleration unit, written as a numeral, a space and its symbol (the text FormatWithUnit writes), is parsed back to that value in that unit. |
| ConversionTables.ConcentrationUnitsAreAll | conversion.go:479-492 | The units of the concentration switch are exactly the predefined concentration units: each case yields one, and each one has a case. |
| ConversionTables.ConcentrationAliasesWellFormed | conversion.go:479-492 | Every token of the concentration switch is lower-case and no token is listed by two cases, so each token selects its own case. |
| ConversionTables.ParseConcentration | conversion.go:469-502 | A parsed concentration quantity is in a predefined concentration unit; otherwise the ParseError of parseValueAndUnit, or "unknown concentration unit: " and the unit text with the whole input. |
| ConversionTables.ParseConcentrationSymbol | conversion.go:469-502 | Every predefined concentration unit, written as a numeral, a space and its symbol (the text FormatWithUnit writes), is parsed back to that value in that unit. |
| ConversionTables.DispersionUnitsAreAll | conversion.go:515-528 | The units of the dispersion switch are exactly the predefined dispersion units: each case yields one, and each one has a case. |
| ConversionTables.DispersionAliasesWellFormed | conversion.go:515-528 | Every token of the dispersion switch is lower-case and no token is listed by two cases, so each token selects its own case. |
| ConversionTables.ParseDispersion | conversion.go:505-538 | A parsed dispersion quantity is in a predefined dispersion unit; otherwise the ParseError of parseValueAndUnit, or "unknown dispersion unit: " and the unit text with the whole input. |
| ConversionTables.ParseDispersionSymbol | conversion.go:505-538 | Every predefined dispersion unit, written as a numeral, a space and its symbol (the text FormatWithUnit writes), is parsed back to that value in that unit. |
| ConversionTables.ElectricChargeUnitsAreAll | conversion.go:551-567 | The units of the electric charge switch are exactly the predefined electric charge units: each case yields one, and each one has a case. |
| ConversionTables.ElectricChargeAliasesWellFormed | conversion.go:551-567 | Every token of the electric charge switch is lower-case and no token is listed by two cases, so each token selects its own case. |
| ConversionTables.ParseElectricCharge | conversion.go:541-577 | A parsed electric charge quantity is in a predefined electric charge unit; otherwise the ParseError of parseValueAndUnit, or "unknown electric charge unit: " and the unit text with the whole input. |
| ConversionTables.ParseElectricChargeSymbol | conversion.go:541-577 | Every predefined electric charge unit, written as a numeral, a space and its symbol (the text FormatWithUnit writes), is parsed back to that value in that unit. |
| ConversionTables.ElectricCurrentUnitsAreAll | conversion.go:590-603 | The units of the electric current switch are exactly the predefined electric current units: each case yields one, and each one has a case. |
| ConversionTables.ElectricCurrentAliasesWellFormed | conversion.go:590-603 | Every token of the electric current switch is lower-case and no token is listed by two cases, so each token selects its own case. |
| ConversionTables.ParseElectricCurrent | conversion.go:580-613 | A parsed electric current quantity is in a predefined electric current unit; otherwise the ParseError of parseValueAndUnit, or "unknown electric current unit: " and the unit text with the whole input. |
| ConversionTables.ParseElectricCurrentSymbol | conversion.go:580-613 | Every predefined electric current unit, written as a numeral, a space and its symbol (the text FormatWithUnit writes), is parsed back to that value in that unit. |
| ConversionTables.SpeedUnitsAreAll | conversion.go:626-642 | The units of the speed switch are exactly the predefined speed units: each case yields one, and each one has a case. |
| ConversionTables.SpeedAliasesWellFormed | conversion.go:626-642 | Every token of the speed switch is lower-case and no token is listed by two cases, so each token selects its own case. |
| ConversionTables.ParseSpeed | conversion.go:616-652 | A parsed speed quantity is in a predefined speed unit; otherwise the ParseError of parseValueAndUnit, or "unknown speed unit: " and the unit text with the whole input. |
| ConversionTables.ParseSpeedSymbol | conversion.go:616-652 | Every predefined speed unit, written as a numeral, a space and its symbol (the text FormatWithUnit writes), is parsed back to that value in that unit. |
| ConversionTables.ElectricPotentialDifferenceUnitsAreAll | conversion.go:665-681 | The units of the electric potential difference switch are exactly the predefined electric potential difference units: each case yields one, and each one has a case. |
| ConversionTables.ElectricPotentialDifferenceAliasesWellFormed | conversion.go:665-681 | Every token of the electric potential difference switch is lower-case and no token is listed by two cases, so each token selects its own case. |
| ConversionTables.ParseElectricPotentialDifference | conversion.go:655-691 | A parsed electric potential difference quantity is in a predefined electric potential difference unit; otherwise the ParseError of parseValueAndUnit, or "unknown electric potential difference unit: " and the unit text with the whole input. |
| ConversionTables.ParseElectricPotentialDifferenceSymbol | conversion.go:655-691 | Every predefined electric potential difference unit except Megavolt, written as a numeral, a space and its symbol, is parsed back to that value in that unit; Megavolt is not (its symbol lowers to another unit's token). |
| ConversionExamples.ParseTenMeters | length_test.go:139-145 | "10 m" parses to 10 m. |
| ConversionExamples.ParseFivePointFiveKilometers | length_test.go:146-152 | "5.5 km" parses to 5.5 km. |
| ConversionExamples.ParseSixFeet | length_test.go:153-159 | "6 feet" parses to 6 ft. |
| ConversionExamples.ParseTwentyFiveCelsius | quantity_test.go:104-129 | "25°C", with no space, parses to 25 °C. |
| ConversionExamples.ParseSeventySevenFahrenheit | quantity_test.go:104-129 | "77 F" parses to 77 °F. |
| ConversionExamples.ParseKilopascals | quantity_test.go:104-129 | "101.325 kPa" parses to 101.325 kPa. |
| ConversionExamples.ParseOnePointFiveHours | duration_test.go:107-113 | "1.5 hours" parses to 1.5 h. |
| ConversionExamples.ParseOneG | acceleration_test.go:136-142 | "1 g" is one standard gravity to ParseAcceleration. |
| ConversionExamples.ParseOneGram | conversion.go:188-216 | "1 g" is one gram to ParseMass. |
| ConversionExamples.MegavoltSymbolIsMillivolt | conversion.go:665-681 | The symbol of Megavolt is "MV", but "5 MV" parses as 5 millivolts: lowered, it is the Millivolt token "mv". |
| ConversionExamples.ParseFiveMegavolts | conversion.go:665-681 | A megavolt is written "megav" or spelled out. |
| ConversionExamples.ParseUnknownLengthUnit | conversion.go:124-175 | An unknown length unit is reported with the whole input and the token as written. |
| ConversionExamples.ParseNoNumeral | conversion.go:99-107 | Text with no numeral is the invalid-format error, reported with the trimmed input. |
| ConversionExamples.OneFiveSplits | conversion.go:24 | The pattern backtracks: in "1.5" the unit must start with a non-digit, so the numeral is "1" and the unit ".5". |
| ConversionExamples.ParseOnePointFiveAlone | conversion.go:99-121 | "1.5" alone reads as the value 1 with the unit text ".5". |
| ConversionExamples.ParseBareNumber | conversion.go:124-175 | So "1.5" alone is a length with the unknown unit ".5", not an invalid format. |

## Left out

- Byte-level JSON: `encoding/json` parsing and writing, key order, number formatting and Go's case-insensitive field matching. Documents are `JsonValue.Json` values; e.g. `{invalid` is any value that fails to decode.
- IEEE-754 arithmetic: values are exact reals, with no rounding, infinities or NaN. The 1e-9 tolerance of `Equal` is kept. The tests' approximate float literals are replaced by exact identities.
- `strconv.ParseFloat`: a numeral denotes its exact decimal value. The result is out of range when its magnitude is at least 2^1024 - 2^970, which rounds to infinity; rounding inside the range is not modelled.
- `math.Pi`: an uninterpreted positive real, so the angle facts hold for any π > 0.
- The regular expression of conversion.go is modelled by the strings it matches and by the groups that Go's leftmost-first matching picks, not by a regex engine.
- Unicode: lower-casing (`strings.ToLower`, `unicode.ToLower`, `strings.EqualFold`) and `unicode.IsUpper` act on ASCII letters only. `strings.TrimSpace` trims the full Unicode White_Space set, as Go does (Conversion.IsSpace).
- `indexOf` walks the characters of the text, where the Go code walks its bytes; the two agree for the one-byte separator `_` that is used.
- `Quantity.String` and `FormatWithUnit`: `%g` formatting is not modelled. Texts of the form numeral + separator + symbol, which `FormatWithUnit` writes, are parsed back (`Conversion.ParseFormatted`, `ConversionTables.Parse<Dim>Symbol`).
- Go error texts: errors are structured values, except `ParseError.Error`, whose text is modelled.
- Go generics, interfaces and reflection: the unit type `T` is the `Kind` of a unit, and `AnyMeasurement` is a datatype tagged by the dimension. `Quantity[BaseUnit]` with a bare `BaseUnit` is not modelled.
- `GetDimension` is the tag field of `Measurement.AnyMeasurement`.
- The `New<Dim>` wrappers are all `Quantities.New`; `NewFuelEfficiency` keeps its own guard.
- The one-line wrappers `Marshal<Dim>`, `MarshalCompact<Dim>` and `MarshalCompact<Dim>WithSymbol` are not modelled separately: they are `Serialize.MarshalGeneric` and `SerializeCompact.MarshalCompactGeneric` with `includeSymbol` false or true.
- `General.Percent` (serialize_compact.go:748) is not defined in general.go; the key `general_percent` takes the default branch, giving `NewGeneralUnit("percent", "percent")`.
- Panics are preconditions, not modelled failures.
- FuelEfficiency.Unmarshal: requires that the document is not 0 L/100km, on which the Go code panics.
- Tests that contradict the marshalling code: serialize_test.go:35, information_test.go:112, illuminance_test.go:111-116 and frequency_test.go:111-116. The model follows `marshalGeneric`, which nests the dimension inside the unit object.
- Parsing "MV" gives Millivolt: the alias switch lowers the token first, so Megavolt is reached only by "megav", "megavolt" or "megavolts" (`ConversionExamples.MegavoltSymbolIsMillivolt`). `ConversionTables.ParseElectricPotentialDifferenceSymbol` therefore leaves Megavolt out.
- example/main.go is a printing demo with no logic of its own and is not part of this model.
