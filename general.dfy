/**
 * The general dimension (general.go): one predefined base unit and
 * constructors for custom units that share the dimension "general".
 */
module General {
  import opened Results
  import opened JsonValue
  import opened Units
  import opened Quantities
  import opened SerializeKeys
  import Serialize
  import SerializeCompact

  /** The base unit of the general dimension (the Go field General.Unit). */
  function GeneralUnitBase(): Unit { Unit(GeneralUnit, BaseUnit("general", "unit", "General Unit", 1.0, 0.0, true)) }

  /** The predefined general units. */
  function All(): (r: seq<Unit>)
    ensures forall u | u in r :: u.kind == GeneralUnit && u.base.dimension == "general"
    ensures forall u | u in r :: u.base.isBase && u.base.symbol == "unit" && u.base.name == "General Unit"
  {
    [GeneralUnitBase()]
  }

  /** A general quantity is an ordinary quantity in a general unit. */
  function NewGeneral(value: real, unit: Unit): (q: Quantity)
    requires unit.kind == GeneralUnit
    ensures q.value == value && q.unit == unit
  {
    New(value, unit)
  }

  /** A custom general unit converts exactly like the base unit but is not itself a base unit. */
  function NewGeneralUnit(symbol: string, name: string): (u: Unit)
    ensures u.kind == GeneralUnit
    ensures u.base == BaseUnit("general", symbol, name, 1.0, 0.0, false)
    ensures forall v :: ToBase(u, v) == v
  {
    Unit(GeneralUnit, NewBaseUnit("general", symbol, name, 1.0, 0.0, false))
  }

  /** A custom general unit with its own coefficient and offset relative to the base unit. */
  function NewGeneralUnitWithConversion(symbol: string, name: string, coefficient: real, offset: real): (u: Unit)
    ensures u.kind == GeneralUnit
    ensures u.base == BaseUnit("general", symbol, name, coefficient, offset, false)
    ensures forall v :: ToBase(u, v) == v * coefficient + offset
  {
    Unit(GeneralUnit, NewBaseUnit("general", symbol, name, coefficient, offset, false))
  }

  /**
   * Any quantity in a custom unit made by NewGeneralUnit is Equal to the
   * same number of base units, and adding or subtracting the two works on
   * the plain numbers.
   */
  lemma CustomUnitActsAsBase(v: real, symbol: string, name: string)
    ensures var c := New(v, NewGeneralUnit(symbol, name));
            var b := New(v, GeneralUnitBase());
            Equal(b, c) && Add(b, c).value == 2.0 * v && Subtract(b, c).value == 0.0
  {
    var c := New(v, NewGeneralUnit(symbol, name));
    var b := New(v, GeneralUnitBase());
    assert ToBase(c.unit, v) == v;
    assert Abs(ToBase(b.unit, b.value) - ToBase(c.unit, c.value)) == 0.0;
  }

  /** With coefficient 2 and offset 10, 5 "xu" is 20 base units and converts back to 5 "xu". */
  lemma ConversionExample()
    ensures var xu := NewGeneralUnitWithConversion("xu", "X Unit", 2.0, 10.0);
            var b := ConvertTo(New(5.0, xu), GeneralUnitBase());
            b.value == 20.0 && CanConvert(b, xu) && ConvertTo(b, xu).value == 5.0
  {
  }
  /**
   * The unit UnmarshalGeneral builds for a payload that is not the base
   * unit: the symbol, or the key's unit part when there is no symbol; the
   * name, or that same text when there is no name.
   */
  function CustomUnitOf(p: Serialize.ParsedMeasurement): (u: Unit)
    ensures u.kind == GeneralUnit && u.base.dimension == "general" && !u.base.isBase
    ensures p.symbol != "" ==> u.base.symbol == p.symbol
    ensures p.symbol == "" && p.key != "" ==> u.base.symbol == ParseUnitKey(p.key).1
    ensures u.base.name == if p.name != "" then p.name else u.base.symbol
  {
    var symbolOrKey := if p.symbol == "" && p.key != "" then ParseUnitKey(p.key).1 else p.symbol;
    NewGeneralUnit(symbolOrKey, if p.name == "" then symbolOrKey else p.name)
  }

  /**
   * UnmarshalGeneral (serialize.go:1481-1509): any of the three formats of
   * dimension "general"; the symbol "unit", or a key whose unit part is
   * "unit" up to case, is the base unit, anything else a custom unit.
   */
  function UnmarshalGeneral(j: Json): (r: Result<Quantity>)
    ensures r.Ok? <==> Serialize.ParseMeasurement(j).Ok? && Serialize.ParseMeasurement(j).value.dimension == "general"
    ensures r.Ok? ==> r.value.value == Serialize.ParseMeasurement(j).value.value
    ensures r.Ok? ==> r.value.unit.kind == GeneralUnit && r.value.unit.base.dimension == "general"
    ensures r.Ok? && Serialize.ParseMeasurement(j).value.symbol == "unit" ==> r.value.unit == GeneralUnitBase()
    ensures r.Ok? && (Serialize.ParseMeasurement(j).value.symbol == "unit" || Serialize.MatchUnitByKey(Serialize.ParseMeasurement(j).value, "unit")) ==>
              r.value.unit == GeneralUnitBase()
    ensures r.Ok? && !(Serialize.ParseMeasurement(j).value.symbol == "unit" || Serialize.MatchUnitByKey(Serialize.ParseMeasurement(j).value, "unit")) ==>
              r.value.unit == CustomUnitOf(Serialize.ParseMeasurement(j).value)
    ensures Serialize.ParseMeasurement(j).Ok? && Serialize.ParseMeasurement(j).value.dimension != "general" ==>
              r == Err(ExpectedDimension("general", Serialize.ParseMeasurement(j).value.dimension))
  {
    var p :- Serialize.ParseMeasurement(j);
    if p.dimension != "general" then Err(ExpectedDimension("general", p.dimension))
    else if p.symbol == "unit" || Serialize.MatchUnitByKey(p, "unit") then Ok(NewGeneral(p.value, GeneralUnitBase()))
    else Ok(NewGeneral(p.value, CustomUnitOf(p)))
  }

  /** The base unit is read back from the full format. */
  lemma UnmarshalGeneralRoundTrip(v: real)
    ensures UnmarshalGeneral(Serialize.MarshalGeneric(New(v, GeneralUnitBase()))) == Ok(New(v, GeneralUnitBase()))
  {
    Serialize.ParseMarshalledFull(New(v, GeneralUnitBase()));
  }

  /** A custom unit with a symbol other than "unit" and a name is read back from the full format. */
  lemma UnmarshalCustomRoundTrip(v: real, symbol: string, name: string)
    requires symbol != "" && symbol != "unit" && name != ""
    ensures UnmarshalGeneral(Serialize.MarshalGeneric(New(v, NewGeneralUnit(symbol, name)))) ==
              Ok(New(v, NewGeneralUnit(symbol, name)))
  {
    Serialize.ParseMarshalledFull(New(v, NewGeneralUnit(symbol, name)));
  }

  /**
   * The JSON formats carry no coefficient or offset: a unit made by
   * NewGeneralUnitWithConversion comes back as a plain custom unit, so the
   * decoded quantity converts to the base unit differently.
   */
  lemma UnmarshalDropsConversion(v: real, symbol: string, name: string, coefficient: real, offset: real)
    requires symbol != "" && symbol != "unit" && name != ""
    ensures UnmarshalGeneral(Serialize.MarshalGeneric(New(v, NewGeneralUnitWithConversion(symbol, name, coefficient, offset)))) ==
              Ok(New(v, NewGeneralUnit(symbol, name)))
  {
    Serialize.ParseMarshalledFull(New(v, NewGeneralUnitWithConversion(symbol, name, coefficient, offset)));
  }

  /**
   * UnmarshalCompactGeneral (serialize_compact.go:738-755): the key
   * "general_general_unit" is the base unit; any other key becomes a custom
   * unit named and symbolised by its unit part.  Only the decoding of the
   * compact struct can fail.
   */
  function UnmarshalCompactGeneral(j: Json): (r: Result<Quantity>)
    ensures r.Ok? <==> SerializeCompact.DecodeCompactJson(j).Some?
    ensures r.Ok? ==> r.value.value == SerializeCompact.DecodeCompactJson(j).value.value
    ensures r.Ok? ==> r.value.unit.kind == GeneralUnit && r.value.unit.base.dimension == "general"
    ensures r.Ok? ==> var cj := SerializeCompact.DecodeCompactJson(j).value;
                      var n := ParseUnitKey(cj.unit).1;
                      r.value.unit == if cj.unit == "general_general_unit" then GeneralUnitBase() else NewGeneralUnit(n, n)
  {
    match SerializeCompact.DecodeCompactJson(j)
    case None => Err(JsonType("CompactJSON"))
    case Some(cj) =>
      // The key "general_percent" names General.Percent, which general.go does
      // not declare; it is given the default branch here.
      if cj.unit == "general_general_unit" then Ok(NewGeneral(cj.value, GeneralUnitBase()))
      else
        var unitName := ParseUnitKey(cj.unit).1;
        Ok(NewGeneral(cj.value, NewGeneralUnit(unitName, unitName)))
  }

  /** The base unit's key is "general_general_unit". */
  lemma BaseUnitKey()
    ensures UnitKey("general", GeneralUnitBase().base.name) == "general_general_unit"
  {
    SnakeCaseGeneralUnit();
    assert ToLower("general") == "general";
  }

  /** The base unit is read back from the compact form, with or without its symbol. */
  lemma UnmarshalCompactGeneralRoundTrip(v: real, includeSymbol: bool)
    ensures UnmarshalCompactGeneral(SerializeCompact.MarshalCompactGeneric(New(v, GeneralUnitBase()), includeSymbol)) ==
              Ok(New(v, GeneralUnitBase()))
  {
    BaseUnitKey();
    SerializeCompact.CompactJsonRoundTrip(SerializeCompact.CompactJson(v, "general_general_unit", if includeSymbol then "unit" else ""));
  }

  /**
   * A custom unit comes back from the compact form under its snake_case
   * name, as both symbol and name: its own symbol is not consulted.
   */
  lemma UnmarshalCompactCustom(v: real, symbol: string, name: string, includeSymbol: bool)
    requires UnitKey("general", name) != "general_general_unit"
    ensures var n := SnakeCase(name);
            UnmarshalCompactGeneral(SerializeCompact.MarshalCompactGeneric(New(v, NewGeneralUnit(symbol, name)), includeSymbol)) ==
              Ok(New(v, NewGeneralUnit(n, n)))
  {
    var key := UnitKey("general", name);
    SerializeCompact.CompactJsonRoundTrip(SerializeCompact.CompactJson(v, key, if includeSymbol then symbol else ""));
    ParseUnitKeyOfUnitKey("general", name);
    assert ToLower("general") == "general";
  }
}
