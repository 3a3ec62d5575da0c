/**
 * The JSON methods of Quantity[T] and Compact[T] (quantity.go:154-266) and
 * the lookups behind them, lookupUnit (quantity.go:382-491) and
 * lookupUnitByName (quantity.go:269-379).  The type parameter T of the Go
 * generics is the unit type `kind` a variable is declared with; the type
 * assertion `result.(T)` compares it with the type of the unit found.
 */
module QuantityJson {
  import opened Results
  import opened JsonValue
  import opened Units
  import opened Quantities
  import opened SerializeKeys
  import Serialize
  import General
  import UnitRegistry

  /**
   * lookupUnit[T] (quantity.go:382-491): the unit registered under symbol
   * for the dimension, a fresh general unit for "general", and an error for
   * an unknown dimension, an unknown symbol, or a unit of a type other
   * than t.
   */
  function LookupUnit(t: Kind, dimension: string, symbol: string): (r: Result<Unit>)
    ensures r.Ok? <==> dimension == DimensionName(t) && (t == GeneralUnit || symbol in UnitRegistry.SymbolTable(t))
    ensures r.Ok? ==> OfKind(t, r.value)
    ensures r.Ok? && t != GeneralUnit ==> r.value == UnitRegistry.SymbolTable(t)[symbol]
    ensures r.Ok? && t == GeneralUnit ==> r.value == General.NewGeneralUnit(symbol, symbol)
    ensures KindOfDimension(dimension).None? ==> r == Err(UnknownDimension(dimension))
  {
    DimensionOfKind(dimension);
    KindOfDimensionName(t);
    match KindOfDimension(dimension)
    case None => Err(UnknownDimension(dimension))
    case Some(k) =>
      var found :=
        if k == GeneralUnit then Some(General.NewGeneralUnit(symbol, symbol))
        else
          var (u, ok) := UnitRegistry.Lookup(k, symbol);
          if ok then Some(u) else None;
      if found.None? then Err(UnknownUnitSymbol(symbol, dimension))
      else if found.value.kind == t then Ok(found.value)
      else Err(UnitTypeMismatch)
  }

  /** A symbol its dimension's registry does not hold is reported as unknown, whatever t is. */
  lemma LookupUnknownSymbol(t: Kind, k: Kind, symbol: string)
    requires k != GeneralUnit && symbol !in UnitRegistry.SymbolTable(k)
    ensures LookupUnit(t, DimensionName(k), symbol) == Err(UnknownUnitSymbol(symbol, DimensionName(k)))
  {
    KindOfDimensionName(k);
  }

  /** A unit found for another unit type fails the type assertion. */
  lemma LookupOtherKind(t: Kind, k: Kind, symbol: string)
    requires k != t && (k == GeneralUnit || symbol in UnitRegistry.SymbolTable(k))
    ensures LookupUnit(t, DimensionName(k), symbol) == Err(UnitTypeMismatch)
  {
    KindOfDimensionName(k);
  }

  /**
   * lookupUnitByName[T] (quantity.go:269-379): the unit under the key
   * dimension + "_" + name in the dimension's key table, a fresh general
   * unit for "general", and an error for an unknown dimension, an unknown
   * key, or a unit of a type other than t.
   */
  function LookupUnitByName(t: Kind, dimension: string, name: string): (r: Result<Unit>)
    ensures var key := dimension + "_" + name;
            r.Ok? <==> dimension == DimensionName(t) && (t == GeneralUnit || key in UnitRegistry.KeyTable(t))
    ensures r.Ok? ==> OfKind(t, r.value)
    ensures r.Ok? && t != GeneralUnit ==> r.value == UnitRegistry.KeyTable(t)[dimension + "_" + name]
    ensures r.Ok? && t == GeneralUnit ==> r.value == General.NewGeneralUnit(name, name)
    ensures KindOfDimension(dimension).None? ==> r == Err(UnknownDimension(dimension))
  {
    DimensionOfKind(dimension);
    KindOfDimensionName(t);
    var key := dimension + "_" + name;
    match KindOfDimension(dimension)
    case None => Err(UnknownDimension(dimension))
    case Some(k) =>
      var found :=
        if k == GeneralUnit then Some(General.NewGeneralUnit(name, name))
        else
          var (u, ok) := UnitRegistry.LookupKey(k, key);
          if ok then Some(u) else None;
      if found.None? then Err(UnknownUnitKey(key))
      else if found.value.kind == t then Ok(found.value)
      else Err(UnitTypeMismatch)
  }

  /** A key its dimension's table does not hold is reported as unknown, whatever t is. */
  lemma LookupByNameUnknownKey(t: Kind, k: Kind, name: string)
    requires k != GeneralUnit && DimensionName(k) + "_" + name !in UnitRegistry.KeyTable(k)
    ensures LookupUnitByName(t, DimensionName(k), name) == Err(UnknownUnitKey(DimensionName(k) + "_" + name))
  {
    KindOfDimensionName(k);
  }

  /** Quantity.MarshalJSON (quantity.go:154-173): value, unit name and symbol, and the dimension at the top level. */
  function MarshalJSON(q: Quantity): (j: Json)
    ensures Serialize.DecodeLegacyMeasurement(j) ==
              Some(Serialize.LegacyMeasurementJson(q.value, Serialize.LegacyUnitJson(q.unit.base.name, q.unit.base.symbol), q.unit.base.dimension))
  {
    var unit := JObject(map["name" := JString(q.unit.base.name), "symbol" := JString(q.unit.base.symbol)]);
    var j := JObject(map["value" := JNumber(q.value), "unit" := unit, "dimension" := JString(q.unit.base.dimension)]);
    LegacyMeasurementFields(q.value, q.unit.base.name, q.unit.base.symbol, q.unit.base.dimension);
    j
  }

  /** The object MarshalJSON writes reads back field by field. */
  lemma LegacyMeasurementFields(value: real, name: string, symbol: string, dimension: string)
    ensures var unit := JObject(map["name" := JString(name), "symbol" := JString(symbol)]);
            Serialize.DecodeLegacyMeasurement(JObject(map["value" := JNumber(value), "unit" := unit, "dimension" := JString(dimension)]))
              == Some(Serialize.LegacyMeasurementJson(value, Serialize.LegacyUnitJson(name, symbol), dimension))
  {
    var unit := JObject(map["name" := JString(name), "symbol" := JString(symbol)]);
    assert Serialize.DecodeLegacyUnit(unit) == Some(Serialize.LegacyUnitJson(name, symbol));
  }

  /** The key Compact.MarshalJSON writes: toSnakeCase(dimension) + "_" + toSnakeCase(name). */
  function CompactKey(q: Quantity): string
  {
    SnakeCase(q.unit.base.dimension) + "_" + SnakeCase(q.unit.base.name)
  }

  /** Compact.MarshalJSON (quantity.go:209-220): value, key, and the symbol unless it is empty. */
  function CompactMarshalJSON(q: Quantity): (j: Json)
    ensures Serialize.DecodeLegacyCompact(j) == Some(Serialize.LegacyCompactJson(q.value, CompactKey(q), q.unit.base.symbol))
    ensures j.JObject? && ("symbol" in j.members <==> q.unit.base.symbol != "")
  {
    var m := map["value" := JNumber(q.value), "unit" := JString(CompactKey(q))];
    var j := if q.unit.base.symbol == "" then JObject(m) else JObject(m["symbol" := JString(q.unit.base.symbol)]);
    LegacyCompactFields(q.value, CompactKey(q), q.unit.base.symbol);
    j
  }

  /** The object Compact.MarshalJSON writes reads back field by field. */
  lemma LegacyCompactFields(value: real, key: string, symbol: string)
    ensures var m := map["value" := JNumber(value), "unit" := JString(key)];
            var j := if symbol == "" then JObject(m) else JObject(m["symbol" := JString(symbol)]);
            Serialize.DecodeLegacyCompact(j) == Some(Serialize.LegacyCompactJson(value, key, symbol)) &&
            ("symbol" in j.members <==> symbol != "")
  {
    var m := map["value" := JNumber(value), "unit" := JString(key)];
    var j := if symbol == "" then JObject(m) else JObject(m["symbol" := JString(symbol)]);
    assert NumberField(j.members, "value") == Some(value);
    assert StringField(j.members, "unit") == Some(key);
    assert StringField(j.members, "symbol") == Some(symbol);
  }

  /** Text toSnakeCase leaves alone: lowercase letters and single '_' separators, not leading. */
  predicate IsSnakeText(d: string) {
    (forall i | 0 <= i < |d| :: 'a' <= d[i] <= 'z' || d[i] == '_') && (|d| > 0 ==> d[0] != '_') && NoDoubleUnderscore(d)
  }

  lemma SnakeTextFixed(d: string)
    requires IsSnakeText(d)
    ensures SnakeCase(d) == d
  {
    assert ReplaceSpaces(d) == d;
    SnakeOfSnake(d, true);
  }

  // One lemma per dimension string: checking all of them in one verification
  // condition is costly, each one alone is cheap.
  lemma TemperatureNameIsSnakeText() ensures IsSnakeText("temperature") {}
  lemma PressureNameIsSnakeText() ensures IsSnakeText("pressure") {}
  lemma FlowRateNameIsSnakeText() ensures IsSnakeText("flowrate") {}
  lemma PowerNameIsSnakeText() ensures IsSnakeText("power") {}
  lemma EnergyNameIsSnakeText() ensures IsSnakeText("energy") {}
  lemma LengthNameIsSnakeText() ensures IsSnakeText("length") {}
  lemma MassNameIsSnakeText() ensures IsSnakeText("mass") {}
  lemma DurationNameIsSnakeText() ensures IsSnakeText("duration") {}
  lemma AngleNameIsSnakeText() ensures IsSnakeText("angle") {}
  lemma AreaNameIsSnakeText() ensures IsSnakeText("area") {}
  lemma VolumeNameIsSnakeText() ensures IsSnakeText("volume") {}
  lemma AccelerationNameIsSnakeText() ensures IsSnakeText("acceleration") {}
  lemma ConcentrationNameIsSnakeText() ensures IsSnakeText("concentration") {}
  lemma DispersionNameIsSnakeText() ensures IsSnakeText("dispersion") {}
  lemma SpeedNameIsSnakeText() ensures IsSnakeText("speed") {}
  lemma ElectricChargeNameIsSnakeText() ensures IsSnakeText("electric_charge") {}
  lemma ElectricCurrentNameIsSnakeText() ensures IsSnakeText("electric_current") {}
  lemma ElectricPotentialDifferenceNameIsSnakeText() ensures IsSnakeText("electric_potential_difference") {}
  lemma FrequencyNameIsSnakeText() ensures IsSnakeText("frequency") {}
  lemma IlluminanceNameIsSnakeText() ensures IsSnakeText("illuminance") {}
  lemma InformationNameIsSnakeText() ensures IsSnakeText("information") {}
  lemma FuelEfficiencyNameIsSnakeText() ensures IsSnakeText("fuel_efficiency") {}
  lemma GeneralNameIsSnakeText() ensures IsSnakeText("general") {}

  /** Every dimension string is lower-case words joined by single underscores. */
  lemma DimensionNameIsSnakeText(k: Kind)
    ensures IsSnakeText(DimensionName(k))
  {
    match k {
    case TemperatureUnit => TemperatureNameIsSnakeText();
    case PressureUnit => PressureNameIsSnakeText();
    case FlowRateUnit => FlowRateNameIsSnakeText();
    case PowerUnit => PowerNameIsSnakeText();
    case EnergyUnit => EnergyNameIsSnakeText();
    case LengthUnit => LengthNameIsSnakeText();
    case MassUnit => MassNameIsSnakeText();
    case DurationUnit => DurationNameIsSnakeText();
    case AngleUnit => AngleNameIsSnakeText();
    case AreaUnit => AreaNameIsSnakeText();
    case VolumeUnit => VolumeNameIsSnakeText();
    case AccelerationUnit => AccelerationNameIsSnakeText();
    case ConcentrationUnit => ConcentrationNameIsSnakeText();
    case DispersionUnit => DispersionNameIsSnakeText();
    case SpeedUnit => SpeedNameIsSnakeText();
    case ElectricChargeUnit => ElectricChargeNameIsSnakeText();
    case ElectricCurrentUnit => ElectricCurrentNameIsSnakeText();
    case ElectricPotentialDifferenceUnit => ElectricPotentialDifferenceNameIsSnakeText();
    case FrequencyUnit => FrequencyNameIsSnakeText();
    case IlluminanceUnit => IlluminanceNameIsSnakeText();
    case InformationUnit => InformationNameIsSnakeText();
    case FuelEfficiencyUnit => FuelEfficiencyNameIsSnakeText();
    case GeneralUnit => GeneralNameIsSnakeText();
    }
  }

  /** toSnakeCase leaves every dimension string as it is. */
  lemma DimensionNameIsSnakeCase(k: Kind)
    ensures SnakeCase(DimensionName(k)) == DimensionName(k)
  {
    DimensionNameIsSnakeText(k);
    SnakeTextFixed(DimensionName(k));
  }

  /** strings.ToLower leaves every dimension string as it is. */
  lemma DimensionNameIsLower(k: Kind)
    ensures ToLower(DimensionName(k)) == DimensionName(k)
  {
    DimensionNameIsSnakeText(k);
    var d := DimensionName(k);
    assert forall i | 0 <= i < |d| :: ToLower(d)[i] == d[i];
  }

  /** The dimensions whose strings contain '_'. */
  lemma MultiWordDimensions(k: Kind)
    ensures '_' in DimensionName(k) <==>
              k == ElectricChargeUnit || k == ElectricCurrentUnit || k == ElectricPotentialDifferenceUnit || k == FuelEfficiencyUnit
  {
  }

  lemma ElectricChargeKeySplit()
    ensures ParseUnitKey("electric_charge") == ("electric", "charge")
  {
    assert "electric_charge" == "electric" + "_" + "charge";
    ParseUnitKeyOfJoin("electric", "charge");
  }

  lemma ElectricCurrentKeySplit()
    ensures ParseUnitKey("electric_current") == ("electric", "current")
  {
    assert "electric_current" == "electric" + "_" + "current";
    ParseUnitKeyOfJoin("electric", "current");
  }

  lemma ElectricPotentialDifferenceKeySplit()
    ensures ParseUnitKey("electric_potential_difference") == ("electric", "potential_difference")
  {
    assert "electric_potential_difference" == "electric" + "_" + "potential_difference";
    ParseUnitKeyOfJoin("electric", "potential_difference");
  }

  lemma FuelEfficiencyKeySplit()
    ensures ParseUnitKey("fuel_efficiency") == ("fuel", "efficiency")
  {
    assert "fuel_efficiency" == "fuel" + "_" + "efficiency";
    ParseUnitKeyOfJoin("fuel", "efficiency");
  }

  /** "electric" and "fuel" name no dimension. */
  lemma PrefixesNameNoDimension()
    ensures KindOfDimension("electric").None? && KindOfDimension("fuel").None?
  {
  }

  /** Their dimension strings split after "electric" or "fuel", which name no dimension. */
  lemma MultiWordDimensionPrefix(k: Kind)
    requires '_' in DimensionName(k)
    ensures var first := ParseUnitKey(DimensionName(k)).0;
            (first == "electric" || first == "fuel") && KindOfDimension(first).None?
    ensures DimensionName(k) == ParseUnitKey(DimensionName(k)).0 + "_" + ParseUnitKey(DimensionName(k)).1
  {
    MultiWordDimensions(k);
    PrefixesNameNoDimension();
    match k {
      case ElectricChargeUnit => ElectricChargeKeySplit();
      case ElectricCurrentUnit => ElectricCurrentKeySplit();
      case ElectricPotentialDifferenceUnit => ElectricPotentialDifferenceKeySplit();
      case FuelEfficiencyUnit => FuelEfficiencyKeySplit();
    }
  }

  /** sep occurs in s at position i. */
  predicate OccursAt(s: string, sep: string, i: int)
    requires 0 <= i <= |s| - |sep|
  {
    s[i..i + |sep|] == sep
  }

  /**
   * indexOf (quantity.go:259-266): the first position at which sep occurs
   * in s, or -1.  Go indexes bytes; the model indexes characters.
   */
  method IndexOf(s: string, sep: string) returns (idx: int)
    ensures idx == -1 || 0 <= idx <= |s| - |sep|
    ensures idx >= 0 ==> OccursAt(s, sep, idx) && forall i | 0 <= i < idx :: !OccursAt(s, sep, i)
    ensures idx == -1 ==> forall i | 0 <= i <= |s| - |sep| :: !OccursAt(s, sep, i)
  {
    var i := 0;
    while i <= |s| - |sep|
      invariant 0 <= i
      invariant i <= |s| - |sep| + 1 || i == 0
      invariant forall k | 0 <= k < i :: !OccursAt(s, sep, k)
    {
      if s[i..i + |sep|] == sep {
        return i;
      }
      i := i + 1;
    }
    return -1;
  }

  /** The one-character separator "_" occurs exactly where s holds '_'. */
  lemma OccursUnderscore(s: string, i: int)
    requires 0 <= i < |s|
    ensures OccursAt(s, "_", i) <==> s[i] == '_'
  {
    assert s[i..i + 1] == [s[i]];
  }

  /** So indexOf(s, "_") is the first '_' of s. */
  lemma IndexOfUnderscore(s: string, idx: int)
    requires idx == -1 || 0 <= idx <= |s| - 1
    requires idx >= 0 ==> OccursAt(s, "_", idx) && forall i | 0 <= i < idx :: !OccursAt(s, "_", i)
    requires idx == -1 ==> forall i | 0 <= i <= |s| - 1 :: !OccursAt(s, "_", i)
    ensures idx == FirstUnderscore(s)
  {
    var f := FirstUnderscore(s);
    if f >= 0 {
      OccursUnderscore(s, f);
      if idx >= 0 {
        OccursUnderscore(s, idx);
      }
    } else if idx >= 0 {
      OccursUnderscore(s, idx);
    }
  }

  /** parseCompactUnitKey (quantity.go:250-256): the same split at the first '_' as parseUnitKey. */
  method ParseCompactUnitKey(key: string) returns (dimension: string, unitName: string)
    ensures (dimension, unitName) == ParseUnitKey(key)
  {
    var idx := IndexOf(key, "_");
    IndexOfUnderscore(key, idx);
    if idx == -1 {
      return key, "";
    }
    return key[..idx], key[idx + 1..];
  }

  /**
   * A variable of type Quantity[T] with T the unit type `kind`; the unit
   * it holds is always of that type.
   */
  class QuantityVar {
    const kind: Kind
    var value: real
    var unit: Unit

    predicate Valid()
      reads this
    {
      unit.kind == kind
    }

    /** The zero value: `var q Quantity[T]`. */
    constructor (kind: Kind)
      ensures this.kind == kind && value == 0.0 && unit == ZeroUnit(kind)
      ensures Valid()
    {
      this.kind := kind;
      value := 0.0;
      unit := ZeroUnit(kind);
    }

    /**
     * UnmarshalJSON (quantity.go:176-200): a document that does not decode
     * changes nothing; otherwise the value is stored first, and the unit
     * only when lookupUnit finds one of type `kind`.
     */
    method UnmarshalJSON(j: Json) returns (err: Option<Error>)
      requires Valid()
      modifies this
      ensures Valid()
      ensures Serialize.DecodeLegacyMeasurement(j).None? ==>
                err == Some(JsonType("Quantity")) && value == old(value) && unit == old(unit)
      ensures Serialize.DecodeLegacyMeasurement(j).Some? ==>
                var raw := Serialize.DecodeLegacyMeasurement(j).value;
                var found := LookupUnit(kind, raw.dimension, raw.unit.symbol);
                value == raw.value &&
                (found.Ok? ==> err.None? && unit == found.value) &&
                (found.Err? ==> err == Some(found.error) && unit == old(unit))
    {
      var raw := Serialize.DecodeLegacyMeasurement(j);
      if raw.None? {
        return Some(JsonType("Quantity"));
      }
      value := raw.value.value;
      var found := LookupUnit(kind, raw.value.dimension, raw.value.unit.symbol);
      if found.Err? {
        return Some(found.error);
      }
      unit := found.value;
      return None;
    }
  }

  /** A variable of type Compact[T]: a Quantity[T] written in the compact form. */
  class CompactVar {
    const kind: Kind
    var value: real
    var unit: Unit

    predicate Valid()
      reads this
    {
      unit.kind == kind
    }

    /** The zero value: `var c Compact[T]`. */
    constructor (kind: Kind)
      ensures this.kind == kind && value == 0.0 && unit == ZeroUnit(kind)
      ensures Valid()
    {
      this.kind := kind;
      value := 0.0;
      unit := ZeroUnit(kind);
    }

    /**
     * Compact.UnmarshalJSON (quantity.go:223-247): a document that does not
     * decode changes nothing; otherwise the value is stored first, the key
     * is split at its first '_', and the unit is stored only when
     * lookupUnitByName finds one of type `kind`.
     */
    method UnmarshalJSON(j: Json) returns (err: Option<Error>)
      requires Valid()
      modifies this
      ensures Valid()
      ensures Serialize.DecodeLegacyCompact(j).None? ==>
                err == Some(JsonType("Compact")) && value == old(value) && unit == old(unit)
      ensures Serialize.DecodeLegacyCompact(j).Some? ==>
                var raw := Serialize.DecodeLegacyCompact(j).value;
                var found := LookupUnitByName(kind, ParseUnitKey(raw.unit).0, ParseUnitKey(raw.unit).1);
                value == raw.value &&
                (found.Ok? ==> err.None? && unit == found.value) &&
                (found.Err? ==> err == Some(found.error) && unit == old(unit))
    {
      var raw := Serialize.DecodeLegacyCompact(j);
      if raw.None? {
        return Some(JsonType("Compact"));
      }
      value := raw.value.value;
      var dimension, unitName := ParseCompactUnitKey(raw.value.unit);
      var found := LookupUnitByName(kind, dimension, unitName);
      if found.Err? {
        return Some(found.error);
      }
      unit := found.value;
      return None;
    }
  }

  /**
   * Quantity.MarshalJSON followed by UnmarshalJSON gives back the quantity
   * whenever the registry of its type finds its unit under its symbol.
   */
  lemma MarshalJSONRoundTrip(t: Kind, q: Quantity)
    requires t != GeneralUnit && OfKind(t, q.unit)
    requires q.unit.base.symbol in UnitRegistry.SymbolTable(t) && UnitRegistry.SymbolTable(t)[q.unit.base.symbol] == q.unit
    ensures var raw := Serialize.DecodeLegacyMeasurement(MarshalJSON(q)).value;
            raw.value == q.value && LookupUnit(t, raw.dimension, raw.unit.symbol) == Ok(q.unit)
  {
  }

  /**
   * The same in the imperative form of the Go tests: a fresh variable of the
   * quantity's unit type receives it unchanged and reports no error.
   */
  method MarshalUnmarshal(t: Kind, q: Quantity) returns (restored: Quantity, err: Option<Error>)
    requires t != GeneralUnit && OfKind(t, q.unit)
    requires q.unit.base.symbol in UnitRegistry.SymbolTable(t) && UnitRegistry.SymbolTable(t)[q.unit.base.symbol] == q.unit
    ensures err.None? && restored == q
  {
    var v := new QuantityVar(t);
    MarshalJSONRoundTrip(t, q);
    err := v.UnmarshalJSON(MarshalJSON(q));
    restored := Quantity(v.value, v.unit);
  }

  /**
   * The general base unit does not survive the trip: the symbol "unit"
   * comes back as NewGeneralUnit("unit", "unit"), named "unit" and not a
   * base unit, though it converts the same.
   */
  lemma GeneralUnitComesBackCustom(v: real)
    ensures var raw := Serialize.DecodeLegacyMeasurement(MarshalJSON(New(v, General.GeneralUnitBase()))).value;
            LookupUnit(GeneralUnit, raw.dimension, raw.unit.symbol) == Ok(General.NewGeneralUnit("unit", "unit"))
    ensures General.NewGeneralUnit("unit", "unit") != General.GeneralUnitBase()
  {
    var u := General.GeneralUnitBase();
    GeneralBaseFields();
    var raw := Serialize.DecodeLegacyMeasurement(MarshalJSON(New(v, u))).value;
    assert raw.dimension == "general" && raw.unit.symbol == "unit";
    assert DimensionName(GeneralUnit) == "general";
    assert LookupUnit(GeneralUnit, "general", "unit") == Ok(General.NewGeneralUnit("unit", "unit"));
  }

  /** The general base unit: dimension "general", symbol "unit", and not the unit NewGeneralUnit("unit", "unit") builds. */
  lemma GeneralBaseFields()
    ensures General.GeneralUnitBase().base.dimension == "general"
    ensures General.GeneralUnitBase().base.symbol == "unit"
    ensures General.NewGeneralUnit("unit", "unit") != General.GeneralUnitBase()
  {
  }

  /**
   * Compact.MarshalJSON followed by Compact.UnmarshalJSON gives back the
   * quantity when its dimension is one word and the key table of its type
   * holds its unit under the key written.
   */
  lemma CompactRoundTrip(t: Kind, q: Quantity)
    requires t != GeneralUnit && OfKind(t, q.unit) && '_' !in DimensionName(t)
    requires CompactKey(q) in UnitRegistry.KeyTable(t) && UnitRegistry.KeyTable(t)[CompactKey(q)] == q.unit
    ensures var raw := Serialize.DecodeLegacyCompact(CompactMarshalJSON(q)).value;
            raw.value == q.value &&
            LookupUnitByName(t, ParseUnitKey(raw.unit).0, ParseUnitKey(raw.unit).1) == Ok(q.unit)
  {
    DimensionNameIsSnakeCase(t);
    ParseUnitKeyOfJoin(DimensionName(t), SnakeCase(q.unit.base.name));
  }

  /** The same with the Go variable of the quantity's unit type. */
  method CompactMarshalUnmarshal(t: Kind, q: Quantity) returns (restored: Quantity, err: Option<Error>)
    requires t != GeneralUnit && OfKind(t, q.unit) && '_' !in DimensionName(t)
    requires CompactKey(q) in UnitRegistry.KeyTable(t) && UnitRegistry.KeyTable(t)[CompactKey(q)] == q.unit
    ensures err.None? && restored == q
  {
    var c := new CompactVar(t);
    CompactRoundTrip(t, q);
    err := c.UnmarshalJSON(CompactMarshalJSON(q));
    restored := Quantity(c.value, c.unit);
  }

  lemma JoinAssociates(a: string, b: string, c: string)
    ensures (a + "_" + b) + "_" + c == a + "_" + (b + "_" + c)
  {
  }

  /**
   * A quantity of a dimension whose string contains '_' never comes back
   * from the compact form: the key is split inside the dimension, and
   * "electric" or "fuel" is an unknown dimension.
   */
  lemma CompactMultiWordFails(t: Kind, q: Quantity)
    requires OfKind(t, q.unit) && '_' in DimensionName(t)
    ensures var raw := Serialize.DecodeLegacyCompact(CompactMarshalJSON(q)).value;
            var first := ParseUnitKey(DimensionName(t)).0;
            LookupUnitByName(t, ParseUnitKey(raw.unit).0, ParseUnitKey(raw.unit).1) == Err(UnknownDimension(first))
  {
    CompactMultiWordPrefix(t, q);
    MultiWordDimensionPrefix(t);
  }

  /** The key written for a multi-word dimension splits after the dimension's first word. */
  lemma CompactMultiWordPrefix(t: Kind, q: Quantity)
    requires OfKind(t, q.unit) && '_' in DimensionName(t)
    ensures ParseUnitKey(Serialize.DecodeLegacyCompact(CompactMarshalJSON(q)).value.unit).0 == ParseUnitKey(DimensionName(t)).0
  {
    CompactKeyOfKind(t, q);
    MultiWordKeyPrefix(t, SnakeCase(q.unit.base.name));
  }

  /** The compact key of a quantity of unit type t starts with t's dimension string. */
  lemma CompactKeyOfKind(t: Kind, q: Quantity)
    requires OfKind(t, q.unit)
    ensures CompactKey(q) == DimensionName(t) + "_" + SnakeCase(q.unit.base.name)
  {
    DimensionNameIsSnakeCase(t);
  }

  /** Any key under a multi-word dimension splits after the dimension's first word. */
  lemma MultiWordKeyPrefix(t: Kind, name: string)
    requires '_' in DimensionName(t)
    ensures ParseUnitKey(DimensionName(t) + "_" + name).0 == ParseUnitKey(DimensionName(t)).0
  {
    MultiWordDimensionPrefix(t);
    var first, rest := ParseUnitKey(DimensionName(t)).0, ParseUnitKey(DimensionName(t)).1;
    JoinAssociates(first, rest, name);
    ParseUnitKeyOfJoin(first, rest + "_" + name);
  }
}
