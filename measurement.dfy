/**
 * Decoding a measurement whose dimension is not known in advance:
 * UnmarshalMeasurement (serialize.go:474-639) for the three JSON formats
 * and unmarshalCompactMeasurement (serialize_compact.go:758-914) for the
 * compact struct, both answering an AnyMeasurement.
 */
module Measurement {
  import opened Results
  import opened JsonValue
  import opened Units
  import opened Quantities
  import opened SerializeKeys
  import Serialize
  import SerializeCompact
  import General
  import UnitRegistry
  import QuantityJson

  /**
   * AnyMeasurement (serialize.go:277-280): a quantity of some unit type and
   * a dimension tag.  The Go payload is a Quantity[T]; T is the type of
   * the quantity's unit, which the model keeps in the unit's kind.
   */
  datatype AnyMeasurement = AnyMeasurement(value: Quantity, dimension: string)

  /** The tag names the payload's unit type, and the unit carries that type's dimension string. */
  predicate Tagged(am: AnyMeasurement) {
    KindOfDimension(am.dimension).Some? && OfKind(KindOfDimension(am.dimension).value, am.value.unit)
  }

  /**
   * As<Dimension> (serialize.go:288-469): the type assertion to
   * Quantity[T] for the unit type k, or the zero quantity and false.
   */
  function As(am: AnyMeasurement, k: Kind): (r: (Quantity, bool))
    ensures r.1 <==> am.value.unit.kind == k
    ensures r.1 ==> r.0 == am.value
    ensures !r.1 ==> r.0 == Quantity(0.0, ZeroUnit(k))
  {
    if am.value.unit.kind == k then (am.value, true) else (Quantity(0.0, ZeroUnit(k)), false)
  }

  /** On a tagged measurement exactly one assertion succeeds: the one for the unit type the tag names. */
  lemma AsFollowsTag(am: AnyMeasurement, k: Kind)
    requires Tagged(am)
    ensures As(am, k).1 <==> KindOfDimension(am.dimension) == Some(k)
    ensures As(am, k).1 <==> am.dimension == DimensionName(k)
  {
    DimensionOfKind(am.dimension);
    KindOfDimensionName(k);
  }

  /** The tag "general" names the general unit type. */
  lemma GeneralTag()
    ensures KindOfDimension("general") == Some(GeneralUnit) && DimensionName(GeneralUnit) == "general" && '_' !in "general"
  {
  }

  /** Only the dimension "general" selects the general unit type. */
  lemma GeneralOnlyByName(d: string)
    ensures KindOfDimension(d) == Some(GeneralUnit) <==> d == "general"
  {
    DimensionOfKind(d);
    GeneralTag();
  }

  /** The unit information createFallback reads, every part empty when it cannot be read. */
  function FallbackInfo(j: Json): (info: Serialize.UnitInfo)
    ensures Serialize.UnmarshalUnitInfo(j).Ok? ==> info == Serialize.UnmarshalUnitInfo(j).value
    ensures Serialize.UnmarshalUnitInfo(j).Err? ==> info == Serialize.UnitInfo("", "", "")
  {
    match Serialize.UnmarshalUnitInfo(j)
    case Ok(info) => info
    case Err(_) => Serialize.UnitInfo("", "", "")
  }

  /**
   * createFallback and fallbackToGeneral (serialize.go:482-492, 642-647):
   * a general measurement whose value is the document's value (0 when it
   * cannot be read), whose symbol is the document's symbol or else the
   * unit part of its key, and whose name is the document's name or else
   * that symbol.  It cannot fail.
   */
  function Fallback(j: Json): (am: AnyMeasurement)
    ensures am.dimension == "general" && Tagged(am) && am.value.unit.kind == GeneralUnit && !am.value.unit.base.isBase
    ensures am.value.value == (if Serialize.UnmarshalValue(j).Ok? then Serialize.UnmarshalValue(j).value else 0.0)
    ensures FallbackInfo(j).symbol != "" ==> am.value.unit.base.symbol == FallbackInfo(j).symbol
    ensures FallbackInfo(j).symbol == "" && FallbackInfo(j).key != "" ==>
              am.value.unit.base.symbol == ParseUnitKey(FallbackInfo(j).key).1
    ensures am.value.unit.base.name == if FallbackInfo(j).name != "" then FallbackInfo(j).name else am.value.unit.base.symbol
  {
    GeneralTag();
    var value := match Serialize.UnmarshalValue(j) case Ok(v) => v case Err(_) => 0.0;
    var info := FallbackInfo(j);
    var symbol := if info.key != "" && info.symbol == "" then ParseUnitKey(info.key).1 else info.symbol;
    var name := if info.name == "" then symbol else info.name;
    AnyMeasurement(General.NewGeneral(value, General.NewGeneralUnit(symbol, name)), "general")
  }

  /** UnmarshalFuelEfficiency panics on 0 L/100km; the other decoders UnmarshalMeasurement calls cannot. */
  predicate CanUnmarshalMeasurement(j: Json) {
    match Serialize.DetectFormat(j)
    case Err(_) => true
    case Ok(detected) =>
      KindOfDimension(detected.1).None? || UnitRegistry.CanUnmarshal(KindOfDimension(detected.1).value, j)
  }

  /**
   * UnmarshalMeasurement (serialize.go:474-639): the dimension detectFormat
   * reads selects the decoder; a known dimension whose decoder fails, and
   * an unknown dimension, give the general fallback; only a document
   * whose format cannot be detected, or a "general" one that
   * UnmarshalGeneral rejects, is an error.
   */
  function UnmarshalMeasurement(j: Json): (r: Result<AnyMeasurement>)
    requires CanUnmarshalMeasurement(j)
    ensures Serialize.DetectFormat(j).Err? ==> r == Err(Serialize.DetectFormat(j).error)
    ensures r.Err? <==> Serialize.DetectFormat(j).Err? ||
                        (Serialize.DetectFormat(j).value.1 == "general" && General.UnmarshalGeneral(j).Err?)
    ensures r.Ok? ==> Tagged(r.value)
    ensures r.Ok? ==> r.value.dimension == Serialize.DetectFormat(j).value.1 || r.value == Fallback(j)
  {
    var detected :- Serialize.DetectFormat(j);
    UnmarshalDimension(detected.1, j)
  }

  /** The switch on the detected dimension. */
  function UnmarshalDimension(dimension: string, j: Json): (r: Result<AnyMeasurement>)
    requires KindOfDimension(dimension).None? || UnitRegistry.CanUnmarshal(KindOfDimension(dimension).value, j)
    ensures r.Err? <==> dimension == "general" && General.UnmarshalGeneral(j).Err?
    ensures r.Ok? ==> Tagged(r.value) && (r.value.dimension == dimension || r.value == Fallback(j))
  {
    GeneralOnlyByName(dimension);
    match KindOfDimension(dimension)
    case None => Ok(Fallback(j))
    case Some(k) =>
      if k == GeneralUnit then UnmarshalGeneralCase(j)
      else Ok(UnmarshalKnown(k, dimension, j))
  }

  /** The "general" case: UnmarshalGeneral, whose error is passed on. */
  function UnmarshalGeneralCase(j: Json): (r: Result<AnyMeasurement>)
    ensures r.Err? <==> General.UnmarshalGeneral(j).Err?
    ensures r.Ok? ==> Tagged(r.value) && r.value.dimension == "general"
  {
    GeneralTag();
    var m :- General.UnmarshalGeneral(j);
    Ok(AnyMeasurement(m, "general"))
  }

  /** One case of the switch: the decoder's quantity under the case's dimension, or the fallback. */
  function UnmarshalKnown(k: Kind, dimension: string, j: Json): (am: AnyMeasurement)
    requires k != GeneralUnit && KindOfDimension(dimension) == Some(k) && UnitRegistry.CanUnmarshal(k, j)
    ensures Tagged(am) && (am.dimension == dimension || am == Fallback(j))
    ensures UnitRegistry.Unmarshal(k, j).Ok? ==> am == AnyMeasurement(UnitRegistry.Unmarshal(k, j).value, dimension)
    ensures UnitRegistry.Unmarshal(k, j).Err? ==> am == Fallback(j)
  {
    match UnitRegistry.Unmarshal(k, j)
    case Ok(m) => AnyMeasurement(m, dimension)
    case Err(_) => Fallback(j)
  }

  /** A dimension the switch does not know gives the general fallback (serialize.go:636-637). */
  lemma UnknownDimensionFallsBack(j: Json)
    requires Serialize.DetectFormat(j).Ok? && KindOfDimension(Serialize.DetectFormat(j).value.1).None?
    ensures UnmarshalMeasurement(j) == Ok(Fallback(j))
  {
  }

  /** A known dimension whose decoder rejects the document gives the general fallback too. */
  lemma DecoderFailureFallsBack(j: Json, k: Kind)
    requires Serialize.DetectFormat(j).Ok? && KindOfDimension(Serialize.DetectFormat(j).value.1) == Some(k)
    requires k != GeneralUnit && UnitRegistry.CanUnmarshal(k, j) && UnitRegistry.Unmarshal(k, j).Err?
    ensures CanUnmarshalMeasurement(j)
    ensures UnmarshalMeasurement(j) == Ok(Fallback(j))
  {
  }

  /** A document of a known dimension that its decoder accepts comes back tagged with that dimension. */
  lemma KnownDimensionDecodes(j: Json, k: Kind, q: Quantity)
    requires Serialize.DetectFormat(j).Ok? && Serialize.DetectFormat(j).value.1 == DimensionName(k)
    requires k != GeneralUnit && UnitRegistry.CanUnmarshal(k, j) && UnitRegistry.Unmarshal(k, j) == Ok(q)
    ensures CanUnmarshalMeasurement(j)
    ensures UnmarshalMeasurement(j) == Ok(AnyMeasurement(q, DimensionName(k)))
  {
    KindOfDimensionName(k);
  }

  /** A "general" document is what UnmarshalGeneral makes of it. */
  lemma GeneralDimensionDecodes(j: Json, q: Quantity)
    requires Serialize.DetectFormat(j).Ok? && Serialize.DetectFormat(j).value.1 == "general"
    requires General.UnmarshalGeneral(j) == Ok(q)
    ensures CanUnmarshalMeasurement(j)
    ensures UnmarshalMeasurement(j) == Ok(AnyMeasurement(q, "general"))
  {
    GeneralTag();
  }

  /**
   * What the dimension's own decoder reads back from the full format,
   * UnmarshalMeasurement reads back too, tagged with the dimension, and
   * the assertion to that unit type recovers it.
   */
  lemma UnmarshalMeasurementRoundTrip(k: Kind, q: Quantity)
    requires k != GeneralUnit && OfKind(k, q.unit)
    requires UnitRegistry.CanUnmarshal(k, Serialize.MarshalGeneric(q))
    requires UnitRegistry.Unmarshal(k, Serialize.MarshalGeneric(q)) == Ok(q)
    ensures CanUnmarshalMeasurement(Serialize.MarshalGeneric(q))
    ensures UnmarshalMeasurement(Serialize.MarshalGeneric(q)) == Ok(AnyMeasurement(q, DimensionName(k)))
    ensures As(AnyMeasurement(q, DimensionName(k)), k) == (q, true)
  {
    Serialize.DetectMarshalledFormat(q, Serialize.FormatFull);
    KnownDimensionDecodes(Serialize.MarshalGeneric(q), k, q);
  }

  /** "fuel_efficiency" has an '_', so a key prefix, which has none, never selects fuel efficiency. */
  lemma PrefixIsNotFuelEfficiency(prefix: string)
    requires '_' !in prefix
    ensures KindOfDimension(prefix) != Some(FuelEfficiencyUnit)
  {
    DimensionOfKind(prefix);
    assert DimensionName(FuelEfficiencyUnit)[4] == '_';
  }

  /** The key's dimension prefix selects a unit type with a key table, or none. */
  function CompactKind(cj: SerializeCompact.CompactJson): (k: Option<Kind>)
    ensures k.Some? ==> k.value != GeneralUnit && k.value != FuelEfficiencyUnit
    ensures k.Some? ==> KindOfDimension(ParseUnitKey(cj.unit).0) == k && ParseUnitKey(cj.unit).0 == DimensionName(k.value)
    ensures k.None? ==> KindOfDimension(ParseUnitKey(cj.unit).0) in {None, Some(GeneralUnit)}
  {
    var prefix := ParseUnitKey(cj.unit).0;
    PrefixIsNotFuelEfficiency(prefix);
    DimensionOfKind(prefix);
    match KindOfDimension(prefix)
    case Some(k) => if k == GeneralUnit then None else Some(k)
    case None => None
  }

  /**
   * unmarshalCompactMeasurement (serialize_compact.go:758-914): the key's
   * prefix selects the compact decoder, whose error is passed on; "general"
   * and any unknown prefix go to UnmarshalCompactGeneral.  The prefix of a
   * key has no '_', so the cases of the multi-word dimensions are never
   * reached and their keys decode as general measurements.
   */
  function UnmarshalCompactMeasurement(j: Json): (r: Result<AnyMeasurement>)
    ensures SerializeCompact.DecodeCompactJson(j).None? ==> r == Err(JsonType("CompactJSON"))
    ensures r.Ok? <==> SerializeCompact.DecodeCompactJson(j).Some? &&
                       var cj := SerializeCompact.DecodeCompactJson(j).value;
                       (CompactKind(cj).Some? ==> cj.unit in UnitRegistry.KeyTable(CompactKind(cj).value))
    ensures r.Ok? ==> Tagged(r.value) && '_' !in r.value.dimension
    ensures r.Ok? ==> r.value.value.value == SerializeCompact.DecodeCompactJson(j).value.value
    ensures r.Ok? && CompactKind(SerializeCompact.DecodeCompactJson(j).value).None? ==>
              r.value.dimension == "general"
  {
    match SerializeCompact.DecodeCompactJson(j)
    case None => Err(JsonType("CompactJSON"))
    case Some(cj) =>
      match CompactKind(cj)
      case Some(k) =>
        var m :- UnitRegistry.UnmarshalCompact(k, j);
        Ok(AnyMeasurement(m, ParseUnitKey(cj.unit).0))
      case None =>
        GeneralTag();
        Ok(AnyMeasurement(General.UnmarshalCompactGeneral(j).value, "general"))
  }

  /**
   * A quantity of a one-word dimension whose key is in its table comes back
   * from the compact form, tagged with its dimension.
   */
  lemma CompactMeasurementRoundTrip(k: Kind, q: Quantity, includeSymbol: bool)
    requires k != GeneralUnit && OfKind(k, q.unit) && '_' !in DimensionName(k)
    requires UnitKey(DimensionName(k), q.unit.base.name) in UnitRegistry.KeyTable(k)
    requires UnitRegistry.KeyTable(k)[UnitKey(DimensionName(k), q.unit.base.name)] == q.unit
    ensures UnmarshalCompactMeasurement(SerializeCompact.MarshalCompactGeneric(q, includeSymbol)) ==
              Ok(AnyMeasurement(q, DimensionName(k)))
  {
    var j := SerializeCompact.MarshalCompactGeneric(q, includeSymbol);
    var cj := SerializeCompact.CompactJson(q.value, UnitKey(q.unit.base.dimension, q.unit.base.name), if includeSymbol then q.unit.base.symbol else "");
    SerializeCompact.CompactJsonRoundTrip(cj);
    assert SerializeCompact.DecodeCompactJson(j) == Some(cj);
    CompactKindOfKey(k, q, cj);
    CompactMeasurementOfKind(j, cj, k);
  }

  /** A key whose prefix names a unit type, and which that type's table holds, decodes through it. */
  lemma CompactMeasurementOfKind(j: Json, cj: SerializeCompact.CompactJson, k: Kind)
    requires SerializeCompact.DecodeCompactJson(j) == Some(cj) && CompactKind(cj) == Some(k)
    requires cj.unit in UnitRegistry.KeyTable(k)
    ensures UnmarshalCompactMeasurement(j) == Ok(AnyMeasurement(New(cj.value, UnitRegistry.KeyTable(k)[cj.unit]), DimensionName(k)))
  {
  }

  /** The key of a quantity of a one-word dimension selects the decoder of its unit type. */
  lemma CompactKindOfKey(k: Kind, q: Quantity, cj: SerializeCompact.CompactJson)
    requires k != GeneralUnit && OfKind(k, q.unit) && '_' !in DimensionName(k)
    requires cj.unit == UnitKey(q.unit.base.dimension, q.unit.base.name)
    ensures q.unit.base.dimension == DimensionName(k) && CompactKind(cj) == Some(k)
  {
    Serialize.MarshalledKeyPrefix(q);
    QuantityJson.DimensionNameIsLower(k);
    KindOfDimensionName(k);
  }

  /**
   * A quantity of a dimension with '_' in its name (electric_charge,
   * electric_current, electric_potential_difference, fuel_efficiency)
   * comes back from the compact form as a general measurement: the key's
   * prefix "electric" or "fuel" names no dimension.
   */
  lemma CompactMultiWordIsGeneral(k: Kind, q: Quantity, includeSymbol: bool)
    requires OfKind(k, q.unit) && '_' in DimensionName(k)
    ensures var r := UnmarshalCompactMeasurement(SerializeCompact.MarshalCompactGeneric(q, includeSymbol));
            r.Ok? && r.value.dimension == "general" && r.value.value.value == q.value &&
            r.value.value.unit.kind == GeneralUnit
  {
    var key := UnitKey(DimensionName(k), q.unit.base.name);
    var cj := SerializeCompact.CompactJson(q.value, key, if includeSymbol then q.unit.base.symbol else "");
    SerializeCompact.CompactJsonRoundTrip(cj);
    MultiWordKeyPrefix(k, q);
    assert CompactKind(cj).None?;
  }

  /** The prefix of such a key is "electric" or "fuel", which name no dimension. */
  lemma MultiWordKeyPrefix(k: Kind, q: Quantity)
    requires OfKind(k, q.unit) && '_' in DimensionName(k)
    ensures KindOfDimension(ParseUnitKey(UnitKey(DimensionName(k), q.unit.base.name)).0).None?
  {
    QuantityJson.MultiWordDimensionPrefix(k);
    var first, rest := ParseUnitKey(DimensionName(k)).0, ParseUnitKey(DimensionName(k)).1;
    Serialize.MultiWordDimensionIsCut(q, first, rest);
    LowerOfPrefixes();
  }

  /** "electric" and "fuel" are already lower-case. */
  lemma LowerOfPrefixes()
    ensures ToLower("electric") == "electric" && ToLower("fuel") == "fuel"
  {
    assert forall i | 0 <= i < |"electric"| :: ToLower("electric")[i] == "electric"[i];
    assert forall i | 0 <= i < |"fuel"| :: ToLower("fuel")[i] == "fuel"[i];
  }
}
