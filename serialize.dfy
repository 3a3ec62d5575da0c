/**
 * The three JSON formats of a measurement (serialize.go): full
 * {"value", "unit": {"name", "symbol", "dimension"}}, compact
 * {"value", "unit": {"key", "symbol"}} and minimal {"value", "unit": key};
 * format detection, the extraction of value and unit information shared by
 * every decoder, the unit matching of the UnmarshalX functions and the
 * marshalGeneric family.
 */
module Serialize {
  import opened Results
  import opened JsonValue
  import opened Units
  import opened Quantities
  import opened SerializeKeys

  /** SerializationFormat is a Go int; these are its three named values. */
  type SerializationFormat = int
  const FormatFull: SerializationFormat := 0
  const FormatCompact: SerializationFormat := 1
  const FormatMinimal: SerializationFormat := 2

  // The Go structs the formats are decoded into and encoded from (serialize.go:25-71).

  datatype UnitFullJson = UnitFullJson(name: string, symbol: string, dimension: string)
  datatype UnitCompactJson = UnitCompactJson(key: string, symbol: string)
  datatype MeasurementJson = MeasurementJson(value: real, unit: UnitFullJson)
  datatype MeasurementCompactJson = MeasurementCompactJson(value: real, unit: UnitCompactJson)
  datatype MeasurementMinimalJson = MeasurementMinimalJson(value: real, unit: string)
  datatype LegacyUnitJson = LegacyUnitJson(name: string, symbol: string)
  datatype LegacyMeasurementJson = LegacyMeasurementJson(value: real, unit: LegacyUnitJson, dimension: string)
  datatype LegacyCompactJson = LegacyCompactJson(value: real, unit: string, symbol: string)

  function DecodeUnitFull(j: Json): Option<UnitFullJson>
  {
    var o :- AsStruct(j);
    var name :- StringField(o, "name");
    var symbol :- StringField(o, "symbol");
    var dimension :- StringField(o, "dimension");
    Some(UnitFullJson(name, symbol, dimension))
  }

  function DecodeUnitCompact(j: Json): Option<UnitCompactJson>
  {
    var o :- AsStruct(j);
    var key :- StringField(o, "key");
    var symbol :- StringField(o, "symbol");
    Some(UnitCompactJson(key, symbol))
  }

  function DecodeLegacyUnit(j: Json): Option<LegacyUnitJson>
  {
    var o :- AsStruct(j);
    var name :- StringField(o, "name");
    var symbol :- StringField(o, "symbol");
    Some(LegacyUnitJson(name, symbol))
  }

  function DecodeMeasurement(j: Json): Option<MeasurementJson>
  {
    var o :- AsStruct(j);
    var value :- NumberField(o, "value");
    var unit :- DecodeUnitFull(Member(o, "unit"));
    Some(MeasurementJson(value, unit))
  }

  function DecodeMeasurementCompact(j: Json): Option<MeasurementCompactJson>
  {
    var o :- AsStruct(j);
    var value :- NumberField(o, "value");
    var unit :- DecodeUnitCompact(Member(o, "unit"));
    Some(MeasurementCompactJson(value, unit))
  }

  function DecodeMeasurementMinimal(j: Json): Option<MeasurementMinimalJson>
  {
    var o :- AsStruct(j);
    var value :- NumberField(o, "value");
    var unit :- StringField(o, "unit");
    Some(MeasurementMinimalJson(value, unit))
  }

  function DecodeLegacyMeasurement(j: Json): Option<LegacyMeasurementJson>
  {
    var o :- AsStruct(j);
    var value :- NumberField(o, "value");
    var unit :- DecodeLegacyUnit(Member(o, "unit"));
    var dimension :- StringField(o, "dimension");
    Some(LegacyMeasurementJson(value, unit, dimension))
  }

  function DecodeLegacyCompact(j: Json): Option<LegacyCompactJson>
  {
    var o :- AsStruct(j);
    var value :- NumberField(o, "value");
    var unit :- StringField(o, "unit");
    var symbol :- StringField(o, "symbol");
    Some(LegacyCompactJson(value, unit, symbol))
  }

  function EncodeUnitFull(u: UnitFullJson): Json
  {
    JObject(map["name" := JString(u.name), "symbol" := JString(u.symbol), "dimension" := JString(u.dimension)])
  }

  function EncodeUnitCompact(u: UnitCompactJson): Json
  {
    JObject(map["key" := JString(u.key), "symbol" := JString(u.symbol)])
  }

  function EncodeMeasurement(m: MeasurementJson): Json
  {
    JObject(map["value" := JNumber(m.value), "unit" := EncodeUnitFull(m.unit)])
  }

  function EncodeMeasurementCompact(m: MeasurementCompactJson): Json
  {
    JObject(map["value" := JNumber(m.value), "unit" := EncodeUnitCompact(m.unit)])
  }

  function EncodeMeasurementMinimal(m: MeasurementMinimalJson): Json
  {
    JObject(map["value" := JNumber(m.value), "unit" := JString(m.unit)])
  }

  /** Each encoded struct decodes back to itself. */
  lemma EncodingsDecode(full: MeasurementJson, compact: MeasurementCompactJson, minimal: MeasurementMinimalJson)
    ensures DecodeMeasurement(EncodeMeasurement(full)) == Some(full)
    ensures DecodeMeasurementCompact(EncodeMeasurementCompact(compact)) == Some(compact)
    ensures DecodeMeasurementMinimal(EncodeMeasurementMinimal(minimal)) == Some(minimal)
  {
    assert DecodeUnitFull(EncodeUnitFull(full.unit)) == Some(full.unit);
    assert DecodeUnitCompact(EncodeUnitCompact(compact.unit)) == Some(compact.unit);
  }

  /** The sniffed string value of a member: present and decodable as a Go string. */
  function StringMember(o: Object, key: string): Option<string>
  {
    if key in o then AsString(o[key]) else None
  }

  /**
   * detectFormat (serialize.go:120-179): a string (or null) "unit" is the
   * minimal format, a "unit" object with a string "key" the compact one, a
   * string "dimension" inside the unit or at the top level the full one.
   * The dimension of the minimal and compact formats is the key's prefix.
   */
  function DetectFormat(j: Json): (r: Result<(SerializationFormat, string)>)
    ensures r.Ok? ==> r.value.0 == FormatFull || r.value.0 == FormatCompact || r.value.0 == FormatMinimal
    ensures r == Err(MissingUnit) <==> AsStruct(j).Some? && "unit" !in AsStruct(j).value
    ensures r.Ok? && r.value.0 != FormatFull ==> '_' !in r.value.1
  {
    match AsStruct(j)
    case None => Err(JsonType("document"))
    case Some(raw) =>
      if "unit" !in raw then Err(MissingUnit)
      else
        var unitRaw := raw["unit"];
        match AsString(unitRaw)
        case Some(unitStr) => Ok((FormatMinimal, ParseUnitKey(unitStr).0))
        case None =>
          match AsStruct(unitRaw)
          case None => Err(JsonType("unit"))
          case Some(unitObj) =>
            if StringMember(unitObj, "key").Some? then
              Ok((FormatCompact, ParseUnitKey(StringMember(unitObj, "key").value).0))
            else if StringMember(unitObj, "dimension").Some? then
              Ok((FormatFull, StringMember(unitObj, "dimension").value))
            else if StringMember(raw, "dimension").Some? then
              Ok((FormatFull, StringMember(raw, "dimension").value))
            else Err(UndeterminedFormat)
  }

  /** unmarshalValue (serialize.go:182-190): the "value" member of any format. */
  function UnmarshalValue(j: Json): (r: Result<real>)
    ensures r.Ok? <==> AsStruct(j).Some? && NumberField(AsStruct(j).value, "value").Some?
    ensures r.Ok? ==> r.value == NumberField(AsStruct(j).value, "value").value
  {
    match AsStruct(j)
    case None => Err(JsonType("document"))
    case Some(o) =>
      match NumberField(o, "value")
      case None => Err(JsonType("value"))
      case Some(v) => Ok(v)
  }

  /** What unmarshalUnitInfo extracts: a symbol, a name (full format) and a key (compact and minimal). */
  datatype UnitInfo = UnitInfo(symbol: string, name: string, key: string)

  /**
   * unmarshalUnitInfo (serialize.go:194-230): the full format takes the
   * nested unit when its symbol is set and otherwise the legacy shape; the
   * minimal format takes a top-level "symbol" when one is set.
   */
  function UnmarshalUnitInfo(j: Json): (r: Result<UnitInfo>)
    ensures r.Ok? ==> DetectFormat(j).Ok?
    ensures r.Ok? && DetectFormat(j).value.0 == FormatFull ==> r.value.key == ""
    ensures r.Ok? && DetectFormat(j).value.0 != FormatFull ==> r.value.name == ""
  {
    var (format, _) :- DetectFormat(j);
    if format == FormatFull then
      var full := DecodeMeasurement(j);
      if full.Some? && full.value.unit.symbol != "" then
        Ok(UnitInfo(full.value.unit.symbol, full.value.unit.name, ""))
      else
        match DecodeLegacyMeasurement(j)
        case Some(legacy) => Ok(UnitInfo(legacy.unit.symbol, legacy.unit.name, ""))
        case None => Err(NoUnitInfo)
    else if format == FormatCompact then
      match DecodeMeasurementCompact(j)
      case Some(compact) => Ok(UnitInfo(compact.unit.symbol, "", compact.unit.key))
      case None => Err(NoUnitInfo)
    else
      match DecodeMeasurementMinimal(j)
      case Some(minimal) =>
        var legacy := DecodeLegacyCompact(j);
        if legacy.Some? && legacy.value.symbol != "" then Ok(UnitInfo(legacy.value.symbol, "", minimal.unit))
        else Ok(UnitInfo("", "", minimal.unit))
      case None => Err(NoUnitInfo)
  }

  /** parsedMeasurement (serialize.go:233-240). */
  datatype ParsedMeasurement = ParsedMeasurement(
    value: real, symbol: string, name: string, key: string, dimension: string, format: SerializationFormat)

  /**
   * parseMeasurement (serialize.go:243-264): format and dimension from
   * detectFormat, the value, and the unit information with its error
   * ignored (every part empty).
   */
  function ParseMeasurement(j: Json): (r: Result<ParsedMeasurement>)
    ensures r.Ok? <==> DetectFormat(j).Ok? && UnmarshalValue(j).Ok?
    ensures r.Ok? ==> r.value.format == DetectFormat(j).value.0 && r.value.dimension == DetectFormat(j).value.1
    ensures r.Ok? ==> r.value.value == UnmarshalValue(j).value
    ensures r.Ok? && UnmarshalUnitInfo(j).Err? ==> r.value.symbol == r.value.name == r.value.key == ""
  {
    var (format, dimension) :- DetectFormat(j);
    var value :- UnmarshalValue(j);
    var info := match UnmarshalUnitInfo(j) case Ok(i) => i case Err(_) => UnitInfo("", "", "");
    Ok(ParsedMeasurement(value, info.symbol, info.name, info.key, dimension, format))
  }

  /** matchUnitByKey (serialize.go:267-273): the key's unit part equals the name up to ASCII case. */
  function MatchUnitByKey(p: ParsedMeasurement, unitName: string): (r: bool)
    ensures r <==> p.key != "" && ToLower(ParseUnitKey(p.key).1) == ToLower(unitName)
  {
    p.key != "" && EqualFold(ParseUnitKey(p.key).1, unitName)
  }

  /** One `case` of an UnmarshalX switch: the symbols it accepts, the key name it compares, and its unit. */
  datatype Case = Case(symbols: seq<string>, keyName: string, unit: Unit)

  predicate CaseMatches(p: ParsedMeasurement, c: Case)
  {
    p.symbol in c.symbols || MatchUnitByKey(p, c.keyName)
  }

  /** The unit of the first case that matches, as a Go `switch { case ... }` picks it. */
  function FirstMatch(p: ParsedMeasurement, cases: seq<Case>): (r: Option<Unit>)
    ensures r.None? <==> forall i | 0 <= i < |cases| :: !CaseMatches(p, cases[i])
    ensures r.Some? ==> exists i | 0 <= i < |cases| ::
              CaseMatches(p, cases[i]) && r.value == cases[i].unit &&
              forall k | 0 <= k < i :: !CaseMatches(p, cases[k])
  {
    if |cases| == 0 then None
    else if CaseMatches(p, cases[0]) then Some(cases[0].unit)
    else
      var r := FirstMatch(p, cases[1..]);
      assert forall i | 1 <= i < |cases| :: cases[i] == cases[1..][i - 1];
      if r.Some? then
        ghost var i :| 0 <= i < |cases[1..]| && CaseMatches(p, cases[1..][i]) && r.value == cases[1..][i].unit &&
                   forall k | 0 <= k < i :: !CaseMatches(p, cases[1..][k]);
        assert CaseMatches(p, cases[i + 1]) && forall k | 0 <= k < i + 1 :: !CaseMatches(p, cases[k]);
        r
      else r
  }

  /** When case i is the first whose symbols hold s, a symbol-only match picks case i. */
  lemma {:induction false} FirstMatchBySymbol(p: ParsedMeasurement, cases: seq<Case>, i: nat)
    requires p.key == "" && i < |cases| && p.symbol in cases[i].symbols
    requires forall k | 0 <= k < i :: p.symbol !in cases[k].symbols
    ensures FirstMatch(p, cases) == Some(cases[i].unit)
  {
    if i > 0 {
      assert cases[1..][i - 1] == cases[i];
      FirstMatchBySymbol(p, cases[1..], i - 1);
    }
  }

  /**
   * The shared body of the UnmarshalX functions (serialize.go:701-724 and
   * each one after it): parse, reject another dimension, then the first
   * matching case; no case is an "unknown <noun> unit" error.  The result
   * is the value and the unit the function hands to its NewX constructor.
   */
  function DecodeUnit(dimension: string, noun: string, cases: seq<Case>, j: Json): (r: Result<(real, Unit)>)
    ensures r.Ok? <==> ParseMeasurement(j).Ok? && ParseMeasurement(j).value.dimension == dimension &&
                       FirstMatch(ParseMeasurement(j).value, cases).Some?
    ensures r.Ok? ==> r.value == (ParseMeasurement(j).value.value, FirstMatch(ParseMeasurement(j).value, cases).value)
    ensures ParseMeasurement(j).Ok? && ParseMeasurement(j).value.dimension != dimension ==>
              r == Err(ExpectedDimension(dimension, ParseMeasurement(j).value.dimension))
  {
    var p :- ParseMeasurement(j);
    if p.dimension != dimension then Err(ExpectedDimension(dimension, p.dimension))
    else
      match FirstMatch(p, cases)
      case None => Err(UnknownUnit(noun, p.symbol, p.key))
      case Some(u) => Ok((p.value, u))
  }

  /** marshalGeneric (serialize.go:650-659): the full format, the dimension nested in the unit. */
  function MarshalGeneric(q: Quantity): Json
  {
    EncodeMeasurement(MeasurementJson(q.value, UnitFullJson(q.unit.base.name, q.unit.base.symbol, q.unit.base.dimension)))
  }

  /** marshalGenericCompact (serialize.go:662-670): the key made by unitKey, and the symbol. */
  function MarshalGenericCompact(q: Quantity): Json
  {
    EncodeMeasurementCompact(MeasurementCompactJson(q.value,
      UnitCompactJson(UnitKey(q.unit.base.dimension, q.unit.base.name), q.unit.base.symbol)))
  }

  /** marshalGenericMinimal (serialize.go:673-678): the key as the unit string. */
  function MarshalGenericMinimal(q: Quantity): Json
  {
    EncodeMeasurementMinimal(MeasurementMinimalJson(q.value, UnitKey(q.unit.base.dimension, q.unit.base.name)))
  }

  /** MarshalWithFormat (serialize.go:681-692): any other format number gives the full format. */
  function MarshalWithFormat(q: Quantity, format: SerializationFormat): (r: Json)
    ensures format != FormatCompact && format != FormatMinimal ==> r == MarshalGeneric(q)
  {
    if format == FormatCompact then MarshalGenericCompact(q)
    else if format == FormatMinimal then MarshalGenericMinimal(q)
    else MarshalGeneric(q)
  }

  /** Each format written by MarshalWithFormat is detected as itself, with the dimension read back. */
  lemma DetectMarshalledFormat(q: Quantity, format: SerializationFormat)
    ensures var d := q.unit.base.dimension;
            var prefix := ParseUnitKey(UnitKey(d, q.unit.base.name)).0;
            DetectFormat(MarshalWithFormat(q, format)) ==
              (if format == FormatCompact then Ok((FormatCompact, prefix))
               else if format == FormatMinimal then Ok((FormatMinimal, prefix))
               else Ok((FormatFull, d)))
  {
  }

  /** The key's prefix is the lowered dimension exactly when the dimension is a single word. */
  lemma MarshalledKeyPrefix(q: Quantity)
    requires '_' !in q.unit.base.dimension
    ensures ParseUnitKey(UnitKey(q.unit.base.dimension, q.unit.base.name)).0 == ToLower(q.unit.base.dimension)
  {
    ParseUnitKeyOfUnitKey(q.unit.base.dimension, q.unit.base.name);
  }

  /** A dimension of several words loses all but its first word in the compact and minimal formats. */
  lemma MultiWordDimensionIsCut(q: Quantity, first: string, rest: string)
    requires q.unit.base.dimension == first + "_" + rest && '_' !in first
    ensures ParseUnitKey(UnitKey(q.unit.base.dimension, q.unit.base.name)).0 == ToLower(first)
  {
    var d := q.unit.base.dimension;
    var lowered := ToLower(first) + "_" + ToLower(rest);
    assert ToLower(d) == lowered by {
      assert forall i | 0 <= i < |d| :: ToLower(d)[i] == lowered[i];
    }
    assert '_' !in ToLower(first);
    assert UnitKey(d, q.unit.base.name) == ToLower(first) + "_" + (ToLower(rest) + "_" + SnakeCase(q.unit.base.name));
    ParseUnitKeyOfJoin(ToLower(first), ToLower(rest) + "_" + SnakeCase(q.unit.base.name));
  }

  /** Parsing the full format gives back value, symbol, name and dimension, with no key. */
  lemma ParseMarshalledFull(q: Quantity)
    requires q.unit.base.symbol != ""
    ensures ParseMeasurement(MarshalGeneric(q)) ==
              Ok(ParsedMeasurement(q.value, q.unit.base.symbol, q.unit.base.name, "", q.unit.base.dimension, FormatFull))
  {
    var m := MeasurementJson(q.value, UnitFullJson(q.unit.base.name, q.unit.base.symbol, q.unit.base.dimension));
    assert DecodeMeasurement(MarshalGeneric(q)) == Some(m) by {
      EncodingsDecode(m, MeasurementCompactJson(0.0, UnitCompactJson("", "")), MeasurementMinimalJson(0.0, ""));
    }
  }

  /** Case i is the first to list u's symbol, and it is u's own case. */
  predicate FirstListing(cases: seq<Case>, u: Unit, i: int)
  {
    0 <= i < |cases| && u.base.symbol in cases[i].symbols && cases[i].unit == u &&
    forall k | 0 <= k < i :: u.base.symbol !in cases[k].symbols
  }

  /**
   * Decoding the full format picks the unit whose case is the first to list
   * its symbol: a unit a decoder lists first is read back unchanged
   * (serialize.go:650-659, serialize.go:701-724).
   */
  lemma DecodeMarshalledFull(q: Quantity, dimension: string, noun: string, cases: seq<Case>, i: int)
    requires q.unit.base.dimension == dimension && q.unit.base.symbol != ""
    requires FirstListing(cases, q.unit, i)
    ensures DecodeUnit(dimension, noun, cases, MarshalGeneric(q)) == Ok((q.value, q.unit))
  {
    ParseMarshalledFull(q);
    var p := ParseMeasurement(MarshalGeneric(q)).value;
    FirstMatchBySymbol(p, cases, i);
  }

  /** A unit with no case is rejected with its symbol and an empty key. */
  lemma DecodeMarshalledFullUnknown(q: Quantity, dimension: string, noun: string, cases: seq<Case>)
    requires q.unit.base.dimension == dimension && q.unit.base.symbol != ""
    requires forall k | 0 <= k < |cases| :: q.unit.base.symbol !in cases[k].symbols
    ensures DecodeUnit(dimension, noun, cases, MarshalGeneric(q)) == Err(UnknownUnit(noun, q.unit.base.symbol, ""))
  {
    ParseMarshalledFull(q);
  }

  /** A payload of another dimension is rejected before any unit is looked at. */
  lemma DecodeOtherDimension(q: Quantity, dimension: string, noun: string, cases: seq<Case>)
    requires q.unit.base.dimension != dimension && q.unit.base.symbol != ""
    ensures DecodeUnit(dimension, noun, cases, MarshalGeneric(q)) ==
              Err(ExpectedDimension(dimension, q.unit.base.dimension))
  {
    ParseMarshalledFull(q);
  }
}
