/**
 * The compact JSON form {"value", "unit": key, "symbol"?} (serialize_compact.go):
 * the key-to-unit tables are declared beside each dimension's units, as
 * Keys(); this module holds what every dimension shares.  The CompactJSON
 * struct itself is not part of this model; it is modelled as a value, a unit
 * key and a symbol that is left out when empty.
 */
module SerializeCompact {
  import opened Results
  import opened JsonValue
  import opened Units
  import opened Quantities
  import opened SerializeKeys
  import Serialize

  datatype CompactJson = CompactJson(value: real, unit: string, symbol: string)

  function DecodeCompactJson(j: Json): Option<CompactJson>
  {
    var o :- AsStruct(j);
    var value :- NumberField(o, "value");
    var unit :- StringField(o, "unit");
    var symbol :- StringField(o, "symbol");
    Some(CompactJson(value, unit, symbol))
  }

  /** The `omitempty` symbol is written only when it is not empty. */
  function EncodeCompactJson(c: CompactJson): Json
  {
    var members := map["value" := JNumber(c.value), "unit" := JString(c.unit)];
    JObject(if c.symbol == "" then members else members["symbol" := JString(c.symbol)])
  }

  lemma CompactJsonRoundTrip(c: CompactJson)
    ensures DecodeCompactJson(EncodeCompactJson(c)) == Some(c)
  {
  }

  /** marshalCompactGeneric (serialize_compact.go:209-219): the unitKey of the unit, its symbol only on request. */
  function MarshalCompactGeneric(q: Quantity, includeSymbol: bool): Json
  {
    var key := UnitKey(q.unit.base.dimension, q.unit.base.name);
    EncodeCompactJson(CompactJson(q.value, key, if includeSymbol then q.unit.base.symbol else ""))
  }

  /**
   * The shared body of the UnmarshalCompactX functions (serialize_compact.go:232-242
   * and each one after it): the unit is the table entry of the key, the
   * value is copied; a key not in the table is an "unknown <noun> unit key"
   * error.  The result is what the function hands to its NewX constructor.
   */
  function DecodeCompactUnit(noun: string, keys: map<string, Unit>, j: Json): (r: Result<(real, Unit)>)
    ensures r.Ok? <==> DecodeCompactJson(j).Some? && DecodeCompactJson(j).value.unit in keys
    ensures r.Ok? ==> r.value == (DecodeCompactJson(j).value.value, keys[DecodeCompactJson(j).value.unit])
    ensures DecodeCompactJson(j).Some? && DecodeCompactJson(j).value.unit !in keys ==>
              r == Err(UnknownCompactKey(noun, DecodeCompactJson(j).value.unit))
  {
    match DecodeCompactJson(j)
    case None => Err(JsonType("CompactJSON"))
    case Some(cj) =>
      if cj.unit in keys then Ok((cj.value, keys[cj.unit]))
      else Err(UnknownCompactKey(noun, cj.unit))
  }

  /** A unit whose unitKey is its table key reads back unchanged, with or without the symbol. */
  lemma CompactRoundTrip(q: Quantity, includeSymbol: bool, noun: string, keys: map<string, Unit>)
    requires UnitKey(q.unit.base.dimension, q.unit.base.name) in keys
    requires keys[UnitKey(q.unit.base.dimension, q.unit.base.name)] == q.unit
    ensures DecodeCompactUnit(noun, keys, MarshalCompactGeneric(q, includeSymbol)) == Ok((q.value, q.unit))
  {
    var key := UnitKey(q.unit.base.dimension, q.unit.base.name);
    CompactJsonRoundTrip(CompactJson(q.value, key, if includeSymbol then q.unit.base.symbol else ""));
  }

  /** A unit whose unitKey is not a table key cannot be read back: the round trip fails with that key. */
  lemma CompactRoundTripFails(q: Quantity, includeSymbol: bool, noun: string, keys: map<string, Unit>)
    requires UnitKey(q.unit.base.dimension, q.unit.base.name) !in keys
    ensures DecodeCompactUnit(noun, keys, MarshalCompactGeneric(q, includeSymbol)) ==
              Err(UnknownCompactKey(noun, UnitKey(q.unit.base.dimension, q.unit.base.name)))
  {
    var key := UnitKey(q.unit.base.dimension, q.unit.base.name);
    CompactJsonRoundTrip(CompactJson(q.value, key, if includeSymbol then q.unit.base.symbol else ""));
  }

  /**
   * isCompactFormat (serialize_compact.go:917-932): no top-level "dimension",
   * and a string "unit" holding '_'.
   */
  function IsCompactFormat(j: Json): bool
  {
    match j
    case JObject(raw) =>
      if "dimension" in raw then false
      else if "unit" in raw then
        match raw["unit"]
        case JString(s) => '_' in s
        case _ => false
      else false
    case _ => false
  }

  /** Whatever is written by marshalCompactGeneric is recognised as compact. */
  lemma MarshalledCompactIsCompact(q: Quantity, includeSymbol: bool)
    ensures IsCompactFormat(MarshalCompactGeneric(q, includeSymbol))
  {
    var key := UnitKey(q.unit.base.dimension, q.unit.base.name);
    assert key[|ToLower(q.unit.base.dimension)|] == '_';
  }

  /** No other format is taken for compact: not the full or compact shape of marshalGeneric, nor a key without '_'. */
  lemma OtherFormatsAreNotCompact(q: Quantity, value: real, unit: string)
    requires '_' !in unit
    ensures !IsCompactFormat(Serialize.MarshalGeneric(q))
    ensures !IsCompactFormat(Serialize.MarshalGenericCompact(q))
    ensures !IsCompactFormat(EncodeCompactJson(CompactJson(value, unit, "")))
  {
  }
}
