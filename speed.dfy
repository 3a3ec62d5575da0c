/** The predefined speed units (speed.go); MetersPerSecond is the base unit. */
module Speed {
  import opened Results
  import opened JsonValue
  import opened Units
  import opened Quantities
  import Serialize
  import SerializeCompact

  /** A unit of this dimension, as built by NewBaseUnit("speed", ...). */
  function Make(symbol: string, name: string, coefficient: real, offset: real, isBase: bool): (u: Unit)
    ensures u.kind == SpeedUnit && u.base == BaseUnit("speed", symbol, name, coefficient, offset, isBase)
  {
    Unit(SpeedUnit, NewBaseUnit("speed", symbol, name, coefficient, offset, isBase))
  }

  function MetersPerSecond(): Unit { Make("m/s", "Meters per Second", 1.0, 0.0, true) }
  function KilometersPerHour(): Unit { Make("km/h", "Kilometers per Hour", 1.0 / 3.6, 0.0, false) }
  function MilesPerHour(): Unit { Make("mph", "Miles per Hour", 0.44704, 0.0, false) }
  function FeetPerSecond(): Unit { Make("ft/s", "Feet per Second", 0.3048, 0.0, false) }
  function Knot(): Unit { Make("kn", "Knot", 0.51444, 0.0, false) }

  /** The predefined units, in declaration order. */
  function All(): (r: seq<Unit>)
    ensures forall u | u in r :: u.kind == SpeedUnit && u.base.dimension == "speed"
    ensures MetersPerSecond() in r && MetersPerSecond().base.isBase
    ensures forall u | u in r && u.base.isBase :: u == MetersPerSecond()
    ensures forall u | u in r :: u.base.offset == 0.0 && u.base.coefficient > 0.0
  {
    [MetersPerSecond(), KilometersPerHour(), MilesPerHour(), FeetPerSecond(), Knot()]
  }

  /** The speed symbol registry (unit_registry.go:137-143): symbols and accepted aliases. */
  function Symbols(): map<string, Unit> {
    map[
      "m/s" := MetersPerSecond(),
      "km/h" := KilometersPerHour(),
      "mph" := MilesPerHour(),
      "ft/s" := FeetPerSecond(),
      "kn" := Knot()
    ]
  }

  /** The registry finds each predefined unit under its own symbol. */
  lemma SymbolsFindAll()
    ensures forall u | u in All() :: u.base.symbol in Symbols() && Symbols()[u.base.symbol] == u
  {
    var m := Symbols();
    assert m[MetersPerSecond().base.symbol] == MetersPerSecond();
    assert m[KilometersPerHour().base.symbol] == KilometersPerHour();
    assert m[MilesPerHour().base.symbol] == MilesPerHour();
    assert m[FeetPerSecond().base.symbol] == FeetPerSecond();
    assert m[Knot().base.symbol] == Knot();
  }

  /** The registry holds only predefined units. */
  lemma SymbolsHoldOnlyAll()
    ensures forall s | s in Symbols() :: Symbols()[s] in All()
  {
  }

  /** LookupSpeedUnit (unit_registry.go:290-293): the registered unit and true, or the zero unit and false. */
  function Lookup(symbol: string): (r: (Unit, bool))
    ensures r.1 <==> symbol in Symbols()
    ensures r.1 ==> r.0 == Symbols()[symbol] && r.0 in All()
    ensures !r.1 ==> r.0 == ZeroUnit(SpeedUnit)
  {
    SymbolsHoldOnlyAll();
    if symbol in Symbols() then (Symbols()[symbol], true) else (ZeroUnit(SpeedUnit), false)
  }

  /** Every predefined unit is found under its own symbol. */
  lemma LookupFindsAll()
    ensures forall u | u in All() :: Lookup(u.base.symbol) == (u, true)
  {
    SymbolsFindAll();
  }

  /** The cases of UnmarshalSpeed (serialize.go:1299-1308): accepted symbols, key name, unit. */
  function Cases(): seq<Serialize.Case>
  {
    [
      Serialize.Case(["m/s"], "meters_per_second", MetersPerSecond()),
      Serialize.Case(["km/h"], "kilometers_per_hour", KilometersPerHour()),
      Serialize.Case(["mph"], "miles_per_hour", MilesPerHour()),
      Serialize.Case(["ft/s"], "feet_per_second", FeetPerSecond()),
      Serialize.Case(["kn"], "knot", Knot())
    ]
  }

  lemma CasesHoldOnlyAll()
    ensures forall c | c in Cases() :: c.unit in All()
  {
  }

  /** UnmarshalSpeed (serialize.go:1287-1314): any of the three formats, unit chosen by the first matching case. */
  function Unmarshal(j: Json): (r: Result<Quantity>)
    ensures r.Ok? <==> Serialize.DecodeUnit("speed", "speed", Cases(), j).Ok?
    ensures r.Ok? ==> r.value.unit in All() && (r.value.value, r.value.unit) == Serialize.DecodeUnit("speed", "speed", Cases(), j).value
  {
    var d :- Serialize.DecodeUnit("speed", "speed", Cases(), j);
    CasesHoldOnlyAll();
    Ok(New(d.0, d.1))
  }

  /** The case that first lists each unit's symbol is that unit's own. */
  lemma MetersPerSecondListedFirst() ensures MetersPerSecond().base.symbol != "" && Serialize.FirstListing(Cases(), MetersPerSecond(), 0) {}
  lemma KilometersPerHourListedFirst() ensures KilometersPerHour().base.symbol != "" && Serialize.FirstListing(Cases(), KilometersPerHour(), 1) {}
  lemma MilesPerHourListedFirst() ensures MilesPerHour().base.symbol != "" && Serialize.FirstListing(Cases(), MilesPerHour(), 2) {}
  lemma FeetPerSecondListedFirst() ensures FeetPerSecond().base.symbol != "" && Serialize.FirstListing(Cases(), FeetPerSecond(), 3) {}
  lemma KnotListedFirst() ensures Knot().base.symbol != "" && Serialize.FirstListing(Cases(), Knot(), 4) {}

  /** Each predefined unit has a symbol, and the first case listing it is its own. */
  lemma CasesListAll(u: Unit)
    requires u in All()
    ensures u.base.symbol != "" && exists i :: Serialize.FirstListing(Cases(), u, i)
  {
    if u == MetersPerSecond() { MetersPerSecondListedFirst(); }
    else if u == KilometersPerHour() { KilometersPerHourListedFirst(); }
    else if u == MilesPerHour() { MilesPerHourListedFirst(); }
    else if u == FeetPerSecond() { FeetPerSecondListedFirst(); }
    else if u == Knot() { KnotListedFirst(); }
  }

  /** A quantity in any predefined unit, written by marshalGeneric, is read back unchanged. */
  lemma UnmarshalRoundTrip(v: real, u: Unit)
    requires u in All()
    ensures Unmarshal(Serialize.MarshalGeneric(New(v, u))) == Ok(New(v, u))
  {
    CasesListAll(u);
    var i :| Serialize.FirstListing(Cases(), u, i);
    Serialize.DecodeMarshalledFull(New(v, u), "speed", "speed", Cases(), i);
  }

  /** The compact key table (serialize_compact.go:102-108). */
  function Keys(): map<string, Unit> {
    map[
      "speed_meters_per_second" := MetersPerSecond(),
      "speed_kilometers_per_hour" := KilometersPerHour(),
      "speed_miles_per_hour" := MilesPerHour(),
      "speed_feet_per_second" := FeetPerSecond(),
      "speed_knot" := Knot()
    ]
  }

  /** The key table holds only predefined units. */
  lemma KeysHoldOnlyAll()
    ensures forall k | k in Keys() :: Keys()[k] in All()
  {
  }

  /** UnmarshalCompactSpeed (serialize_compact.go:416-426): the unit of the key in the table. */
  function UnmarshalCompact(j: Json): (r: Result<Quantity>)
    ensures r.Ok? <==> SerializeCompact.DecodeCompactUnit("speed", Keys(), j).Ok?
    ensures r.Ok? ==> r.value.unit in All() && (r.value.value, r.value.unit) == SerializeCompact.DecodeCompactUnit("speed", Keys(), j).value
  {
    var d :- SerializeCompact.DecodeCompactUnit("speed", Keys(), j);
    KeysHoldOnlyAll();
    Ok(New(d.0, d.1))
  }

  /** 36 km/h is 10 m/s. */
  lemma Examples()
    ensures ConvertTo(New(36.0, KilometersPerHour()), MetersPerSecond()).value == 10.0
  {
  }
}
