/** The predefined acceleration units (acceleration.go); MetersPerSecondSquared is the base unit. */
module Acceleration {
  import opened Results
  import opened JsonValue
  import opened Units
  import opened Quantities
  import Serialize
  import SerializeCompact

  /** A unit of this dimension, as built by NewBaseUnit("acceleration", ...). */
  function Make(symbol: string, name: string, coefficient: real, offset: real, isBase: bool): (u: Unit)
    ensures u.kind == AccelerationUnit && u.base == BaseUnit("acceleration", symbol, name, coefficient, offset, isBase)
  {
    Unit(AccelerationUnit, NewBaseUnit("acceleration", symbol, name, coefficient, offset, isBase))
  }

  function MetersPerSecondSquared(): Unit { Make("m/s²", "Meters per Second Squared", 1.0, 0.0, true) }
  function G(): Unit { Make("g", "G-force", 9.80665, 0.0, false) }
  function FeetPerSecondSquared(): Unit { Make("ft/s²", "Feet per Second Squared", 0.3048, 0.0, false) }

  /** The predefined units, in declaration order. */
  function All(): (r: seq<Unit>)
    ensures forall u | u in r :: u.kind == AccelerationUnit && u.base.dimension == "acceleration"
    ensures MetersPerSecondSquared() in r && MetersPerSecondSquared().base.isBase
    ensures forall u | u in r && u.base.isBase :: u == MetersPerSecondSquared()
    ensures forall u | u in r :: u.base.offset == 0.0 && u.base.coefficient > 0.0
  {
    [MetersPerSecondSquared(), G(), FeetPerSecondSquared()]
  }

  /** The acceleration symbol registry (unit_registry.go:117-121): symbols and accepted aliases. */
  function Symbols(): map<string, Unit> {
    map[
      "m/s²" := MetersPerSecondSquared(),
      "g" := G(),
      "ft/s²" := FeetPerSecondSquared()
    ]
  }

  /** The registry finds each predefined unit under its own symbol. */
  lemma SymbolsFindAll()
    ensures forall u | u in All() :: u.base.symbol in Symbols() && Symbols()[u.base.symbol] == u
  {
    var m := Symbols();
    assert m[MetersPerSecondSquared().base.symbol] == MetersPerSecondSquared();
    assert m[G().base.symbol] == G();
    assert m[FeetPerSecondSquared().base.symbol] == FeetPerSecondSquared();
  }

  /** The registry holds only predefined units. */
  lemma SymbolsHoldOnlyAll()
    ensures forall s | s in Symbols() :: Symbols()[s] in All()
  {
  }

  /** LookupAccelerationUnit (unit_registry.go:272-275): the registered unit and true, or the zero unit and false. */
  function Lookup(symbol: string): (r: (Unit, bool))
    ensures r.1 <==> symbol in Symbols()
    ensures r.1 ==> r.0 == Symbols()[symbol] && r.0 in All()
    ensures !r.1 ==> r.0 == ZeroUnit(AccelerationUnit)
  {
    SymbolsHoldOnlyAll();
    if symbol in Symbols() then (Symbols()[symbol], true) else (ZeroUnit(AccelerationUnit), false)
  }

  /** Every predefined unit is found under its own symbol. */
  lemma LookupFindsAll()
    ensures forall u | u in All() :: Lookup(u.base.symbol) == (u, true)
  {
    SymbolsFindAll();
  }

  /** The cases of UnmarshalAcceleration (serialize.go:1134-1139): accepted symbols, key name, unit. */
  function Cases(): seq<Serialize.Case>
  {
    [
      Serialize.Case(["m/s²"], "meters_per_second_squared", MetersPerSecondSquared()),
      Serialize.Case(["g"], "g", G()),
      Serialize.Case(["ft/s²"], "feet_per_second_squared", FeetPerSecondSquared())
    ]
  }

  lemma CasesHoldOnlyAll()
    ensures forall c | c in Cases() :: c.unit in All()
  {
  }

  /** UnmarshalAcceleration (serialize.go:1122-1145): any of the three formats, unit chosen by the first matching case. */
  function Unmarshal(j: Json): (r: Result<Quantity>)
    ensures r.Ok? <==> Serialize.DecodeUnit("acceleration", "acceleration", Cases(), j).Ok?
    ensures r.Ok? ==> r.value.unit in All() && (r.value.value, r.value.unit) == Serialize.DecodeUnit("acceleration", "acceleration", Cases(), j).value
  {
    var d :- Serialize.DecodeUnit("acceleration", "acceleration", Cases(), j);
    CasesHoldOnlyAll();
    Ok(New(d.0, d.1))
  }

  /** The case that first lists each unit's symbol is that unit's own. */
  lemma MetersPerSecondSquaredListedFirst() ensures MetersPerSecondSquared().base.symbol != "" && Serialize.FirstListing(Cases(), MetersPerSecondSquared(), 0) {}
  lemma GListedFirst() ensures G().base.symbol != "" && Serialize.FirstListing(Cases(), G(), 1) {}
  lemma FeetPerSecondSquaredListedFirst() ensures FeetPerSecondSquared().base.symbol != "" && Serialize.FirstListing(Cases(), FeetPerSecondSquared(), 2) {}

  /** Each predefined unit has a symbol, and the first case listing it is its own. */
  lemma CasesListAll(u: Unit)
    requires u in All()
    ensures u.base.symbol != "" && exists i :: Serialize.FirstListing(Cases(), u, i)
  {
    if u == MetersPerSecondSquared() { MetersPerSecondSquaredListedFirst(); }
    else if u == G() { GListedFirst(); }
    else if u == FeetPerSecondSquared() { FeetPerSecondSquaredListedFirst(); }
  }

  /** A quantity in any predefined unit, written by marshalGeneric, is read back unchanged. */
  lemma UnmarshalRoundTrip(v: real, u: Unit)
    requires u in All()
    ensures Unmarshal(Serialize.MarshalGeneric(New(v, u))) == Ok(New(v, u))
  {
    CasesListAll(u);
    var i :| Serialize.FirstListing(Cases(), u, i);
    Serialize.DecodeMarshalledFull(New(v, u), "acceleration", "acceleration", Cases(), i);
  }

  /** The compact key table (serialize_compact.go:110-114). */
  function Keys(): map<string, Unit> {
    map[
      "acceleration_meters_per_second_squared" := MetersPerSecondSquared(),
      "acceleration_g" := G(),
      "acceleration_feet_per_second_squared" := FeetPerSecondSquared()
    ]
  }

  /** The key table holds only predefined units. */
  lemma KeysHoldOnlyAll()
    ensures forall k | k in Keys() :: Keys()[k] in All()
  {
  }

  /** UnmarshalCompactAcceleration (serialize_compact.go:439-449): the unit of the key in the table. */
  function UnmarshalCompact(j: Json): (r: Result<Quantity>)
    ensures r.Ok? <==> SerializeCompact.DecodeCompactUnit("acceleration", Keys(), j).Ok?
    ensures r.Ok? ==> r.value.unit in All() && (r.value.value, r.value.unit) == SerializeCompact.DecodeCompactUnit("acceleration", Keys(), j).value
  {
    var d :- SerializeCompact.DecodeCompactUnit("acceleration", Keys(), j);
    KeysHoldOnlyAll();
    Ok(New(d.0, d.1))
  }

  /** 9.8 m/s² + 1 g is 19.60665 m/s² and 9.8 m/s² - 1 g is -0.00665 m/s²; ft/s² has coefficient 0.3048. */
  lemma Examples()
    ensures Add(New(9.8, MetersPerSecondSquared()), New(1.0, G())).value == 19.60665
    ensures Subtract(New(9.8, MetersPerSecondSquared()), New(1.0, G())).value == -0.00665
    ensures ToBase(FeetPerSecondSquared(), 1.0) == 0.3048
  {
  }
}
