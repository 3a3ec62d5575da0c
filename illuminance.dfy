/** The predefined illuminance units (illuminance.go); Lux is the base unit. */
module Illuminance {
  import opened Results
  import opened JsonValue
  import opened Units
  import opened Quantities
  import Serialize
  import SerializeCompact

  /** A unit of this dimension, as built by NewBaseUnit("illuminance", ...). */
  function Make(symbol: string, name: string, coefficient: real, offset: real, isBase: bool): (u: Unit)
    ensures u.kind == IlluminanceUnit && u.base == BaseUnit("illuminance", symbol, name, coefficient, offset, isBase)
  {
    Unit(IlluminanceUnit, NewBaseUnit("illuminance", symbol, name, coefficient, offset, isBase))
  }

  function Lux(): Unit { Make("lx", "Lux", 1.0, 0.0, true) }
  function FootCandle(): Unit { Make("fc", "Foot-candle", 10.7639, 0.0, false) }
  function Phot(): Unit { Make("ph", "Phot", 10000.0, 0.0, false) }
  function Nox(): Unit { Make("nx", "Nox", 0.001, 0.0, false) }

  /** The predefined units, in declaration order. */
  function All(): (r: seq<Unit>)
    ensures forall u | u in r :: u.kind == IlluminanceUnit && u.base.dimension == "illuminance"
    ensures Lux() in r && Lux().base.isBase
    ensures forall u | u in r && u.base.isBase :: u == Lux()
    ensures forall u | u in r :: u.base.offset == 0.0 && u.base.coefficient > 0.0
  {
    [Lux(), FootCandle(), Phot(), Nox()]
  }

  /** The illuminance symbol registry (unit_registry.go:177-182): symbols and accepted aliases. */
  function Symbols(): map<string, Unit> {
    map[
      "lx" := Lux(),
      "fc" := FootCandle(),
      "ph" := Phot(),
      "nx" := Nox()
    ]
  }

  /** The registry finds each predefined unit under its own symbol. */
  lemma SymbolsFindAll()
    ensures forall u | u in All() :: u.base.symbol in Symbols() && Symbols()[u.base.symbol] == u
  {
    var m := Symbols();
    assert m[Lux().base.symbol] == Lux();
    assert m[FootCandle().base.symbol] == FootCandle();
    assert m[Phot().base.symbol] == Phot();
    assert m[Nox().base.symbol] == Nox();
  }

  /** The registry holds only predefined units. */
  lemma SymbolsHoldOnlyAll()
    ensures forall s | s in Symbols() :: Symbols()[s] in All()
  {
  }

  /** LookupIlluminanceUnit (unit_registry.go:320-323): the registered unit and true, or the zero unit and false. */
  function Lookup(symbol: string): (r: (Unit, bool))
    ensures r.1 <==> symbol in Symbols()
    ensures r.1 ==> r.0 == Symbols()[symbol] && r.0 in All()
    ensures !r.1 ==> r.0 == ZeroUnit(IlluminanceUnit)
  {
    SymbolsHoldOnlyAll();
    if symbol in Symbols() then (Symbols()[symbol], true) else (ZeroUnit(IlluminanceUnit), false)
  }

  /** Every predefined unit is found under its own symbol. */
  lemma LookupFindsAll()
    ensures forall u | u in All() :: Lookup(u.base.symbol) == (u, true)
  {
    SymbolsFindAll();
  }

  /** The cases of UnmarshalIlluminance (serialize.go:1455-1462): accepted symbols, key name, unit. */
  function Cases(): seq<Serialize.Case>
  {
    [
      Serialize.Case(["lx"], "lux", Lux()),
      Serialize.Case(["fc"], "foot_candle", FootCandle()),
      Serialize.Case(["ph"], "phot", Phot()),
      Serialize.Case(["nx"], "nox", Nox())
    ]
  }

  lemma CasesHoldOnlyAll()
    ensures forall c | c in Cases() :: c.unit in All()
  {
  }

  /** UnmarshalIlluminance (serialize.go:1443-1468): any of the three formats, unit chosen by the first matching case. */
  function Unmarshal(j: Json): (r: Result<Quantity>)
    ensures r.Ok? <==> Serialize.DecodeUnit("illuminance", "illuminance", Cases(), j).Ok?
    ensures r.Ok? ==> r.value.unit in All() && (r.value.value, r.value.unit) == Serialize.DecodeUnit("illuminance", "illuminance", Cases(), j).value
  {
    var d :- Serialize.DecodeUnit("illuminance", "illuminance", Cases(), j);
    CasesHoldOnlyAll();
    Ok(New(d.0, d.1))
  }

  /** The case that first lists each unit's symbol is that unit's own. */
  lemma LuxListedFirst() ensures Lux().base.symbol != "" && Serialize.FirstListing(Cases(), Lux(), 0) {}
  lemma FootCandleListedFirst() ensures FootCandle().base.symbol != "" && Serialize.FirstListing(Cases(), FootCandle(), 1) {}
  lemma PhotListedFirst() ensures Phot().base.symbol != "" && Serialize.FirstListing(Cases(), Phot(), 2) {}
  lemma NoxListedFirst() ensures Nox().base.symbol != "" && Serialize.FirstListing(Cases(), Nox(), 3) {}

  /** Each predefined unit has a symbol, and the first case listing it is its own. */
  lemma CasesListAll(u: Unit)
    requires u in All()
    ensures u.base.symbol != "" && exists i :: Serialize.FirstListing(Cases(), u, i)
  {
    if u == Lux() { LuxListedFirst(); }
    else if u == FootCandle() { FootCandleListedFirst(); }
    else if u == Phot() { PhotListedFirst(); }
    else if u == Nox() { NoxListedFirst(); }
  }

  /** A quantity in any predefined unit, written by marshalGeneric, is read back unchanged. */
  lemma UnmarshalRoundTrip(v: real, u: Unit)
    requires u in All()
    ensures Unmarshal(Serialize.MarshalGeneric(New(v, u))) == Ok(New(v, u))
  {
    CasesListAll(u);
    var i :| Serialize.FirstListing(Cases(), u, i);
    Serialize.DecodeMarshalledFull(New(v, u), "illuminance", "illuminance", Cases(), i);
  }

  /** The compact key table (serialize_compact.go:180-185). */
  function Keys(): map<string, Unit> {
    map[
      "illuminance_lux" := Lux(),
      "illuminance_foot_candle" := FootCandle(),
      "illuminance_phot" := Phot(),
      "illuminance_nox" := Nox()
    ]
  }

  /** The key table holds only predefined units. */
  lemma KeysHoldOnlyAll()
    ensures forall k | k in Keys() :: Keys()[k] in All()
  {
  }

  /** UnmarshalCompactIlluminance (serialize_compact.go:669-679): the unit of the key in the table. */
  function UnmarshalCompact(j: Json): (r: Result<Quantity>)
    ensures r.Ok? <==> SerializeCompact.DecodeCompactUnit("illuminance", Keys(), j).Ok?
    ensures r.Ok? ==> r.value.unit in All() && (r.value.value, r.value.unit) == SerializeCompact.DecodeCompactUnit("illuminance", Keys(), j).value
  {
    var d :- SerializeCompact.DecodeCompactUnit("illuminance", Keys(), j);
    KeysHoldOnlyAll();
    Ok(New(d.0, d.1))
  }

  /** 1000 lx is 0.1 ph and 1000000 nx; 1000 lx + 10 fc is 1107.639 lx. */
  lemma Examples()
    ensures ConvertTo(New(1000.0, Lux()), Phot()).value == 0.1
    ensures ConvertTo(New(1000.0, Lux()), Nox()).value == 1000000.0
    ensures Add(New(1000.0, Lux()), New(10.0, FootCandle())).value == 1107.639
  {
  }
}
