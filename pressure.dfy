/** The predefined pressure units (pressure.go); Pascal is the base unit. */
module Pressure {
  import opened Results
  import opened JsonValue
  import opened Units
  import opened Quantities
  import Serialize
  import SerializeCompact

  /** A unit of this dimension, as built by NewBaseUnit("pressure", ...). */
  function Make(symbol: string, name: string, coefficient: real, offset: real, isBase: bool): (u: Unit)
    ensures u.kind == PressureUnit && u.base == BaseUnit("pressure", symbol, name, coefficient, offset, isBase)
  {
    Unit(PressureUnit, NewBaseUnit("pressure", symbol, name, coefficient, offset, isBase))
  }

  function Pascal(): Unit { Make("Pa", "Pascal", 1.0, 0.0, true) }
  function Kilopascal(): Unit { Make("kPa", "Kilopascal", 1000.0, 0.0, false) }
  function Bar(): Unit { Make("bar", "Bar", 100000.0, 0.0, false) }
  function PSI(): Unit { Make("psi", "Pounds per Square Inch", 6894.76, 0.0, false) }
  function InchH2O(): Unit { Make("inH₂O", "Inches of Water Column", 249.089, 0.0, false) }

  /** The predefined units, in declaration order. */
  function All(): (r: seq<Unit>)
    ensures forall u | u in r :: u.kind == PressureUnit && u.base.dimension == "pressure"
    ensures Pascal() in r && Pascal().base.isBase
    ensures forall u | u in r && u.base.isBase :: u == Pascal()
    ensures forall u | u in r :: u.base.offset == 0.0 && u.base.coefficient > 0.0
  {
    [Pascal(), Kilopascal(), Bar(), PSI(), InchH2O()]
  }

  /** The pressure symbol registry (unit_registry.go:16-23): symbols and accepted aliases. */
  function Symbols(): map<string, Unit> {
    map[
      "Pa" := Pascal(),
      "kPa" := Kilopascal(),
      "bar" := Bar(),
      "psi" := PSI(),
      "inH₂O" := InchH2O(),
      "inH2O" := InchH2O()
    ]
  }

  /** The registry finds each predefined unit under its own symbol. */
  lemma SymbolsFindAll()
    ensures forall u | u in All() :: u.base.symbol in Symbols() && Symbols()[u.base.symbol] == u
  {
    var m := Symbols();
    assert m[Pascal().base.symbol] == Pascal();
    assert m[Kilopascal().base.symbol] == Kilopascal();
    assert m[Bar().base.symbol] == Bar();
    assert m[PSI().base.symbol] == PSI();
    assert m[InchH2O().base.symbol] == InchH2O();
  }

  /** The registry holds only predefined units. */
  lemma SymbolsHoldOnlyAll()
    ensures forall s | s in Symbols() :: Symbols()[s] in All()
  {
  }

  /** LookupPressureUnit (unit_registry.go:212-215): the registered unit and true, or the zero unit and false. */
  function Lookup(symbol: string): (r: (Unit, bool))
    ensures r.1 <==> symbol in Symbols()
    ensures r.1 ==> r.0 == Symbols()[symbol] && r.0 in All()
    ensures !r.1 ==> r.0 == ZeroUnit(PressureUnit)
  {
    SymbolsHoldOnlyAll();
    if symbol in Symbols() then (Symbols()[symbol], true) else (ZeroUnit(PressureUnit), false)
  }

  /** Every predefined unit is found under its own symbol. */
  lemma LookupFindsAll()
    ensures forall u | u in All() :: Lookup(u.base.symbol) == (u, true)
  {
    SymbolsFindAll();
  }

  /** The cases of UnmarshalPressure (serialize.go:744-753): accepted symbols, key name, unit. */
  function Cases(): seq<Serialize.Case>
  {
    [
      Serialize.Case(["Pa"], "pascal", Pascal()),
      Serialize.Case(["kPa"], "kilopascal", Kilopascal()),
      Serialize.Case(["bar"], "bar", Bar()),
      Serialize.Case(["psi"], "psi", PSI()),
      Serialize.Case(["inH₂O", "inH2O"], "inch_h2o", InchH2O())
    ]
  }

  lemma CasesHoldOnlyAll()
    ensures forall c | c in Cases() :: c.unit in All()
  {
  }

  /** UnmarshalPressure (serialize.go:732-759): any of the three formats, unit chosen by the first matching case. */
  function Unmarshal(j: Json): (r: Result<Quantity>)
    ensures r.Ok? <==> Serialize.DecodeUnit("pressure", "pressure", Cases(), j).Ok?
    ensures r.Ok? ==> r.value.unit in All() && (r.value.value, r.value.unit) == Serialize.DecodeUnit("pressure", "pressure", Cases(), j).value
  {
    var d :- Serialize.DecodeUnit("pressure", "pressure", Cases(), j);
    CasesHoldOnlyAll();
    Ok(New(d.0, d.1))
  }

  /** The case that first lists each unit's symbol is that unit's own. */
  lemma PascalListedFirst() ensures Pascal().base.symbol != "" && Serialize.FirstListing(Cases(), Pascal(), 0) {}
  lemma KilopascalListedFirst() ensures Kilopascal().base.symbol != "" && Serialize.FirstListing(Cases(), Kilopascal(), 1) {}
  lemma BarListedFirst() ensures Bar().base.symbol != "" && Serialize.FirstListing(Cases(), Bar(), 2) {}
  lemma PSIListedFirst() ensures PSI().base.symbol != "" && Serialize.FirstListing(Cases(), PSI(), 3) {}
  lemma InchH2OListedFirst() ensures InchH2O().base.symbol != "" && Serialize.FirstListing(Cases(), InchH2O(), 4) {}

  /** Each predefined unit has a symbol, and the first case listing it is its own. */
  lemma CasesListAll(u: Unit)
    requires u in All()
    ensures u.base.symbol != "" && exists i :: Serialize.FirstListing(Cases(), u, i)
  {
    if u == Pascal() { PascalListedFirst(); }
    else if u == Kilopascal() { KilopascalListedFirst(); }
    else if u == Bar() { BarListedFirst(); }
    else if u == PSI() { PSIListedFirst(); }
    else if u == InchH2O() { InchH2OListedFirst(); }
  }

  /** A quantity in any predefined unit, written by marshalGeneric, is read back unchanged. */
  lemma UnmarshalRoundTrip(v: real, u: Unit)
    requires u in All()
    ensures Unmarshal(Serialize.MarshalGeneric(New(v, u))) == Ok(New(v, u))
  {
    CasesListAll(u);
    var i :| Serialize.FirstListing(Cases(), u, i);
    Serialize.DecodeMarshalledFull(New(v, u), "pressure", "pressure", Cases(), i);
  }

  /** The compact key table (serialize_compact.go:20-26). */
  function Keys(): map<string, Unit> {
    map[
      "pressure_pascal" := Pascal(),
      "pressure_kilopascal" := Kilopascal(),
      "pressure_bar" := Bar(),
      "pressure_pounds_per_square_inch" := PSI(),
      "pressure_inches_of_water_column" := InchH2O()
    ]
  }

  /** The key table holds only predefined units. */
  lemma KeysHoldOnlyAll()
    ensures forall k | k in Keys() :: Keys()[k] in All()
  {
  }

  /** UnmarshalCompactPressure (serialize_compact.go:255-265): the unit of the key in the table. */
  function UnmarshalCompact(j: Json): (r: Result<Quantity>)
    ensures r.Ok? <==> SerializeCompact.DecodeCompactUnit("pressure", Keys(), j).Ok?
    ensures r.Ok? ==> r.value.unit in All() && (r.value.value, r.value.unit) == SerializeCompact.DecodeCompactUnit("pressure", Keys(), j).value
  {
    var d :- SerializeCompact.DecodeCompactUnit("pressure", Keys(), j);
    KeysHoldOnlyAll();
    Ok(New(d.0, d.1))
  }

  /** 101325 Pa is 1.01325 bar; 1 kPa is 1000 Pa. */
  lemma Examples()
    ensures ConvertTo(New(101325.0, Pascal()), Bar()).value == 1.01325
    ensures ConvertTo(New(1.0, Kilopascal()), Pascal()).value == 1000.0
  {
  }
}
