/** The predefined electric current units (electric_current.go); Ampere is the base unit. */
module ElectricCurrent {
  import opened Results
  import opened JsonValue
  import opened Units
  import opened Quantities
  import Serialize
  import SerializeCompact

  /** A unit of this dimension, as built by NewBaseUnit("electric_current", ...). */
  function Make(symbol: string, name: string, coefficient: real, offset: real, isBase: bool): (u: Unit)
    ensures u.kind == ElectricCurrentUnit && u.base == BaseUnit("electric_current", symbol, name, coefficient, offset, isBase)
  {
    Unit(ElectricCurrentUnit, NewBaseUnit("electric_current", symbol, name, coefficient, offset, isBase))
  }

  function Ampere(): Unit { Make("A", "Ampere", 1.0, 0.0, true) }
  function Milliampere(): Unit { Make("mA", "Milliampere", 0.001, 0.0, false) }
  function Microampere(): Unit { Make("µA", "Microampere", 0.000001, 0.0, false) }
  function Kiloampere(): Unit { Make("kA", "Kiloampere", 1000.0, 0.0, false) }

  /** The predefined units, in declaration order. */
  function All(): (r: seq<Unit>)
    ensures forall u | u in r :: u.kind == ElectricCurrentUnit && u.base.dimension == "electric_current"
    ensures Ampere() in r && Ampere().base.isBase
    ensures forall u | u in r && u.base.isBase :: u == Ampere()
    ensures forall u | u in r :: u.base.offset == 0.0 && u.base.coefficient > 0.0
  {
    [Ampere(), Milliampere(), Microampere(), Kiloampere()]
  }

  /** The electric current symbol registry (unit_registry.go:153-158): symbols and accepted aliases. */
  function Symbols(): map<string, Unit> {
    map[
      "A" := Ampere(),
      "mA" := Milliampere(),
      "µA" := Microampere(),
      "kA" := Kiloampere()
    ]
  }

  /** The registry finds each predefined unit under its own symbol. */
  lemma SymbolsFindAll()
    ensures forall u | u in All() :: u.base.symbol in Symbols() && Symbols()[u.base.symbol] == u
  {
    var m := Symbols();
    assert m[Ampere().base.symbol] == Ampere();
    assert m[Milliampere().base.symbol] == Milliampere();
    assert m[Microampere().base.symbol] == Microampere();
    assert m[Kiloampere().base.symbol] == Kiloampere();
  }

  /** The registry holds only predefined units. */
  lemma SymbolsHoldOnlyAll()
    ensures forall s | s in Symbols() :: Symbols()[s] in All()
  {
  }

  /** LookupElectricCurrentUnit (unit_registry.go:302-305): the registered unit and true, or the zero unit and false. */
  function Lookup(symbol: string): (r: (Unit, bool))
    ensures r.1 <==> symbol in Symbols()
    ensures r.1 ==> r.0 == Symbols()[symbol] && r.0 in All()
    ensures !r.1 ==> r.0 == ZeroUnit(ElectricCurrentUnit)
  {
    SymbolsHoldOnlyAll();
    if symbol in Symbols() then (Symbols()[symbol], true) else (ZeroUnit(ElectricCurrentUnit), false)
  }

  /** Every predefined unit is found under its own symbol. */
  lemma LookupFindsAll()
    ensures forall u | u in All() :: Lookup(u.base.symbol) == (u, true)
  {
    SymbolsFindAll();
  }

  /** The cases of UnmarshalElectricCurrent (serialize.go:1266-1273): accepted symbols, key name, unit. */
  function Cases(): seq<Serialize.Case>
  {
    [
      Serialize.Case(["A"], "ampere", Ampere()),
      Serialize.Case(["mA"], "milliampere", Milliampere()),
      Serialize.Case(["µA"], "microampere", Microampere()),
      Serialize.Case(["kA"], "kiloampere", Kiloampere())
    ]
  }

  lemma CasesHoldOnlyAll()
    ensures forall c | c in Cases() :: c.unit in All()
  {
  }

  /** UnmarshalElectricCurrent (serialize.go:1254-1279): any of the three formats, unit chosen by the first matching case. */
  function Unmarshal(j: Json): (r: Result<Quantity>)
    ensures r.Ok? <==> Serialize.DecodeUnit("electric_current", "electric current", Cases(), j).Ok?
    ensures r.Ok? ==> r.value.unit in All() && (r.value.value, r.value.unit) == Serialize.DecodeUnit("electric_current", "electric current", Cases(), j).value
  {
    var d :- Serialize.DecodeUnit("electric_current", "electric current", Cases(), j);
    CasesHoldOnlyAll();
    Ok(New(d.0, d.1))
  }

  /** The case that first lists each unit's symbol is that unit's own. */
  lemma AmpereListedFirst() ensures Ampere().base.symbol != "" && Serialize.FirstListing(Cases(), Ampere(), 0) {}
  lemma MilliampereListedFirst() ensures Milliampere().base.symbol != "" && Serialize.FirstListing(Cases(), Milliampere(), 1) {}
  lemma MicroampereListedFirst() ensures Microampere().base.symbol != "" && Serialize.FirstListing(Cases(), Microampere(), 2) {}
  lemma KiloampereListedFirst() ensures Kiloampere().base.symbol != "" && Serialize.FirstListing(Cases(), Kiloampere(), 3) {}

  /** Each predefined unit has a symbol, and the first case listing it is its own. */
  lemma CasesListAll(u: Unit)
    requires u in All()
    ensures u.base.symbol != "" && exists i :: Serialize.FirstListing(Cases(), u, i)
  {
    if u == Ampere() { AmpereListedFirst(); }
    else if u == Milliampere() { MilliampereListedFirst(); }
    else if u == Microampere() { MicroampereListedFirst(); }
    else if u == Kiloampere() { KiloampereListedFirst(); }
  }

  /** A quantity in any predefined unit, written by marshalGeneric, is read back unchanged. */
  lemma UnmarshalRoundTrip(v: real, u: Unit)
    requires u in All()
    ensures Unmarshal(Serialize.MarshalGeneric(New(v, u))) == Ok(New(v, u))
  {
    CasesListAll(u);
    var i :| Serialize.FirstListing(Cases(), u, i);
    Serialize.DecodeMarshalledFull(New(v, u), "electric_current", "electric current", Cases(), i);
  }

  /** The compact key table (serialize_compact.go:156-161). */
  function Keys(): map<string, Unit> {
    map[
      "electric_current_ampere" := Ampere(),
      "electric_current_milliampere" := Milliampere(),
      "electric_current_microampere" := Microampere(),
      "electric_current_kiloampere" := Kiloampere()
    ]
  }

  /** The key table holds only predefined units. */
  lemma KeysHoldOnlyAll()
    ensures forall k | k in Keys() :: Keys()[k] in All()
  {
  }

  /** UnmarshalCompactElectricCurrent (serialize_compact.go:600-610): the unit of the key in the table. */
  function UnmarshalCompact(j: Json): (r: Result<Quantity>)
    ensures r.Ok? <==> SerializeCompact.DecodeCompactUnit("electric_current", Keys(), j).Ok?
    ensures r.Ok? ==> r.value.unit in All() && (r.value.value, r.value.unit) == SerializeCompact.DecodeCompactUnit("electric_current", Keys(), j).value
  {
    var d :- SerializeCompact.DecodeCompactUnit("electric_current", Keys(), j);
    KeysHoldOnlyAll();
    Ok(New(d.0, d.1))
  }

  /** 2.5 A is 2500 mA and 0.0025 kA; 2.5 A + 500 mA is 3 A and 2.5 A - 500 mA is 2 A. */
  lemma Examples()
    ensures ConvertTo(New(2.5, Ampere()), Milliampere()).value == 2500.0
    ensures ConvertTo(New(2.5, Ampere()), Kiloampere()).value == 0.0025
    ensures Add(New(2.5, Ampere()), New(500.0, Milliampere())).value == 3.0
    ensures Subtract(New(2.5, Ampere()), New(500.0, Milliampere())).value == 2.0
  {
  }
}
