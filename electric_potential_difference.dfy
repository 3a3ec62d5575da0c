/** The predefined electric potential difference units (electric_potential_difference.go); Volt is the base unit. */
module ElectricPotentialDifference {
  import opened Results
  import opened JsonValue
  import opened Units
  import opened Quantities
  import Serialize
  import SerializeCompact

  /** A unit of this dimension, as built by NewBaseUnit("electric_potential_difference", ...). */
  function Make(symbol: string, name: string, coefficient: real, offset: real, isBase: bool): (u: Unit)
    ensures u.kind == ElectricPotentialDifferenceUnit && u.base == BaseUnit("electric_potential_difference", symbol, name, coefficient, offset, isBase)
  {
    Unit(ElectricPotentialDifferenceUnit, NewBaseUnit("electric_potential_difference", symbol, name, coefficient, offset, isBase))
  }

  function Volt(): Unit { Make("V", "Volt", 1.0, 0.0, true) }
  function Millivolt(): Unit { Make("mV", "Millivolt", 0.001, 0.0, false) }
  function Microvolt(): Unit { Make("µV", "Microvolt", 0.000001, 0.0, false) }
  function Kilovolt(): Unit { Make("kV", "Kilovolt", 1000.0, 0.0, false) }
  function Megavolt(): Unit { Make("MV", "Megavolt", 1000000.0, 0.0, false) }

  /** The predefined units, in declaration order. */
  function All(): (r: seq<Unit>)
    ensures forall u | u in r :: u.kind == ElectricPotentialDifferenceUnit && u.base.dimension == "electric_potential_difference"
    ensures Volt() in r && Volt().base.isBase
    ensures forall u | u in r && u.base.isBase :: u == Volt()
    ensures forall u | u in r :: u.base.offset == 0.0 && u.base.coefficient > 0.0
  {
    [Volt(), Millivolt(), Microvolt(), Kilovolt(), Megavolt()]
  }

  /** The electric potential difference symbol registry (unit_registry.go:160-166): symbols and accepted aliases. */
  function Symbols(): map<string, Unit> {
    map[
      "V" := Volt(),
      "mV" := Millivolt(),
      "µV" := Microvolt(),
      "kV" := Kilovolt(),
      "MV" := Megavolt()
    ]
  }

  /** The registry finds each predefined unit under its own symbol. */
  lemma SymbolsFindAll()
    ensures forall u | u in All() :: u.base.symbol in Symbols() && Symbols()[u.base.symbol] == u
  {
    var m := Symbols();
    assert m[Volt().base.symbol] == Volt();
    assert m[Millivolt().base.symbol] == Millivolt();
    assert m[Microvolt().base.symbol] == Microvolt();
    assert m[Kilovolt().base.symbol] == Kilovolt();
    assert m[Megavolt().base.symbol] == Megavolt();
  }

  /** The registry holds only predefined units. */
  lemma SymbolsHoldOnlyAll()
    ensures forall s | s in Symbols() :: Symbols()[s] in All()
  {
  }

  /** LookupElectricPotentialDifferenceUnit (unit_registry.go:308-311): the registered unit and true, or the zero unit and false. */
  function Lookup(symbol: string): (r: (Unit, bool))
    ensures r.1 <==> symbol in Symbols()
    ensures r.1 ==> r.0 == Symbols()[symbol] && r.0 in All()
    ensures !r.1 ==> r.0 == ZeroUnit(ElectricPotentialDifferenceUnit)
  {
    SymbolsHoldOnlyAll();
    if symbol in Symbols() then (Symbols()[symbol], true) else (ZeroUnit(ElectricPotentialDifferenceUnit), false)
  }

  /** Every predefined unit is found under its own symbol. */
  lemma LookupFindsAll()
    ensures forall u | u in All() :: Lookup(u.base.symbol) == (u, true)
  {
    SymbolsFindAll();
  }

  /** The cases of UnmarshalElectricPotentialDifference (serialize.go:1334-1343): accepted symbols, key name, unit. */
  function Cases(): seq<Serialize.Case>
  {
    [
      Serialize.Case(["V"], "volt", Volt()),
      Serialize.Case(["mV"], "millivolt", Millivolt()),
      Serialize.Case(["µV"], "microvolt", Microvolt()),
      Serialize.Case(["kV"], "kilovolt", Kilovolt()),
      Serialize.Case(["MV"], "megavolt", Megavolt())
    ]
  }

  lemma CasesHoldOnlyAll()
    ensures forall c | c in Cases() :: c.unit in All()
  {
  }

  /** UnmarshalElectricPotentialDifference (serialize.go:1322-1349): any of the three formats, unit chosen by the first matching case. */
  function Unmarshal(j: Json): (r: Result<Quantity>)
    ensures r.Ok? <==> Serialize.DecodeUnit("electric_potential_difference", "electric potential difference", Cases(), j).Ok?
    ensures r.Ok? ==> r.value.unit in All() && (r.value.value, r.value.unit) == Serialize.DecodeUnit("electric_potential_difference", "electric potential difference", Cases(), j).value
  {
    var d :- Serialize.DecodeUnit("electric_potential_difference", "electric potential difference", Cases(), j);
    CasesHoldOnlyAll();
    Ok(New(d.0, d.1))
  }

  /** The case that first lists each unit's symbol is that unit's own. */
  lemma VoltListedFirst() ensures Volt().base.symbol != "" && Serialize.FirstListing(Cases(), Volt(), 0) {}
  lemma MillivoltListedFirst() ensures Millivolt().base.symbol != "" && Serialize.FirstListing(Cases(), Millivolt(), 1) {}
  lemma MicrovoltListedFirst() ensures Microvolt().base.symbol != "" && Serialize.FirstListing(Cases(), Microvolt(), 2) {}
  lemma KilovoltListedFirst() ensures Kilovolt().base.symbol != "" && Serialize.FirstListing(Cases(), Kilovolt(), 3) {}
  lemma MegavoltListedFirst() ensures Megavolt().base.symbol != "" && Serialize.FirstListing(Cases(), Megavolt(), 4) {}

  /** Each predefined unit has a symbol, and the first case listing it is its own. */
  lemma CasesListAll(u: Unit)
    requires u in All()
    ensures u.base.symbol != "" && exists i :: Serialize.FirstListing(Cases(), u, i)
  {
    if u == Volt() { VoltListedFirst(); }
    else if u == Millivolt() { MillivoltListedFirst(); }
    else if u == Microvolt() { MicrovoltListedFirst(); }
    else if u == Kilovolt() { KilovoltListedFirst(); }
    else if u == Megavolt() { MegavoltListedFirst(); }
  }

  /** A quantity in any predefined unit, written by marshalGeneric, is read back unchanged. */
  lemma UnmarshalRoundTrip(v: real, u: Unit)
    requires u in All()
    ensures Unmarshal(Serialize.MarshalGeneric(New(v, u))) == Ok(New(v, u))
  {
    CasesListAll(u);
    var i :| Serialize.FirstListing(Cases(), u, i);
    Serialize.DecodeMarshalledFull(New(v, u), "electric_potential_difference", "electric potential difference", Cases(), i);
  }

  /** The compact key table (serialize_compact.go:163-169). */
  function Keys(): map<string, Unit> {
    map[
      "electric_potential_difference_volt" := Volt(),
      "electric_potential_difference_millivolt" := Millivolt(),
      "electric_potential_difference_microvolt" := Microvolt(),
      "electric_potential_difference_kilovolt" := Kilovolt(),
      "electric_potential_difference_megavolt" := Megavolt()
    ]
  }

  /** The key table holds only predefined units. */
  lemma KeysHoldOnlyAll()
    ensures forall k | k in Keys() :: Keys()[k] in All()
  {
  }

  /** UnmarshalCompactElectricPotentialDifference (serialize_compact.go:623-633): the unit of the key in the table. */
  function UnmarshalCompact(j: Json): (r: Result<Quantity>)
    ensures r.Ok? <==> SerializeCompact.DecodeCompactUnit("electric_potential_difference", Keys(), j).Ok?
    ensures r.Ok? ==> r.value.unit in All() && (r.value.value, r.value.unit) == SerializeCompact.DecodeCompactUnit("electric_potential_difference", Keys(), j).value
  {
    var d :- SerializeCompact.DecodeCompactUnit("electric_potential_difference", Keys(), j);
    KeysHoldOnlyAll();
    Ok(New(d.0, d.1))
  }

  /** 5 V is 5000 mV; 5 V + 500 mV is 5.5 V and 5 V - 500 mV is 4.5 V; "mV" and "MV" are different units. */
  lemma Examples()
    ensures ConvertTo(New(5.0, Volt()), Millivolt()).value == 5000.0
    ensures Add(New(5.0, Volt()), New(500.0, Millivolt())).value == 5.5
    ensures Subtract(New(5.0, Volt()), New(500.0, Millivolt())).value == 4.5
    ensures !Units.Equals(Millivolt().base, Megavolt().base)
  {
  }
}
