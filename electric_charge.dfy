/** The predefined electric charge units (electric_charge.go); Coulomb is the base unit. */
module ElectricCharge {
  import opened Results
  import opened JsonValue
  import opened Units
  import opened Quantities
  import Serialize
  import SerializeCompact

  /** A unit of this dimension, as built by NewBaseUnit("electric_charge", ...). */
  function Make(symbol: string, name: string, coefficient: real, offset: real, isBase: bool): (u: Unit)
    ensures u.kind == ElectricChargeUnit && u.base == BaseUnit("electric_charge", symbol, name, coefficient, offset, isBase)
  {
    Unit(ElectricChargeUnit, NewBaseUnit("electric_charge", symbol, name, coefficient, offset, isBase))
  }

  function Coulomb(): Unit { Make("C", "Coulomb", 1.0, 0.0, true) }
  function Millicoulomb(): Unit { Make("mC", "Millicoulomb", 0.001, 0.0, false) }
  function Microcoulomb(): Unit { Make("µC", "Microcoulomb", 0.000001, 0.0, false) }
  function Ampere_Hour(): Unit { Make("Ah", "Ampere-hour", 3600.0, 0.0, false) }
  function Milliampere_Hour(): Unit { Make("mAh", "Milliampere-hour", 3.6, 0.0, false) }

  /** The predefined units, in declaration order. */
  function All(): (r: seq<Unit>)
    ensures forall u | u in r :: u.kind == ElectricChargeUnit && u.base.dimension == "electric_charge"
    ensures Coulomb() in r && Coulomb().base.isBase
    ensures forall u | u in r && u.base.isBase :: u == Coulomb()
    ensures forall u | u in r :: u.base.offset == 0.0 && u.base.coefficient > 0.0
  {
    [Coulomb(), Millicoulomb(), Microcoulomb(), Ampere_Hour(), Milliampere_Hour()]
  }

  /** The electric charge symbol registry (unit_registry.go:145-151): symbols and accepted aliases. */
  function Symbols(): map<string, Unit> {
    map[
      "C" := Coulomb(),
      "mC" := Millicoulomb(),
      "µC" := Microcoulomb(),
      "Ah" := Ampere_Hour(),
      "mAh" := Milliampere_Hour()
    ]
  }

  /** The registry finds each predefined unit under its own symbol. */
  lemma SymbolsFindAll()
    ensures forall u | u in All() :: u.base.symbol in Symbols() && Symbols()[u.base.symbol] == u
  {
    var m := Symbols();
    assert m[Coulomb().base.symbol] == Coulomb();
    assert m[Millicoulomb().base.symbol] == Millicoulomb();
    assert m[Microcoulomb().base.symbol] == Microcoulomb();
    assert m[Ampere_Hour().base.symbol] == Ampere_Hour();
    assert m[Milliampere_Hour().base.symbol] == Milliampere_Hour();
  }

  /** The registry holds only predefined units. */
  lemma SymbolsHoldOnlyAll()
    ensures forall s | s in Symbols() :: Symbols()[s] in All()
  {
  }

  /** LookupElectricChargeUnit (unit_registry.go:296-299): the registered unit and true, or the zero unit and false. */
  function Lookup(symbol: string): (r: (Unit, bool))
    ensures r.1 <==> symbol in Symbols()
    ensures r.1 ==> r.0 == Symbols()[symbol] && r.0 in All()
    ensures !r.1 ==> r.0 == ZeroUnit(ElectricChargeUnit)
  {
    SymbolsHoldOnlyAll();
    if symbol in Symbols() then (Symbols()[symbol], true) else (ZeroUnit(ElectricChargeUnit), false)
  }

  /** Every predefined unit is found under its own symbol. */
  lemma LookupFindsAll()
    ensures forall u | u in All() :: Lookup(u.base.symbol) == (u, true)
  {
    SymbolsFindAll();
  }

  /** The cases of UnmarshalElectricCharge (serialize.go:1231-1240): accepted symbols, key name, unit. */
  function Cases(): seq<Serialize.Case>
  {
    [
      Serialize.Case(["C"], "coulomb", Coulomb()),
      Serialize.Case(["mC"], "millicoulomb", Millicoulomb()),
      Serialize.Case(["µC"], "microcoulomb", Microcoulomb()),
      Serialize.Case(["Ah"], "ampere_hour", Ampere_Hour()),
      Serialize.Case(["mAh"], "milliampere_hour", Milliampere_Hour())
    ]
  }

  lemma CasesHoldOnlyAll()
    ensures forall c | c in Cases() :: c.unit in All()
  {
  }

  /** UnmarshalElectricCharge (serialize.go:1219-1246): any of the three formats, unit chosen by the first matching case. */
  function Unmarshal(j: Json): (r: Result<Quantity>)
    ensures r.Ok? <==> Serialize.DecodeUnit("electric_charge", "electric charge", Cases(), j).Ok?
    ensures r.Ok? ==> r.value.unit in All() && (r.value.value, r.value.unit) == Serialize.DecodeUnit("electric_charge", "electric charge", Cases(), j).value
  {
    var d :- Serialize.DecodeUnit("electric_charge", "electric charge", Cases(), j);
    CasesHoldOnlyAll();
    Ok(New(d.0, d.1))
  }

  /** The case that first lists each unit's symbol is that unit's own. */
  lemma CoulombListedFirst() ensures Coulomb().base.symbol != "" && Serialize.FirstListing(Cases(), Coulomb(), 0) {}
  lemma MillicoulombListedFirst() ensures Millicoulomb().base.symbol != "" && Serialize.FirstListing(Cases(), Millicoulomb(), 1) {}
  lemma MicrocoulombListedFirst() ensures Microcoulomb().base.symbol != "" && Serialize.FirstListing(Cases(), Microcoulomb(), 2) {}
  lemma Ampere_HourListedFirst() ensures Ampere_Hour().base.symbol != "" && Serialize.FirstListing(Cases(), Ampere_Hour(), 3) {}
  lemma Milliampere_HourListedFirst() ensures Milliampere_Hour().base.symbol != "" && Serialize.FirstListing(Cases(), Milliampere_Hour(), 4) {}

  /** Each predefined unit has a symbol, and the first case listing it is its own. */
  lemma CasesListAll(u: Unit)
    requires u in All()
    ensures u.base.symbol != "" && exists i :: Serialize.FirstListing(Cases(), u, i)
  {
    if u == Coulomb() { CoulombListedFirst(); }
    else if u == Millicoulomb() { MillicoulombListedFirst(); }
    else if u == Microcoulomb() { MicrocoulombListedFirst(); }
    else if u == Ampere_Hour() { Ampere_HourListedFirst(); }
    else if u == Milliampere_Hour() { Milliampere_HourListedFirst(); }
  }

  /** A quantity in any predefined unit, written by marshalGeneric, is read back unchanged. */
  lemma UnmarshalRoundTrip(v: real, u: Unit)
    requires u in All()
    ensures Unmarshal(Serialize.MarshalGeneric(New(v, u))) == Ok(New(v, u))
  {
    CasesListAll(u);
    var i :| Serialize.FirstListing(Cases(), u, i);
    Serialize.DecodeMarshalledFull(New(v, u), "electric_charge", "electric charge", Cases(), i);
  }

  /** The compact key table (serialize_compact.go:148-154). */
  function Keys(): map<string, Unit> {
    map[
      "electric_charge_coulomb" := Coulomb(),
      "electric_charge_millicoulomb" := Millicoulomb(),
      "electric_charge_microcoulomb" := Microcoulomb(),
      "electric_charge_ampere__hour" := Ampere_Hour(),
      "electric_charge_milliampere__hour" := Milliampere_Hour()
    ]
  }

  /** The key table holds only predefined units. */
  lemma KeysHoldOnlyAll()
    ensures forall k | k in Keys() :: Keys()[k] in All()
  {
  }

  /** UnmarshalCompactElectricCharge (serialize_compact.go:577-587): the unit of the key in the table. */
  function UnmarshalCompact(j: Json): (r: Result<Quantity>)
    ensures r.Ok? <==> SerializeCompact.DecodeCompactUnit("electric_charge", Keys(), j).Ok?
    ensures r.Ok? ==> r.value.unit in All() && (r.value.value, r.value.unit) == SerializeCompact.DecodeCompactUnit("electric_charge", Keys(), j).value
  {
    var d :- SerializeCompact.DecodeCompactUnit("electric_charge", Keys(), j);
    KeysHoldOnlyAll();
    Ok(New(d.0, d.1))
  }

  /** 1000 C + 1 Ah is 4600 C, 1000 C - 1 Ah is -2600 C, and 1000 C is 2500/9 mAh (about 277.78). */
  lemma Examples()
    ensures Add(New(1000.0, Coulomb()), New(1.0, Ampere_Hour())).value == 4600.0
    ensures Subtract(New(1000.0, Coulomb()), New(1.0, Ampere_Hour())).value == -2600.0
    ensures ConvertTo(New(1000.0, Coulomb()), Milliampere_Hour()).value == 2500.0 / 9.0
  {
  }
}
