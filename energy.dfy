/** The predefined energy units (energy.go); Joule is the base unit. */
module Energy {
  import opened Results
  import opened JsonValue
  import opened Units
  import opened Quantities
  import Serialize
  import SerializeCompact

  /** A unit of this dimension, as built by NewBaseUnit("energy", ...). */
  function Make(symbol: string, name: string, coefficient: real, offset: real, isBase: bool): (u: Unit)
    ensures u.kind == EnergyUnit && u.base == BaseUnit("energy", symbol, name, coefficient, offset, isBase)
  {
    Unit(EnergyUnit, NewBaseUnit("energy", symbol, name, coefficient, offset, isBase))
  }

  function Joule(): Unit { Make("J", "Joule", 1.0, 0.0, true) }
  function KilowattHour(): Unit { Make("kWh", "Kilowatt-hour", 3600000.0, 0.0, false) }
  function BTU(): Unit { Make("BTU", "British Thermal Unit", 1055.06, 0.0, false) }

  /** The predefined units, in declaration order. */
  function All(): (r: seq<Unit>)
    ensures forall u | u in r :: u.kind == EnergyUnit && u.base.dimension == "energy"
    ensures Joule() in r && Joule().base.isBase
    ensures forall u | u in r && u.base.isBase :: u == Joule()
    ensures forall u | u in r :: u.base.offset == 0.0 && u.base.coefficient > 0.0
  {
    [Joule(), KilowattHour(), BTU()]
  }

  /** The energy symbol registry (unit_registry.go:37-41): symbols and accepted aliases. */
  function Symbols(): map<string, Unit> {
    map[
      "J" := Joule(),
      "kWh" := KilowattHour(),
      "BTU" := BTU()
    ]
  }

  /** The registry finds each predefined unit under its own symbol. */
  lemma SymbolsFindAll()
    ensures forall u | u in All() :: u.base.symbol in Symbols() && Symbols()[u.base.symbol] == u
  {
    var m := Symbols();
    assert m[Joule().base.symbol] == Joule();
    assert m[KilowattHour().base.symbol] == KilowattHour();
    assert m[BTU().base.symbol] == BTU();
  }

  /** The registry holds only predefined units. */
  lemma SymbolsHoldOnlyAll()
    ensures forall s | s in Symbols() :: Symbols()[s] in All()
  {
  }

  /** LookupEnergyUnit (unit_registry.go:230-233): the registered unit and true, or the zero unit and false. */
  function Lookup(symbol: string): (r: (Unit, bool))
    ensures r.1 <==> symbol in Symbols()
    ensures r.1 ==> r.0 == Symbols()[symbol] && r.0 in All()
    ensures !r.1 ==> r.0 == ZeroUnit(EnergyUnit)
  {
    SymbolsHoldOnlyAll();
    if symbol in Symbols() then (Symbols()[symbol], true) else (ZeroUnit(EnergyUnit), false)
  }

  /** Every predefined unit is found under its own symbol. */
  lemma LookupFindsAll()
    ensures forall u | u in All() :: Lookup(u.base.symbol) == (u, true)
  {
    SymbolsFindAll();
  }

  /** The cases of UnmarshalEnergy (serialize.go:841-846): accepted symbols, key name, unit. */
  function Cases(): seq<Serialize.Case>
  {
    [
      Serialize.Case(["J"], "joule", Joule()),
      Serialize.Case(["kWh"], "kilowatt_hour", KilowattHour()),
      Serialize.Case(["BTU"], "btu", BTU())
    ]
  }

  lemma CasesHoldOnlyAll()
    ensures forall c | c in Cases() :: c.unit in All()
  {
  }

  /** UnmarshalEnergy (serialize.go:829-852): any of the three formats, unit chosen by the first matching case. */
  function Unmarshal(j: Json): (r: Result<Quantity>)
    ensures r.Ok? <==> Serialize.DecodeUnit("energy", "energy", Cases(), j).Ok?
    ensures r.Ok? ==> r.value.unit in All() && (r.value.value, r.value.unit) == Serialize.DecodeUnit("energy", "energy", Cases(), j).value
  {
    var d :- Serialize.DecodeUnit("energy", "energy", Cases(), j);
    CasesHoldOnlyAll();
    Ok(New(d.0, d.1))
  }

  /** The case that first lists each unit's symbol is that unit's own. */
  lemma JouleListedFirst() ensures Joule().base.symbol != "" && Serialize.FirstListing(Cases(), Joule(), 0) {}
  lemma KilowattHourListedFirst() ensures KilowattHour().base.symbol != "" && Serialize.FirstListing(Cases(), KilowattHour(), 1) {}
  lemma BTUListedFirst() ensures BTU().base.symbol != "" && Serialize.FirstListing(Cases(), BTU(), 2) {}

  /** Each predefined unit has a symbol, and the first case listing it is its own. */
  lemma CasesListAll(u: Unit)
    requires u in All()
    ensures u.base.symbol != "" && exists i :: Serialize.FirstListing(Cases(), u, i)
  {
    if u == Joule() { JouleListedFirst(); }
    else if u == KilowattHour() { KilowattHourListedFirst(); }
    else if u == BTU() { BTUListedFirst(); }
  }

  /** A quantity in any predefined unit, written by marshalGeneric, is read back unchanged. */
  lemma UnmarshalRoundTrip(v: real, u: Unit)
    requires u in All()
    ensures Unmarshal(Serialize.MarshalGeneric(New(v, u))) == Ok(New(v, u))
  {
    CasesListAll(u);
    var i :| Serialize.FirstListing(Cases(), u, i);
    Serialize.DecodeMarshalledFull(New(v, u), "energy", "energy", Cases(), i);
  }

  /** The compact key table (serialize_compact.go:128-132). */
  function Keys(): map<string, Unit> {
    map[
      "energy_joule" := Joule(),
      "energy_kilowatt_hour" := KilowattHour(),
      "energy_b_t_u" := BTU()
    ]
  }

  /** The key table holds only predefined units. */
  lemma KeysHoldOnlyAll()
    ensures forall k | k in Keys() :: Keys()[k] in All()
  {
  }

  /** UnmarshalCompactEnergy (serialize_compact.go:508-518): the unit of the key in the table. */
  function UnmarshalCompact(j: Json): (r: Result<Quantity>)
    ensures r.Ok? <==> SerializeCompact.DecodeCompactUnit("energy", Keys(), j).Ok?
    ensures r.Ok? ==> r.value.unit in All() && (r.value.value, r.value.unit) == SerializeCompact.DecodeCompactUnit("energy", Keys(), j).value
  {
    var d :- SerializeCompact.DecodeCompactUnit("energy", Keys(), j);
    KeysHoldOnlyAll();
    Ok(New(d.0, d.1))
  }

  /** 3600000 J is 1 kWh; 1 BTU is 1055.06 J. */
  lemma Examples()
    ensures ConvertTo(New(3600000.0, Joule()), KilowattHour()).value == 1.0
    ensures ConvertTo(New(1.0, BTU()), Joule()).value == 1055.06
  {
  }
}
