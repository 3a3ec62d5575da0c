/** The predefined power units (power.go); Watt is the base unit. */
module Power {
  import opened Results
  import opened JsonValue
  import opened Units
  import opened Quantities
  import Serialize
  import SerializeCompact

  /** A unit of this dimension, as built by NewBaseUnit("power", ...). */
  function Make(symbol: string, name: string, coefficient: real, offset: real, isBase: bool): (u: Unit)
    ensures u.kind == PowerUnit && u.base == BaseUnit("power", symbol, name, coefficient, offset, isBase)
  {
    Unit(PowerUnit, NewBaseUnit("power", symbol, name, coefficient, offset, isBase))
  }

  function Watt(): Unit { Make("W", "Watt", 1.0, 0.0, true) }
  function Kilowatt(): Unit { Make("kW", "Kilowatt", 1000.0, 0.0, false) }
  function BTUPerHour(): Unit { Make("BTU/h", "British Thermal Unit per Hour", 0.29307107, 0.0, false) }

  /** The predefined units, in declaration order. */
  function All(): (r: seq<Unit>)
    ensures forall u | u in r :: u.kind == PowerUnit && u.base.dimension == "power"
    ensures Watt() in r && Watt().base.isBase
    ensures forall u | u in r && u.base.isBase :: u == Watt()
    ensures forall u | u in r :: u.base.offset == 0.0 && u.base.coefficient > 0.0
  {
    [Watt(), Kilowatt(), BTUPerHour()]
  }

  /** The power symbol registry (unit_registry.go:31-35): symbols and accepted aliases. */
  function Symbols(): map<string, Unit> {
    map[
      "W" := Watt(),
      "kW" := Kilowatt(),
      "BTU/h" := BTUPerHour()
    ]
  }

  /** The registry finds each predefined unit under its own symbol. */
  lemma SymbolsFindAll()
    ensures forall u | u in All() :: u.base.symbol in Symbols() && Symbols()[u.base.symbol] == u
  {
    var m := Symbols();
    assert m[Watt().base.symbol] == Watt();
    assert m[Kilowatt().base.symbol] == Kilowatt();
    assert m[BTUPerHour().base.symbol] == BTUPerHour();
  }

  /** The registry holds only predefined units. */
  lemma SymbolsHoldOnlyAll()
    ensures forall s | s in Symbols() :: Symbols()[s] in All()
  {
  }

  /** LookupPowerUnit (unit_registry.go:224-227): the registered unit and true, or the zero unit and false. */
  function Lookup(symbol: string): (r: (Unit, bool))
    ensures r.1 <==> symbol in Symbols()
    ensures r.1 ==> r.0 == Symbols()[symbol] && r.0 in All()
    ensures !r.1 ==> r.0 == ZeroUnit(PowerUnit)
  {
    SymbolsHoldOnlyAll();
    if symbol in Symbols() then (Symbols()[symbol], true) else (ZeroUnit(PowerUnit), false)
  }

  /** Every predefined unit is found under its own symbol. */
  lemma LookupFindsAll()
    ensures forall u | u in All() :: Lookup(u.base.symbol) == (u, true)
  {
    SymbolsFindAll();
  }

  /** The cases of UnmarshalPower (serialize.go:810-815): accepted symbols, key name, unit. */
  function Cases(): seq<Serialize.Case>
  {
    [
      Serialize.Case(["W"], "watt", Watt()),
      Serialize.Case(["kW"], "kilowatt", Kilowatt()),
      Serialize.Case(["BTU/h"], "btu_per_hour", BTUPerHour())
    ]
  }

  lemma CasesHoldOnlyAll()
    ensures forall c | c in Cases() :: c.unit in All()
  {
  }

  /** UnmarshalPower (serialize.go:798-821): any of the three formats, unit chosen by the first matching case. */
  function Unmarshal(j: Json): (r: Result<Quantity>)
    ensures r.Ok? <==> Serialize.DecodeUnit("power", "power", Cases(), j).Ok?
    ensures r.Ok? ==> r.value.unit in All() && (r.value.value, r.value.unit) == Serialize.DecodeUnit("power", "power", Cases(), j).value
  {
    var d :- Serialize.DecodeUnit("power", "power", Cases(), j);
    CasesHoldOnlyAll();
    Ok(New(d.0, d.1))
  }

  /** The case that first lists each unit's symbol is that unit's own. */
  lemma WattListedFirst() ensures Watt().base.symbol != "" && Serialize.FirstListing(Cases(), Watt(), 0) {}
  lemma KilowattListedFirst() ensures Kilowatt().base.symbol != "" && Serialize.FirstListing(Cases(), Kilowatt(), 1) {}
  lemma BTUPerHourListedFirst() ensures BTUPerHour().base.symbol != "" && Serialize.FirstListing(Cases(), BTUPerHour(), 2) {}

  /** Each predefined unit has a symbol, and the first case listing it is its own. */
  lemma CasesListAll(u: Unit)
    requires u in All()
    ensures u.base.symbol != "" && exists i :: Serialize.FirstListing(Cases(), u, i)
  {
    if u == Watt() { WattListedFirst(); }
    else if u == Kilowatt() { KilowattListedFirst(); }
    else if u == BTUPerHour() { BTUPerHourListedFirst(); }
  }

  /** A quantity in any predefined unit, written by marshalGeneric, is read back unchanged. */
  lemma UnmarshalRoundTrip(v: real, u: Unit)
    requires u in All()
    ensures Unmarshal(Serialize.MarshalGeneric(New(v, u))) == Ok(New(v, u))
  {
    CasesListAll(u);
    var i :| Serialize.FirstListing(Cases(), u, i);
    Serialize.DecodeMarshalledFull(New(v, u), "power", "power", Cases(), i);
  }

  /** The compact key table (serialize_compact.go:122-126). */
  function Keys(): map<string, Unit> {
    map[
      "power_watt" := Watt(),
      "power_kilowatt" := Kilowatt(),
      "power_b_t_u_per_hour" := BTUPerHour()
    ]
  }

  /** The key table holds only predefined units. */
  lemma KeysHoldOnlyAll()
    ensures forall k | k in Keys() :: Keys()[k] in All()
  {
  }

  /** UnmarshalCompactPower (serialize_compact.go:485-495): the unit of the key in the table. */
  function UnmarshalCompact(j: Json): (r: Result<Quantity>)
    ensures r.Ok? <==> SerializeCompact.DecodeCompactUnit("power", Keys(), j).Ok?
    ensures r.Ok? ==> r.value.unit in All() && (r.value.value, r.value.unit) == SerializeCompact.DecodeCompactUnit("power", Keys(), j).value
  {
    var d :- SerializeCompact.DecodeCompactUnit("power", Keys(), j);
    KeysHoldOnlyAll();
    Ok(New(d.0, d.1))
  }

  /** 1000 W is 1 kW; 1 BTU/h is 0.29307107 W. */
  lemma Examples()
    ensures ConvertTo(New(1000.0, Watt()), Kilowatt()).value == 1.0
    ensures ConvertTo(New(1.0, BTUPerHour()), Watt()).value == 0.29307107
  {
  }
}
