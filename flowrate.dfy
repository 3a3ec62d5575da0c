/** The predefined flowrate units (flowrate.go); CubicMetersPerHour is the base unit. */
module FlowRate {
  import opened Results
  import opened JsonValue
  import opened Units
  import opened Quantities
  import Serialize
  import SerializeCompact

  /** A unit of this dimension, as built by NewBaseUnit("flowrate", ...). */
  function Make(symbol: string, name: string, coefficient: real, offset: real, isBase: bool): (u: Unit)
    ensures u.kind == FlowRateUnit && u.base == BaseUnit("flowrate", symbol, name, coefficient, offset, isBase)
  {
    Unit(FlowRateUnit, NewBaseUnit("flowrate", symbol, name, coefficient, offset, isBase))
  }

  function CubicMetersPerHour(): Unit { Make("m³/h", "Cubic Meters per Hour", 1.0, 0.0, true) }
  function LitersPerSecond(): Unit { Make("L/s", "Liters per Second", 3.6, 0.0, false) }
  function CFM(): Unit { Make("CFM", "Cubic Feet per Minute", 1.699, 0.0, false) }

  /** The predefined units, in declaration order. */
  function All(): (r: seq<Unit>)
    ensures forall u | u in r :: u.kind == FlowRateUnit && u.base.dimension == "flowrate"
    ensures CubicMetersPerHour() in r && CubicMetersPerHour().base.isBase
    ensures forall u | u in r && u.base.isBase :: u == CubicMetersPerHour()
    ensures forall u | u in r :: u.base.offset == 0.0 && u.base.coefficient > 0.0
  {
    [CubicMetersPerHour(), LitersPerSecond(), CFM()]
  }

  /** The flowrate symbol registry (unit_registry.go:25-29): symbols and accepted aliases. */
  function Symbols(): map<string, Unit> {
    map[
      "m³/h" := CubicMetersPerHour(),
      "L/s" := LitersPerSecond(),
      "CFM" := CFM()
    ]
  }

  /** The registry finds each predefined unit under its own symbol. */
  lemma SymbolsFindAll()
    ensures forall u | u in All() :: u.base.symbol in Symbols() && Symbols()[u.base.symbol] == u
  {
    var m := Symbols();
    assert m[CubicMetersPerHour().base.symbol] == CubicMetersPerHour();
    assert m[LitersPerSecond().base.symbol] == LitersPerSecond();
    assert m[CFM().base.symbol] == CFM();
  }

  /** The registry holds only predefined units. */
  lemma SymbolsHoldOnlyAll()
    ensures forall s | s in Symbols() :: Symbols()[s] in All()
  {
  }

  /** LookupFlowRateUnit (unit_registry.go:218-221): the registered unit and true, or the zero unit and false. */
  function Lookup(symbol: string): (r: (Unit, bool))
    ensures r.1 <==> symbol in Symbols()
    ensures r.1 ==> r.0 == Symbols()[symbol] && r.0 in All()
    ensures !r.1 ==> r.0 == ZeroUnit(FlowRateUnit)
  {
    SymbolsHoldOnlyAll();
    if symbol in Symbols() then (Symbols()[symbol], true) else (ZeroUnit(FlowRateUnit), false)
  }

  /** Every predefined unit is found under its own symbol. */
  lemma LookupFindsAll()
    ensures forall u | u in All() :: Lookup(u.base.symbol) == (u, true)
  {
    SymbolsFindAll();
  }

  /** The cases of UnmarshalFlowRate (serialize.go:779-784): accepted symbols, key name, unit. */
  function Cases(): seq<Serialize.Case>
  {
    [
      Serialize.Case(["m³/h"], "cubic_meters_per_hour", CubicMetersPerHour()),
      Serialize.Case(["L/s"], "liters_per_second", LitersPerSecond()),
      Serialize.Case(["CFM"], "cfm", CFM())
    ]
  }

  lemma CasesHoldOnlyAll()
    ensures forall c | c in Cases() :: c.unit in All()
  {
  }

  /** UnmarshalFlowRate (serialize.go:767-790): any of the three formats, unit chosen by the first matching case. */
  function Unmarshal(j: Json): (r: Result<Quantity>)
    ensures r.Ok? <==> Serialize.DecodeUnit("flowrate", "flowrate", Cases(), j).Ok?
    ensures r.Ok? ==> r.value.unit in All() && (r.value.value, r.value.unit) == Serialize.DecodeUnit("flowrate", "flowrate", Cases(), j).value
  {
    var d :- Serialize.DecodeUnit("flowrate", "flowrate", Cases(), j);
    CasesHoldOnlyAll();
    Ok(New(d.0, d.1))
  }

  /** The case that first lists each unit's symbol is that unit's own. */
  lemma CubicMetersPerHourListedFirst() ensures CubicMetersPerHour().base.symbol != "" && Serialize.FirstListing(Cases(), CubicMetersPerHour(), 0) {}
  lemma LitersPerSecondListedFirst() ensures LitersPerSecond().base.symbol != "" && Serialize.FirstListing(Cases(), LitersPerSecond(), 1) {}
  lemma CFMListedFirst() ensures CFM().base.symbol != "" && Serialize.FirstListing(Cases(), CFM(), 2) {}

  /** Each predefined unit has a symbol, and the first case listing it is its own. */
  lemma CasesListAll(u: Unit)
    requires u in All()
    ensures u.base.symbol != "" && exists i :: Serialize.FirstListing(Cases(), u, i)
  {
    if u == CubicMetersPerHour() { CubicMetersPerHourListedFirst(); }
    else if u == LitersPerSecond() { LitersPerSecondListedFirst(); }
    else if u == CFM() { CFMListedFirst(); }
  }

  /** A quantity in any predefined unit, written by marshalGeneric, is read back unchanged. */
  lemma UnmarshalRoundTrip(v: real, u: Unit)
    requires u in All()
    ensures Unmarshal(Serialize.MarshalGeneric(New(v, u))) == Ok(New(v, u))
  {
    CasesListAll(u);
    var i :| Serialize.FirstListing(Cases(), u, i);
    Serialize.DecodeMarshalledFull(New(v, u), "flowrate", "flowrate", Cases(), i);
  }

  /** The compact key table (serialize_compact.go:116-120). */
  function Keys(): map<string, Unit> {
    map[
      "flowrate_cubic_meters_per_hour" := CubicMetersPerHour(),
      "flowrate_liters_per_second" := LitersPerSecond(),
      "flowrate_c_f_m" := CFM()
    ]
  }

  /** The key table holds only predefined units. */
  lemma KeysHoldOnlyAll()
    ensures forall k | k in Keys() :: Keys()[k] in All()
  {
  }

  /** UnmarshalCompactFlowRate (serialize_compact.go:462-472): the unit of the key in the table. */
  function UnmarshalCompact(j: Json): (r: Result<Quantity>)
    ensures r.Ok? <==> SerializeCompact.DecodeCompactUnit("flowrate", Keys(), j).Ok?
    ensures r.Ok? ==> r.value.unit in All() && (r.value.value, r.value.unit) == SerializeCompact.DecodeCompactUnit("flowrate", Keys(), j).value
  {
    var d :- SerializeCompact.DecodeCompactUnit("flowrate", Keys(), j);
    KeysHoldOnlyAll();
    Ok(New(d.0, d.1))
  }

  /** 1 L/s is 3.6 m³/h; 1 CFM is 1.699 m³/h. */
  lemma Examples()
    ensures ConvertTo(New(1.0, LitersPerSecond()), CubicMetersPerHour()).value == 3.6
    ensures ConvertTo(New(1.0, CFM()), CubicMetersPerHour()).value == 1.699
  {
  }
}
