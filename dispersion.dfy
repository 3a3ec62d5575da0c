/** The predefined dispersion units (dispersion.go); PartsPerMillion is the base unit. */
module Dispersion {
  import opened Results
  import opened JsonValue
  import opened Units
  import opened Quantities
  import Serialize
  import SerializeCompact

  /** A unit of this dimension, as built by NewBaseUnit("dispersion", ...). */
  function Make(symbol: string, name: string, coefficient: real, offset: real, isBase: bool): (u: Unit)
    ensures u.kind == DispersionUnit && u.base == BaseUnit("dispersion", symbol, name, coefficient, offset, isBase)
  {
    Unit(DispersionUnit, NewBaseUnit("dispersion", symbol, name, coefficient, offset, isBase))
  }

  function PartsPerMillion(): Unit { Make("ppm", "Parts per Million", 1.0, 0.0, true) }
  function PartsPerBillion(): Unit { Make("ppb", "Parts per Billion", 0.001, 0.0, false) }
  function PartsPerTrillion(): Unit { Make("ppt", "Parts per Trillion", 0.000001, 0.0, false) }
  function Percent(): Unit { Make("%", "Percent", 10000.0, 0.0, false) }

  /** The predefined units, in declaration order. */
  function All(): (r: seq<Unit>)
    ensures forall u | u in r :: u.kind == DispersionUnit && u.base.dimension == "dispersion"
    ensures PartsPerMillion() in r && PartsPerMillion().base.isBase
    ensures forall u | u in r && u.base.isBase :: u == PartsPerMillion()
    ensures forall u | u in r :: u.base.offset == 0.0 && u.base.coefficient > 0.0
  {
    [PartsPerMillion(), PartsPerBillion(), PartsPerTrillion(), Percent()]
  }

  /** The dispersion symbol registry (unit_registry.go:130-135): symbols and accepted aliases. */
  function Symbols(): map<string, Unit> {
    map[
      "ppm" := PartsPerMillion(),
      "ppb" := PartsPerBillion(),
      "ppt" := PartsPerTrillion(),
      "%" := Percent()
    ]
  }

  /** The registry finds each predefined unit under its own symbol. */
  lemma SymbolsFindAll()
    ensures forall u | u in All() :: u.base.symbol in Symbols() && Symbols()[u.base.symbol] == u
  {
    var m := Symbols();
    assert m[PartsPerMillion().base.symbol] == PartsPerMillion();
    assert m[PartsPerBillion().base.symbol] == PartsPerBillion();
    assert m[PartsPerTrillion().base.symbol] == PartsPerTrillion();
    assert m[Percent().base.symbol] == Percent();
  }

  /** The registry holds only predefined units. */
  lemma SymbolsHoldOnlyAll()
    ensures forall s | s in Symbols() :: Symbols()[s] in All()
  {
  }

  /** LookupDispersionUnit (unit_registry.go:284-287): the registered unit and true, or the zero unit and false. */
  function Lookup(symbol: string): (r: (Unit, bool))
    ensures r.1 <==> symbol in Symbols()
    ensures r.1 ==> r.0 == Symbols()[symbol] && r.0 in All()
    ensures !r.1 ==> r.0 == ZeroUnit(DispersionUnit)
  {
    SymbolsHoldOnlyAll();
    if symbol in Symbols() then (Symbols()[symbol], true) else (ZeroUnit(DispersionUnit), false)
  }

  /** Every predefined unit is found under its own symbol. */
  lemma LookupFindsAll()
    ensures forall u | u in All() :: Lookup(u.base.symbol) == (u, true)
  {
    SymbolsFindAll();
  }

  /** The cases of UnmarshalDispersion (serialize.go:1198-1205): accepted symbols, key name, unit. */
  function Cases(): seq<Serialize.Case>
  {
    [
      Serialize.Case(["ppm"], "parts_per_million", PartsPerMillion()),
      Serialize.Case(["ppb"], "parts_per_billion", PartsPerBillion()),
      Serialize.Case(["ppt"], "parts_per_trillion", PartsPerTrillion()),
      Serialize.Case(["%"], "percent", Percent())
    ]
  }

  lemma CasesHoldOnlyAll()
    ensures forall c | c in Cases() :: c.unit in All()
  {
  }

  /** UnmarshalDispersion (serialize.go:1186-1211): any of the three formats, unit chosen by the first matching case. */
  function Unmarshal(j: Json): (r: Result<Quantity>)
    ensures r.Ok? <==> Serialize.DecodeUnit("dispersion", "dispersion", Cases(), j).Ok?
    ensures r.Ok? ==> r.value.unit in All() && (r.value.value, r.value.unit) == Serialize.DecodeUnit("dispersion", "dispersion", Cases(), j).value
  {
    var d :- Serialize.DecodeUnit("dispersion", "dispersion", Cases(), j);
    CasesHoldOnlyAll();
    Ok(New(d.0, d.1))
  }

  /** The case that first lists each unit's symbol is that unit's own. */
  lemma PartsPerMillionListedFirst() ensures PartsPerMillion().base.symbol != "" && Serialize.FirstListing(Cases(), PartsPerMillion(), 0) {}
  lemma PartsPerBillionListedFirst() ensures PartsPerBillion().base.symbol != "" && Serialize.FirstListing(Cases(), PartsPerBillion(), 1) {}
  lemma PartsPerTrillionListedFirst() ensures PartsPerTrillion().base.symbol != "" && Serialize.FirstListing(Cases(), PartsPerTrillion(), 2) {}
  lemma PercentListedFirst() ensures Percent().base.symbol != "" && Serialize.FirstListing(Cases(), Percent(), 3) {}

  /** Each predefined unit has a symbol, and the first case listing it is its own. */
  lemma CasesListAll(u: Unit)
    requires u in All()
    ensures u.base.symbol != "" && exists i :: Serialize.FirstListing(Cases(), u, i)
  {
    if u == PartsPerMillion() { PartsPerMillionListedFirst(); }
    else if u == PartsPerBillion() { PartsPerBillionListedFirst(); }
    else if u == PartsPerTrillion() { PartsPerTrillionListedFirst(); }
    else if u == Percent() { PercentListedFirst(); }
  }

  /** A quantity in any predefined unit, written by marshalGeneric, is read back unchanged. */
  lemma UnmarshalRoundTrip(v: real, u: Unit)
    requires u in All()
    ensures Unmarshal(Serialize.MarshalGeneric(New(v, u))) == Ok(New(v, u))
  {
    CasesListAll(u);
    var i :| Serialize.FirstListing(Cases(), u, i);
    Serialize.DecodeMarshalledFull(New(v, u), "dispersion", "dispersion", Cases(), i);
  }

  /** The compact key table (serialize_compact.go:141-146). */
  function Keys(): map<string, Unit> {
    map[
      "dispersion_parts_per_million" := PartsPerMillion(),
      "dispersion_parts_per_billion" := PartsPerBillion(),
      "dispersion_parts_per_trillion" := PartsPerTrillion(),
      "dispersion_percent" := Percent()
    ]
  }

  /** The key table holds only predefined units. */
  lemma KeysHoldOnlyAll()
    ensures forall k | k in Keys() :: Keys()[k] in All()
  {
  }

  /** UnmarshalCompactDispersion (serialize_compact.go:554-564): the unit of the key in the table. */
  function UnmarshalCompact(j: Json): (r: Result<Quantity>)
    ensures r.Ok? <==> SerializeCompact.DecodeCompactUnit("dispersion", Keys(), j).Ok?
    ensures r.Ok? ==> r.value.unit in All() && (r.value.value, r.value.unit) == SerializeCompact.DecodeCompactUnit("dispersion", Keys(), j).value
  {
    var d :- SerializeCompact.DecodeCompactUnit("dispersion", Keys(), j);
    KeysHoldOnlyAll();
    Ok(New(d.0, d.1))
  }

  /** 100 ppm is 0.01 %, 100000 ppb and 1e8 ppt; 100 ppm + 0.005 % is 150 ppm. */
  lemma Examples()
    ensures ConvertTo(New(100.0, PartsPerMillion()), Percent()).value == 0.01
    ensures ConvertTo(New(100.0, PartsPerMillion()), PartsPerBillion()).value == 100000.0
    ensures ConvertTo(New(100.0, PartsPerMillion()), PartsPerTrillion()).value == 100000000.0
    ensures Add(New(100.0, PartsPerMillion()), New(0.005, Percent())).value == 150.0
  {
  }
}
