/** The predefined concentration units (concentration.go); GramsPerLiter is the base unit. */
module Concentration {
  import opened Results
  import opened JsonValue
  import opened Units
  import opened Quantities
  import Serialize
  import SerializeCompact

  /** A unit of this dimension, as built by NewBaseUnit("concentration", ...). */
  function Make(symbol: string, name: string, coefficient: real, offset: real, isBase: bool): (u: Unit)
    ensures u.kind == ConcentrationUnit && u.base == BaseUnit("concentration", symbol, name, coefficient, offset, isBase)
  {
    Unit(ConcentrationUnit, NewBaseUnit("concentration", symbol, name, coefficient, offset, isBase))
  }

  function GramsPerLiter(): Unit { Make("g/L", "Grams per Liter", 1.0, 0.0, true) }
  function MilligramsPerLiter(): Unit { Make("mg/L", "Milligrams per Liter", 0.001, 0.0, false) }
  function PartsPerMillion(): Unit { Make("ppm", "Parts per Million", 0.001, 0.0, false) }
  function PartsPerBillion(): Unit { Make("ppb", "Parts per Billion", 0.000001, 0.0, false) }

  /** The predefined units, in declaration order. */
  function All(): (r: seq<Unit>)
    ensures forall u | u in r :: u.kind == ConcentrationUnit && u.base.dimension == "concentration"
    ensures GramsPerLiter() in r && GramsPerLiter().base.isBase
    ensures forall u | u in r && u.base.isBase :: u == GramsPerLiter()
    ensures forall u | u in r :: u.base.offset == 0.0 && u.base.coefficient > 0.0
  {
    [GramsPerLiter(), MilligramsPerLiter(), PartsPerMillion(), PartsPerBillion()]
  }

  /** The concentration symbol registry (unit_registry.go:123-128): symbols and accepted aliases. */
  function Symbols(): map<string, Unit> {
    map[
      "g/L" := GramsPerLiter(),
      "mg/L" := MilligramsPerLiter(),
      "ppm" := PartsPerMillion(),
      "ppb" := PartsPerBillion()
    ]
  }

  /** The registry finds each predefined unit under its own symbol. */
  lemma SymbolsFindAll()
    ensures forall u | u in All() :: u.base.symbol in Symbols() && Symbols()[u.base.symbol] == u
  {
    var m := Symbols();
    assert m[GramsPerLiter().base.symbol] == GramsPerLiter();
    assert m[MilligramsPerLiter().base.symbol] == MilligramsPerLiter();
    assert m[PartsPerMillion().base.symbol] == PartsPerMillion();
    assert m[PartsPerBillion().base.symbol] == PartsPerBillion();
  }

  /** The registry holds only predefined units. */
  lemma SymbolsHoldOnlyAll()
    ensures forall s | s in Symbols() :: Symbols()[s] in All()
  {
  }

  /** LookupConcentrationUnit (unit_registry.go:278-281): the registered unit and true, or the zero unit and false. */
  function Lookup(symbol: string): (r: (Unit, bool))
    ensures r.1 <==> symbol in Symbols()
    ensures r.1 ==> r.0 == Symbols()[symbol] && r.0 in All()
    ensures !r.1 ==> r.0 == ZeroUnit(ConcentrationUnit)
  {
    SymbolsHoldOnlyAll();
    if symbol in Symbols() then (Symbols()[symbol], true) else (ZeroUnit(ConcentrationUnit), false)
  }

  /** Every predefined unit is found under its own symbol. */
  lemma LookupFindsAll()
    ensures forall u | u in All() :: Lookup(u.base.symbol) == (u, true)
  {
    SymbolsFindAll();
  }

  /** The cases of UnmarshalConcentration (serialize.go:1165-1172): accepted symbols, key name, unit. */
  function Cases(): seq<Serialize.Case>
  {
    [
      Serialize.Case(["g/L"], "grams_per_liter", GramsPerLiter()),
      Serialize.Case(["mg/L"], "milligrams_per_liter", MilligramsPerLiter()),
      Serialize.Case(["ppm"], "parts_per_million", PartsPerMillion()),
      Serialize.Case(["ppb"], "parts_per_billion", PartsPerBillion())
    ]
  }

  lemma CasesHoldOnlyAll()
    ensures forall c | c in Cases() :: c.unit in All()
  {
  }

  /** UnmarshalConcentration (serialize.go:1153-1178): any of the three formats, unit chosen by the first matching case. */
  function Unmarshal(j: Json): (r: Result<Quantity>)
    ensures r.Ok? <==> Serialize.DecodeUnit("concentration", "concentration", Cases(), j).Ok?
    ensures r.Ok? ==> r.value.unit in All() && (r.value.value, r.value.unit) == Serialize.DecodeUnit("concentration", "concentration", Cases(), j).value
  {
    var d :- Serialize.DecodeUnit("concentration", "concentration", Cases(), j);
    CasesHoldOnlyAll();
    Ok(New(d.0, d.1))
  }

  /** The case that first lists each unit's symbol is that unit's own. */
  lemma GramsPerLiterListedFirst() ensures GramsPerLiter().base.symbol != "" && Serialize.FirstListing(Cases(), GramsPerLiter(), 0) {}
  lemma MilligramsPerLiterListedFirst() ensures MilligramsPerLiter().base.symbol != "" && Serialize.FirstListing(Cases(), MilligramsPerLiter(), 1) {}
  lemma PartsPerMillionListedFirst() ensures PartsPerMillion().base.symbol != "" && Serialize.FirstListing(Cases(), PartsPerMillion(), 2) {}
  lemma PartsPerBillionListedFirst() ensures PartsPerBillion().base.symbol != "" && Serialize.FirstListing(Cases(), PartsPerBillion(), 3) {}

  /** Each predefined unit has a symbol, and the first case listing it is its own. */
  lemma CasesListAll(u: Unit)
    requires u in All()
    ensures u.base.symbol != "" && exists i :: Serialize.FirstListing(Cases(), u, i)
  {
    if u == GramsPerLiter() { GramsPerLiterListedFirst(); }
    else if u == MilligramsPerLiter() { MilligramsPerLiterListedFirst(); }
    else if u == PartsPerMillion() { PartsPerMillionListedFirst(); }
    else if u == PartsPerBillion() { PartsPerBillionListedFirst(); }
  }

  /** A quantity in any predefined unit, written by marshalGeneric, is read back unchanged. */
  lemma UnmarshalRoundTrip(v: real, u: Unit)
    requires u in All()
    ensures Unmarshal(Serialize.MarshalGeneric(New(v, u))) == Ok(New(v, u))
  {
    CasesListAll(u);
    var i :| Serialize.FirstListing(Cases(), u, i);
    Serialize.DecodeMarshalledFull(New(v, u), "concentration", "concentration", Cases(), i);
  }

  /** The compact key table (serialize_compact.go:134-139). */
  function Keys(): map<string, Unit> {
    map[
      "concentration_grams_per_liter" := GramsPerLiter(),
      "concentration_milligrams_per_liter" := MilligramsPerLiter(),
      "concentration_parts_per_million" := PartsPerMillion(),
      "concentration_parts_per_billion" := PartsPerBillion()
    ]
  }

  /** The key table holds only predefined units. */
  lemma KeysHoldOnlyAll()
    ensures forall k | k in Keys() :: Keys()[k] in All()
  {
  }

  /** UnmarshalCompactConcentration (serialize_compact.go:531-541): the unit of the key in the table. */
  function UnmarshalCompact(j: Json): (r: Result<Quantity>)
    ensures r.Ok? <==> SerializeCompact.DecodeCompactUnit("concentration", Keys(), j).Ok?
    ensures r.Ok? ==> r.value.unit in All() && (r.value.value, r.value.unit) == SerializeCompact.DecodeCompactUnit("concentration", Keys(), j).value
  {
    var d :- SerializeCompact.DecodeCompactUnit("concentration", Keys(), j);
    KeysHoldOnlyAll();
    Ok(New(d.0, d.1))
  }

  /** 5 g/L is 5000 mg/L, 5000 ppm and 5000000 ppb; 5 g/L + 2000 mg/L is 7 g/L. */
  lemma Examples()
    ensures ConvertTo(New(5.0, GramsPerLiter()), MilligramsPerLiter()).value == 5000.0
    ensures ConvertTo(New(5.0, GramsPerLiter()), PartsPerMillion()).value == 5000.0
    ensures ConvertTo(New(5.0, GramsPerLiter()), PartsPerBillion()).value == 5000000.0
    ensures Add(New(5.0, GramsPerLiter()), New(2000.0, MilligramsPerLiter())).value == 7.0
  {
  }
}
