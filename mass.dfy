/** The predefined mass units (mass.go); Kilogram is the base unit. */
module Mass {
  import opened Results
  import opened JsonValue
  import opened Units
  import opened Quantities
  import Serialize
  import SerializeCompact

  /** A unit of this dimension, as built by NewBaseUnit("mass", ...). */
  function Make(symbol: string, name: string, coefficient: real, offset: real, isBase: bool): (u: Unit)
    ensures u.kind == MassUnit && u.base == BaseUnit("mass", symbol, name, coefficient, offset, isBase)
  {
    Unit(MassUnit, NewBaseUnit("mass", symbol, name, coefficient, offset, isBase))
  }

  function Kilogram(): Unit { Make("kg", "Kilogram", 1.0, 0.0, true) }
  function Gram(): Unit { Make("g", "Gram", 0.001, 0.0, false) }
  function Milligram(): Unit { Make("mg", "Milligram", 0.000001, 0.0, false) }
  function Microgram(): Unit { Make("µg", "Microgram", 0.000000001, 0.0, false) }
  function Pound(): Unit { Make("lb", "Pound", 0.45359237, 0.0, false) }
  function Ounce(): Unit { Make("oz", "Ounce", 0.028349523125, 0.0, false) }
  function Stone(): Unit { Make("st", "Stone", 6.35029318, 0.0, false) }
  function MetricTon(): Unit { Make("t", "Metric Ton", 1000.0, 0.0, false) }
  function Ton(): Unit { Make("ton", "Ton", 907.18474, 0.0, false) }

  /** The predefined units, in declaration order. */
  function All(): (r: seq<Unit>)
    ensures forall u | u in r :: u.kind == MassUnit && u.base.dimension == "mass"
    ensures Kilogram() in r && Kilogram().base.isBase
    ensures forall u | u in r && u.base.isBase :: u == Kilogram()
    ensures forall u | u in r :: u.base.offset == 0.0 && u.base.coefficient > 0.0
  {
    [Kilogram(), Gram(), Milligram(), Microgram(), Pound(), Ounce(), Stone(), MetricTon(), Ton()]
  }

  /** The mass symbol registry (unit_registry.go:56-66): symbols and accepted aliases. */
  function Symbols(): map<string, Unit> {
    map[
      "kg" := Kilogram(),
      "g" := Gram(),
      "mg" := Milligram(),
      "µg" := Microgram(),
      "lb" := Pound(),
      "oz" := Ounce(),
      "st" := Stone(),
      "t" := MetricTon(),
      "ton" := Ton()
    ]
  }

  /** The registry finds each predefined unit under its own symbol. */
  lemma SymbolsFindAll()
    ensures forall u | u in All() :: u.base.symbol in Symbols() && Symbols()[u.base.symbol] == u
  {
    var m := Symbols();
    assert m[Kilogram().base.symbol] == Kilogram();
    assert m[Gram().base.symbol] == Gram();
    assert m[Milligram().base.symbol] == Milligram();
    assert m[Microgram().base.symbol] == Microgram();
    assert m[Pound().base.symbol] == Pound();
    assert m[Ounce().base.symbol] == Ounce();
    assert m[Stone().base.symbol] == Stone();
    assert m[MetricTon().base.symbol] == MetricTon();
    assert m[Ton().base.symbol] == Ton();
  }

  /** The registry holds only predefined units. */
  lemma SymbolsHoldOnlyAll()
    ensures forall s | s in Symbols() :: Symbols()[s] in All()
  {
  }

  /** LookupMassUnit (unit_registry.go:242-245): the registered unit and true, or the zero unit and false. */
  function Lookup(symbol: string): (r: (Unit, bool))
    ensures r.1 <==> symbol in Symbols()
    ensures r.1 ==> r.0 == Symbols()[symbol] && r.0 in All()
    ensures !r.1 ==> r.0 == ZeroUnit(MassUnit)
  {
    SymbolsHoldOnlyAll();
    if symbol in Symbols() then (Symbols()[symbol], true) else (ZeroUnit(MassUnit), false)
  }

  /** Every predefined unit is found under its own symbol. */
  lemma LookupFindsAll()
    ensures forall u | u in All() :: Lookup(u.base.symbol) == (u, true)
  {
    SymbolsFindAll();
  }

  /** The cases of UnmarshalMass (serialize.go:917-934): accepted symbols, key name, unit. */
  function Cases(): seq<Serialize.Case>
  {
    [
      Serialize.Case(["kg"], "kilogram", Kilogram()),
      Serialize.Case(["g"], "gram", Gram()),
      Serialize.Case(["mg"], "milligram", Milligram()),
      Serialize.Case(["µg"], "microgram", Microgram()),
      Serialize.Case(["lb"], "pound", Pound()),
      Serialize.Case(["oz"], "ounce", Ounce()),
      Serialize.Case(["st"], "stone", Stone()),
      Serialize.Case(["t"], "metric_ton", MetricTon()),
      Serialize.Case(["ton"], "ton", Ton())
    ]
  }

  lemma CasesHoldOnlyAll()
    ensures forall c | c in Cases() :: c.unit in All()
  {
  }

  /** UnmarshalMass (serialize.go:905-940): any of the three formats, unit chosen by the first matching case. */
  function Unmarshal(j: Json): (r: Result<Quantity>)
    ensures r.Ok? <==> Serialize.DecodeUnit("mass", "mass", Cases(), j).Ok?
    ensures r.Ok? ==> r.value.unit in All() && (r.value.value, r.value.unit) == Serialize.DecodeUnit("mass", "mass", Cases(), j).value
  {
    var d :- Serialize.DecodeUnit("mass", "mass", Cases(), j);
    CasesHoldOnlyAll();
    Ok(New(d.0, d.1))
  }

  /** The case that first lists each unit's symbol is that unit's own. */
  lemma KilogramListedFirst() ensures Kilogram().base.symbol != "" && Serialize.FirstListing(Cases(), Kilogram(), 0) {}
  lemma GramListedFirst() ensures Gram().base.symbol != "" && Serialize.FirstListing(Cases(), Gram(), 1) {}
  lemma MilligramListedFirst() ensures Milligram().base.symbol != "" && Serialize.FirstListing(Cases(), Milligram(), 2) {}
  lemma MicrogramListedFirst() ensures Microgram().base.symbol != "" && Serialize.FirstListing(Cases(), Microgram(), 3) {}
  lemma PoundListedFirst() ensures Pound().base.symbol != "" && Serialize.FirstListing(Cases(), Pound(), 4) {}
  lemma OunceListedFirst() ensures Ounce().base.symbol != "" && Serialize.FirstListing(Cases(), Ounce(), 5) {}
  lemma StoneListedFirst() ensures Stone().base.symbol != "" && Serialize.FirstListing(Cases(), Stone(), 6) {}
  lemma MetricTonListedFirst() ensures MetricTon().base.symbol != "" && Serialize.FirstListing(Cases(), MetricTon(), 7) {}
  lemma TonListedFirst() ensures Ton().base.symbol != "" && Serialize.FirstListing(Cases(), Ton(), 8) {}

  /** Each predefined unit has a symbol, and the first case listing it is its own. */
  lemma CasesListAll(u: Unit)
    requires u in All()
    ensures u.base.symbol != "" && exists i :: Serialize.FirstListing(Cases(), u, i)
  {
    if u == Kilogram() { KilogramListedFirst(); }
    else if u == Gram() { GramListedFirst(); }
    else if u == Milligram() { MilligramListedFirst(); }
    else if u == Microgram() { MicrogramListedFirst(); }
    else if u == Pound() { PoundListedFirst(); }
    else if u == Ounce() { OunceListedFirst(); }
    else if u == Stone() { StoneListedFirst(); }
    else if u == MetricTon() { MetricTonListedFirst(); }
    else if u == Ton() { TonListedFirst(); }
  }

  /** A quantity in any predefined unit, written by marshalGeneric, is read back unchanged. */
  lemma UnmarshalRoundTrip(v: real, u: Unit)
    requires u in All()
    ensures Unmarshal(Serialize.MarshalGeneric(New(v, u))) == Ok(New(v, u))
  {
    CasesListAll(u);
    var i :| Serialize.FirstListing(Cases(), u, i);
    Serialize.DecodeMarshalledFull(New(v, u), "mass", "mass", Cases(), i);
  }

  /** The compact key table (serialize_compact.go:41-51). */
  function Keys(): map<string, Unit> {
    map[
      "mass_kilogram" := Kilogram(),
      "mass_gram" := Gram(),
      "mass_milligram" := Milligram(),
      "mass_microgram" := Microgram(),
      "mass_pound" := Pound(),
      "mass_ounce" := Ounce(),
      "mass_stone" := Stone(),
      "mass_metric_ton" := MetricTon(),
      "mass_ton" := Ton()
    ]
  }

  /** The key table holds only predefined units. */
  lemma KeysHoldOnlyAll()
    ensures forall k | k in Keys() :: Keys()[k] in All()
  {
  }

  /** UnmarshalCompactMass (serialize_compact.go:301-311): the unit of the key in the table. */
  function UnmarshalCompact(j: Json): (r: Result<Quantity>)
    ensures r.Ok? <==> SerializeCompact.DecodeCompactUnit("mass", Keys(), j).Ok?
    ensures r.Ok? ==> r.value.unit in All() && (r.value.value, r.value.unit) == SerializeCompact.DecodeCompactUnit("mass", Keys(), j).value
  {
    var d :- SerializeCompact.DecodeCompactUnit("mass", Keys(), j);
    KeysHoldOnlyAll();
    Ok(New(d.0, d.1))
  }

  /** 75 kg is 75000 g; 75 kg + 10 lb is 79.5359237 kg; the metric ton and the short ton are different units. */
  lemma Examples()
    ensures ConvertTo(New(75.0, Kilogram()), Gram()).value == 75000.0
    ensures Add(New(75.0, Kilogram()), New(10.0, Pound())).value == 79.5359237
    ensures !Units.Equals(MetricTon().base, Ton().base)
  {
  }
}
