/** The predefined frequency units (frequency.go); Hertz is the base unit. */
module Frequency {
  import opened Results
  import opened JsonValue
  import opened Units
  import opened Quantities
  import Serialize
  import SerializeCompact

  /** A unit of this dimension, as built by NewBaseUnit("frequency", ...). */
  function Make(symbol: string, name: string, coefficient: real, offset: real, isBase: bool): (u: Unit)
    ensures u.kind == FrequencyUnit && u.base == BaseUnit("frequency", symbol, name, coefficient, offset, isBase)
  {
    Unit(FrequencyUnit, NewBaseUnit("frequency", symbol, name, coefficient, offset, isBase))
  }

  function Hertz(): Unit { Make("Hz", "Hertz", 1.0, 0.0, true) }
  function Kilohertz(): Unit { Make("kHz", "Kilohertz", 1000.0, 0.0, false) }
  function Megahertz(): Unit { Make("MHz", "Megahertz", 1000000.0, 0.0, false) }
  function Gigahertz(): Unit { Make("GHz", "Gigahertz", 1000000000.0, 0.0, false) }
  function Terahertz(): Unit { Make("THz", "Terahertz", 1000000000000.0, 0.0, false) }
  function RPM(): Unit { Make("rpm", "Revolutions Per Minute", 1.0 / 60.0, 0.0, false) }

  /** The predefined units, in declaration order. */
  function All(): (r: seq<Unit>)
    ensures forall u | u in r :: u.kind == FrequencyUnit && u.base.dimension == "frequency"
    ensures Hertz() in r && Hertz().base.isBase
    ensures forall u | u in r && u.base.isBase :: u == Hertz()
    ensures forall u | u in r :: u.base.offset == 0.0 && u.base.coefficient > 0.0
  {
    [Hertz(), Kilohertz(), Megahertz(), Gigahertz(), Terahertz(), RPM()]
  }

  /** The frequency symbol registry (unit_registry.go:168-175): symbols and accepted aliases. */
  function Symbols(): map<string, Unit> {
    map[
      "Hz" := Hertz(),
      "kHz" := Kilohertz(),
      "MHz" := Megahertz(),
      "GHz" := Gigahertz(),
      "THz" := Terahertz(),
      "rpm" := RPM()
    ]
  }

  /** The registry finds each predefined unit under its own symbol. */
  lemma SymbolsFindAll()
    ensures forall u | u in All() :: u.base.symbol in Symbols() && Symbols()[u.base.symbol] == u
  {
    var m := Symbols();
    assert m[Hertz().base.symbol] == Hertz();
    assert m[Kilohertz().base.symbol] == Kilohertz();
    assert m[Megahertz().base.symbol] == Megahertz();
    assert m[Gigahertz().base.symbol] == Gigahertz();
    assert m[Terahertz().base.symbol] == Terahertz();
    assert m[RPM().base.symbol] == RPM();
  }

  /** The registry holds only predefined units. */
  lemma SymbolsHoldOnlyAll()
    ensures forall s | s in Symbols() :: Symbols()[s] in All()
  {
  }

  /** LookupFrequencyUnit (unit_registry.go:314-317): the registered unit and true, or the zero unit and false. */
  function Lookup(symbol: string): (r: (Unit, bool))
    ensures r.1 <==> symbol in Symbols()
    ensures r.1 ==> r.0 == Symbols()[symbol] && r.0 in All()
    ensures !r.1 ==> r.0 == ZeroUnit(FrequencyUnit)
  {
    SymbolsHoldOnlyAll();
    if symbol in Symbols() then (Symbols()[symbol], true) else (ZeroUnit(FrequencyUnit), false)
  }

  /** Every predefined unit is found under its own symbol. */
  lemma LookupFindsAll()
    ensures forall u | u in All() :: Lookup(u.base.symbol) == (u, true)
  {
    SymbolsFindAll();
  }

  /** The cases of UnmarshalFrequency (serialize.go:1418-1429): accepted symbols, key name, unit. */
  function Cases(): seq<Serialize.Case>
  {
    [
      Serialize.Case(["Hz"], "hertz", Hertz()),
      Serialize.Case(["kHz"], "kilohertz", Kilohertz()),
      Serialize.Case(["MHz"], "megahertz", Megahertz()),
      Serialize.Case(["GHz"], "gigahertz", Gigahertz()),
      Serialize.Case(["THz"], "terahertz", Terahertz()),
      Serialize.Case(["rpm"], "rpm", RPM())
    ]
  }

  lemma CasesHoldOnlyAll()
    ensures forall c | c in Cases() :: c.unit in All()
  {
  }

  /** UnmarshalFrequency (serialize.go:1406-1435): any of the three formats, unit chosen by the first matching case. */
  function Unmarshal(j: Json): (r: Result<Quantity>)
    ensures r.Ok? <==> Serialize.DecodeUnit("frequency", "frequency", Cases(), j).Ok?
    ensures r.Ok? ==> r.value.unit in All() && (r.value.value, r.value.unit) == Serialize.DecodeUnit("frequency", "frequency", Cases(), j).value
  {
    var d :- Serialize.DecodeUnit("frequency", "frequency", Cases(), j);
    CasesHoldOnlyAll();
    Ok(New(d.0, d.1))
  }

  /** The case that first lists each unit's symbol is that unit's own. */
  lemma HertzListedFirst() ensures Hertz().base.symbol != "" && Serialize.FirstListing(Cases(), Hertz(), 0) {}
  lemma KilohertzListedFirst() ensures Kilohertz().base.symbol != "" && Serialize.FirstListing(Cases(), Kilohertz(), 1) {}
  lemma MegahertzListedFirst() ensures Megahertz().base.symbol != "" && Serialize.FirstListing(Cases(), Megahertz(), 2) {}
  lemma GigahertzListedFirst() ensures Gigahertz().base.symbol != "" && Serialize.FirstListing(Cases(), Gigahertz(), 3) {}
  lemma TerahertzListedFirst() ensures Terahertz().base.symbol != "" && Serialize.FirstListing(Cases(), Terahertz(), 4) {}
  lemma RPMListedFirst() ensures RPM().base.symbol != "" && Serialize.FirstListing(Cases(), RPM(), 5) {}

  /** Each predefined unit has a symbol, and the first case listing it is its own. */
  lemma CasesListAll(u: Unit)
    requires u in All()
    ensures u.base.symbol != "" && exists i :: Serialize.FirstListing(Cases(), u, i)
  {
    if u == Hertz() { HertzListedFirst(); }
    else if u == Kilohertz() { KilohertzListedFirst(); }
    else if u == Megahertz() { MegahertzListedFirst(); }
    else if u == Gigahertz() { GigahertzListedFirst(); }
    else if u == Terahertz() { TerahertzListedFirst(); }
    else if u == RPM() { RPMListedFirst(); }
  }

  /** A quantity in any predefined unit, written by marshalGeneric, is read back unchanged. */
  lemma UnmarshalRoundTrip(v: real, u: Unit)
    requires u in All()
    ensures Unmarshal(Serialize.MarshalGeneric(New(v, u))) == Ok(New(v, u))
  {
    CasesListAll(u);
    var i :| Serialize.FirstListing(Cases(), u, i);
    Serialize.DecodeMarshalledFull(New(v, u), "frequency", "frequency", Cases(), i);
  }

  /** The compact key table (serialize_compact.go:171-178). */
  function Keys(): map<string, Unit> {
    map[
      "frequency_hertz" := Hertz(),
      "frequency_kilohertz" := Kilohertz(),
      "frequency_megahertz" := Megahertz(),
      "frequency_gigahertz" := Gigahertz(),
      "frequency_terahertz" := Terahertz(),
      "frequency_r_p_m" := RPM()
    ]
  }

  /** The key table holds only predefined units. */
  lemma KeysHoldOnlyAll()
    ensures forall k | k in Keys() :: Keys()[k] in All()
  {
  }

  /** UnmarshalCompactFrequency (serialize_compact.go:646-656): the unit of the key in the table. */
  function UnmarshalCompact(j: Json): (r: Result<Quantity>)
    ensures r.Ok? <==> SerializeCompact.DecodeCompactUnit("frequency", Keys(), j).Ok?
    ensures r.Ok? ==> r.value.unit in All() && (r.value.value, r.value.unit) == SerializeCompact.DecodeCompactUnit("frequency", Keys(), j).value
  {
    var d :- SerializeCompact.DecodeCompactUnit("frequency", Keys(), j);
    KeysHoldOnlyAll();
    Ok(New(d.0, d.1))
  }

  /** 1000 Hz is 60000 rpm and back; 2 kHz - 1000 Hz is 1 kHz. */
  lemma Examples()
    ensures ConvertTo(New(1000.0, Hertz()), RPM()).value == 60000.0
    ensures ConvertTo(New(60000.0, RPM()), Hertz()).value == 1000.0
    ensures Subtract(New(2.0, Kilohertz()), New(1000.0, Hertz())) == New(1.0, Kilohertz())
  {
  }
}
