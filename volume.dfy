/** The predefined volume units (volume.go); CubicMeter is the base unit. */
module Volume {
  import opened Results
  import opened JsonValue
  import opened Units
  import opened Quantities
  import Serialize
  import SerializeCompact

  /** A unit of this dimension, as built by NewBaseUnit("volume", ...). */
  function Make(symbol: string, name: string, coefficient: real, offset: real, isBase: bool): (u: Unit)
    ensures u.kind == VolumeUnit && u.base == BaseUnit("volume", symbol, name, coefficient, offset, isBase)
  {
    Unit(VolumeUnit, NewBaseUnit("volume", symbol, name, coefficient, offset, isBase))
  }

  function CubicMeter(): Unit { Make("m³", "Cubic Meter", 1.0, 0.0, true) }
  function CubicKilometer(): Unit { Make("km³", "Cubic Kilometer", 1000000000.0, 0.0, false) }
  function CubicCentimeter(): Unit { Make("cm³", "Cubic Centimeter", 0.000001, 0.0, false) }
  function CubicMillimeter(): Unit { Make("mm³", "Cubic Millimeter", 0.000000001, 0.0, false) }
  function Liter(): Unit { Make("L", "Liter", 0.001, 0.0, false) }
  function Milliliter(): Unit { Make("mL", "Milliliter", 0.000001, 0.0, false) }
  function CubicInch(): Unit { Make("in³", "Cubic Inch", 0.000016387064, 0.0, false) }
  function CubicFoot(): Unit { Make("ft³", "Cubic Foot", 0.028316846592, 0.0, false) }
  function CubicYard(): Unit { Make("yd³", "Cubic Yard", 0.764554857984, 0.0, false) }
  function Gallon(): Unit { Make("gal", "Gallon", 0.003785411784, 0.0, false) }
  function Quart(): Unit { Make("qt", "Quart", 0.000946352946, 0.0, false) }
  function Pint(): Unit { Make("pt", "Pint", 0.000473176473, 0.0, false) }
  function Cup(): Unit { Make("cup", "Cup", 0.000236588236, 0.0, false) }
  function FluidOunce(): Unit { Make("fl oz", "Fluid Ounce", 0.0000295735295625, 0.0, false) }

  /** The predefined units, in declaration order. */
  function All(): (r: seq<Unit>)
    ensures forall u | u in r :: u.kind == VolumeUnit && u.base.dimension == "volume"
    ensures CubicMeter() in r && CubicMeter().base.isBase
    ensures forall u | u in r && u.base.isBase :: u == CubicMeter()
    ensures forall u | u in r :: u.base.offset == 0.0 && u.base.coefficient > 0.0
  {
    [CubicMeter(), CubicKilometer(), CubicCentimeter(), CubicMillimeter(), Liter(), Milliliter(), CubicInch(), CubicFoot(), CubicYard(), Gallon(), Quart(), Pint(), Cup(), FluidOunce()]
  }

  /** The volume symbol registry (unit_registry.go:100-115): symbols and accepted aliases. */
  function Symbols(): map<string, Unit> {
    map[
      "m³" := CubicMeter(),
      "km³" := CubicKilometer(),
      "cm³" := CubicCentimeter(),
      "mm³" := CubicMillimeter(),
      "L" := Liter(),
      "mL" := Milliliter(),
      "in³" := CubicInch(),
      "ft³" := CubicFoot(),
      "yd³" := CubicYard(),
      "gal" := Gallon(),
      "qt" := Quart(),
      "pt" := Pint(),
      "cup" := Cup(),
      "fl oz" := FluidOunce()
    ]
  }

  /** The registry finds each predefined unit under its own symbol. */
  lemma SymbolsFindAll()
    ensures forall u | u in All() :: u.base.symbol in Symbols() && Symbols()[u.base.symbol] == u
  {
    var m := Symbols();
    assert m[CubicMeter().base.symbol] == CubicMeter();
    assert m[CubicKilometer().base.symbol] == CubicKilometer();
    assert m[CubicCentimeter().base.symbol] == CubicCentimeter();
    assert m[CubicMillimeter().base.symbol] == CubicMillimeter();
    assert m[Liter().base.symbol] == Liter();
    assert m[Milliliter().base.symbol] == Milliliter();
    assert m[CubicInch().base.symbol] == CubicInch();
    assert m[CubicFoot().base.symbol] == CubicFoot();
    assert m[CubicYard().base.symbol] == CubicYard();
    assert m[Gallon().base.symbol] == Gallon();
    assert m[Quart().base.symbol] == Quart();
    assert m[Pint().base.symbol] == Pint();
    assert m[Cup().base.symbol] == Cup();
    assert m[FluidOunce().base.symbol] == FluidOunce();
  }

  /** The registry holds only predefined units. */
  lemma SymbolsHoldOnlyAll()
    ensures forall s | s in Symbols() :: Symbols()[s] in All()
  {
  }

  /** LookupVolumeUnit (unit_registry.go:266-269): the registered unit and true, or the zero unit and false. */
  function Lookup(symbol: string): (r: (Unit, bool))
    ensures r.1 <==> symbol in Symbols()
    ensures r.1 ==> r.0 == Symbols()[symbol] && r.0 in All()
    ensures !r.1 ==> r.0 == ZeroUnit(VolumeUnit)
  {
    SymbolsHoldOnlyAll();
    if symbol in Symbols() then (Symbols()[symbol], true) else (ZeroUnit(VolumeUnit), false)
  }

  /** Every predefined unit is found under its own symbol. */
  lemma LookupFindsAll()
    ensures forall u | u in All() :: Lookup(u.base.symbol) == (u, true)
  {
    SymbolsFindAll();
  }

  /** The cases of UnmarshalVolume (serialize.go:1081-1108): accepted symbols, key name, unit. */
  function Cases(): seq<Serialize.Case>
  {
    [
      Serialize.Case(["m³"], "cubic_meter", CubicMeter()),
      Serialize.Case(["km³"], "cubic_kilometer", CubicKilometer()),
      Serialize.Case(["cm³"], "cubic_centimeter", CubicCentimeter()),
      Serialize.Case(["mm³"], "cubic_millimeter", CubicMillimeter()),
      Serialize.Case(["L"], "liter", Liter()),
      Serialize.Case(["mL"], "milliliter", Milliliter()),
      Serialize.Case(["in³"], "cubic_inch", CubicInch()),
      Serialize.Case(["ft³"], "cubic_foot", CubicFoot()),
      Serialize.Case(["yd³"], "cubic_yard", CubicYard()),
      Serialize.Case(["gal"], "gallon", Gallon()),
      Serialize.Case(["qt"], "quart", Quart()),
      Serialize.Case(["pt"], "pint", Pint()),
      Serialize.Case(["cup"], "cup", Cup()),
      Serialize.Case(["fl oz"], "fluid_ounce", FluidOunce())
    ]
  }

  lemma CasesHoldOnlyAll()
    ensures forall c | c in Cases() :: c.unit in All()
  {
  }

  /** UnmarshalVolume (serialize.go:1069-1114): any of the three formats, unit chosen by the first matching case. */
  function Unmarshal(j: Json): (r: Result<Quantity>)
    ensures r.Ok? <==> Serialize.DecodeUnit("volume", "volume", Cases(), j).Ok?
    ensures r.Ok? ==> r.value.unit in All() && (r.value.value, r.value.unit) == Serialize.DecodeUnit("volume", "volume", Cases(), j).value
  {
    var d :- Serialize.DecodeUnit("volume", "volume", Cases(), j);
    CasesHoldOnlyAll();
    Ok(New(d.0, d.1))
  }

  /** The case that first lists each unit's symbol is that unit's own. */
  lemma CubicMeterListedFirst() ensures CubicMeter().base.symbol != "" && Serialize.FirstListing(Cases(), CubicMeter(), 0) {}
  lemma CubicKilometerListedFirst() ensures CubicKilometer().base.symbol != "" && Serialize.FirstListing(Cases(), CubicKilometer(), 1) {}
  lemma CubicCentimeterListedFirst() ensures CubicCentimeter().base.symbol != "" && Serialize.FirstListing(Cases(), CubicCentimeter(), 2) {}
  lemma CubicMillimeterListedFirst() ensures CubicMillimeter().base.symbol != "" && Serialize.FirstListing(Cases(), CubicMillimeter(), 3) {}
  lemma LiterListedFirst() ensures Liter().base.symbol != "" && Serialize.FirstListing(Cases(), Liter(), 4) {}
  lemma MilliliterListedFirst() ensures Milliliter().base.symbol != "" && Serialize.FirstListing(Cases(), Milliliter(), 5) {}
  lemma CubicInchListedFirst() ensures CubicInch().base.symbol != "" && Serialize.FirstListing(Cases(), CubicInch(), 6) {}
  lemma CubicFootListedFirst() ensures CubicFoot().base.symbol != "" && Serialize.FirstListing(Cases(), CubicFoot(), 7) {}
  lemma CubicYardListedFirst() ensures CubicYard().base.symbol != "" && Serialize.FirstListing(Cases(), CubicYard(), 8) {}
  lemma GallonListedFirst() ensures Gallon().base.symbol != "" && Serialize.FirstListing(Cases(), Gallon(), 9) {}
  lemma QuartListedFirst() ensures Quart().base.symbol != "" && Serialize.FirstListing(Cases(), Quart(), 10) {}
  lemma PintListedFirst() ensures Pint().base.symbol != "" && Serialize.FirstListing(Cases(), Pint(), 11) {}
  lemma CupListedFirst() ensures Cup().base.symbol != "" && Serialize.FirstListing(Cases(), Cup(), 12) {}
  lemma FluidOunceListedFirst() ensures FluidOunce().base.symbol != "" && Serialize.FirstListing(Cases(), FluidOunce(), 13) {}

  /** Each predefined unit has a symbol, and the first case listing it is its own. */
  lemma CasesListAll(u: Unit)
    requires u in All()
    ensures u.base.symbol != "" && exists i :: Serialize.FirstListing(Cases(), u, i)
  {
    if u == CubicMeter() { CubicMeterListedFirst(); }
    else if u == CubicKilometer() { CubicKilometerListedFirst(); }
    else if u == CubicCentimeter() { CubicCentimeterListedFirst(); }
    else if u == CubicMillimeter() { CubicMillimeterListedFirst(); }
    else if u == Liter() { LiterListedFirst(); }
    else if u == Milliliter() { MilliliterListedFirst(); }
    else if u == CubicInch() { CubicInchListedFirst(); }
    else if u == CubicFoot() { CubicFootListedFirst(); }
    else if u == CubicYard() { CubicYardListedFirst(); }
    else if u == Gallon() { GallonListedFirst(); }
    else if u == Quart() { QuartListedFirst(); }
    else if u == Pint() { PintListedFirst(); }
    else if u == Cup() { CupListedFirst(); }
    else if u == FluidOunce() { FluidOunceListedFirst(); }
  }

  /** A quantity in any predefined unit, written by marshalGeneric, is read back unchanged. */
  lemma UnmarshalRoundTrip(v: real, u: Unit)
    requires u in All()
    ensures Unmarshal(Serialize.MarshalGeneric(New(v, u))) == Ok(New(v, u))
  {
    CasesListAll(u);
    var i :| Serialize.FirstListing(Cases(), u, i);
    Serialize.DecodeMarshalledFull(New(v, u), "volume", "volume", Cases(), i);
  }

  /** The compact key table (serialize_compact.go:85-100). */
  function Keys(): map<string, Unit> {
    map[
      "volume_cubic_meter" := CubicMeter(),
      "volume_cubic_kilometer" := CubicKilometer(),
      "volume_cubic_centimeter" := CubicCentimeter(),
      "volume_cubic_millimeter" := CubicMillimeter(),
      "volume_liter" := Liter(),
      "volume_milliliter" := Milliliter(),
      "volume_cubic_inch" := CubicInch(),
      "volume_cubic_foot" := CubicFoot(),
      "volume_cubic_yard" := CubicYard(),
      "volume_gallon" := Gallon(),
      "volume_quart" := Quart(),
      "volume_pint" := Pint(),
      "volume_cup" := Cup(),
      "volume_fluid_ounce" := FluidOunce()
    ]
  }

  /** The key table holds only predefined units. */
  lemma KeysHoldOnlyAll()
    ensures forall k | k in Keys() :: Keys()[k] in All()
  {
  }

  /** UnmarshalCompactVolume (serialize_compact.go:393-403): the unit of the key in the table. */
  function UnmarshalCompact(j: Json): (r: Result<Quantity>)
    ensures r.Ok? <==> SerializeCompact.DecodeCompactUnit("volume", Keys(), j).Ok?
    ensures r.Ok? ==> r.value.unit in All() && (r.value.value, r.value.unit) == SerializeCompact.DecodeCompactUnit("volume", Keys(), j).value
  {
    var d :- SerializeCompact.DecodeCompactUnit("volume", Keys(), j);
    KeysHoldOnlyAll();
    Ok(New(d.0, d.1))
  }

  /** 1 m³ is 1000 L; 1 mL and 1 cm³ are Equal quantities although the units differ. */
  lemma Examples()
    ensures ConvertTo(New(1.0, CubicMeter()), Liter()).value == 1000.0
    ensures Equal(New(1.0, Milliliter()), New(1.0, CubicCentimeter()))
    ensures !Units.Equals(Milliliter().base, CubicCentimeter().base)
  {
  }
}
