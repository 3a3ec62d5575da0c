/** The predefined area units (area.go); SquareMeter is the base unit. */
module Area {
  import opened Results
  import opened JsonValue
  import opened Units
  import opened Quantities
  import Serialize
  import SerializeCompact

  /** A unit of this dimension, as built by NewBaseUnit("area", ...). */
  function Make(symbol: string, name: string, coefficient: real, offset: real, isBase: bool): (u: Unit)
    ensures u.kind == AreaUnit && u.base == BaseUnit("area", symbol, name, coefficient, offset, isBase)
  {
    Unit(AreaUnit, NewBaseUnit("area", symbol, name, coefficient, offset, isBase))
  }

  function SquareMeter(): Unit { Make("m²", "Square Meter", 1.0, 0.0, true) }
  function SquareKilometer(): Unit { Make("km²", "Square Kilometer", 1000000.0, 0.0, false) }
  function SquareCentimeter(): Unit { Make("cm²", "Square Centimeter", 0.0001, 0.0, false) }
  function SquareMillimeter(): Unit { Make("mm²", "Square Millimeter", 0.000001, 0.0, false) }
  function SquareInch(): Unit { Make("in²", "Square Inch", 0.00064516, 0.0, false) }
  function SquareFoot(): Unit { Make("ft²", "Square Foot", 0.09290304, 0.0, false) }
  function SquareYard(): Unit { Make("yd²", "Square Yard", 0.83612736, 0.0, false) }
  function SquareMile(): Unit { Make("mi²", "Square Mile", 2589988.11, 0.0, false) }
  function Acre(): Unit { Make("ac", "Acre", 4046.86, 0.0, false) }
  function Hectare(): Unit { Make("ha", "Hectare", 10000.0, 0.0, false) }

  /** The predefined units, in declaration order. */
  function All(): (r: seq<Unit>)
    ensures forall u | u in r :: u.kind == AreaUnit && u.base.dimension == "area"
    ensures SquareMeter() in r && SquareMeter().base.isBase
    ensures forall u | u in r && u.base.isBase :: u == SquareMeter()
    ensures forall u | u in r :: u.base.offset == 0.0 && u.base.coefficient > 0.0
  {
    [SquareMeter(), SquareKilometer(), SquareCentimeter(), SquareMillimeter(), SquareInch(), SquareFoot(), SquareYard(), SquareMile(), Acre(), Hectare()]
  }

  /** The area symbol registry (unit_registry.go:87-98): symbols and accepted aliases. */
  function Symbols(): map<string, Unit> {
    map[
      "m²" := SquareMeter(),
      "km²" := SquareKilometer(),
      "cm²" := SquareCentimeter(),
      "mm²" := SquareMillimeter(),
      "in²" := SquareInch(),
      "ft²" := SquareFoot(),
      "yd²" := SquareYard(),
      "mi²" := SquareMile(),
      "ac" := Acre(),
      "ha" := Hectare()
    ]
  }

  /** The registry finds each predefined unit under its own symbol. */
  lemma SymbolsFindAll()
    ensures forall u | u in All() :: u.base.symbol in Symbols() && Symbols()[u.base.symbol] == u
  {
    var m := Symbols();
    assert m[SquareMeter().base.symbol] == SquareMeter();
    assert m[SquareKilometer().base.symbol] == SquareKilometer();
    assert m[SquareCentimeter().base.symbol] == SquareCentimeter();
    assert m[SquareMillimeter().base.symbol] == SquareMillimeter();
    assert m[SquareInch().base.symbol] == SquareInch();
    assert m[SquareFoot().base.symbol] == SquareFoot();
    assert m[SquareYard().base.symbol] == SquareYard();
    assert m[SquareMile().base.symbol] == SquareMile();
    assert m[Acre().base.symbol] == Acre();
    assert m[Hectare().base.symbol] == Hectare();
  }

  /** The registry holds only predefined units. */
  lemma SymbolsHoldOnlyAll()
    ensures forall s | s in Symbols() :: Symbols()[s] in All()
  {
  }

  /** LookupAreaUnit (unit_registry.go:260-263): the registered unit and true, or the zero unit and false. */
  function Lookup(symbol: string): (r: (Unit, bool))
    ensures r.1 <==> symbol in Symbols()
    ensures r.1 ==> r.0 == Symbols()[symbol] && r.0 in All()
    ensures !r.1 ==> r.0 == ZeroUnit(AreaUnit)
  {
    SymbolsHoldOnlyAll();
    if symbol in Symbols() then (Symbols()[symbol], true) else (ZeroUnit(AreaUnit), false)
  }

  /** Every predefined unit is found under its own symbol. */
  lemma LookupFindsAll()
    ensures forall u | u in All() :: Lookup(u.base.symbol) == (u, true)
  {
    SymbolsFindAll();
  }

  /** The cases of UnmarshalArea (serialize.go:1036-1055): accepted symbols, key name, unit. */
  function Cases(): seq<Serialize.Case>
  {
    [
      Serialize.Case(["m²"], "square_meter", SquareMeter()),
      Serialize.Case(["km²"], "square_kilometer", SquareKilometer()),
      Serialize.Case(["cm²"], "square_centimeter", SquareCentimeter()),
      Serialize.Case(["mm²"], "square_millimeter", SquareMillimeter()),
      Serialize.Case(["in²"], "square_inch", SquareInch()),
      Serialize.Case(["ft²"], "square_foot", SquareFoot()),
      Serialize.Case(["yd²"], "square_yard", SquareYard()),
      Serialize.Case(["mi²"], "square_mile", SquareMile()),
      Serialize.Case(["ac"], "acre", Acre()),
      Serialize.Case(["ha"], "hectare", Hectare())
    ]
  }

  lemma CasesHoldOnlyAll()
    ensures forall c | c in Cases() :: c.unit in All()
  {
  }

  /** UnmarshalArea (serialize.go:1024-1061): any of the three formats, unit chosen by the first matching case. */
  function Unmarshal(j: Json): (r: Result<Quantity>)
    ensures r.Ok? <==> Serialize.DecodeUnit("area", "area", Cases(), j).Ok?
    ensures r.Ok? ==> r.value.unit in All() && (r.value.value, r.value.unit) == Serialize.DecodeUnit("area", "area", Cases(), j).value
  {
    var d :- Serialize.DecodeUnit("area", "area", Cases(), j);
    CasesHoldOnlyAll();
    Ok(New(d.0, d.1))
  }

  /** The case that first lists each unit's symbol is that unit's own. */
  lemma SquareMeterListedFirst() ensures SquareMeter().base.symbol != "" && Serialize.FirstListing(Cases(), SquareMeter(), 0) {}
  lemma SquareKilometerListedFirst() ensures SquareKilometer().base.symbol != "" && Serialize.FirstListing(Cases(), SquareKilometer(), 1) {}
  lemma SquareCentimeterListedFirst() ensures SquareCentimeter().base.symbol != "" && Serialize.FirstListing(Cases(), SquareCentimeter(), 2) {}
  lemma SquareMillimeterListedFirst() ensures SquareMillimeter().base.symbol != "" && Serialize.FirstListing(Cases(), SquareMillimeter(), 3) {}
  lemma SquareInchListedFirst() ensures SquareInch().base.symbol != "" && Serialize.FirstListing(Cases(), SquareInch(), 4) {}
  lemma SquareFootListedFirst() ensures SquareFoot().base.symbol != "" && Serialize.FirstListing(Cases(), SquareFoot(), 5) {}
  lemma SquareYardListedFirst() ensures SquareYard().base.symbol != "" && Serialize.FirstListing(Cases(), SquareYard(), 6) {}
  lemma SquareMileListedFirst() ensures SquareMile().base.symbol != "" && Serialize.FirstListing(Cases(), SquareMile(), 7) {}
  lemma AcreListedFirst() ensures Acre().base.symbol != "" && Serialize.FirstListing(Cases(), Acre(), 8) {}
  lemma HectareListedFirst() ensures Hectare().base.symbol != "" && Serialize.FirstListing(Cases(), Hectare(), 9) {}

  /** Each predefined unit has a symbol, and the first case listing it is its own. */
  lemma CasesListAll(u: Unit)
    requires u in All()
    ensures u.base.symbol != "" && exists i :: Serialize.FirstListing(Cases(), u, i)
  {
    if u == SquareMeter() { SquareMeterListedFirst(); }
    else if u == SquareKilometer() { SquareKilometerListedFirst(); }
    else if u == SquareCentimeter() { SquareCentimeterListedFirst(); }
    else if u == SquareMillimeter() { SquareMillimeterListedFirst(); }
    else if u == SquareInch() { SquareInchListedFirst(); }
    else if u == SquareFoot() { SquareFootListedFirst(); }
    else if u == SquareYard() { SquareYardListedFirst(); }
    else if u == SquareMile() { SquareMileListedFirst(); }
    else if u == Acre() { AcreListedFirst(); }
    else if u == Hectare() { HectareListedFirst(); }
  }

  /** A quantity in any predefined unit, written by marshalGeneric, is read back unchanged. */
  lemma UnmarshalRoundTrip(v: real, u: Unit)
    requires u in All()
    ensures Unmarshal(Serialize.MarshalGeneric(New(v, u))) == Ok(New(v, u))
  {
    CasesListAll(u);
    var i :| Serialize.FirstListing(Cases(), u, i);
    Serialize.DecodeMarshalledFull(New(v, u), "area", "area", Cases(), i);
  }

  /** The compact key table (serialize_compact.go:72-83). */
  function Keys(): map<string, Unit> {
    map[
      "area_square_meter" := SquareMeter(),
      "area_square_kilometer" := SquareKilometer(),
      "area_square_centimeter" := SquareCentimeter(),
      "area_square_millimeter" := SquareMillimeter(),
      "area_square_inch" := SquareInch(),
      "area_square_foot" := SquareFoot(),
      "area_square_yard" := SquareYard(),
      "area_square_mile" := SquareMile(),
      "area_acre" := Acre(),
      "area_hectare" := Hectare()
    ]
  }

  /** The key table holds only predefined units. */
  lemma KeysHoldOnlyAll()
    ensures forall k | k in Keys() :: Keys()[k] in All()
  {
  }

  /** UnmarshalCompactArea (serialize_compact.go:370-380): the unit of the key in the table. */
  function UnmarshalCompact(j: Json): (r: Result<Quantity>)
    ensures r.Ok? <==> SerializeCompact.DecodeCompactUnit("area", Keys(), j).Ok?
    ensures r.Ok? ==> r.value.unit in All() && (r.value.value, r.value.unit) == SerializeCompact.DecodeCompactUnit("area", Keys(), j).value
  {
    var d :- SerializeCompact.DecodeCompactUnit("area", Keys(), j);
    KeysHoldOnlyAll();
    Ok(New(d.0, d.1))
  }

  /** 1 km² is 100 ha. */
  lemma Examples()
    ensures ConvertTo(New(1.0, SquareKilometer()), Hectare()).value == 100.0
  {
  }
}
