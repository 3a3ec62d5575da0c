/** The predefined length units (length.go); Meter is the base unit. */
module Length {
  import opened Results
  import opened JsonValue
  import opened Units
  import opened Quantities
  import Serialize
  import SerializeCompact

  /** A unit of this dimension, as built by NewBaseUnit("length", ...). */
  function Make(symbol: string, name: string, coefficient: real, offset: real, isBase: bool): (u: Unit)
    ensures u.kind == LengthUnit && u.base == BaseUnit("length", symbol, name, coefficient, offset, isBase)
  {
    Unit(LengthUnit, NewBaseUnit("length", symbol, name, coefficient, offset, isBase))
  }

  function Meter(): Unit { Make("m", "Meter", 1.0, 0.0, true) }
  function Kilometer(): Unit { Make("km", "Kilometer", 1000.0, 0.0, false) }
  function Centimeter(): Unit { Make("cm", "Centimeter", 0.01, 0.0, false) }
  function Millimeter(): Unit { Make("mm", "Millimeter", 0.001, 0.0, false) }
  function Micrometer(): Unit { Make("µm", "Micrometer", 0.000001, 0.0, false) }
  function Nanometer(): Unit { Make("nm", "Nanometer", 0.000000001, 0.0, false) }
  function Inch(): Unit { Make("in", "Inch", 0.0254, 0.0, false) }
  function Foot(): Unit { Make("ft", "Foot", 0.3048, 0.0, false) }
  function Yard(): Unit { Make("yd", "Yard", 0.9144, 0.0, false) }
  function Mile(): Unit { Make("mi", "Mile", 1609.34, 0.0, false) }

  /** The predefined units, in declaration order. */
  function All(): (r: seq<Unit>)
    ensures forall u | u in r :: u.kind == LengthUnit && u.base.dimension == "length"
    ensures Meter() in r && Meter().base.isBase
    ensures forall u | u in r && u.base.isBase :: u == Meter()
    ensures forall u | u in r :: u.base.offset == 0.0 && u.base.coefficient > 0.0
  {
    [Meter(), Kilometer(), Centimeter(), Millimeter(), Micrometer(), Nanometer(), Inch(), Foot(), Yard(), Mile()]
  }

  /** The length symbol registry (unit_registry.go:43-54): symbols and accepted aliases. */
  function Symbols(): map<string, Unit> {
    map[
      "m" := Meter(),
      "km" := Kilometer(),
      "cm" := Centimeter(),
      "mm" := Millimeter(),
      "µm" := Micrometer(),
      "nm" := Nanometer(),
      "in" := Inch(),
      "ft" := Foot(),
      "yd" := Yard(),
      "mi" := Mile()
    ]
  }

  /** The registry finds each predefined unit under its own symbol. */
  lemma SymbolsFindAll()
    ensures forall u | u in All() :: u.base.symbol in Symbols() && Symbols()[u.base.symbol] == u
  {
    var m := Symbols();
    assert m[Meter().base.symbol] == Meter();
    assert m[Kilometer().base.symbol] == Kilometer();
    assert m[Centimeter().base.symbol] == Centimeter();
    assert m[Millimeter().base.symbol] == Millimeter();
    assert m[Micrometer().base.symbol] == Micrometer();
    assert m[Nanometer().base.symbol] == Nanometer();
    assert m[Inch().base.symbol] == Inch();
    assert m[Foot().base.symbol] == Foot();
    assert m[Yard().base.symbol] == Yard();
    assert m[Mile().base.symbol] == Mile();
  }

  /** The registry holds only predefined units. */
  lemma SymbolsHoldOnlyAll()
    ensures forall s | s in Symbols() :: Symbols()[s] in All()
  {
  }

  /** LookupLengthUnit (unit_registry.go:236-239): the registered unit and true, or the zero unit and false. */
  function Lookup(symbol: string): (r: (Unit, bool))
    ensures r.1 <==> symbol in Symbols()
    ensures r.1 ==> r.0 == Symbols()[symbol] && r.0 in All()
    ensures !r.1 ==> r.0 == ZeroUnit(LengthUnit)
  {
    SymbolsHoldOnlyAll();
    if symbol in Symbols() then (Symbols()[symbol], true) else (ZeroUnit(LengthUnit), false)
  }

  /** Every predefined unit is found under its own symbol. */
  lemma LookupFindsAll()
    ensures forall u | u in All() :: Lookup(u.base.symbol) == (u, true)
  {
    SymbolsFindAll();
  }

  /** The cases of UnmarshalLength (serialize.go:872-891): accepted symbols, key name, unit. */
  function Cases(): seq<Serialize.Case>
  {
    [
      Serialize.Case(["m"], "meter", Meter()),
      Serialize.Case(["km"], "kilometer", Kilometer()),
      Serialize.Case(["cm"], "centimeter", Centimeter()),
      Serialize.Case(["mm"], "millimeter", Millimeter()),
      Serialize.Case(["µm"], "micrometer", Micrometer()),
      Serialize.Case(["nm"], "nanometer", Nanometer()),
      Serialize.Case(["in"], "inch", Inch()),
      Serialize.Case(["ft"], "foot", Foot()),
      Serialize.Case(["yd"], "yard", Yard()),
      Serialize.Case(["mi"], "mile", Mile())
    ]
  }

  lemma CasesHoldOnlyAll()
    ensures forall c | c in Cases() :: c.unit in All()
  {
  }

  /** UnmarshalLength (serialize.go:860-897): any of the three formats, unit chosen by the first matching case. */
  function Unmarshal(j: Json): (r: Result<Quantity>)
    ensures r.Ok? <==> Serialize.DecodeUnit("length", "length", Cases(), j).Ok?
    ensures r.Ok? ==> r.value.unit in All() && (r.value.value, r.value.unit) == Serialize.DecodeUnit("length", "length", Cases(), j).value
  {
    var d :- Serialize.DecodeUnit("length", "length", Cases(), j);
    CasesHoldOnlyAll();
    Ok(New(d.0, d.1))
  }

  /** The case that first lists each unit's symbol is that unit's own. */
  lemma MeterListedFirst() ensures Meter().base.symbol != "" && Serialize.FirstListing(Cases(), Meter(), 0) {}
  lemma KilometerListedFirst() ensures Kilometer().base.symbol != "" && Serialize.FirstListing(Cases(), Kilometer(), 1) {}
  lemma CentimeterListedFirst() ensures Centimeter().base.symbol != "" && Serialize.FirstListing(Cases(), Centimeter(), 2) {}
  lemma MillimeterListedFirst() ensures Millimeter().base.symbol != "" && Serialize.FirstListing(Cases(), Millimeter(), 3) {}
  lemma MicrometerListedFirst() ensures Micrometer().base.symbol != "" && Serialize.FirstListing(Cases(), Micrometer(), 4) {}
  lemma NanometerListedFirst() ensures Nanometer().base.symbol != "" && Serialize.FirstListing(Cases(), Nanometer(), 5) {}
  lemma InchListedFirst() ensures Inch().base.symbol != "" && Serialize.FirstListing(Cases(), Inch(), 6) {}
  lemma FootListedFirst() ensures Foot().base.symbol != "" && Serialize.FirstListing(Cases(), Foot(), 7) {}
  lemma YardListedFirst() ensures Yard().base.symbol != "" && Serialize.FirstListing(Cases(), Yard(), 8) {}
  lemma MileListedFirst() ensures Mile().base.symbol != "" && Serialize.FirstListing(Cases(), Mile(), 9) {}

  /** Each predefined unit has a symbol, and the first case listing it is its own. */
  lemma CasesListAll(u: Unit)
    requires u in All()
    ensures u.base.symbol != "" && exists i :: Serialize.FirstListing(Cases(), u, i)
  {
    if u == Meter() { MeterListedFirst(); }
    else if u == Kilometer() { KilometerListedFirst(); }
    else if u == Centimeter() { CentimeterListedFirst(); }
    else if u == Millimeter() { MillimeterListedFirst(); }
    else if u == Micrometer() { MicrometerListedFirst(); }
    else if u == Nanometer() { NanometerListedFirst(); }
    else if u == Inch() { InchListedFirst(); }
    else if u == Foot() { FootListedFirst(); }
    else if u == Yard() { YardListedFirst(); }
    else if u == Mile() { MileListedFirst(); }
  }

  /** A quantity in any predefined unit, written by marshalGeneric, is read back unchanged. */
  lemma UnmarshalRoundTrip(v: real, u: Unit)
    requires u in All()
    ensures Unmarshal(Serialize.MarshalGeneric(New(v, u))) == Ok(New(v, u))
  {
    CasesListAll(u);
    var i :| Serialize.FirstListing(Cases(), u, i);
    Serialize.DecodeMarshalledFull(New(v, u), "length", "length", Cases(), i);
  }

  /** The compact key table (serialize_compact.go:28-39). */
  function Keys(): map<string, Unit> {
    map[
      "length_meter" := Meter(),
      "length_kilometer" := Kilometer(),
      "length_centimeter" := Centimeter(),
      "length_millimeter" := Millimeter(),
      "length_micrometer" := Micrometer(),
      "length_nanometer" := Nanometer(),
      "length_inch" := Inch(),
      "length_foot" := Foot(),
      "length_yard" := Yard(),
      "length_mile" := Mile()
    ]
  }

  /** The key table holds only predefined units. */
  lemma KeysHoldOnlyAll()
    ensures forall k | k in Keys() :: Keys()[k] in All()
  {
  }

  /** UnmarshalCompactLength (serialize_compact.go:278-288): the unit of the key in the table. */
  function UnmarshalCompact(j: Json): (r: Result<Quantity>)
    ensures r.Ok? <==> SerializeCompact.DecodeCompactUnit("length", Keys(), j).Ok?
    ensures r.Ok? ==> r.value.unit in All() && (r.value.value, r.value.unit) == SerializeCompact.DecodeCompactUnit("length", Keys(), j).value
  {
    var d :- SerializeCompact.DecodeCompactUnit("length", Keys(), j);
    KeysHoldOnlyAll();
    Ok(New(d.0, d.1))
  }

  /** 10 m is 0.01 km; 10 m + 5 ft is 11.524 m and 10 m - 5 ft is 8.476 m; 10 m * 2 is 20 m and 10 m / 2 is 5 m. */
  lemma Examples()
    ensures ConvertTo(New(10.0, Meter()), Kilometer()).value == 0.01
    ensures Add(New(10.0, Meter()), New(5.0, Foot())).value == 11.524
    ensures Subtract(New(10.0, Meter()), New(5.0, Foot())).value == 8.476
    ensures MultiplyByScalar(New(10.0, Meter()), 2.0) == New(20.0, Meter())
    ensures DivideByScalar(New(10.0, Meter()), 2.0) == New(5.0, Meter())
  {
  }
}
