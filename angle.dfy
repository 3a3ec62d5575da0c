/** The predefined angle units (angle.go); Radian is the base unit. */
module Angle {
  import opened Results
  import opened JsonValue
  import opened Units
  import opened Quantities
  import Serialize
  import SerializeCompact

  /** math.Pi, left uninterpreted: only its being positive is relied on. */
  type PositiveReal = r: real | r > 0.0 witness 1.0
  const Pi: PositiveReal

  /** A unit of this dimension, as built by NewBaseUnit("angle", ...). */
  function Make(symbol: string, name: string, coefficient: real, offset: real, isBase: bool): (u: Unit)
    ensures u.kind == AngleUnit && u.base == BaseUnit("angle", symbol, name, coefficient, offset, isBase)
  {
    Unit(AngleUnit, NewBaseUnit("angle", symbol, name, coefficient, offset, isBase))
  }

  function Radian(): Unit { Make("rad", "Radian", 1.0, 0.0, true) }
  function Degree(): Unit { Make("°", "Degree", Pi / 180.0, 0.0, false) }
  function Arcminute(): Unit { Make("′", "Arcminute", Pi / (180.0 * 60.0), 0.0, false) }
  function Arcsecond(): Unit { Make("″", "Arcsecond", Pi / (180.0 * 60.0 * 60.0), 0.0, false) }
  function Revolution(): Unit { Make("rev", "Revolution", 2.0 * Pi, 0.0, false) }
  function Gradian(): Unit { Make("grad", "Gradian", Pi / 200.0, 0.0, false) }

  /** The predefined units, in declaration order. */
  function All(): (r: seq<Unit>)
    ensures forall u | u in r :: u.kind == AngleUnit && u.base.dimension == "angle"
    ensures Radian() in r && Radian().base.isBase
    ensures forall u | u in r && u.base.isBase :: u == Radian()
    ensures forall u | u in r :: u.base.offset == 0.0 && u.base.coefficient > 0.0
  {
    [Radian(), Degree(), Arcminute(), Arcsecond(), Revolution(), Gradian()]
  }

  /** The angle symbol registry (unit_registry.go:78-85): symbols and accepted aliases. */
  function Symbols(): map<string, Unit> {
    map[
      "rad" := Radian(),
      "°" := Degree(),
      "′" := Arcminute(),
      "″" := Arcsecond(),
      "rev" := Revolution(),
      "grad" := Gradian()
    ]
  }

  /** The registry finds each predefined unit under its own symbol. */
  lemma SymbolsFindAll()
    ensures forall u | u in All() :: u.base.symbol in Symbols() && Symbols()[u.base.symbol] == u
  {
    var m := Symbols();
    assert m[Radian().base.symbol] == Radian();
    assert m[Degree().base.symbol] == Degree();
    assert m[Arcminute().base.symbol] == Arcminute();
    assert m[Arcsecond().base.symbol] == Arcsecond();
    assert m[Revolution().base.symbol] == Revolution();
    assert m[Gradian().base.symbol] == Gradian();
  }

  /** The registry holds only predefined units. */
  lemma SymbolsHoldOnlyAll()
    ensures forall s | s in Symbols() :: Symbols()[s] in All()
  {
  }

  /** LookupAngleUnit (unit_registry.go:254-257): the registered unit and true, or the zero unit and false. */
  function Lookup(symbol: string): (r: (Unit, bool))
    ensures r.1 <==> symbol in Symbols()
    ensures r.1 ==> r.0 == Symbols()[symbol] && r.0 in All()
    ensures !r.1 ==> r.0 == ZeroUnit(AngleUnit)
  {
    SymbolsHoldOnlyAll();
    if symbol in Symbols() then (Symbols()[symbol], true) else (ZeroUnit(AngleUnit), false)
  }

  /** Every predefined unit is found under its own symbol. */
  lemma LookupFindsAll()
    ensures forall u | u in All() :: Lookup(u.base.symbol) == (u, true)
  {
    SymbolsFindAll();
  }

  /** The cases of UnmarshalAngle (serialize.go:999-1010): accepted symbols, key name, unit. */
  function Cases(): seq<Serialize.Case>
  {
    [
      Serialize.Case(["rad"], "radian", Radian()),
      Serialize.Case(["°"], "degree", Degree()),
      Serialize.Case(["′"], "arcminute", Arcminute()),
      Serialize.Case(["″"], "arcsecond", Arcsecond()),
      Serialize.Case(["rev"], "revolution", Revolution()),
      Serialize.Case(["grad"], "gradian", Gradian())
    ]
  }

  lemma CasesHoldOnlyAll()
    ensures forall c | c in Cases() :: c.unit in All()
  {
  }

  /** UnmarshalAngle (serialize.go:987-1016): any of the three formats, unit chosen by the first matching case. */
  function Unmarshal(j: Json): (r: Result<Quantity>)
    ensures r.Ok? <==> Serialize.DecodeUnit("angle", "angle", Cases(), j).Ok?
    ensures r.Ok? ==> r.value.unit in All() && (r.value.value, r.value.unit) == Serialize.DecodeUnit("angle", "angle", Cases(), j).value
  {
    var d :- Serialize.DecodeUnit("angle", "angle", Cases(), j);
    CasesHoldOnlyAll();
    Ok(New(d.0, d.1))
  }

  /** The case that first lists each unit's symbol is that unit's own. */
  lemma RadianListedFirst() ensures Radian().base.symbol != "" && Serialize.FirstListing(Cases(), Radian(), 0) {}
  lemma DegreeListedFirst() ensures Degree().base.symbol != "" && Serialize.FirstListing(Cases(), Degree(), 1) {}
  lemma ArcminuteListedFirst() ensures Arcminute().base.symbol != "" && Serialize.FirstListing(Cases(), Arcminute(), 2) {}
  lemma ArcsecondListedFirst() ensures Arcsecond().base.symbol != "" && Serialize.FirstListing(Cases(), Arcsecond(), 3) {}
  lemma RevolutionListedFirst() ensures Revolution().base.symbol != "" && Serialize.FirstListing(Cases(), Revolution(), 4) {}
  lemma GradianListedFirst() ensures Gradian().base.symbol != "" && Serialize.FirstListing(Cases(), Gradian(), 5) {}

  /** Each predefined unit has a symbol, and the first case listing it is its own. */
  lemma CasesListAll(u: Unit)
    requires u in All()
    ensures u.base.symbol != "" && exists i :: Serialize.FirstListing(Cases(), u, i)
  {
    if u == Radian() { RadianListedFirst(); }
    else if u == Degree() { DegreeListedFirst(); }
    else if u == Arcminute() { ArcminuteListedFirst(); }
    else if u == Arcsecond() { ArcsecondListedFirst(); }
    else if u == Revolution() { RevolutionListedFirst(); }
    else if u == Gradian() { GradianListedFirst(); }
  }

  /** A quantity in any predefined unit, written by marshalGeneric, is read back unchanged. */
  lemma UnmarshalRoundTrip(v: real, u: Unit)
    requires u in All()
    ensures Unmarshal(Serialize.MarshalGeneric(New(v, u))) == Ok(New(v, u))
  {
    CasesListAll(u);
    var i :| Serialize.FirstListing(Cases(), u, i);
    Serialize.DecodeMarshalledFull(New(v, u), "angle", "angle", Cases(), i);
  }

  /** The compact key table (serialize_compact.go:63-70). */
  function Keys(): map<string, Unit> {
    map[
      "angle_radian" := Radian(),
      "angle_degree" := Degree(),
      "angle_arcminute" := Arcminute(),
      "angle_arcsecond" := Arcsecond(),
      "angle_revolution" := Revolution(),
      "angle_gradian" := Gradian()
    ]
  }

  /** The key table holds only predefined units. */
  lemma KeysHoldOnlyAll()
    ensures forall k | k in Keys() :: Keys()[k] in All()
  {
  }

  /** UnmarshalCompactAngle (serialize_compact.go:347-357): the unit of the key in the table. */
  function UnmarshalCompact(j: Json): (r: Result<Quantity>)
    ensures r.Ok? <==> SerializeCompact.DecodeCompactUnit("angle", Keys(), j).Ok?
    ensures r.Ok? ==> r.value.unit in All() && (r.value.value, r.value.unit) == SerializeCompact.DecodeCompactUnit("angle", Keys(), j).value
  {
    var d :- SerializeCompact.DecodeCompactUnit("angle", Keys(), j);
    KeysHoldOnlyAll();
    Ok(New(d.0, d.1))
  }

  /** π is positive, so it cancels from both sides of an equation. */
  lemma CancelPi(x: real, y: real)
    requires x * Pi == y * Pi
    ensures x == y
  {
    assert (x - y) * Pi == 0.0;
  }

  /** v degrees are v/360 revolutions and v/0.9 gradians, whatever the value of π. */
  lemma DegreesToRevolutionsAndGradians(v: real)
    ensures ConvertTo(New(v, Degree()), Revolution()).value == v / 360.0
    ensures ConvertTo(New(v, Degree()), Gradian()).value == v / 0.9
  {
    var rev := ConvertTo(New(v, Degree()), Revolution()).value;
    assert rev * (2.0 * Pi) == v * (Pi / 180.0);
    CancelPi(rev * 2.0, v / 180.0);
    var grad := ConvertTo(New(v, Degree()), Gradian()).value;
    assert grad * (Pi / 200.0) == v * (Pi / 180.0);
    CancelPi(grad / 200.0, v / 180.0);
  }

  /** 90° is π/2 rad, 0.25 rev and 100 grad. */
  lemma Examples()
    ensures ConvertTo(New(90.0, Degree()), Radian()).value == Pi / 2.0
    ensures ConvertTo(New(90.0, Degree()), Revolution()).value == 0.25
    ensures ConvertTo(New(90.0, Degree()), Gradian()).value == 100.0
  {
    DegreesToRevolutionsAndGradians(90.0);
  }

  /** 90° + π/4 rad is 135°. */
  lemma MixedUnitAddition()
    ensures Add(New(90.0, Degree()), New(Pi / 4.0, Radian())).value == 135.0
  {
    var d := ConvertTo(New(Pi / 4.0, Radian()), Degree()).value;
    assert d * (Pi / 180.0) == Pi / 4.0;
    CancelPi(d / 180.0, 0.25);
  }
}
