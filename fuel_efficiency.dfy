/** The predefined fuel efficiency units (fuel_efficiency.go); KilometersPerLiter is the base unit. */
module FuelEfficiency {
  import opened Results
  import opened JsonValue
  import opened Units
  import opened Quantities
  import Serialize
  import SerializeCompact

  /** A unit of this dimension, as built by NewBaseUnit("fuel_efficiency", ...). */
  function Make(symbol: string, name: string, coefficient: real, offset: real, isBase: bool): (u: Unit)
    ensures u.kind == FuelEfficiencyUnit && u.base == BaseUnit("fuel_efficiency", symbol, name, coefficient, offset, isBase)
  {
    Unit(FuelEfficiencyUnit, NewBaseUnit("fuel_efficiency", symbol, name, coefficient, offset, isBase))
  }

  function KilometersPerLiter(): Unit { Make("km/L", "Kilometers per Liter", 1.0, 0.0, true) }
  function MilesPerGallon(): Unit { Make("mpg", "Miles per Gallon", 0.425144, 0.0, false) }
  function LitersPer100Kilometers(): Unit { Make("L/100km", "Liters per 100 Kilometers", -100.0, 0.0, false) }

  /** The predefined units, in declaration order. */
  function All(): (r: seq<Unit>)
    ensures forall u | u in r :: u.kind == FuelEfficiencyUnit && u.base.dimension == "fuel_efficiency"
    ensures KilometersPerLiter() in r && KilometersPerLiter().base.isBase
    ensures forall u | u in r && u.base.isBase :: u == KilometersPerLiter()
    ensures forall u | u in r :: u.base.offset == 0.0
    ensures forall u | u in r :: u.base.coefficient > 0.0 <==> u != LitersPer100Kilometers()
  {
    [KilometersPerLiter(), MilesPerGallon(), LitersPer100Kilometers()]
  }

  /** The fuel efficiency symbol registry (unit_registry.go:199-203): symbols and accepted aliases. */
  function Symbols(): map<string, Unit> {
    map[
      "km/L" := KilometersPerLiter(),
      "mpg" := MilesPerGallon(),
      "L/100km" := LitersPer100Kilometers()
    ]
  }

  /** The registry finds each predefined unit under its own symbol. */
  lemma SymbolsFindAll()
    ensures forall u | u in All() :: u.base.symbol in Symbols() && Symbols()[u.base.symbol] == u
  {
    var m := Symbols();
    assert m[KilometersPerLiter().base.symbol] == KilometersPerLiter();
    assert m[MilesPerGallon().base.symbol] == MilesPerGallon();
    assert m[LitersPer100Kilometers().base.symbol] == LitersPer100Kilometers();
  }

  /** The registry holds only predefined units. */
  lemma SymbolsHoldOnlyAll()
    ensures forall s | s in Symbols() :: Symbols()[s] in All()
  {
  }

  /** LookupFuelEfficiencyUnit (unit_registry.go:332-335): the registered unit and true, or the zero unit and false. */
  function Lookup(symbol: string): (r: (Unit, bool))
    ensures r.1 <==> symbol in Symbols()
    ensures r.1 ==> r.0 == Symbols()[symbol] && r.0 in All()
    ensures !r.1 ==> r.0 == ZeroUnit(FuelEfficiencyUnit)
  {
    SymbolsHoldOnlyAll();
    if symbol in Symbols() then (Symbols()[symbol], true) else (ZeroUnit(FuelEfficiencyUnit), false)
  }

  /** Every predefined unit is found under its own symbol. */
  lemma LookupFindsAll()
    ensures forall u | u in All() :: Lookup(u.base.symbol) == (u, true)
  {
    SymbolsFindAll();
  }

  /** The cases of UnmarshalFuelEfficiency (serialize.go:1524-1529): accepted symbols, key name, unit. */
  function Cases(): seq<Serialize.Case>
  {
    [
      Serialize.Case(["km/L"], "kilometers_per_liter", KilometersPerLiter()),
      Serialize.Case(["mpg"], "miles_per_gallon", MilesPerGallon()),
      Serialize.Case(["L/100km"], "liters_per_100_kilometers", LitersPer100Kilometers())
    ]
  }

  lemma CasesHoldOnlyAll()
    ensures forall c | c in Cases() :: c.unit in All()
  {
  }

  /** NewFuelEfficiency panics on 0 L/100km, so the decoder does too. */
  predicate CanUnmarshal(j: Json)
  {
    var r := Serialize.DecodeUnit("fuel_efficiency", "fuel efficiency", Cases(), j);
    r.Ok? ==> !(Units.Equals(r.value.1.base, LitersPer100Kilometers().base) && r.value.0 == 0.0)
  }

  /** UnmarshalFuelEfficiency (serialize.go:1512-1535): any of the three formats, unit chosen by the first matching case. */
  function Unmarshal(j: Json): (r: Result<Quantity>)
    requires CanUnmarshal(j)
    ensures r.Ok? <==> Serialize.DecodeUnit("fuel_efficiency", "fuel efficiency", Cases(), j).Ok?
    ensures r.Ok? ==> r.value.unit in All() && (r.value.value, r.value.unit) == Serialize.DecodeUnit("fuel_efficiency", "fuel efficiency", Cases(), j).value
  {
    var d :- Serialize.DecodeUnit("fuel_efficiency", "fuel efficiency", Cases(), j);
    CasesHoldOnlyAll();
    Ok(NewFuelEfficiency(d.0, d.1))
  }

  /** The case that first lists each unit's symbol is that unit's own. */
  lemma KilometersPerLiterListedFirst() ensures KilometersPerLiter().base.symbol != "" && Serialize.FirstListing(Cases(), KilometersPerLiter(), 0) {}
  lemma MilesPerGallonListedFirst() ensures MilesPerGallon().base.symbol != "" && Serialize.FirstListing(Cases(), MilesPerGallon(), 1) {}
  lemma LitersPer100KilometersListedFirst() ensures LitersPer100Kilometers().base.symbol != "" && Serialize.FirstListing(Cases(), LitersPer100Kilometers(), 2) {}

  /** Each predefined unit has a symbol, and the first case listing it is its own. */
  lemma CasesListAll(u: Unit)
    requires u in All()
    ensures u.base.symbol != "" && exists i :: Serialize.FirstListing(Cases(), u, i)
  {
    if u == KilometersPerLiter() { KilometersPerLiterListedFirst(); }
    else if u == MilesPerGallon() { MilesPerGallonListedFirst(); }
    else if u == LitersPer100Kilometers() { LitersPer100KilometersListedFirst(); }
  }

  /** A quantity in any predefined unit, written by marshalGeneric, is read back unchanged. */
  lemma UnmarshalRoundTrip(v: real, u: Unit)
    requires u in All()
    requires !(u == LitersPer100Kilometers() && v == 0.0)
    ensures CanUnmarshal(Serialize.MarshalGeneric(New(v, u)))
    ensures Unmarshal(Serialize.MarshalGeneric(New(v, u))) == Ok(New(v, u))
  {
    CasesListAll(u);
    var i :| Serialize.FirstListing(Cases(), u, i);
    Serialize.DecodeMarshalledFull(New(v, u), "fuel_efficiency", "fuel efficiency", Cases(), i);
  }

  /** The compact key table (serialize_compact.go:202-206). */
  function Keys(): map<string, Unit> {
    map[
      "fuel_efficiency_kilometers_per_liter" := KilometersPerLiter(),
      "fuel_efficiency_miles_per_gallon" := MilesPerGallon(),
      "fuel_efficiency_liters_per100_kilometers" := LitersPer100Kilometers()
    ]
  }

  /** The key table holds only predefined units. */
  lemma KeysHoldOnlyAll()
    ensures forall k | k in Keys() :: Keys()[k] in All()
  {
  }

  predicate CanUnmarshalCompact(j: Json)
  {
    var r := SerializeCompact.DecodeCompactUnit("fuel_efficiency", Keys(), j);
    r.Ok? ==> !(Units.Equals(r.value.1.base, LitersPer100Kilometers().base) && r.value.0 == 0.0)
  }

  /** UnmarshalCompactFuelEfficiency (serialize_compact.go:715-725): the unit of the key in the table. */
  function UnmarshalCompact(j: Json): (r: Result<Quantity>)
    requires CanUnmarshalCompact(j)
    ensures r.Ok? <==> SerializeCompact.DecodeCompactUnit("fuel_efficiency", Keys(), j).Ok?
    ensures r.Ok? ==> r.value.unit in All() && (r.value.value, r.value.unit) == SerializeCompact.DecodeCompactUnit("fuel_efficiency", Keys(), j).value
  {
    var d :- SerializeCompact.DecodeCompactUnit("fuel_efficiency", Keys(), j);
    KeysHoldOnlyAll();
    Ok(NewFuelEfficiency(d.0, d.1))
  }

  /** Creating 0 L/100km panics ("infinite efficiency"). */
  function NewFuelEfficiency(value: real, unit: Unit): (q: Quantity)
    requires unit.kind == FuelEfficiencyUnit
    requires !(Units.Equals(unit.base, LitersPer100Kilometers().base) && value == 0.0)
    ensures q == New(value, unit)
    ensures Units.Equals(unit.base, LitersPer100Kilometers().base) ==> CanToBase(q.unit, q.value)
  {
    New(value, unit)
  }

  /** 5 L/100km is 20 km/L, 10 km/L is 10 L/100km, and 10 km/L is 10 / 0.425144 mpg. */
  lemma InverseConversions()
    ensures ConvertTo(New(5.0, LitersPer100Kilometers()), KilometersPerLiter()).value == 20.0
    ensures ConvertTo(New(10.0, KilometersPerLiter()), LitersPer100Kilometers()).value == 10.0
    ensures ConvertTo(New(10.0, KilometersPerLiter()), MilesPerGallon()).value == 10.0 / 0.425144
  {
  }

  /** Any non-zero consumption survives the trip to km/L and back. */
  lemma ConsumptionRoundTrip(v: real)
    requires v != 0.0
    ensures CanConvert(New(v, LitersPer100Kilometers()), KilometersPerLiter())
    ensures var e := ConvertTo(New(v, LitersPer100Kilometers()), KilometersPerLiter());
            CanConvert(e, LitersPer100Kilometers()) && ConvertTo(e, LitersPer100Kilometers()).value == v
  {
    var e := ConvertTo(New(v, LitersPer100Kilometers()), KilometersPerLiter());
    assert e.value * v == 100.0;
    RoundTripThroughBase(LitersPer100Kilometers(), v);
  }

  /** 5 L/100km + 10 km/L is 15 L/100km, in the left operand's unit. */
  lemma MixedInverseAddition()
    ensures Add(New(5.0, LitersPer100Kilometers()), New(10.0, KilometersPerLiter())) == New(15.0, LitersPer100Kilometers())
  {
  }
}
