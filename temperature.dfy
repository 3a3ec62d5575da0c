/** The predefined temperature units (temperature.go); Celsius is the base unit. */
module Temperature {
  import opened Results
  import opened JsonValue
  import opened Units
  import opened Quantities
  import Serialize
  import SerializeCompact

  /** A unit of this dimension, as built by NewBaseUnit("temperature", ...). */
  function Make(symbol: string, name: string, coefficient: real, offset: real, isBase: bool): (u: Unit)
    ensures u.kind == TemperatureUnit && u.base == BaseUnit("temperature", symbol, name, coefficient, offset, isBase)
  {
    Unit(TemperatureUnit, NewBaseUnit("temperature", symbol, name, coefficient, offset, isBase))
  }

  function Celsius(): Unit { Make("°C", "Celsius", 1.0, 0.0, true) }
  function Fahrenheit(): Unit { Make("°F", "Fahrenheit", 5.0 / 9.0, -17.0, false) }
  function Kelvin(): Unit { Make("K", "Kelvin", 1.0, -273.15, false) }

  /** The predefined units, in declaration order. */
  function All(): (r: seq<Unit>)
    ensures forall u | u in r :: u.kind == TemperatureUnit && u.base.dimension == "temperature"
    ensures Celsius() in r && Celsius().base.isBase
    ensures forall u | u in r && u.base.isBase :: u == Celsius()
    ensures forall u | u in r :: u.base.coefficient > 0.0
    ensures Fahrenheit().base.offset == -17.0 && Kelvin().base.offset == -273.15
  {
    [Celsius(), Fahrenheit(), Kelvin()]
  }

  /** The temperature symbol registry (unit_registry.go:8-14): symbols and accepted aliases. */
  function Symbols(): map<string, Unit> {
    map[
      "°C" := Celsius(),
      "C" := Celsius(),
      "°F" := Fahrenheit(),
      "F" := Fahrenheit(),
      "K" := Kelvin()
    ]
  }

  /** The registry finds each predefined unit under its own symbol. */
  lemma SymbolsFindAll()
    ensures forall u | u in All() :: u.base.symbol in Symbols() && Symbols()[u.base.symbol] == u
  {
    var m := Symbols();
    assert m[Celsius().base.symbol] == Celsius();
    assert m[Fahrenheit().base.symbol] == Fahrenheit();
    assert m[Kelvin().base.symbol] == Kelvin();
  }

  /** The registry holds only predefined units. */
  lemma SymbolsHoldOnlyAll()
    ensures forall s | s in Symbols() :: Symbols()[s] in All()
  {
  }

  /** LookupTemperatureUnit (unit_registry.go:206-209): the registered unit and true, or the zero unit and false. */
  function Lookup(symbol: string): (r: (Unit, bool))
    ensures r.1 <==> symbol in Symbols()
    ensures r.1 ==> r.0 == Symbols()[symbol] && r.0 in All()
    ensures !r.1 ==> r.0 == ZeroUnit(TemperatureUnit)
  {
    SymbolsHoldOnlyAll();
    if symbol in Symbols() then (Symbols()[symbol], true) else (ZeroUnit(TemperatureUnit), false)
  }

  /** Every predefined unit is found under its own symbol. */
  lemma LookupFindsAll()
    ensures forall u | u in All() :: Lookup(u.base.symbol) == (u, true)
  {
    SymbolsFindAll();
  }

  /** The cases of UnmarshalTemperature (serialize.go:713-718): accepted symbols, key name, unit. */
  function Cases(): seq<Serialize.Case>
  {
    [
      Serialize.Case(["°C", "C"], "celsius", Celsius()),
      Serialize.Case(["°F", "F"], "fahrenheit", Fahrenheit()),
      Serialize.Case(["K"], "kelvin", Kelvin())
    ]
  }

  lemma CasesHoldOnlyAll()
    ensures forall c | c in Cases() :: c.unit in All()
  {
  }

  /** UnmarshalTemperature (serialize.go:701-724): any of the three formats, unit chosen by the first matching case. */
  function Unmarshal(j: Json): (r: Result<Quantity>)
    ensures r.Ok? <==> Serialize.DecodeUnit("temperature", "temperature", Cases(), j).Ok?
    ensures r.Ok? ==> r.value.unit in All() && (r.value.value, r.value.unit) == Serialize.DecodeUnit("temperature", "temperature", Cases(), j).value
  {
    var d :- Serialize.DecodeUnit("temperature", "temperature", Cases(), j);
    CasesHoldOnlyAll();
    Ok(New(d.0, d.1))
  }

  /** The case that first lists each unit's symbol is that unit's own. */
  lemma CelsiusListedFirst() ensures Celsius().base.symbol != "" && Serialize.FirstListing(Cases(), Celsius(), 0) {}
  lemma FahrenheitListedFirst() ensures Fahrenheit().base.symbol != "" && Serialize.FirstListing(Cases(), Fahrenheit(), 1) {}
  lemma KelvinListedFirst() ensures Kelvin().base.symbol != "" && Serialize.FirstListing(Cases(), Kelvin(), 2) {}

  /** Each predefined unit has a symbol, and the first case listing it is its own. */
  lemma CasesListAll(u: Unit)
    requires u in All()
    ensures u.base.symbol != "" && exists i :: Serialize.FirstListing(Cases(), u, i)
  {
    if u == Celsius() { CelsiusListedFirst(); }
    else if u == Fahrenheit() { FahrenheitListedFirst(); }
    else if u == Kelvin() { KelvinListedFirst(); }
  }

  /** A quantity in any predefined unit, written by marshalGeneric, is read back unchanged. */
  lemma UnmarshalRoundTrip(v: real, u: Unit)
    requires u in All()
    ensures Unmarshal(Serialize.MarshalGeneric(New(v, u))) == Ok(New(v, u))
  {
    CasesListAll(u);
    var i :| Serialize.FirstListing(Cases(), u, i);
    Serialize.DecodeMarshalledFull(New(v, u), "temperature", "temperature", Cases(), i);
  }

  /** The compact key table (serialize_compact.go:14-18). */
  function Keys(): map<string, Unit> {
    map[
      "temperature_celsius" := Celsius(),
      "temperature_fahrenheit" := Fahrenheit(),
      "temperature_kelvin" := Kelvin()
    ]
  }

  /** The key table holds only predefined units. */
  lemma KeysHoldOnlyAll()
    ensures forall k | k in Keys() :: Keys()[k] in All()
  {
  }

  /** UnmarshalCompactTemperature (serialize_compact.go:232-242): the unit of the key in the table. */
  function UnmarshalCompact(j: Json): (r: Result<Quantity>)
    ensures r.Ok? <==> SerializeCompact.DecodeCompactUnit("temperature", Keys(), j).Ok?
    ensures r.Ok? ==> r.value.unit in All() && (r.value.value, r.value.unit) == SerializeCompact.DecodeCompactUnit("temperature", Keys(), j).value
  {
    var d :- SerializeCompact.DecodeCompactUnit("temperature", Keys(), j);
    KeysHoldOnlyAll();
    Ok(New(d.0, d.1))
  }

  /** 25 °C is 75.6 °F and 298.15 K, and 75.6 °F converts back to 25 °C. */
  lemma CelsiusConversions()
    ensures ConvertTo(New(25.0, Celsius()), Fahrenheit()).value == 75.6
    ensures ConvertTo(New(25.0, Celsius()), Kelvin()).value == 298.15
    ensures ConvertTo(New(75.6, Fahrenheit()), Celsius()).value == 25.0
  {
  }

  /**
   * The Fahrenheit offset is the integer constant -32*5/9 = -17 rather than
   * -160/9, so the scale is shifted: 0 °C is 30.6 °F and 32 °F is 7/9 °C.
   */
  lemma FahrenheitOffsetIsTruncated()
    ensures ConvertTo(New(0.0, Celsius()), Fahrenheit()).value == 30.6
    ensures ConvertTo(New(32.0, Fahrenheit()), Celsius()).value == 7.0 / 9.0
  {
  }

  /** 20 °C + 68 °F is 367/9 °C (about 40.78) and 20 °C - 68 °F is -7/9 °C (about -0.78). */
  lemma MixedUnitArithmetic()
    ensures Add(New(20.0, Celsius()), New(68.0, Fahrenheit())).value == 367.0 / 9.0
    ensures Subtract(New(20.0, Celsius()), New(68.0, Fahrenheit())).value == -7.0 / 9.0
  {
  }
}
