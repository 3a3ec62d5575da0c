/** The predefined duration units (duration.go); Second is the base unit. */
module Duration {
  import opened Results
  import opened JsonValue
  import opened Units
  import opened Quantities
  import Serialize
  import SerializeCompact

  /** A unit of this dimension, as built by NewBaseUnit("duration", ...). */
  function Make(symbol: string, name: string, coefficient: real, offset: real, isBase: bool): (u: Unit)
    ensures u.kind == DurationUnit && u.base == BaseUnit("duration", symbol, name, coefficient, offset, isBase)
  {
    Unit(DurationUnit, NewBaseUnit("duration", symbol, name, coefficient, offset, isBase))
  }

  function Second(): Unit { Make("s", "Second", 1.0, 0.0, true) }
  function Minute(): Unit { Make("min", "Minute", 60.0, 0.0, false) }
  function Hour(): Unit { Make("h", "Hour", 3600.0, 0.0, false) }
  function Day(): Unit { Make("d", "Day", 86400.0, 0.0, false) }
  function Millisecond(): Unit { Make("ms", "Millisecond", 0.001, 0.0, false) }
  function Microsecond(): Unit { Make("µs", "Microsecond", 0.000001, 0.0, false) }
  function Nanosecond(): Unit { Make("ns", "Nanosecond", 0.000000001, 0.0, false) }

  /** The predefined units, in declaration order. */
  function All(): (r: seq<Unit>)
    ensures forall u | u in r :: u.kind == DurationUnit && u.base.dimension == "duration"
    ensures Second() in r && Second().base.isBase
    ensures forall u | u in r && u.base.isBase :: u == Second()
    ensures forall u | u in r :: u.base.offset == 0.0 && u.base.coefficient > 0.0
  {
    [Second(), Minute(), Hour(), Day(), Millisecond(), Microsecond(), Nanosecond()]
  }

  /** The duration symbol registry (unit_registry.go:68-76): symbols and accepted aliases. */
  function Symbols(): map<string, Unit> {
    map[
      "s" := Second(),
      "min" := Minute(),
      "h" := Hour(),
      "d" := Day(),
      "ms" := Millisecond(),
      "µs" := Microsecond(),
      "ns" := Nanosecond()
    ]
  }

  /** The registry finds each predefined unit under its own symbol. */
  lemma SymbolsFindAll()
    ensures forall u | u in All() :: u.base.symbol in Symbols() && Symbols()[u.base.symbol] == u
  {
    var m := Symbols();
    assert m[Second().base.symbol] == Second();
    assert m[Minute().base.symbol] == Minute();
    assert m[Hour().base.symbol] == Hour();
    assert m[Day().base.symbol] == Day();
    assert m[Millisecond().base.symbol] == Millisecond();
    assert m[Microsecond().base.symbol] == Microsecond();
    assert m[Nanosecond().base.symbol] == Nanosecond();
  }

  /** The registry holds only predefined units. */
  lemma SymbolsHoldOnlyAll()
    ensures forall s | s in Symbols() :: Symbols()[s] in All()
  {
  }

  /** LookupDurationUnit (unit_registry.go:248-251): the registered unit and true, or the zero unit and false. */
  function Lookup(symbol: string): (r: (Unit, bool))
    ensures r.1 <==> symbol in Symbols()
    ensures r.1 ==> r.0 == Symbols()[symbol] && r.0 in All()
    ensures !r.1 ==> r.0 == ZeroUnit(DurationUnit)
  {
    SymbolsHoldOnlyAll();
    if symbol in Symbols() then (Symbols()[symbol], true) else (ZeroUnit(DurationUnit), false)
  }

  /** Every predefined unit is found under its own symbol. */
  lemma LookupFindsAll()
    ensures forall u | u in All() :: Lookup(u.base.symbol) == (u, true)
  {
    SymbolsFindAll();
  }

  /** The cases of UnmarshalDuration (serialize.go:960-973): accepted symbols, key name, unit. */
  function Cases(): seq<Serialize.Case>
  {
    [
      Serialize.Case(["s"], "second", Second()),
      Serialize.Case(["min"], "minute", Minute()),
      Serialize.Case(["h"], "hour", Hour()),
      Serialize.Case(["d"], "day", Day()),
      Serialize.Case(["ms"], "millisecond", Millisecond()),
      Serialize.Case(["µs"], "microsecond", Microsecond()),
      Serialize.Case(["ns"], "nanosecond", Nanosecond())
    ]
  }

  lemma CasesHoldOnlyAll()
    ensures forall c | c in Cases() :: c.unit in All()
  {
  }

  /** UnmarshalDuration (serialize.go:948-979): any of the three formats, unit chosen by the first matching case. */
  function Unmarshal(j: Json): (r: Result<Quantity>)
    ensures r.Ok? <==> Serialize.DecodeUnit("duration", "duration", Cases(), j).Ok?
    ensures r.Ok? ==> r.value.unit in All() && (r.value.value, r.value.unit) == Serialize.DecodeUnit("duration", "duration", Cases(), j).value
  {
    var d :- Serialize.DecodeUnit("duration", "duration", Cases(), j);
    CasesHoldOnlyAll();
    Ok(New(d.0, d.1))
  }

  /** The case that first lists each unit's symbol is that unit's own. */
  lemma SecondListedFirst() ensures Second().base.symbol != "" && Serialize.FirstListing(Cases(), Second(), 0) {}
  lemma MinuteListedFirst() ensures Minute().base.symbol != "" && Serialize.FirstListing(Cases(), Minute(), 1) {}
  lemma HourListedFirst() ensures Hour().base.symbol != "" && Serialize.FirstListing(Cases(), Hour(), 2) {}
  lemma DayListedFirst() ensures Day().base.symbol != "" && Serialize.FirstListing(Cases(), Day(), 3) {}
  lemma MillisecondListedFirst() ensures Millisecond().base.symbol != "" && Serialize.FirstListing(Cases(), Millisecond(), 4) {}
  lemma MicrosecondListedFirst() ensures Microsecond().base.symbol != "" && Serialize.FirstListing(Cases(), Microsecond(), 5) {}
  lemma NanosecondListedFirst() ensures Nanosecond().base.symbol != "" && Serialize.FirstListing(Cases(), Nanosecond(), 6) {}

  /** Each predefined unit has a symbol, and the first case listing it is its own. */
  lemma CasesListAll(u: Unit)
    requires u in All()
    ensures u.base.symbol != "" && exists i :: Serialize.FirstListing(Cases(), u, i)
  {
    if u == Second() { SecondListedFirst(); }
    else if u == Minute() { MinuteListedFirst(); }
    else if u == Hour() { HourListedFirst(); }
    else if u == Day() { DayListedFirst(); }
    else if u == Millisecond() { MillisecondListedFirst(); }
    else if u == Microsecond() { MicrosecondListedFirst(); }
    else if u == Nanosecond() { NanosecondListedFirst(); }
  }

  /** A quantity in any predefined unit, written by marshalGeneric, is read back unchanged. */
  lemma UnmarshalRoundTrip(v: real, u: Unit)
    requires u in All()
    ensures Unmarshal(Serialize.MarshalGeneric(New(v, u))) == Ok(New(v, u))
  {
    CasesListAll(u);
    var i :| Serialize.FirstListing(Cases(), u, i);
    Serialize.DecodeMarshalledFull(New(v, u), "duration", "duration", Cases(), i);
  }

  /** The compact key table (serialize_compact.go:53-61). */
  function Keys(): map<string, Unit> {
    map[
      "duration_second" := Second(),
      "duration_minute" := Minute(),
      "duration_hour" := Hour(),
      "duration_day" := Day(),
      "duration_millisecond" := Millisecond(),
      "duration_microsecond" := Microsecond(),
      "duration_nanosecond" := Nanosecond()
    ]
  }

  /** The key table holds only predefined units. */
  lemma KeysHoldOnlyAll()
    ensures forall k | k in Keys() :: Keys()[k] in All()
  {
  }

  /** UnmarshalCompactDuration (serialize_compact.go:324-334): the unit of the key in the table. */
  function UnmarshalCompact(j: Json): (r: Result<Quantity>)
    ensures r.Ok? <==> SerializeCompact.DecodeCompactUnit("duration", Keys(), j).Ok?
    ensures r.Ok? ==> r.value.unit in All() && (r.value.value, r.value.unit) == SerializeCompact.DecodeCompactUnit("duration", Keys(), j).value
  {
    var d :- SerializeCompact.DecodeCompactUnit("duration", Keys(), j);
    KeysHoldOnlyAll();
    Ok(New(d.0, d.1))
  }

  /** 60 s is 1 min and 60000 ms; 60 s + 2 min is 180 s; an hour is 3600 s and a day 86400 s. */
  lemma Examples()
    ensures ConvertTo(New(60.0, Second()), Minute()).value == 1.0
    ensures ConvertTo(New(60.0, Second()), Millisecond()).value == 60000.0
    ensures Add(New(60.0, Second()), New(2.0, Minute())).value == 180.0
    ensures ToBase(Hour(), 1.0) == 3600.0 && ToBase(Day(), 1.0) == 86400.0
  {
  }
}
