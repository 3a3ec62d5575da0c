/** The predefined information units (information.go); Byte is the base unit. */
module Information {
  import opened Results
  import opened JsonValue
  import opened Units
  import opened Quantities
  import Serialize
  import SerializeCompact

  /** A unit of this dimension, as built by NewBaseUnit("information", ...). */
  function Make(symbol: string, name: string, coefficient: real, offset: real, isBase: bool): (u: Unit)
    ensures u.kind == InformationUnit && u.base == BaseUnit("information", symbol, name, coefficient, offset, isBase)
  {
    Unit(InformationUnit, NewBaseUnit("information", symbol, name, coefficient, offset, isBase))
  }

  function Bit(): Unit { Make("bit", "Bit", 0.125, 0.0, false) }
  function Byte(): Unit { Make("B", "Byte", 1.0, 0.0, true) }
  function Kilobyte(): Unit { Make("KB", "Kilobyte", 1000.0, 0.0, false) }
  function Megabyte(): Unit { Make("MB", "Megabyte", 1000000.0, 0.0, false) }
  function Gigabyte(): Unit { Make("GB", "Gigabyte", 1000000000.0, 0.0, false) }
  function Terabyte(): Unit { Make("TB", "Terabyte", 1000000000000.0, 0.0, false) }
  function Petabyte(): Unit { Make("PB", "Petabyte", 1000000000000000.0, 0.0, false) }
  function Kibibyte(): Unit { Make("KiB", "Kibibyte", 1024.0, 0.0, false) }
  function Mebibyte(): Unit { Make("MiB", "Mebibyte", 1048576.0, 0.0, false) }
  function Gibibyte(): Unit { Make("GiB", "Gibibyte", 1073741824.0, 0.0, false) }
  function Tebibyte(): Unit { Make("TiB", "Tebibyte", 1099511627776.0, 0.0, false) }
  function Pebibyte(): Unit { Make("PiB", "Pebibyte", 1125899906842624.0, 0.0, false) }

  /** The predefined units, in declaration order. */
  function All(): (r: seq<Unit>)
    ensures forall u | u in r :: u.kind == InformationUnit && u.base.dimension == "information"
    ensures Byte() in r && Byte().base.isBase
    ensures forall u | u in r && u.base.isBase :: u == Byte()
    ensures forall u | u in r :: u.base.offset == 0.0 && u.base.coefficient > 0.0
  {
    [Bit(), Byte(), Kilobyte(), Megabyte(), Gigabyte(), Terabyte(), Petabyte(), Kibibyte(), Mebibyte(), Gibibyte(), Tebibyte(), Pebibyte()]
  }

  /** The information symbol registry (unit_registry.go:184-197): symbols and accepted aliases. */
  function Symbols(): map<string, Unit> {
    map[
      "bit" := Bit(),
      "B" := Byte(),
      "KB" := Kilobyte(),
      "MB" := Megabyte(),
      "GB" := Gigabyte(),
      "TB" := Terabyte(),
      "PB" := Petabyte(),
      "KiB" := Kibibyte(),
      "MiB" := Mebibyte(),
      "GiB" := Gibibyte(),
      "TiB" := Tebibyte(),
      "PiB" := Pebibyte()
    ]
  }

  /** The registry finds each predefined unit under its own symbol. */
  lemma SymbolsFindAll()
    ensures forall u | u in All() :: u.base.symbol in Symbols() && Symbols()[u.base.symbol] == u
  {
    var m := Symbols();
    assert m[Bit().base.symbol] == Bit();
    assert m[Byte().base.symbol] == Byte();
    assert m[Kilobyte().base.symbol] == Kilobyte();
    assert m[Megabyte().base.symbol] == Megabyte();
    assert m[Gigabyte().base.symbol] == Gigabyte();
    assert m[Terabyte().base.symbol] == Terabyte();
    assert m[Petabyte().base.symbol] == Petabyte();
    assert m[Kibibyte().base.symbol] == Kibibyte();
    assert m[Mebibyte().base.symbol] == Mebibyte();
    assert m[Gibibyte().base.symbol] == Gibibyte();
    assert m[Tebibyte().base.symbol] == Tebibyte();
    assert m[Pebibyte().base.symbol] == Pebibyte();
  }

  /** The registry holds only predefined units. */
  lemma SymbolsHoldOnlyAll()
    ensures forall s | s in Symbols() :: Symbols()[s] in All()
  {
  }

  /** LookupInformationUnit (unit_registry.go:326-329): the registered unit and true, or the zero unit and false. */
  function Lookup(symbol: string): (r: (Unit, bool))
    ensures r.1 <==> symbol in Symbols()
    ensures r.1 ==> r.0 == Symbols()[symbol] && r.0 in All()
    ensures !r.1 ==> r.0 == ZeroUnit(InformationUnit)
  {
    SymbolsHoldOnlyAll();
    if symbol in Symbols() then (Symbols()[symbol], true) else (ZeroUnit(InformationUnit), false)
  }

  /** Every predefined unit is found under its own symbol. */
  lemma LookupFindsAll()
    ensures forall u | u in All() :: Lookup(u.base.symbol) == (u, true)
  {
    SymbolsFindAll();
  }

  /** The cases of UnmarshalInformation (serialize.go:1369-1392): accepted symbols, key name, unit. */
  function Cases(): seq<Serialize.Case>
  {
    [
      Serialize.Case(["bit"], "bit", Bit()),
      Serialize.Case(["B"], "byte", Byte()),
      Serialize.Case(["KB"], "kilobyte", Kilobyte()),
      Serialize.Case(["MB"], "megabyte", Megabyte()),
      Serialize.Case(["GB"], "gigabyte", Gigabyte()),
      Serialize.Case(["TB"], "terabyte", Terabyte()),
      Serialize.Case(["PB"], "petabyte", Petabyte()),
      Serialize.Case(["KiB"], "kibibyte", Kibibyte()),
      Serialize.Case(["MiB"], "mebibyte", Mebibyte()),
      Serialize.Case(["GiB"], "gibibyte", Gibibyte()),
      Serialize.Case(["TiB"], "tebibyte", Tebibyte()),
      Serialize.Case(["PiB"], "pebibyte", Pebibyte())
    ]
  }

  lemma CasesHoldOnlyAll()
    ensures forall c | c in Cases() :: c.unit in All()
  {
  }

  /** UnmarshalInformation (serialize.go:1357-1398): any of the three formats, unit chosen by the first matching case. */
  function Unmarshal(j: Json): (r: Result<Quantity>)
    ensures r.Ok? <==> Serialize.DecodeUnit("information", "information", Cases(), j).Ok?
    ensures r.Ok? ==> r.value.unit in All() && (r.value.value, r.value.unit) == Serialize.DecodeUnit("information", "information", Cases(), j).value
  {
    var d :- Serialize.DecodeUnit("information", "information", Cases(), j);
    CasesHoldOnlyAll();
    Ok(New(d.0, d.1))
  }

  /** The case that first lists each unit's symbol is that unit's own. */
  lemma BitListedFirst() ensures Bit().base.symbol != "" && Serialize.FirstListing(Cases(), Bit(), 0) {}
  lemma ByteListedFirst() ensures Byte().base.symbol != "" && Serialize.FirstListing(Cases(), Byte(), 1) {}
  lemma KilobyteListedFirst() ensures Kilobyte().base.symbol != "" && Serialize.FirstListing(Cases(), Kilobyte(), 2) {}
  lemma MegabyteListedFirst() ensures Megabyte().base.symbol != "" && Serialize.FirstListing(Cases(), Megabyte(), 3) {}
  lemma GigabyteListedFirst() ensures Gigabyte().base.symbol != "" && Serialize.FirstListing(Cases(), Gigabyte(), 4) {}
  lemma TerabyteListedFirst() ensures Terabyte().base.symbol != "" && Serialize.FirstListing(Cases(), Terabyte(), 5) {}
  lemma PetabyteListedFirst() ensures Petabyte().base.symbol != "" && Serialize.FirstListing(Cases(), Petabyte(), 6) {}
  lemma KibibyteListedFirst() ensures Kibibyte().base.symbol != "" && Serialize.FirstListing(Cases(), Kibibyte(), 7) {}
  lemma MebibyteListedFirst() ensures Mebibyte().base.symbol != "" && Serialize.FirstListing(Cases(), Mebibyte(), 8) {}
  lemma GibibyteListedFirst() ensures Gibibyte().base.symbol != "" && Serialize.FirstListing(Cases(), Gibibyte(), 9) {}
  lemma TebibyteListedFirst() ensures Tebibyte().base.symbol != "" && Serialize.FirstListing(Cases(), Tebibyte(), 10) {}
  lemma PebibyteListedFirst() ensures Pebibyte().base.symbol != "" && Serialize.FirstListing(Cases(), Pebibyte(), 11) {}

  /** Each predefined unit has a symbol, and the first case listing it is its own. */
  lemma CasesListAll(u: Unit)
    requires u in All()
    ensures u.base.symbol != "" && exists i :: Serialize.FirstListing(Cases(), u, i)
  {
    if u == Bit() { BitListedFirst(); }
    else if u == Byte() { ByteListedFirst(); }
    else if u == Kilobyte() { KilobyteListedFirst(); }
    else if u == Megabyte() { MegabyteListedFirst(); }
    else if u == Gigabyte() { GigabyteListedFirst(); }
    else if u == Terabyte() { TerabyteListedFirst(); }
    else if u == Petabyte() { PetabyteListedFirst(); }
    else if u == Kibibyte() { KibibyteListedFirst(); }
    else if u == Mebibyte() { MebibyteListedFirst(); }
    else if u == Gibibyte() { GibibyteListedFirst(); }
    else if u == Tebibyte() { TebibyteListedFirst(); }
    else if u == Pebibyte() { PebibyteListedFirst(); }
  }

  /** A quantity in any predefined unit, written by marshalGeneric, is read back unchanged. */
  lemma UnmarshalRoundTrip(v: real, u: Unit)
    requires u in All()
    ensures Unmarshal(Serialize.MarshalGeneric(New(v, u))) == Ok(New(v, u))
  {
    CasesListAll(u);
    var i :| Serialize.FirstListing(Cases(), u, i);
    Serialize.DecodeMarshalledFull(New(v, u), "information", "information", Cases(), i);
  }

  /** The compact key table (serialize_compact.go:187-200). */
  function Keys(): map<string, Unit> {
    map[
      "information_bit" := Bit(),
      "information_byte" := Byte(),
      "information_kilobyte" := Kilobyte(),
      "information_megabyte" := Megabyte(),
      "information_gigabyte" := Gigabyte(),
      "information_terabyte" := Terabyte(),
      "information_petabyte" := Petabyte(),
      "information_kibibyte" := Kibibyte(),
      "information_mebibyte" := Mebibyte(),
      "information_gibibyte" := Gibibyte(),
      "information_tebibyte" := Tebibyte(),
      "information_pebibyte" := Pebibyte()
    ]
  }

  /** The key table holds only predefined units. */
  lemma KeysHoldOnlyAll()
    ensures forall k | k in Keys() :: Keys()[k] in All()
  {
  }

  /** UnmarshalCompactInformation (serialize_compact.go:692-702): the unit of the key in the table. */
  function UnmarshalCompact(j: Json): (r: Result<Quantity>)
    ensures r.Ok? <==> SerializeCompact.DecodeCompactUnit("information", Keys(), j).Ok?
    ensures r.Ok? ==> r.value.unit in All() && (r.value.value, r.value.unit) == SerializeCompact.DecodeCompactUnit("information", Keys(), j).value
  {
    var d :- SerializeCompact.DecodeCompactUnit("information", Keys(), j);
    KeysHoldOnlyAll();
    Ok(New(d.0, d.1))
  }

  /** 1000 B is 1 KB, 1 KiB is 1024 B, 1 MiB is 1024 KiB, 8 bit is 1 B and 1 B is 8 bit. */
  lemma Examples()
    ensures ConvertTo(New(1000.0, Byte()), Kilobyte()).value == 1.0
    ensures ConvertTo(New(1.0, Kibibyte()), Byte()).value == 1024.0
    ensures ConvertTo(New(1.0, Mebibyte()), Kibibyte()).value == 1024.0
    ensures ConvertTo(New(8.0, Bit()), Byte()).value == 1.0
    ensures ConvertTo(New(1.0, Byte()), Bit()).value == 8.0
  {
  }

  /** 1024 B + 1 KiB is 2048 B, and 1 KiB - 1024 B is 0 KiB. */
  lemma MixedPrefixArithmetic()
    ensures Add(New(1024.0, Byte()), New(1.0, Kibibyte())) == New(2048.0, Byte())
    ensures Subtract(New(1.0, Kibibyte()), New(1024.0, Byte())) == New(0.0, Kibibyte())
  {
  }
}
