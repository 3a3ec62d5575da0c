/**
 * The unit switches of the Parse<Dimension> functions (conversion.go:27-692)
 * as case lists, and the parsers built from them.  After lowering, each
 * switch picks the first case listing the token; every token is lower-case
 * and no token is listed twice, so every case is reachable, and every
 * predefined unit of a dimension but Megavolt is selected by its own symbol.
 */
module ConversionTables {
  import opened Results
  import opened Units
  import opened Quantities
  import opened Conversion
  import SerializeKeys
  import Temperature
  import Pressure
  import Length
  import Mass
  import Duration
  import Angle
  import Area
  import Volume
  import Acceleration
  import Concentration
  import Dispersion
  import ElectricCharge
  import ElectricCurrent
  import Speed
  import ElectricPotentialDifference

  /* ParseTemperature (conversion.go:27-57) */

  /** The tokens of each case of the switch (conversion.go:37-47), lowered. */
  function TemperatureTokens(): seq<seq<string>>
  {
    [
      ["c", "°c", "celsius"],
      ["f", "°f", "fahrenheit"],
      ["k", "kelvin"]
    ]
  }

  /** The unit of each case. */
  function TemperatureUnits(): seq<Unit>
  {
    [Temperature.Celsius(), Temperature.Fahrenheit(), Temperature.Kelvin()]
  }

  function TemperatureAliases(): seq<Alias>
  {
    Cases(TemperatureTokens(), TemperatureUnits())
  }

  /** The cases hold exactly the predefined temperature units. */
  lemma TemperatureUnitsAreAll()
    ensures forall i | 0 <= i < |TemperatureUnits()| :: TemperatureUnits()[i] in Temperature.All()
    ensures forall u | u in Temperature.All() :: u in TemperatureUnits()
  {
  }

  lemma TemperatureTokensLowerCase()
    ensures forall i | 0 <= i < 3 :: CaseLowerCase(TemperatureTokens(), i)
  {
  }

  lemma TemperatureTokensDistinct()
    ensures forall i | 0 <= i < 3 :: CaseDistinct(TemperatureTokens(), i)
  {
  }

  /** Every token of the temperature switch is lower-case and listed by one case only. */
  lemma TemperatureAliasesWellFormed()
    ensures WellFormedAliases(TemperatureAliases())
  {
    TemperatureTokensLowerCase();
    TemperatureTokensDistinct();
    CasesWellFormed(TemperatureTokens(), TemperatureUnits());
  }

  /** ParseTemperature: a quantity in a predefined temperature unit, or a ParseError. */
  function ParseTemperature(s: string): (r: ParseResult<Quantity>)
    ensures r.Parsed? ==> r.value.unit in Temperature.All()
  {
    TemperatureUnitsAreAll();
    ParsedUnitIsCase("temperature", TemperatureTokens(), TemperatureUnits(), s);
    ParseWith("temperature", TemperatureAliases(), s)
  }

  /** The symbol of every case's unit is listed by that case, and is read back whole. */
  lemma TemperatureUnitsSymbolListed0()
    ensures SerializeKeys.ToLower(TemperatureUnits()[0].base.symbol) in TemperatureTokens()[0] && IsUnitToken(TemperatureUnits()[0].base.symbol)
  {
    assert SerializeKeys.ToLower("°C") == "°c";
    assert TemperatureTokens()[0][1] == "°c";
  }

  lemma TemperatureUnitsSymbolListed1()
    ensures SerializeKeys.ToLower(TemperatureUnits()[1].base.symbol) in TemperatureTokens()[1] && IsUnitToken(TemperatureUnits()[1].base.symbol)
  {
    assert SerializeKeys.ToLower("°F") == "°f";
    assert TemperatureTokens()[1][1] == "°f";
  }

  lemma TemperatureUnitsSymbolListed2()
    ensures SerializeKeys.ToLower(TemperatureUnits()[2].base.symbol) in TemperatureTokens()[2] && IsUnitToken(TemperatureUnits()[2].base.symbol)
  {
    assert SerializeKeys.ToLower("K") == "k";
    assert TemperatureTokens()[2][0] == "k";
  }

  lemma TemperatureUnitsSymbolsListed()
    ensures forall i | 0 <= i < 3 :: SerializeKeys.ToLower(TemperatureUnits()[i].base.symbol) in TemperatureTokens()[i] && IsUnitToken(TemperatureUnits()[i].base.symbol)
  {
    forall i | 0 <= i < 3
      ensures SerializeKeys.ToLower(TemperatureUnits()[i].base.symbol) in TemperatureTokens()[i] && IsUnitToken(TemperatureUnits()[i].base.symbol)
    {
      if i == 0 { TemperatureUnitsSymbolListed0(); }
      else if i == 1 { TemperatureUnitsSymbolListed1(); }
      else { TemperatureUnitsSymbolListed2(); }
    }
  }

  /** Every predefined temperature unit, written after a value as FormatWithUnit writes it, is read back. */
  lemma ParseTemperatureSymbol(numeral: string, u: Unit)
    requires u in Temperature.All()
    requires IsNumeral(numeral) && InFloatRange(NumeralValue(numeral))
    ensures ParseTemperature(numeral + " " + u.base.symbol) == Parsed(New(NumeralValue(numeral), u))
  {
    TemperatureUnitsAreAll();
    TemperatureUnitsSymbolsListed();
    TemperatureAliasesWellFormed();
    ParseWithListedSymbol("temperature", TemperatureTokens(), TemperatureUnits(), u, numeral);
  }

  /* ParsePressure (conversion.go:60-96) */

  /** The tokens of each case of the switch (conversion.go:70-86), lowered. */
  function PressureTokens(): seq<seq<string>>
  {
    [
      ["pa", "pascal"],
      ["kpa", "kilopascal"],
      ["bar"],
      ["psi"],
      ["inh2o", "inh₂o", "inch water"]
    ]
  }

  /** The unit of each case. */
  function PressureUnits(): seq<Unit>
  {
    [Pressure.Pascal(), Pressure.Kilopascal(), Pressure.Bar(), Pressure.PSI(), Pressure.InchH2O()]
  }

  function PressureAliases(): seq<Alias>
  {
    Cases(PressureTokens(), PressureUnits())
  }

  /** The cases hold exactly the predefined pressure units. */
  lemma PressureUnitsAreAll()
    ensures forall i | 0 <= i < |PressureUnits()| :: PressureUnits()[i] in Pressure.All()
    ensures forall u | u in Pressure.All() :: u in PressureUnits()
  {
  }

  lemma PressureTokensLowerCase()
    ensures forall i | 0 <= i < 5 :: CaseLowerCase(PressureTokens(), i)
  {
  }

  lemma PressureTokensDistinct()
    ensures forall i | 0 <= i < 5 :: CaseDistinct(PressureTokens(), i)
  {
  }

  /** Every token of the pressure switch is lower-case and listed by one case only. */
  lemma PressureAliasesWellFormed()
    ensures WellFormedAliases(PressureAliases())
  {
    PressureTokensLowerCase();
    PressureTokensDistinct();
    CasesWellFormed(PressureTokens(), PressureUnits());
  }

  /** ParsePressure: a quantity in a predefined pressure unit, or a ParseError. */
  function ParsePressure(s: string): (r: ParseResult<Quantity>)
    ensures r.Parsed? ==> r.value.unit in Pressure.All()
  {
    PressureUnitsAreAll();
    ParsedUnitIsCase("pressure", PressureTokens(), PressureUnits(), s);
    ParseWith("pressure", PressureAliases(), s)
  }

  /** The symbol of every case's unit is listed by that case, and is read back whole. */
  lemma PressureUnitsSymbolListed0()
    ensures SerializeKeys.ToLower(PressureUnits()[0].base.symbol) in PressureTokens()[0] && IsUnitToken(PressureUnits()[0].base.symbol)
  {
    assert SerializeKeys.ToLower("Pa") == "pa";
    assert PressureTokens()[0][0] == "pa";
  }

  lemma PressureUnitsSymbolListed1()
    ensures SerializeKeys.ToLower(PressureUnits()[1].base.symbol) in PressureTokens()[1] && IsUnitToken(PressureUnits()[1].base.symbol)
  {
    assert SerializeKeys.ToLower("kPa") == "kpa";
    assert PressureTokens()[1][0] == "kpa";
  }

  lemma PressureUnitsSymbolListed2()
    ensures SerializeKeys.ToLower(PressureUnits()[2].base.symbol) in PressureTokens()[2] && IsUnitToken(PressureUnits()[2].base.symbol)
  {
    assert SerializeKeys.ToLower("bar") == "bar";
    assert PressureTokens()[2][0] == "bar";
  }

  lemma PressureUnitsSymbolListed3()
    ensures SerializeKeys.ToLower(PressureUnits()[3].base.symbol) in PressureTokens()[3] && IsUnitToken(PressureUnits()[3].base.symbol)
  {
    assert SerializeKeys.ToLower("psi") == "psi";
    assert PressureTokens()[3][0] == "psi";
  }

  lemma PressureUnitsSymbolListed4()
    ensures SerializeKeys.ToLower(PressureUnits()[4].base.symbol) in PressureTokens()[4] && IsUnitToken(PressureUnits()[4].base.symbol)
  {
    assert SerializeKeys.ToLower("inH₂O") == "inh₂o";
    assert PressureTokens()[4][1] == "inh₂o";
  }

  lemma PressureUnitsSymbolsListed()
    ensures forall i | 0 <= i < 5 :: SerializeKeys.ToLower(PressureUnits()[i].base.symbol) in PressureTokens()[i] && IsUnitToken(PressureUnits()[i].base.symbol)
  {
    forall i | 0 <= i < 5
      ensures SerializeKeys.ToLower(PressureUnits()[i].base.symbol) in PressureTokens()[i] && IsUnitToken(PressureUnits()[i].base.symbol)
    {
      if i == 0 { PressureUnitsSymbolListed0(); }
      else if i == 1 { PressureUnitsSymbolListed1(); }
      else if i == 2 { PressureUnitsSymbolListed2(); }
      else if i == 3 { PressureUnitsSymbolListed3(); }
      else { PressureUnitsSymbolListed4(); }
    }
  }

  /** Every predefined pressure unit, written after a value as FormatWithUnit writes it, is read back. */
  lemma ParsePressureSymbol(numeral: string, u: Unit)
    requires u in Pressure.All()
    requires IsNumeral(numeral) && InFloatRange(NumeralValue(numeral))
    ensures ParsePressure(numeral + " " + u.base.symbol) == Parsed(New(NumeralValue(numeral), u))
  {
    PressureUnitsAreAll();
    PressureUnitsSymbolsListed();
    PressureAliasesWellFormed();
    ParseWithListedSymbol("pressure", PressureTokens(), PressureUnits(), u, numeral);
  }

  /* ParseLength (conversion.go:124-175) */

  /** The tokens of each case of the switch (conversion.go:134-165), lowered. */
  function LengthTokens(): seq<seq<string>>
  {
    [
      ["m", "meter", "meters"],
      ["km", "kilometer", "kilometers"],
      ["cm", "centimeter", "centimeters"],
      ["mm", "millimeter", "millimeters"],
      ["µm", "um", "micrometer", "micrometers"],
      ["nm", "nanometer", "nanometers"],
      ["in", "inch", "inches"],
      ["ft", "foot", "feet"],
      ["yd", "yard", "yards"],
      ["mi", "mile", "miles"]
    ]
  }

  /** The unit of each case. */
  function LengthUnits(): seq<Unit>
  {
    [Length.Meter(), Length.Kilometer(), Length.Centimeter(), Length.Millimeter(), Length.Micrometer(), Length.Nanometer(), Length.Inch(), Length.Foot(), Length.Yard(), Length.Mile()]
  }

  function LengthAliases(): seq<Alias>
  {
    Cases(LengthTokens(), LengthUnits())
  }

  /** The cases hold exactly the predefined length units. */
  lemma LengthUnitsAreAll()
    ensures forall i | 0 <= i < |LengthUnits()| :: LengthUnits()[i] in Length.All()
    ensures forall u | u in Length.All() :: u in LengthUnits()
  {
  }

  lemma LengthTokensLowerCase0()
    ensures forall i | 0 <= i < 2 :: CaseLowerCase(LengthTokens(), i)
  {
  }

  lemma LengthTokensLowerCase2()
    ensures forall i | 2 <= i < 4 :: CaseLowerCase(LengthTokens(), i)
  {
  }

  lemma LengthTokensLowerCase4()
    ensures forall i | 4 <= i < 6 :: CaseLowerCase(LengthTokens(), i)
  {
  }

  lemma LengthTokensLowerCase6()
    ensures forall i | 6 <= i < 10 :: CaseLowerCase(LengthTokens(), i)
  {
  }

  lemma LengthTokensDistinct()
    ensures forall i | 0 <= i < 10 :: CaseDistinct(LengthTokens(), i)
  {
  }

  /** Every token of the length switch is lower-case and listed by one case only. */
  lemma LengthAliasesWellFormed()
    ensures WellFormedAliases(LengthAliases())
  {
    LengthTokensLowerCase0();
    LengthTokensLowerCase2();
    LengthTokensLowerCase4();
    LengthTokensLowerCase6();
    LengthTokensDistinct();
    CasesWellFormed(LengthTokens(), LengthUnits());
  }

  /** ParseLength: a quantity in a predefined length unit, or a ParseError. */
  function ParseLength(s: string): (r: ParseResult<Quantity>)
    ensures r.Parsed? ==> r.value.unit in Length.All()
  {
    LengthUnitsAreAll();
    ParsedUnitIsCase("length", LengthTokens(), LengthUnits(), s);
    ParseWith("length", LengthAliases(), s)
  }

  /** The symbol of every case's unit is listed by that case, and is read back whole. */
  lemma LengthUnitsSymbolListed0()
    ensures SerializeKeys.ToLower(LengthUnits()[0].base.symbol) in LengthTokens()[0] && IsUnitToken(LengthUnits()[0].base.symbol)
  {
    assert SerializeKeys.ToLower("m") == "m";
    assert LengthTokens()[0][0] == "m";
  }

  lemma LengthUnitsSymbolListed1()
    ensures SerializeKeys.ToLower(LengthUnits()[1].base.symbol) in LengthTokens()[1] && IsUnitToken(LengthUnits()[1].base.symbol)
  {
    assert SerializeKeys.ToLower("km") == "km";
    assert LengthTokens()[1][0] == "km";
  }

  lemma LengthUnitsSymbolListed2()
    ensures SerializeKeys.ToLower(LengthUnits()[2].base.symbol) in LengthTokens()[2] && IsUnitToken(LengthUnits()[2].base.symbol)
  {
    assert SerializeKeys.ToLower("cm") == "cm";
    assert LengthTokens()[2][0] == "cm";
  }

  lemma LengthUnitsSymbolListed3()
    ensures SerializeKeys.ToLower(LengthUnits()[3].base.symbol) in LengthTokens()[3] && IsUnitToken(LengthUnits()[3].base.symbol)
  {
    assert SerializeKeys.ToLower("mm") == "mm";
    assert LengthTokens()[3][0] == "mm";
  }

  lemma LengthUnitsSymbolListed4()
    ensures SerializeKeys.ToLower(LengthUnits()[4].base.symbol) in LengthTokens()[4] && IsUnitToken(LengthUnits()[4].base.symbol)
  {
    assert SerializeKeys.ToLower("µm") == "µm";
    assert LengthTokens()[4][0] == "µm";
  }

  lemma LengthUnitsSymbolListed5()
    ensures SerializeKeys.ToLower(LengthUnits()[5].base.symbol) in LengthTokens()[5] && IsUnitToken(LengthUnits()[5].base.symbol)
  {
    assert SerializeKeys.ToLower("nm") == "nm";
    assert LengthTokens()[5][0] == "nm";
  }

  lemma LengthUnitsSymbolListed6()
    ensures SerializeKeys.ToLower(LengthUnits()[6].base.symbol) in LengthTokens()[6] && IsUnitToken(LengthUnits()[6].base.symbol)
  {
    assert SerializeKeys.ToLower("in") == "in";
    assert LengthTokens()[6][0] == "in";
  }

  lemma LengthUnitsSymbolListed7()
    ensures SerializeKeys.ToLower(LengthUnits()[7].base.symbol) in LengthTokens()[7] && IsUnitToken(LengthUnits()[7].base.symbol)
  {
    assert SerializeKeys.ToLower("ft") == "ft";
    assert LengthTokens()[7][0] == "ft";
  }

  lemma LengthUnitsSymbolListed8()
    ensures SerializeKeys.ToLower(LengthUnits()[8].base.symbol) in LengthTokens()[8] && IsUnitToken(LengthUnits()[8].base.symbol)
  {
    assert SerializeKeys.ToLower("yd") == "yd";
    assert LengthTokens()[8][0] == "yd";
  }

  lemma LengthUnitsSymbolListed9()
    ensures SerializeKeys.ToLower(LengthUnits()[9].base.symbol) in LengthTokens()[9] && IsUnitToken(LengthUnits()[9].base.symbol)
  {
    assert SerializeKeys.ToLower("mi") == "mi";
    assert LengthTokens()[9][0] == "mi";
  }

  lemma LengthUnitsSymbolsListed()
    ensures forall i | 0 <= i < 10 :: SerializeKeys.ToLower(LengthUnits()[i].base.symbol) in LengthTokens()[i] && IsUnitToken(LengthUnits()[i].base.symbol)
  {
    forall i | 0 <= i < 10
      ensures SerializeKeys.ToLower(LengthUnits()[i].base.symbol) in LengthTokens()[i] && IsUnitToken(LengthUnits()[i].base.symbol)
    {
      if i == 0 { LengthUnitsSymbolListed0(); }
      else if i == 1 { LengthUnitsSymbolListed1(); }
      else if i == 2 { LengthUnitsSymbolListed2(); }
      else if i == 3 { LengthUnitsSymbolListed3(); }
      else if i == 4 { LengthUnitsSymbolListed4(); }
      else if i == 5 { LengthUnitsSymbolListed5(); }
      else if i == 6 { LengthUnitsSymbolListed6(); }
      else if i == 7 { LengthUnitsSymbolListed7(); }
      else if i == 8 { LengthUnitsSymbolListed8(); }
      else { LengthUnitsSymbolListed9(); }
    }
  }

  /** Every predefined length unit, written after a value as FormatWithUnit writes it, is read back. */
  lemma ParseLengthSymbol(numeral: string, u: Unit)
    requires u in Length.All()
    requires IsNumeral(numeral) && InFloatRange(NumeralValue(numeral))
    ensures ParseLength(numeral + " " + u.base.symbol) == Parsed(New(NumeralValue(numeral), u))
  {
    LengthUnitsAreAll();
    LengthUnitsSymbolsListed();
    LengthAliasesWellFormed();
    ParseWithListedSymbol("length", LengthTokens(), LengthUnits(), u, numeral);
  }

  /* ParseMass (conversion.go:178-226) */

  /** The tokens of each case of the switch (conversion.go:188-216), lowered. */
  function MassTokens(): seq<seq<string>>
  {
    [
      ["kg", "kilogram", "kilograms"],
      ["g", "gram", "grams"],
      ["mg", "milligram", "milligrams"],
      ["µg", "ug", "microgram", "micrograms"],
      ["lb", "pound", "pounds"],
      ["oz", "ounce", "ounces"],
      ["st", "stone", "stones"],
      ["t", "metric ton", "metric tons"],
      ["ton", "tons", "short ton", "short tons"]
    ]
  }

  /** The unit of each case. */
  function MassUnits(): seq<Unit>
  {
    [Mass.Kilogram(), Mass.Gram(), Mass.Milligram(), Mass.Microgram(), Mass.Pound(), Mass.Ounce(), Mass.Stone(), Mass.MetricTon(), Mass.Ton()]
  }

  function MassAliases(): seq<Alias>
  {
    Cases(MassTokens(), MassUnits())
  }

  /** The cases hold exactly the predefined mass units. */
  lemma MassUnitsAreAll()
    ensures forall i | 0 <= i < |MassUnits()| :: MassUnits()[i] in Mass.All()
    ensures forall u | u in Mass.All() :: u in MassUnits()
  {
  }

  lemma MassTokensLowerCase0()
    ensures forall i | 0 <= i < 3 :: CaseLowerCase(MassTokens(), i)
  {
  }

  lemma MassTokensLowerCase3()
    ensures forall i | 3 <= i < 6 :: CaseLowerCase(MassTokens(), i)
  {
  }

  lemma MassTokensLowerCase6()
    ensures forall i | 6 <= i < 8 :: CaseLowerCase(MassTokens(), i)
  {
  }

  lemma MassTokensLowerCase8()
    ensures forall i | 8 <= i < 9 :: CaseLowerCase(MassTokens(), i)
  {
  }

  lemma MassTokensDistinct()
    ensures forall i | 0 <= i < 9 :: CaseDistinct(MassTokens(), i)
  {
  }

  /** Every token of the mass switch is lower-case and listed by one case only. */
  lemma MassAliasesWellFormed()
    ensures WellFormedAliases(MassAliases())
  {
    MassTokensLowerCase0();
    MassTokensLowerCase3();
    MassTokensLowerCase6();
    MassTokensLowerCase8();
    MassTokensDistinct();
    CasesWellFormed(MassTokens(), MassUnits());
  }

  /** ParseMass: a quantity in a predefined mass unit, or a ParseError. */
  function ParseMass(s: string): (r: ParseResult<Quantity>)
    ensures r.Parsed? ==> r.value.unit in Mass.All()
  {
    MassUnitsAreAll();
    ParsedUnitIsCase("mass", MassTokens(), MassUnits(), s);
    ParseWith("mass", MassAliases(), s)
  }

  /** The symbol of every case's unit is listed by that case, and is read back whole. */
  lemma MassUnitsSymbolListed0()
    ensures SerializeKeys.ToLower(MassUnits()[0].base.symbol) in MassTokens()[0] && IsUnitToken(MassUnits()[0].base.symbol)
  {
    assert SerializeKeys.ToLower("kg") == "kg";
    assert MassTokens()[0][0] == "kg";
  }

  lemma MassUnitsSymbolListed1()
    ensures SerializeKeys.ToLower(MassUnits()[1].base.symbol) in MassTokens()[1] && IsUnitToken(MassUnits()[1].base.symbol)
  {
    assert SerializeKeys.ToLower("g") == "g";
    assert MassTokens()[1][0] == "g";
  }

  lemma MassUnitsSymbolListed2()
    ensures SerializeKeys.ToLower(MassUnits()[2].base.symbol) in MassTokens()[2] && IsUnitToken(MassUnits()[2].base.symbol)
  {
    assert SerializeKeys.ToLower("mg") == "mg";
    assert MassTokens()[2][0] == "mg";
  }

  lemma MassUnitsSymbolListed3()
    ensures SerializeKeys.ToLower(MassUnits()[3].base.symbol) in MassTokens()[3] && IsUnitToken(MassUnits()[3].base.symbol)
  {
    assert SerializeKeys.ToLower("µg") == "µg";
    assert MassTokens()[3][0] == "µg";
  }

  lemma MassUnitsSymbolListed4()
    ensures SerializeKeys.ToLower(MassUnits()[4].base.symbol) in MassTokens()[4] && IsUnitToken(MassUnits()[4].base.symbol)
  {
    assert SerializeKeys.ToLower("lb") == "lb";
    assert MassTokens()[4][0] == "lb";
  }

  lemma MassUnitsSymbolListed5()
    ensures SerializeKeys.ToLower(MassUnits()[5].base.symbol) in MassTokens()[5] && IsUnitToken(MassUnits()[5].base.symbol)
  {
    assert SerializeKeys.ToLower("oz") == "oz";
    assert MassTokens()[5][0] == "oz";
  }

  lemma MassUnitsSymbolListed6()
    ensures SerializeKeys.ToLower(MassUnits()[6].base.symbol) in MassTokens()[6] && IsUnitToken(MassUnits()[6].base.symbol)
  {
    assert SerializeKeys.ToLower("st") == "st";
    assert MassTokens()[6][0] == "st";
  }

  lemma MassUnitsSymbolListed7()
    ensures SerializeKeys.ToLower(MassUnits()[7].base.symbol) in MassTokens()[7] && IsUnitToken(MassUnits()[7].base.symbol)
  {
    assert SerializeKeys.ToLower("t") == "t";
    assert MassTokens()[7][0] == "t";
  }

  lemma MassUnitsSymbolListed8()
    ensures SerializeKeys.ToLower(MassUnits()[8].base.symbol) in MassTokens()[8] && IsUnitToken(MassUnits()[8].base.symbol)
  {
    assert SerializeKeys.ToLower("ton") == "ton";
    assert MassTokens()[8][0] == "ton";
  }

  lemma MassUnitsSymbolsListed()
    ensures forall i | 0 <= i < 9 :: SerializeKeys.ToLower(MassUnits()[i].base.symbol) in MassTokens()[i] && IsUnitToken(MassUnits()[i].base.symbol)
  {
    forall i | 0 <= i < 9
      ensures SerializeKeys.ToLower(MassUnits()[i].base.symbol) in MassTokens()[i] && IsUnitToken(MassUnits()[i].base.symbol)
    {
      if i == 0 { MassUnitsSymbolListed0(); }
      else if i == 1 { MassUnitsSymbolListed1(); }
      else if i == 2 { MassUnitsSymbolListed2(); }
      else if i == 3 { MassUnitsSymbolListed3(); }
      else if i == 4 { MassUnitsSymbolListed4(); }
      else if i == 5 { MassUnitsSymbolListed5(); }
      else if i == 6 { MassUnitsSymbolListed6(); }
      else if i == 7 { MassUnitsSymbolListed7(); }
      else { MassUnitsSymbolListed8(); }
    }
  }

  /** Every predefined mass unit, written after a value as FormatWithUnit writes it, is read back. */
  lemma ParseMassSymbol(numeral: string, u: Unit)
    requires u in Mass.All()
    requires IsNumeral(numeral) && InFloatRange(NumeralValue(numeral))
    ensures ParseMass(numeral + " " + u.base.symbol) == Parsed(New(NumeralValue(numeral), u))
  {
    MassUnitsAreAll();
    MassUnitsSymbolsListed();
    MassAliasesWellFormed();
    ParseWithListedSymbol("mass", MassTokens(), MassUnits(), u, numeral);
  }

  /* ParseDuration (conversion.go:229-271) */

  /** The tokens of each case of the switch (conversion.go:239-261), lowered. */
  function DurationTokens(): seq<seq<string>>
  {
    [
      ["s", "sec", "second", "seconds"],
      ["min", "minute", "minutes"],
      ["h", "hr", "hour", "hours"],
      ["d", "day", "days"],
      ["ms", "millisecond", "milliseconds"],
      ["µs", "us", "microsecond", "microseconds"],
      ["ns", "nanosecond", "nanoseconds"]
    ]
  }

  /** The unit of each case. */
  function DurationUnits(): seq<Unit>
  {
    [Duration.Second(), Duration.Minute(), Duration.Hour(), Duration.Day(), Duration.Millisecond(), Duration.Microsecond(), Duration.Nanosecond()]
  }

  function DurationAliases(): seq<Alias>
  {
    Cases(DurationTokens(), DurationUnits())
  }

  /** The cases hold exactly the predefined duration units. */
  lemma DurationUnitsAreAll()
    ensures forall i | 0 <= i < |DurationUnits()| :: DurationUnits()[i] in Duration.All()
    ensures forall u | u in Duration.All() :: u in DurationUnits()
  {
  }

  lemma DurationTokensLowerCase0()
    ensures forall i | 0 <= i < 3 :: CaseLowerCase(DurationTokens(), i)
  {
  }

  lemma DurationTokensLowerCase3()
    ensures forall i | 3 <= i < 5 :: CaseLowerCase(DurationTokens(), i)
  {
  }

  lemma DurationTokensLowerCase5()
    ensures forall i | 5 <= i < 7 :: CaseLowerCase(DurationTokens(), i)
  {
  }

  lemma DurationTokensDistinct()
    ensures forall i | 0 <= i < 7 :: CaseDistinct(DurationTokens(), i)
  {
  }

  /** Every token of the duration switch is lower-case and listed by one case only. */
  lemma DurationAliasesWellFormed()
    ensures WellFormedAliases(DurationAliases())
  {
    DurationTokensLowerCase0();
    DurationTokensLowerCase3();
    DurationTokensLowerCase5();
    DurationTokensDistinct();
    CasesWellFormed(DurationTokens(), DurationUnits());
  }

  /** ParseDuration: a quantity in a predefined duration unit, or a ParseError. */
  function ParseDuration(s: string): (r: ParseResult<Quantity>)
    ensures r.Parsed? ==> r.value.unit in Duration.All()
  {
    DurationUnitsAreAll();
    ParsedUnitIsCase("duration", DurationTokens(), DurationUnits(), s);
    ParseWith("duration", DurationAliases(), s)
  }

  /** The symbol of every case's unit is listed by that case, and is read back whole. */
  lemma DurationUnitsSymbolListed0()
    ensures SerializeKeys.ToLower(DurationUnits()[0].base.symbol) in DurationTokens()[0] && IsUnitToken(DurationUnits()[0].base.symbol)
  {
    assert SerializeKeys.ToLower("s") == "s";
    assert DurationTokens()[0][0] == "s";
  }

  lemma DurationUnitsSymbolListed1()
    ensures SerializeKeys.ToLower(DurationUnits()[1].base.symbol) in DurationTokens()[1] && IsUnitToken(DurationUnits()[1].base.symbol)
  {
    assert SerializeKeys.ToLower("min") == "min";
    assert DurationTokens()[1][0] == "min";
  }

  lemma DurationUnitsSymbolListed2()
    ensures SerializeKeys.ToLower(DurationUnits()[2].base.symbol) in DurationTokens()[2] && IsUnitToken(DurationUnits()[2].base.symbol)
  {
    assert SerializeKeys.ToLower("h") == "h";
    assert DurationTokens()[2][0] == "h";
  }

  lemma DurationUnitsSymbolListed3()
    ensures SerializeKeys.ToLower(DurationUnits()[3].base.symbol) in DurationTokens()[3] && IsUnitToken(DurationUnits()[3].base.symbol)
  {
    assert SerializeKeys.ToLower("d") == "d";
    assert DurationTokens()[3][0] == "d";
  }

  lemma DurationUnitsSymbolListed4()
    ensures SerializeKeys.ToLower(DurationUnits()[4].base.symbol) in DurationTokens()[4] && IsUnitToken(DurationUnits()[4].base.symbol)
  {
    assert SerializeKeys.ToLower("ms") == "ms";
    assert DurationTokens()[4][0] == "ms";
  }

  lemma DurationUnitsSymbolListed5()
    ensures SerializeKeys.ToLower(DurationUnits()[5].base.symbol) in DurationTokens()[5] && IsUnitToken(DurationUnits()[5].base.symbol)
  {
    assert SerializeKeys.ToLower("µs") == "µs";
    assert DurationTokens()[5][0] == "µs";
  }

  lemma DurationUnitsSymbolListed6()
    ensures SerializeKeys.ToLower(DurationUnits()[6].base.symbol) in DurationTokens()[6] && IsUnitToken(DurationUnits()[6].base.symbol)
  {
    assert SerializeKeys.ToLower("ns") == "ns";
    assert DurationTokens()[6][0] == "ns";
  }

  lemma DurationUnitsSymbolsListed()
    ensures forall i | 0 <= i < 7 :: SerializeKeys.ToLower(DurationUnits()[i].base.symbol) in DurationTokens()[i] && IsUnitToken(DurationUnits()[i].base.symbol)
  {
    forall i | 0 <= i < 7
      ensures SerializeKeys.ToLower(DurationUnits()[i].base.symbol) in DurationTokens()[i] && IsUnitToken(DurationUnits()[i].base.symbol)
    {
      if i == 0 { DurationUnitsSymbolListed0(); }
      else if i == 1 { DurationUnitsSymbolListed1(); }
      else if i == 2 { DurationUnitsSymbolListed2(); }
      else if i == 3 { DurationUnitsSymbolListed3(); }
      else if i == 4 { DurationUnitsSymbolListed4(); }
      else if i == 5 { DurationUnitsSymbolListed5(); }
      else { DurationUnitsSymbolListed6(); }
    }
  }

  /** Every predefined duration unit, written after a value as FormatWithUnit writes it, is read back. */
  lemma ParseDurationSymbol(numeral: string, u: Unit)
    requires u in Duration.All()
    requires IsNumeral(numeral) && InFloatRange(NumeralValue(numeral))
    ensures ParseDuration(numeral + " " + u.base.symbol) == Parsed(New(NumeralValue(numeral), u))
  {
    DurationUnitsAreAll();
    DurationUnitsSymbolsListed();
    DurationAliasesWellFormed();
    ParseWithListedSymbol("duration", DurationTokens(), DurationUnits(), u, numeral);
  }

  /* ParseAngle (conversion.go:274-313) */

  /** The tokens of each case of the switch (conversion.go:284-303), lowered. */
  function AngleTokens(): seq<seq<string>>
  {
    [
      ["rad", "radian", "radians"],
      ["°", "deg", "degree", "degrees"],
      ["′", "arcmin", "arcminute", "arcminutes"],
      ["″", "arcsec", "arcsecond", "arcseconds"],
      ["rev", "revolution", "revolutions"],
      ["grad", "gradian", "gradians"]
    ]
  }

  /** The unit of each case. */
  function AngleUnits(): seq<Unit>
  {
    [Angle.Radian(), Angle.Degree(), Angle.Arcminute(), Angle.Arcsecond(), Angle.Revolution(), Angle.Gradian()]
  }

  function AngleAliases(): seq<Alias>
  {
    Cases(AngleTokens(), AngleUnits())
  }

  /** The cases hold exactly the predefined angle units. */
  lemma AngleUnitsAreAll()
    ensures forall i | 0 <= i < |AngleUnits()| :: AngleUnits()[i] in Angle.All()
    ensures forall u | u in Angle.All() :: u in AngleUnits()
  {
  }

  lemma AngleTokensLowerCase0()
    ensures forall i | 0 <= i < 2 :: CaseLowerCase(AngleTokens(), i)
  {
  }

  lemma AngleTokensLowerCase2()
    ensures forall i | 2 <= i < 3 :: CaseLowerCase(AngleTokens(), i)
  {
  }

  lemma AngleTokensLowerCase3()
    ensures forall i | 3 <= i < 5 :: CaseLowerCase(AngleTokens(), i)
  {
  }

  lemma AngleTokensLowerCase5()
    ensures forall i | 5 <= i < 6 :: CaseLowerCase(AngleTokens(), i)
  {
  }

  lemma AngleTokensDistinct()
    ensures forall i | 0 <= i < 6 :: CaseDistinct(AngleTokens(), i)
  {
  }

  /** Every token of the angle switch is lower-case and listed by one case only. */
  lemma AngleAliasesWellFormed()
    ensures WellFormedAliases(AngleAliases())
  {
    AngleTokensLowerCase0();
    AngleTokensLowerCase2();
    AngleTokensLowerCase3();
    AngleTokensLowerCase5();
    AngleTokensDistinct();
    CasesWellFormed(AngleTokens(), AngleUnits());
  }

  /** ParseAngle: a quantity in a predefined angle unit, or a ParseError. */
  function ParseAngle(s: string): (r: ParseResult<Quantity>)
    ensures r.Parsed? ==> r.value.unit in Angle.All()
  {
    AngleUnitsAreAll();
    ParsedUnitIsCase("angle", AngleTokens(), AngleUnits(), s);
    ParseWith("angle", AngleAliases(), s)
  }

  /** The symbol of every case's unit is listed by that case, and is read back whole. */
  lemma AngleUnitsSymbolListed0()
    ensures SerializeKeys.ToLower(AngleUnits()[0].base.symbol) in AngleTokens()[0] && IsUnitToken(AngleUnits()[0].base.symbol)
  {
    assert SerializeKeys.ToLower("rad") == "rad";
    assert AngleTokens()[0][0] == "rad";
  }

  lemma AngleUnitsSymbolListed1()
    ensures SerializeKeys.ToLower(AngleUnits()[1].base.symbol) in AngleTokens()[1] && IsUnitToken(AngleUnits()[1].base.symbol)
  {
    assert SerializeKeys.ToLower("°") == "°";
    assert AngleTokens()[1][0] == "°";
  }

  lemma AngleUnitsSymbolListed2()
    ensures SerializeKeys.ToLower(AngleUnits()[2].base.symbol) in AngleTokens()[2] && IsUnitToken(AngleUnits()[2].base.symbol)
  {
    assert SerializeKeys.ToLower("′") == "′";
    assert AngleTokens()[2][0] == "′";
  }

  lemma AngleUnitsSymbolListed3()
    ensures SerializeKeys.ToLower(AngleUnits()[3].base.symbol) in AngleTokens()[3] && IsUnitToken(AngleUnits()[3].base.symbol)
  {
    assert SerializeKeys.ToLower("″") == "″";
    assert AngleTokens()[3][0] == "″";
  }

  lemma AngleUnitsSymbolListed4()
    ensures SerializeKeys.ToLower(AngleUnits()[4].base.symbol) in AngleTokens()[4] && IsUnitToken(AngleUnits()[4].base.symbol)
  {
    assert SerializeKeys.ToLower("rev") == "rev";
    assert AngleTokens()[4][0] == "rev";
  }

  lemma AngleUnitsSymbolListed5()
    ensures SerializeKeys.ToLower(AngleUnits()[5].base.symbol) in AngleTokens()[5] && IsUnitToken(AngleUnits()[5].base.symbol)
  {
    assert SerializeKeys.ToLower("grad") == "grad";
    assert AngleTokens()[5][0] == "grad";
  }

  lemma AngleUnitsSymbolsListed()
    ensures forall i | 0 <= i < 6 :: SerializeKeys.ToLower(AngleUnits()[i].base.symbol) in AngleTokens()[i] && IsUnitToken(AngleUnits()[i].base.symbol)
  {
    forall i | 0 <= i < 6
      ensures SerializeKeys.ToLower(AngleUnits()[i].base.symbol) in AngleTokens()[i] && IsUnitToken(AngleUnits()[i].base.symbol)
    {
      if i == 0 { AngleUnitsSymbolListed0(); }
      else if i == 1 { AngleUnitsSymbolListed1(); }
      else if i == 2 { AngleUnitsSymbolListed2(); }
      else if i == 3 { AngleUnitsSymbolListed3(); }
      else if i == 4 { AngleUnitsSymbolListed4(); }
      else { AngleUnitsSymbolListed5(); }
    }
  }

  /** Every predefined angle unit, written after a value as FormatWithUnit writes it, is read back. */
  lemma ParseAngleSymbol(numeral: string, u: Unit)
    requires u in Angle.All()
    requires IsNumeral(numeral) && InFloatRange(NumeralValue(numeral))
    ensures ParseAngle(numeral + " " + u.base.symbol) == Parsed(New(NumeralValue(numeral), u))
  {
    AngleUnitsAreAll();
    AngleUnitsSymbolsListed();
    AngleAliasesWellFormed();
    ParseWithListedSymbol("angle", AngleTokens(), AngleUnits(), u, numeral);
  }

  /* ParseArea (conversion.go:316-367) */

  /** The tokens of each case of the switch (conversion.go:326-357), lowered. */
  function AreaTokens(): seq<seq<string>>
  {
    [
      ["m²", "m2", "sq m", "square meter", "square meters"],
      ["km²", "km2", "sq km", "square kilometer", "square kilometers"],
      ["cm²", "cm2", "sq cm", "square centimeter", "square centimeters"],
      ["mm²", "mm2", "sq mm", "square millimeter", "square millimeters"],
      ["in²", "in2", "sq in", "square inch", "square inches"],
      ["ft²", "ft2", "sq ft", "square foot", "square feet"],
      ["yd²", "yd2", "sq yd", "square yard", "square yards"],
      ["mi²", "mi2", "sq mi", "square mile", "square miles"],
      ["ac", "acre", "acres"],
      ["ha", "hectare", "hectares"]
    ]
  }

  /** The unit of each case. */
  function AreaUnits(): seq<Unit>
  {
    [Area.SquareMeter(), Area.SquareKilometer(), Area.SquareCentimeter(), Area.SquareMillimeter(), Area.SquareInch(), Area.SquareFoot(), Area.SquareYard(), Area.SquareMile(), Area.Acre(), Area.Hectare()]
  }

  function AreaAliases(): seq<Alias>
  {
    Cases(AreaTokens(), AreaUnits())
  }

  /** The cases hold exactly the predefined area units. */
  lemma AreaUnitsAreAll()
    ensures forall i | 0 <= i < |AreaUnits()| :: AreaUnits()[i] in Area.All()
    ensures forall u | u in Area.All() :: u in AreaUnits()
  {
  }

  lemma AreaTokensLowerCase0()
    ensures forall i | 0 <= i < 1 :: CaseLowerCase(AreaTokens(), i)
  {
  }

  lemma AreaTokensLowerCase1()
    ensures forall i | 1 <= i < 2 :: CaseLowerCase(AreaTokens(), i)
  {
  }

  lemma AreaTokensLowerCase2()
    ensures forall i | 2 <= i < 3 :: CaseLowerCase(AreaTokens(), i)
  {
  }

  lemma AreaTokensLowerCase3()
    ensures forall i | 3 <= i < 4 :: CaseLowerCase(AreaTokens(), i)
  {
  }

  lemma AreaTokensLowerCase4()
    ensures forall i | 4 <= i < 5 :: CaseLowerCase(AreaTokens(), i)
  {
  }

  lemma AreaTokensLowerCase5()
    ensures forall i | 5 <= i < 6 :: CaseLowerCase(AreaTokens(), i)
  {
  }

  lemma AreaTokensLowerCase6()
    ensures forall i | 6 <= i < 7 :: CaseLowerCase(AreaTokens(), i)
  {
  }

  lemma AreaTokensLowerCase7()
    ensures forall i | 7 <= i < 9 :: CaseLowerCase(AreaTokens(), i)
  {
  }

  lemma AreaTokensLowerCase9()
    ensures forall i | 9 <= i < 10 :: CaseLowerCase(AreaTokens(), i)
  {
  }

  lemma AreaTokensDistinct0()
    ensures forall i | 0 <= i < 2 :: CaseDistinct(AreaTokens(), i)
  {
  }

  lemma AreaTokensDistinct2()
    ensures forall i | 2 <= i < 6 :: CaseDistinct(AreaTokens(), i)
  {
  }

  lemma AreaTokensDistinct6()
    ensures forall i | 6 <= i < 10 :: CaseDistinct(AreaTokens(), i)
  {
  }

  /** Every token of the area switch is lower-case and listed by one case only. */
  lemma AreaAliasesWellFormed()
    ensures WellFormedAliases(AreaAliases())
  {
    AreaTokensLowerCase0();
    AreaTokensLowerCase1();
    AreaTokensLowerCase2();
    AreaTokensLowerCase3();
    AreaTokensLowerCase4();
    AreaTokensLowerCase5();
    AreaTokensLowerCase6();
    AreaTokensLowerCase7();
    AreaTokensLowerCase9();
    AreaTokensDistinct0();
    AreaTokensDistinct2();
    AreaTokensDistinct6();
    CasesWellFormed(AreaTokens(), AreaUnits());
  }

  /** ParseArea: a quantity in a predefined area unit, or a ParseError. */
  function ParseArea(s: string): (r: ParseResult<Quantity>)
    ensures r.Parsed? ==> r.value.unit in Area.All()
  {
    AreaUnitsAreAll();
    ParsedUnitIsCase("area", AreaTokens(), AreaUnits(), s);
    ParseWith("area", AreaAliases(), s)
  }

  /** The symbol of every case's unit is listed by that case, and is read back whole. */
  lemma AreaUnitsSymbolListed0()
    ensures SerializeKeys.ToLower(AreaUnits()[0].base.symbol) in AreaTokens()[0] && IsUnitToken(AreaUnits()[0].base.symbol)
  {
    assert SerializeKeys.ToLower("m²") == "m²";
    assert AreaTokens()[0][0] == "m²";
  }

  lemma AreaUnitsSymbolListed1()
    ensures SerializeKeys.ToLower(AreaUnits()[1].base.symbol) in AreaTokens()[1] && IsUnitToken(AreaUnits()[1].base.symbol)
  {
    assert SerializeKeys.ToLower("km²") == "km²";
    assert AreaTokens()[1][0] == "km²";
  }

  lemma AreaUnitsSymbolListed2()
    ensures SerializeKeys.ToLower(AreaUnits()[2].base.symbol) in AreaTokens()[2] && IsUnitToken(AreaUnits()[2].base.symbol)
  {
    assert SerializeKeys.ToLower("cm²") == "cm²";
    assert AreaTokens()[2][0] == "cm²";
  }

  lemma AreaUnitsSymbolListed3()
    ensures SerializeKeys.ToLower(AreaUnits()[3].base.symbol) in AreaTokens()[3] && IsUnitToken(AreaUnits()[3].base.symbol)
  {
    assert SerializeKeys.ToLower("mm²") == "mm²";
    assert AreaTokens()[3][0] == "mm²";
  }

  lemma AreaUnitsSymbolListed4()
    ensures SerializeKeys.ToLower(AreaUnits()[4].base.symbol) in AreaTokens()[4] && IsUnitToken(AreaUnits()[4].base.symbol)
  {
    assert SerializeKeys.ToLower("in²") == "in²";
    assert AreaTokens()[4][0] == "in²";
  }

  lemma AreaUnitsSymbolListed5()
    ensures SerializeKeys.ToLower(AreaUnits()[5].base.symbol) in AreaTokens()[5] && IsUnitToken(AreaUnits()[5].base.symbol)
  {
    assert SerializeKeys.ToLower("ft²") == "ft²";
    assert AreaTokens()[5][0] == "ft²";
  }

  lemma AreaUnitsSymbolListed6()
    ensures SerializeKeys.ToLower(AreaUnits()[6].base.symbol) in AreaTokens()[6] && IsUnitToken(AreaUnits()[6].base.symbol)
  {
    assert SerializeKeys.ToLower("yd²") == "yd²";
    assert AreaTokens()[6][0] == "yd²";
  }

  lemma AreaUnitsSymbolListed7()
    ensures SerializeKeys.ToLower(AreaUnits()[7].base.symbol) in AreaTokens()[7] && IsUnitToken(AreaUnits()[7].base.symbol)
  {
    assert SerializeKeys.ToLower("mi²") == "mi²";
    assert AreaTokens()[7][0] == "mi²";
  }

  lemma AreaUnitsSymbolListed8()
    ensures SerializeKeys.ToLower(AreaUnits()[8].base.symbol) in AreaTokens()[8] && IsUnitToken(AreaUnits()[8].base.symbol)
  {
    assert SerializeKeys.ToLower("ac") == "ac";
    assert AreaTokens()[8][0] == "ac";
  }

  lemma AreaUnitsSymbolListed9()
    ensures SerializeKeys.ToLower(AreaUnits()[9].base.symbol) in AreaTokens()[9] && IsUnitToken(AreaUnits()[9].base.symbol)
  {
    assert SerializeKeys.ToLower("ha") == "ha";
    assert AreaTokens()[9][0] == "ha";
  }

  lemma AreaUnitsSymbolsListed()
    ensures forall i | 0 <= i < 10 :: SerializeKeys.ToLower(AreaUnits()[i].base.symbol) in AreaTokens()[i] && IsUnitToken(AreaUnits()[i].base.symbol)
  {
    forall i | 0 <= i < 10
      ensures SerializeKeys.ToLower(AreaUnits()[i].base.symbol) in AreaTokens()[i] && IsUnitToken(AreaUnits()[i].base.symbol)
    {
      if i == 0 { AreaUnitsSymbolListed0(); }
      else if i == 1 { AreaUnitsSymbolListed1(); }
      else if i == 2 { AreaUnitsSymbolListed2(); }
      else if i == 3 { AreaUnitsSymbolListed3(); }
      else if i == 4 { AreaUnitsSymbolListed4(); }
      else if i == 5 { AreaUnitsSymbolListed5(); }
      else if i == 6 { AreaUnitsSymbolListed6(); }
      else if i == 7 { AreaUnitsSymbolListed7(); }
      else if i == 8 { AreaUnitsSymbolListed8(); }
      else { AreaUnitsSymbolListed9(); }
    }
  }

  /** Every predefined area unit, written after a value as FormatWithUnit writes it, is read back. */
  lemma ParseAreaSymbol(numeral: string, u: Unit)
    requires u in Area.All()
    requires IsNumeral(numeral) && InFloatRange(NumeralValue(numeral))
    ensures ParseArea(numeral + " " + u.base.symbol) == Parsed(New(NumeralValue(numeral), u))
  {
    AreaUnitsAreAll();
    AreaUnitsSymbolsListed();
    AreaAliasesWellFormed();
    ParseWithListedSymbol("area", AreaTokens(), AreaUnits(), u, numeral);
  }

  /* ParseVolume (conversion.go:370-433) */

  /** The tokens of each case of the switch (conversion.go:380-423), lowered. */
  function VolumeTokens(): seq<seq<string>>
  {
    [
      ["m³", "m3", "cu m", "cubic meter", "cubic meters"],
      ["km³", "km3", "cu km", "cubic kilometer", "cubic kilometers"],
      ["cm³", "cm3", "cc", "cu cm", "cubic centimeter", "cubic centimeters"],
      ["mm³", "mm3", "cu mm", "cubic millimeter", "cubic millimeters"],
      ["l", "liter", "liters", "litre", "litres"],
      ["ml", "milliliter", "milliliters", "millilitre", "millilitres"],
      ["in³", "in3", "cu in", "cubic inch", "cubic inches"],
      ["ft³", "ft3", "cu ft", "cubic foot", "cubic feet"],
      ["yd³", "yd3", "cu yd", "cubic yard", "cubic yards"],
      ["gal", "gallon", "gallons"],
      ["qt", "quart", "quarts"],
      ["pt", "pint", "pints"],
      ["cup", "cups"],
      ["fl oz", "fluid ounce", "fluid ounces"]
    ]
  }

  /** The unit of each case. */
  function VolumeUnits(): seq<Unit>
  {
    [Volume.CubicMeter(), Volume.CubicKilometer(), Volume.CubicCentimeter(), Volume.CubicMillimeter(), Volume.Liter(), Volume.Milliliter(), Volume.CubicInch(), Volume.CubicFoot(), Volume.CubicYard(), Volume.Gallon(), Volume.Quart(), Volume.Pint(), Volume.Cup(), Volume.FluidOunce()]
  }

  function VolumeAliases(): seq<Alias>
  {
    Cases(VolumeTokens(), VolumeUnits())
  }

  /** The cases hold exactly the predefined volume units. */
  lemma VolumeUnitsAreAll()
    ensures forall i | 0 <= i < |VolumeUnits()| :: VolumeUnits()[i] in Volume.All()
    ensures forall u | u in Volume.All() :: u in VolumeUnits()
  {
  }

  lemma VolumeTokensLowerCase0()
    ensures forall i | 0 <= i < 1 :: CaseLowerCase(VolumeTokens(), i)
  {
  }

  lemma VolumeTokensLowerCase1()
    ensures forall i | 1 <= i < 2 :: CaseLowerCase(VolumeTokens(), i)
  {
  }

  lemma VolumeTokensLowerCase2()
    ensures forall i | 2 <= i < 3 :: CaseLowerCase(VolumeTokens(), i)
  {
  }

  lemma VolumeTokensLowerCase3()
    ensures forall i | 3 <= i < 4 :: CaseLowerCase(VolumeTokens(), i)
  {
  }

  lemma VolumeTokensLowerCase4()
    ensures forall i | 4 <= i < 5 :: CaseLowerCase(VolumeTokens(), i)
  {
  }

  lemma VolumeTokensLowerCase5()
    ensures forall i | 5 <= i < 6 :: CaseLowerCase(VolumeTokens(), i)
  {
  }

  lemma VolumeTokensLowerCase6()
    ensures forall i | 6 <= i < 7 :: CaseLowerCase(VolumeTokens(), i)
  {
  }

  lemma VolumeTokensLowerCase7()
    ensures forall i | 7 <= i < 8 :: CaseLowerCase(VolumeTokens(), i)
  {
  }

  lemma VolumeTokensLowerCase8()
    ensures forall i | 8 <= i < 10 :: CaseLowerCase(VolumeTokens(), i)
  {
  }

  lemma VolumeTokensLowerCase10()
    ensures forall i | 10 <= i < 13 :: CaseLowerCase(VolumeTokens(), i)
  {
  }

  lemma VolumeTokensLowerCase13()
    ensures forall i | 13 <= i < 14 :: CaseLowerCase(VolumeTokens(), i)
  {
  }

  lemma VolumeTokensDistinct0()
    ensures forall i | 0 <= i < 1 :: CaseDistinct(VolumeTokens(), i)
  {
  }

  lemma VolumeTokensDistinct1()
    ensures forall i | 1 <= i < 2 :: CaseDistinct(VolumeTokens(), i)
  {
  }

  lemma VolumeTokensDistinct2()
    ensures forall i | 2 <= i < 4 :: CaseDistinct(VolumeTokens(), i)
  {
  }

  lemma VolumeTokensDistinct4()
    ensures forall i | 4 <= i < 7 :: CaseDistinct(VolumeTokens(), i)
  {
  }

  lemma VolumeTokensDistinct7()
    ensures forall i | 7 <= i < 14 :: CaseDistinct(VolumeTokens(), i)
  {
  }

  /** Every token of the volume switch is lower-case and listed by one case only. */
  lemma VolumeAliasesWellFormed()
    ensures WellFormedAliases(VolumeAliases())
  {
    VolumeTokensLowerCase0();
    VolumeTokensLowerCase1();
    VolumeTokensLowerCase2();
    VolumeTokensLowerCase3();
    VolumeTokensLowerCase4();
    VolumeTokensLowerCase5();
    VolumeTokensLowerCase6();
    VolumeTokensLowerCase7();
    VolumeTokensLowerCase8();
    VolumeTokensLowerCase10();
    VolumeTokensLowerCase13();
    VolumeTokensDistinct0();
    VolumeTokensDistinct1();
    VolumeTokensDistinct2();
    VolumeTokensDistinct4();
    VolumeTokensDistinct7();
    CasesWellFormed(VolumeTokens(), VolumeUnits());
  }

  /** ParseVolume: a quantity in a predefined volume unit, or a ParseError. */
  function ParseVolume(s: string): (r: ParseResult<Quantity>)
    ensures r.Parsed? ==> r.value.unit in Volume.All()
  {
    VolumeUnitsAreAll();
    ParsedUnitIsCase("volume", VolumeTokens(), VolumeUnits(), s);
    ParseWith("volume", VolumeAliases(), s)
  }

  /** The symbol of every case's unit is listed by that case, and is read back whole. */
  lemma VolumeUnitsSymbolListed0()
    ensures SerializeKeys.ToLower(VolumeUnits()[0].base.symbol) in VolumeTokens()[0] && IsUnitToken(VolumeUnits()[0].base.symbol)
  {
    assert SerializeKeys.ToLower("m³") == "m³";
    assert VolumeTokens()[0][0] == "m³";
  }

  lemma VolumeUnitsSymbolListed1()
    ensures SerializeKeys.ToLower(VolumeUnits()[1].base.symbol) in VolumeTokens()[1] && IsUnitToken(VolumeUnits()[1].base.symbol)
  {
    assert SerializeKeys.ToLower("km³") == "km³";
    assert VolumeTokens()[1][0] == "km³";
  }

  lemma VolumeUnitsSymbolListed2()
    ensures SerializeKeys.ToLower(VolumeUnits()[2].base.symbol) in VolumeTokens()[2] && IsUnitToken(VolumeUnits()[2].base.symbol)
  {
    assert SerializeKeys.ToLower("cm³") == "cm³";
    assert VolumeTokens()[2][0] == "cm³";
  }

  lemma VolumeUnitsSymbolListed3()
    ensures SerializeKeys.ToLower(VolumeUnits()[3].base.symbol) in VolumeTokens()[3] && IsUnitToken(VolumeUnits()[3].base.symbol)
  {
    assert SerializeKeys.ToLower("mm³") == "mm³";
    assert VolumeTokens()[3][0] == "mm³";
  }

  lemma VolumeUnitsSymbolListed4()
    ensures SerializeKeys.ToLower(VolumeUnits()[4].base.symbol) in VolumeTokens()[4] && IsUnitToken(VolumeUnits()[4].base.symbol)
  {
    assert SerializeKeys.ToLower("L") == "l";
    assert VolumeTokens()[4][0] == "l";
  }

  lemma VolumeUnitsSymbolListed5()
    ensures SerializeKeys.ToLower(VolumeUnits()[5].base.symbol) in VolumeTokens()[5] && IsUnitToken(VolumeUnits()[5].base.symbol)
  {
    assert SerializeKeys.ToLower("mL") == "ml";
    assert VolumeTokens()[5][0] == "ml";
  }

  lemma VolumeUnitsSymbolListed6()
    ensures SerializeKeys.ToLower(VolumeUnits()[6].base.symbol) in VolumeTokens()[6] && IsUnitToken(VolumeUnits()[6].base.symbol)
  {
    assert SerializeKeys.ToLower("in³") == "in³";
    assert VolumeTokens()[6][0] == "in³";
  }

  lemma VolumeUnitsSymbolListed7()
    ensures SerializeKeys.ToLower(VolumeUnits()[7].base.symbol) in VolumeTokens()[7] && IsUnitToken(VolumeUnits()[7].base.symbol)
  {
    assert SerializeKeys.ToLower("ft³") == "ft³";
    assert VolumeTokens()[7][0] == "ft³";
  }

  lemma VolumeUnitsSymbolListed8()
    ensures SerializeKeys.ToLower(VolumeUnits()[8].base.symbol) in VolumeTokens()[8] && IsUnitToken(VolumeUnits()[8].base.symbol)
  {
    assert SerializeKeys.ToLower("yd³") == "yd³";
    assert VolumeTokens()[8][0] == "yd³";
  }

  lemma VolumeUnitsSymbolListed9()
    ensures SerializeKeys.ToLower(VolumeUnits()[9].base.symbol) in VolumeTokens()[9] && IsUnitToken(VolumeUnits()[9].base.symbol)
  {
    assert SerializeKeys.ToLower("gal") == "gal";
    assert VolumeTokens()[9][0] == "gal";
  }

  lemma VolumeUnitsSymbolListed10()
    ensures SerializeKeys.ToLower(VolumeUnits()[10].base.symbol) in VolumeTokens()[10] && IsUnitToken(VolumeUnits()[10].base.symbol)
  {
    assert SerializeKeys.ToLower("qt") == "qt";
    assert VolumeTokens()[10][0] == "qt";
  }

  lemma VolumeUnitsSymbolListed11()
    ensures SerializeKeys.ToLower(VolumeUnits()[11].base.symbol) in VolumeTokens()[11] && IsUnitToken(VolumeUnits()[11].base.symbol)
  {
    assert SerializeKeys.ToLower("pt") == "pt";
    assert VolumeTokens()[11][0] == "pt";
  }

  lemma VolumeUnitsSymbolListed12()
    ensures SerializeKeys.ToLower(VolumeUnits()[12].base.symbol) in VolumeTokens()[12] && IsUnitToken(VolumeUnits()[12].base.symbol)
  {
    assert SerializeKeys.ToLower("cup") == "cup";
    assert VolumeTokens()[12][0] == "cup";
  }

  lemma VolumeUnitsSymbolListed13()
    ensures SerializeKeys.ToLower(VolumeUnits()[13].base.symbol) in VolumeTokens()[13] && IsUnitToken(VolumeUnits()[13].base.symbol)
  {
    assert SerializeKeys.ToLower("fl oz") == "fl oz";
    assert VolumeTokens()[13][0] == "fl oz";
  }

  lemma VolumeUnitsSymbolsListed()
    ensures forall i | 0 <= i < 14 :: SerializeKeys.ToLower(VolumeUnits()[i].base.symbol) in VolumeTokens()[i] && IsUnitToken(VolumeUnits()[i].base.symbol)
  {
    forall i | 0 <= i < 14
      ensures SerializeKeys.ToLower(VolumeUnits()[i].base.symbol) in VolumeTokens()[i] && IsUnitToken(VolumeUnits()[i].base.symbol)
    {
      if i == 0 { VolumeUnitsSymbolListed0(); }
      else if i == 1 { VolumeUnitsSymbolListed1(); }
      else if i == 2 { VolumeUnitsSymbolListed2(); }
      else if i == 3 { VolumeUnitsSymbolListed3(); }
      else if i == 4 { VolumeUnitsSymbolListed4(); }
      else if i == 5 { VolumeUnitsSymbolListed5(); }
      else if i == 6 { VolumeUnitsSymbolListed6(); }
      else if i == 7 { VolumeUnitsSymbolListed7(); }
      else if i == 8 { VolumeUnitsSymbolListed8(); }
      else if i == 9 { VolumeUnitsSymbolListed9(); }
      else if i == 10 { VolumeUnitsSymbolListed10(); }
      else if i == 11 { VolumeUnitsSymbolListed11(); }
      else if i == 12 { VolumeUnitsSymbolListed12(); }
      else { VolumeUnitsSymbolListed13(); }
    }
  }

  /** Every predefined volume unit, written after a value as FormatWithUnit writes it, is read back. */
  lemma ParseVolumeSymbol(numeral: string, u: Unit)
    requires u in Volume.All()
    requires IsNumeral(numeral) && InFloatRange(NumeralValue(numeral))
    ensures ParseVolume(numeral + " " + u.base.symbol) == Parsed(New(NumeralValue(numeral), u))
  {
    VolumeUnitsAreAll();
    VolumeUnitsSymbolsListed();
    VolumeAliasesWellFormed();
    ParseWithListedSymbol("volume", VolumeTokens(), VolumeUnits(), u, numeral);
  }

  /* ParseAcceleration (conversion.go:436-466) */

  /** The tokens of each case of the switch (conversion.go:446-456), lowered. */
  function AccelerationTokens(): seq<seq<string>>
  {
    [
      ["m/s²", "m/s2", "meters per second squared"],
      ["g", "g-force"],
      ["ft/s²", "ft/s2", "feet per second squared"]
    ]
  }

  /** The unit of each case. */
  function AccelerationUnits(): seq<Unit>
  {
    [Acceleration.MetersPerSecondSquared(), Acceleration.G(), Acceleration.FeetPerSecondSquared()]
  }

  function AccelerationAliases(): seq<Alias>
  {
    Cases(AccelerationTokens(), AccelerationUnits())
  }

  /** The cases hold exactly the predefined acceleration units. */
  lemma AccelerationUnitsAreAll()
    ensures forall i | 0 <= i < |AccelerationUnits()| :: AccelerationUnits()[i] in Acceleration.All()
    ensures forall u | u in Acceleration.All() :: u in AccelerationUnits()
  {
  }

  lemma AccelerationTokensLowerCase0()
    ensures forall i | 0 <= i < 2 :: CaseLowerCase(AccelerationTokens(), i)
  {
  }

  lemma AccelerationTokensLowerCase2()
    ensures forall i | 2 <= i < 3 :: CaseLowerCase(AccelerationTokens(), i)
  {
  }

  lemma AccelerationTokensDistinct()
    ensures forall i | 0 <= i < 3 :: CaseDistinct(AccelerationTokens(), i)
  {
  }

  /** Every token of the acceleration switch is lower-case and listed by one case only. */
  lemma AccelerationAliasesWellFormed()
    ensures WellFormedAliases(AccelerationAliases())
  {
    AccelerationTokensLowerCase0();
    AccelerationTokensLowerCase2();
    AccelerationTokensDistinct();
    CasesWellFormed(AccelerationTokens(), AccelerationUnits());
  }

  /** ParseAcceleration: a quantity in a predefined acceleration unit, or a ParseError. */
  function ParseAcceleration(s: string): (r: ParseResult<Quantity>)
    ensures r.Parsed? ==> r.value.unit in Acceleration.All()
  {
    AccelerationUnitsAreAll();
    ParsedUnitIsCase("acceleration", AccelerationTokens(), AccelerationUnits(), s);
    ParseWith("acceleration", AccelerationAliases(), s)
  }

  /** The symbol of every case's unit is listed by that case, and is read back whole. */
  lemma AccelerationUnitsSymbolListed0()
    ensures SerializeKeys.ToLower(AccelerationUnits()[0].base.symbol) in AccelerationTokens()[0] && IsUnitToken(AccelerationUnits()[0].base.symbol)
  {
    assert SerializeKeys.ToLower("m/s²") == "m/s²";
    assert AccelerationTokens()[0][0] == "m/s²";
  }

  lemma AccelerationUnitsSymbolListed1()
    ensures SerializeKeys.ToLower(AccelerationUnits()[1].base.symbol) in AccelerationTokens()[1] && IsUnitToken(AccelerationUnits()[1].base.symbol)
  {
    assert SerializeKeys.ToLower("g") == "g";
    assert AccelerationTokens()[1][0] == "g";
  }

  lemma AccelerationUnitsSymbolListed2()
    ensures SerializeKeys.ToLower(AccelerationUnits()[2].base.symbol) in AccelerationTokens()[2] && IsUnitToken(AccelerationUnits()[2].base.symbol)
  {
    assert SerializeKeys.ToLower("ft/s²") == "ft/s²";
    assert AccelerationTokens()[2][0] == "ft/s²";
  }

  lemma AccelerationUnitsSymbolsListed()
    ensures forall i | 0 <= i < 3 :: SerializeKeys.ToLower(AccelerationUnits()[i].base.symbol) in AccelerationTokens()[i] && IsUnitToken(AccelerationUnits()[i].base.symbol)
  {
    forall i | 0 <= i < 3
      ensures SerializeKeys.ToLower(AccelerationUnits()[i].base.symbol) in AccelerationTokens()[i] && IsUnitToken(AccelerationUnits()[i].base.symbol)
    {
      if i == 0 { AccelerationUnitsSymbolListed0(); }
      else if i == 1 { AccelerationUnitsSymbolListed1(); }
      else { AccelerationUnitsSymbolListed2(); }
    }
  }

  /** Every predefined acceleration unit, written after a value as FormatWithUnit writes it, is read back. */
  lemma ParseAccelerationSymbol(numeral: string, u: Unit)
    requires u in Acceleration.All()
    requires IsNumeral(numeral) && InFloatRange(NumeralValue(numeral))
    ensures ParseAcceleration(numeral + " " + u.base.symbol) == Parsed(New(NumeralValue(numeral), u))
  {
    AccelerationUnitsAreAll();
    AccelerationUnitsSymbolsListed();
    AccelerationAliasesWellFormed();
    ParseWithListedSymbol("acceleration", AccelerationTokens(), AccelerationUnits(), u, numeral);
  }

  /* ParseConcentration (conversion.go:469-502) */

  /** The tokens of each case of the switch (conversion.go:479-492), lowered. */
  function ConcentrationTokens(): seq<seq<string>>
  {
    [
      ["g/l", "grams per liter"],
      ["mg/l", "milligrams per liter"],
      ["ppm", "parts per million"],
      ["ppb", "parts per billion"]
    ]
  }

  /** The unit of each case. */
  function ConcentrationUnits(): seq<Unit>
  {
    [Concentration.GramsPerLiter(), Concentration.MilligramsPerLiter(), Concentration.PartsPerMillion(), Concentration.PartsPerBillion()]
  }

  function ConcentrationAliases(): seq<Alias>
  {
    Cases(ConcentrationTokens(), ConcentrationUnits())
  }

  /** The cases hold exactly the predefined concentration units. */
  lemma ConcentrationUnitsAreAll()
    ensures forall i | 0 <= i < |ConcentrationUnits()| :: ConcentrationUnits()[i] in Concentration.All()
    ensures forall u | u in Concentration.All() :: u in ConcentrationUnits()
  {
  }

  lemma ConcentrationTokensLowerCase0()
    ensures forall i | 0 <= i < 2 :: CaseLowerCase(ConcentrationTokens(), i)
  {
  }

  lemma ConcentrationTokensLowerCase2()
    ensures forall i | 2 <= i < 4 :: CaseLowerCase(ConcentrationTokens(), i)
  {
  }

  lemma ConcentrationTokensDistinct()
    ensures forall i | 0 <= i < 4 :: CaseDistinct(ConcentrationTokens(), i)
  {
  }

  /** Every token of the concentration switch is lower-case and listed by one case only. */
  lemma ConcentrationAliasesWellFormed()
    ensures WellFormedAliases(ConcentrationAliases())
  {
    ConcentrationTokensLowerCase0();
    ConcentrationTokensLowerCase2();
    ConcentrationTokensDistinct();
    CasesWellFormed(ConcentrationTokens(), ConcentrationUnits());
  }

  /** ParseConcentration: a quantity in a predefined concentration unit, or a ParseError. */
  function ParseConcentration(s: string): (r: ParseResult<Quantity>)
    ensures r.Parsed? ==> r.value.unit in Concentration.All()
  {
    ConcentrationUnitsAreAll();
    ParsedUnitIsCase("concentration", ConcentrationTokens(), ConcentrationUnits(), s);
    ParseWith("concentration", ConcentrationAliases(), s)
  }

  /** The symbol of every case's unit is listed by that case, and is read back whole. */
  lemma ConcentrationUnitsSymbolListed0()
    ensures SerializeKeys.ToLower(ConcentrationUnits()[0].base.symbol) in ConcentrationTokens()[0] && IsUnitToken(ConcentrationUnits()[0].base.symbol)
  {
    assert SerializeKeys.ToLower("g/L") == "g/l";
    assert ConcentrationTokens()[0][0] == "g/l";
  }

  lemma ConcentrationUnitsSymbolListed1()
    ensures SerializeKeys.ToLower(ConcentrationUnits()[1].base.symbol) in ConcentrationTokens()[1] && IsUnitToken(ConcentrationUnits()[1].base.symbol)
  {
    assert SerializeKeys.ToLower("mg/L") == "mg/l";
    assert ConcentrationTokens()[1][0] == "mg/l";
  }

  lemma ConcentrationUnitsSymbolListed2()
    ensures SerializeKeys.ToLower(ConcentrationUnits()[2].base.symbol) in ConcentrationTokens()[2] && IsUnitToken(ConcentrationUnits()[2].base.symbol)
  {
    assert SerializeKeys.ToLower("ppm") == "ppm";
    assert ConcentrationTokens()[2][0] == "ppm";
  }

  lemma ConcentrationUnitsSymbolListed3()
    ensures SerializeKeys.ToLower(ConcentrationUnits()[3].base.symbol) in ConcentrationTokens()[3] && IsUnitToken(ConcentrationUnits()[3].base.symbol)
  {
    assert SerializeKeys.ToLower("ppb") == "ppb";
    assert ConcentrationTokens()[3][0] == "ppb";
  }

  lemma ConcentrationUnitsSymbolsListed()
    ensures forall i | 0 <= i < 4 :: SerializeKeys.ToLower(ConcentrationUnits()[i].base.symbol) in ConcentrationTokens()[i] && IsUnitToken(ConcentrationUnits()[i].base.symbol)
  {
    forall i | 0 <= i < 4
      ensures SerializeKeys.ToLower(ConcentrationUnits()[i].base.symbol) in ConcentrationTokens()[i] && IsUnitToken(ConcentrationUnits()[i].base.symbol)
    {
      if i == 0 { ConcentrationUnitsSymbolListed0(); }
      else if i == 1 { ConcentrationUnitsSymbolListed1(); }
      else if i == 2 { ConcentrationUnitsSymbolListed2(); }
      else { ConcentrationUnitsSymbolListed3(); }
    }
  }

  /** Every predefined concentration unit, written after a value as FormatWithUnit writes it, is read back. */
  lemma ParseConcentrationSymbol(numeral: string, u: Unit)
    requires u in Concentration.All()
    requires IsNumeral(numeral) && InFloatRange(NumeralValue(numeral))
    ensures ParseConcentration(numeral + " " + u.base.symbol) == Parsed(New(NumeralValue(numeral), u))
  {
    ConcentrationUnitsAreAll();
    ConcentrationUnitsSymbolsListed();
    ConcentrationAliasesWellFormed();
    ParseWithListedSymbol("concentration", ConcentrationTokens(), ConcentrationUnits(), u, numeral);
  }

  /* ParseDispersion (conversion.go:505-538) */

  /** The tokens of each case of the switch (conversion.go:515-528), lowered. */
  function DispersionTokens(): seq<seq<string>>
  {
    [
      ["ppm", "parts per million"],
      ["ppb", "parts per billion"],
      ["ppt", "parts per trillion"],
      ["%", "percent"]
    ]
  }

  /** The unit of each case. */
  function DispersionUnits(): seq<Unit>
  {
    [Dispersion.PartsPerMillion(), Dispersion.PartsPerBillion(), Dispersion.PartsPerTrillion(), Dispersion.Percent()]
  }

  function DispersionAliases(): seq<Alias>
  {
    Cases(DispersionTokens(), DispersionUnits())
  }

  /** The cases hold exactly the predefined dispersion units. */
  lemma DispersionUnitsAreAll()
    ensures forall i | 0 <= i < |DispersionUnits()| :: DispersionUnits()[i] in Dispersion.All()
    ensures forall u | u in Dispersion.All() :: u in DispersionUnits()
  {
  }

  lemma DispersionTokensLowerCase0()
    ensures forall i | 0 <= i < 2 :: CaseLowerCase(DispersionTokens(), i)
  {
  }

  lemma DispersionTokensLowerCase2()
    ensures forall i | 2 <= i < 4 :: CaseLowerCase(DispersionTokens(), i)
  {
  }

  lemma DispersionTokensDistinct()
    ensures forall i | 0 <= i < 4 :: CaseDistinct(DispersionTokens(), i)
  {
  }

  /** Every token of the dispersion switch is lower-case and listed by one case only. */
  lemma DispersionAliasesWellFormed()
    ensures WellFormedAliases(DispersionAliases())
  {
    DispersionTokensLowerCase0();
    DispersionTokensLowerCase2();
    DispersionTokensDistinct();
    CasesWellFormed(DispersionTokens(), DispersionUnits());
  }

  /** ParseDispersion: a quantity in a predefined dispersion unit, or a ParseError. */
  function ParseDispersion(s: string): (r: ParseResult<Quantity>)
    ensures r.Parsed? ==> r.value.unit in Dispersion.All()
  {
    DispersionUnitsAreAll();
    ParsedUnitIsCase("dispersion", DispersionTokens(), DispersionUnits(), s);
    ParseWith("dispersion", DispersionAliases(), s)
  }

  /** The symbol of every case's unit is listed by that case, and is read back whole. */
  lemma DispersionUnitsSymbolListed0()
    ensures SerializeKeys.ToLower(DispersionUnits()[0].base.symbol) in DispersionTokens()[0] && IsUnitToken(DispersionUnits()[0].base.symbol)
  {
    assert SerializeKeys.ToLower("ppm") == "ppm";
    assert DispersionTokens()[0][0] == "ppm";
  }

  lemma DispersionUnitsSymbolListed1()
    ensures SerializeKeys.ToLower(DispersionUnits()[1].base.symbol) in DispersionTokens()[1] && IsUnitToken(DispersionUnits()[1].base.symbol)
  {
    assert SerializeKeys.ToLower("ppb") == "ppb";
    assert DispersionTokens()[1][0] == "ppb";
  }

  lemma DispersionUnitsSymbolListed2()
    ensures SerializeKeys.ToLower(DispersionUnits()[2].base.symbol) in DispersionTokens()[2] && IsUnitToken(DispersionUnits()[2].base.symbol)
  {
    assert SerializeKeys.ToLower("ppt") == "ppt";
    assert DispersionTokens()[2][0] == "ppt";
  }

  lemma DispersionUnitsSymbolListed3()
    ensures SerializeKeys.ToLower(DispersionUnits()[3].base.symbol) in DispersionTokens()[3] && IsUnitToken(DispersionUnits()[3].base.symbol)
  {
    assert SerializeKeys.ToLower("%") == "%";
    assert DispersionTokens()[3][0] == "%";
  }

  lemma DispersionUnitsSymbolsListed()
    ensures forall i | 0 <= i < 4 :: SerializeKeys.ToLower(DispersionUnits()[i].base.symbol) in DispersionTokens()[i] && IsUnitToken(DispersionUnits()[i].base.symbol)
  {
    forall i | 0 <= i < 4
      ensures SerializeKeys.ToLower(DispersionUnits()[i].base.symbol) in DispersionTokens()[i] && IsUnitToken(DispersionUnits()[i].base.symbol)
    {
      if i == 0 { DispersionUnitsSymbolListed0(); }
      else if i == 1 { DispersionUnitsSymbolListed1(); }
      else if i == 2 { DispersionUnitsSymbolListed2(); }
      else { DispersionUnitsSymbolListed3(); }
    }
  }

  /** Every predefined dispersion unit, written after a value as FormatWithUnit writes it, is read back. */
  lemma ParseDispersionSymbol(numeral: string, u: Unit)
    requires u in Dispersion.All()
    requires IsNumeral(numeral) && InFloatRange(NumeralValue(numeral))
    ensures ParseDispersion(numeral + " " + u.base.symbol) == Parsed(New(NumeralValue(numeral), u))
  {
    DispersionUnitsAreAll();
    DispersionUnitsSymbolsListed();
    DispersionAliasesWellFormed();
    ParseWithListedSymbol("dispersion", DispersionTokens(), DispersionUnits(), u, numeral);
  }

  /* ParseElectricCharge (conversion.go:541-577) */

  /** The tokens of each case of the switch (conversion.go:551-567), lowered. */
  function ElectricChargeTokens(): seq<seq<string>>
  {
    [
      ["c", "coulomb", "coulombs"],
      ["mc", "millicoulomb", "millicoulombs"],
      ["µc", "uc", "microcoulomb", "microcoulombs"],
      ["ah", "ampere-hour", "ampere-hours"],
      ["mah", "milliampere-hour", "milliampere-hours"]
    ]
  }

  /** The unit of each case. */
  function ElectricChargeUnits(): seq<Unit>
  {
    [ElectricCharge.Coulomb(), ElectricCharge.Millicoulomb(), ElectricCharge.Microcoulomb(), ElectricCharge.Ampere_Hour(), ElectricCharge.Milliampere_Hour()]
  }

  function ElectricChargeAliases(): seq<Alias>
  {
    Cases(ElectricChargeTokens(), ElectricChargeUnits())
  }

  /** The cases hold exactly the predefined electric charge units. */
  lemma ElectricChargeUnitsAreAll()
    ensures forall i | 0 <= i < |ElectricChargeUnits()| :: ElectricChargeUnits()[i] in ElectricCharge.All()
    ensures forall u | u in ElectricCharge.All() :: u in ElectricChargeUnits()
  {
  }

  lemma ElectricChargeTokensLowerCase0()
    ensures forall i | 0 <= i < 2 :: CaseLowerCase(ElectricChargeTokens(), i)
  {
  }

  lemma ElectricChargeTokensLowerCase2()
    ensures forall i | 2 <= i < 3 :: CaseLowerCase(ElectricChargeTokens(), i)
  {
  }

  lemma ElectricChargeTokensLowerCase3()
    ensures forall i | 3 <= i < 4 :: CaseLowerCase(ElectricChargeTokens(), i)
  {
  }

  lemma ElectricChargeTokensLowerCase4()
    ensures forall i | 4 <= i < 5 :: CaseLowerCase(ElectricChargeTokens(), i)
  {
  }

  lemma ElectricChargeTokensDistinct()
    ensures forall i | 0 <= i < 5 :: CaseDistinct(ElectricChargeTokens(), i)
  {
  }

  /** Every token of the electric charge switch is lower-case and listed by one case only. */
  lemma ElectricChargeAliasesWellFormed()
    ensures WellFormedAliases(ElectricChargeAliases())
  {
    ElectricChargeTokensLowerCase0();
    ElectricChargeTokensLowerCase2();
    ElectricChargeTokensLowerCase3();
    ElectricChargeTokensLowerCase4();
    ElectricChargeTokensDistinct();
    CasesWellFormed(ElectricChargeTokens(), ElectricChargeUnits());
  }

  /** ParseElectricCharge: a quantity in a predefined electric charge unit, or a ParseError. */
  function ParseElectricCharge(s: string): (r: ParseResult<Quantity>)
    ensures r.Parsed? ==> r.value.unit in ElectricCharge.All()
  {
    ElectricChargeUnitsAreAll();
    ParsedUnitIsCase("electric charge", ElectricChargeTokens(), ElectricChargeUnits(), s);
    ParseWith("electric charge", ElectricChargeAliases(), s)
  }

  /** The symbol of every case's unit is listed by that case, and is read back whole. */
  lemma ElectricChargeUnitsSymbolListed0()
    ensures SerializeKeys.ToLower(ElectricChargeUnits()[0].base.symbol) in ElectricChargeTokens()[0] && IsUnitToken(ElectricChargeUnits()[0].base.symbol)
  {
    assert SerializeKeys.ToLower("C") == "c";
    assert ElectricChargeTokens()[0][0] == "c";
  }

  lemma ElectricChargeUnitsSymbolListed1()
    ensures SerializeKeys.ToLower(ElectricChargeUnits()[1].base.symbol) in ElectricChargeTokens()[1] && IsUnitToken(ElectricChargeUnits()[1].base.symbol)
  {
    assert SerializeKeys.ToLower("mC") == "mc";
    assert ElectricChargeTokens()[1][0] == "mc";
  }

  lemma ElectricChargeUnitsSymbolListed2()
    ensures SerializeKeys.ToLower(ElectricChargeUnits()[2].base.symbol) in ElectricChargeTokens()[2] && IsUnitToken(ElectricChargeUnits()[2].base.symbol)
  {
    assert SerializeKeys.ToLower("µC") == "µc";
    assert ElectricChargeTokens()[2][0] == "µc";
  }

  lemma ElectricChargeUnitsSymbolListed3()
    ensures SerializeKeys.ToLower(ElectricChargeUnits()[3].base.symbol) in ElectricChargeTokens()[3] && IsUnitToken(ElectricChargeUnits()[3].base.symbol)
  {
    assert SerializeKeys.ToLower("Ah") == "ah";
    assert ElectricChargeTokens()[3][0] == "ah";
  }

  lemma ElectricChargeUnitsSymbolListed4()
    ensures SerializeKeys.ToLower(ElectricChargeUnits()[4].base.symbol) in ElectricChargeTokens()[4] && IsUnitToken(ElectricChargeUnits()[4].base.symbol)
  {
    assert SerializeKeys.ToLower("mAh") == "mah";
    assert ElectricChargeTokens()[4][0] == "mah";
  }

  lemma ElectricChargeUnitsSymbolsListed()
    ensures forall i | 0 <= i < 5 :: SerializeKeys.ToLower(ElectricChargeUnits()[i].base.symbol) in ElectricChargeTokens()[i] && IsUnitToken(ElectricChargeUnits()[i].base.symbol)
  {
    forall i | 0 <= i < 5
      ensures SerializeKeys.ToLower(ElectricChargeUnits()[i].base.symbol) in ElectricChargeTokens()[i] && IsUnitToken(ElectricChargeUnits()[i].base.symbol)
    {
      if i == 0 { ElectricChargeUnitsSymbolListed0(); }
      else if i == 1 { ElectricChargeUnitsSymbolListed1(); }
      else if i == 2 { ElectricChargeUnitsSymbolListed2(); }
      else if i == 3 { ElectricChargeUnitsSymbolListed3(); }
      else { ElectricChargeUnitsSymbolListed4(); }
    }
  }

  /** Every predefined electric charge unit, written after a value as FormatWithUnit writes it, is read back. */
  lemma ParseElectricChargeSymbol(numeral: string, u: Unit)
    requires u in ElectricCharge.All()
    requires IsNumeral(numeral) && InFloatRange(NumeralValue(numeral))
    ensures ParseElectricCharge(numeral + " " + u.base.symbol) == Parsed(New(NumeralValue(numeral), u))
  {
    ElectricChargeUnitsAreAll();
    ElectricChargeUnitsSymbolsListed();
    ElectricChargeAliasesWellFormed();
    ParseWithListedSymbol("electric charge", ElectricChargeTokens(), ElectricChargeUnits(), u, numeral);
  }

  /* ParseElectricCurrent (conversion.go:580-613) */

  /** The tokens of each case of the switch (conversion.go:590-603), lowered. */
  function ElectricCurrentTokens(): seq<seq<string>>
  {
    [
      ["a", "ampere", "amperes"],
      ["ma", "milliampere", "milliamperes"],
      ["µa", "ua", "microampere", "microamperes"],
      ["ka", "kiloampere", "kiloamperes"]
    ]
  }

  /** The unit of each case. */
  function ElectricCurrentUnits(): seq<Unit>
  {
    [ElectricCurrent.Ampere(), ElectricCurrent.Milliampere(), ElectricCurrent.Microampere(), ElectricCurrent.Kiloampere()]
  }

  function ElectricCurrentAliases(): seq<Alias>
  {
    Cases(ElectricCurrentTokens(), ElectricCurrentUnits())
  }

  /** The cases hold exactly the predefined electric current units. */
  lemma ElectricCurrentUnitsAreAll()
    ensures forall i | 0 <= i < |ElectricCurrentUnits()| :: ElectricCurrentUnits()[i] in ElectricCurrent.All()
    ensures forall u | u in ElectricCurrent.All() :: u in ElectricCurrentUnits()
  {
  }

  lemma ElectricCurrentTokensLowerCase0()
    ensures forall i | 0 <= i < 2 :: CaseLowerCase(ElectricCurrentTokens(), i)
  {
  }

  lemma ElectricCurrentTokensLowerCase2()
    ensures forall i | 2 <= i < 4 :: CaseLowerCase(ElectricCurrentTokens(), i)
  {
  }

  lemma ElectricCurrentTokensDistinct()
    ensures forall i | 0 <= i < 4 :: CaseDistinct(ElectricCurrentTokens(), i)
  {
  }

  /** Every token of the electric current switch is lower-case and listed by one case only. */
  lemma ElectricCurrentAliasesWellFormed()
    ensures WellFormedAliases(ElectricCurrentAliases())
  {
    ElectricCurrentTokensLowerCase0();
    ElectricCurrentTokensLowerCase2();
    ElectricCurrentTokensDistinct();
    CasesWellFormed(ElectricCurrentTokens(), ElectricCurrentUnits());
  }

  /** ParseElectricCurrent: a quantity in a predefined electric current unit, or a ParseError. */
  function ParseElectricCurrent(s: string): (r: ParseResult<Quantity>)
    ensures r.Parsed? ==> r.value.unit in ElectricCurrent.All()
  {
    ElectricCurrentUnitsAreAll();
    ParsedUnitIsCase("electric current", ElectricCurrentTokens(), ElectricCurrentUnits(), s);
    ParseWith("electric current", ElectricCurrentAliases(), s)
  }

  /** The symbol of every case's unit is listed by that case, and is read back whole. */
  lemma ElectricCurrentUnitsSymbolListed0()
    ensures SerializeKeys.ToLower(ElectricCurrentUnits()[0].base.symbol) in ElectricCurrentTokens()[0] && IsUnitToken(ElectricCurrentUnits()[0].base.symbol)
  {
    assert SerializeKeys.ToLower("A") == "a";
    assert ElectricCurrentTokens()[0][0] == "a";
  }

  lemma ElectricCurrentUnitsSymbolListed1()
    ensures SerializeKeys.ToLower(ElectricCurrentUnits()[1].base.symbol) in ElectricCurrentTokens()[1] && IsUnitToken(ElectricCurrentUnits()[1].base.symbol)
  {
    assert SerializeKeys.ToLower("mA") == "ma";
    assert ElectricCurrentTokens()[1][0] == "ma";
  }

  lemma ElectricCurrentUnitsSymbolListed2()
    ensures SerializeKeys.ToLower(ElectricCurrentUnits()[2].base.symbol) in ElectricCurrentTokens()[2] && IsUnitToken(ElectricCurrentUnits()[2].base.symbol)
  {
    assert SerializeKeys.ToLower("µA") == "µa";
    assert ElectricCurrentTokens()[2][0] == "µa";
  }

  lemma ElectricCurrentUnitsSymbolListed3()
    ensures SerializeKeys.ToLower(ElectricCurrentUnits()[3].base.symbol) in ElectricCurrentTokens()[3] && IsUnitToken(ElectricCurrentUnits()[3].base.symbol)
  {
    assert SerializeKeys.ToLower("kA") == "ka";
    assert ElectricCurrentTokens()[3][0] == "ka";
  }

  lemma ElectricCurrentUnitsSymbolsListed()
    ensures forall i | 0 <= i < 4 :: SerializeKeys.ToLower(ElectricCurrentUnits()[i].base.symbol) in ElectricCurrentTokens()[i] && IsUnitToken(ElectricCurrentUnits()[i].base.symbol)
  {
    forall i | 0 <= i < 4
      ensures SerializeKeys.ToLower(ElectricCurrentUnits()[i].base.symbol) in ElectricCurrentTokens()[i] && IsUnitToken(ElectricCurrentUnits()[i].base.symbol)
    {
      if i == 0 { ElectricCurrentUnitsSymbolListed0(); }
      else if i == 1 { ElectricCurrentUnitsSymbolListed1(); }
      else if i == 2 { ElectricCurrentUnitsSymbolListed2(); }
      else { ElectricCurrentUnitsSymbolListed3(); }
    }
  }

  /** Every predefined electric current unit, written after a value as FormatWithUnit writes it, is read back. */
  lemma ParseElectricCurrentSymbol(numeral: string, u: Unit)
    requires u in ElectricCurrent.All()
    requires IsNumeral(numeral) && InFloatRange(NumeralValue(numeral))
    ensures ParseElectricCurrent(numeral + " " + u.base.symbol) == Parsed(New(NumeralValue(numeral), u))
  {
    ElectricCurrentUnitsAreAll();
    ElectricCurrentUnitsSymbolsListed();
    ElectricCurrentAliasesWellFormed();
    ParseWithListedSymbol("electric current", ElectricCurrentTokens(), ElectricCurrentUnits(), u, numeral);
  }

  /* ParseSpeed (conversion.go:616-652) */

  /** The tokens of each case of the switch (conversion.go:626-642), lowered. */
  function SpeedTokens(): seq<seq<string>>
  {
    [
      ["m/s", "meters per second", "metres per second"],
      ["km/h", "kilometers per hour", "kilometres per hour", "kph"],
      ["mph", "miles per hour"],
      ["ft/s", "feet per second", "foot per second"],
      ["kn", "knot", "knots"]
    ]
  }

  /** The unit of each case. */
  function SpeedUnits(): seq<Unit>
  {
    [Speed.MetersPerSecond(), Speed.KilometersPerHour(), Speed.MilesPerHour(), Speed.FeetPerSecond(), Speed.Knot()]
  }

  function SpeedAliases(): seq<Alias>
  {
    Cases(SpeedTokens(), SpeedUnits())
  }

  /** The cases hold exactly the predefined speed units. */
  lemma SpeedUnitsAreAll()
    ensures forall i | 0 <= i < |SpeedUnits()| :: SpeedUnits()[i] in Speed.All()
    ensures forall u | u in Speed.All() :: u in SpeedUnits()
  {
  }

  lemma SpeedTokensLowerCase0()
    ensures forall i | 0 <= i < 1 :: CaseLowerCase(SpeedTokens(), i)
  {
  }

  lemma SpeedTokensLowerCase1()
    ensures forall i | 1 <= i < 2 :: CaseLowerCase(SpeedTokens(), i)
  {
  }

  lemma SpeedTokensLowerCase2()
    ensures forall i | 2 <= i < 3 :: CaseLowerCase(SpeedTokens(), i)
  {
  }

  lemma SpeedTokensLowerCase3()
    ensures forall i | 3 <= i < 5 :: CaseLowerCase(SpeedTokens(), i)
  {
  }

  lemma SpeedTokensDistinct()
    ensures forall i | 0 <= i < 5 :: CaseDistinct(SpeedTokens(), i)
  {
  }

  /** Every token of the speed switch is lower-case and listed by one case only. */
  lemma SpeedAliasesWellFormed()
    ensures WellFormedAliases(SpeedAliases())
  {
    SpeedTokensLowerCase0();
    SpeedTokensLowerCase1();
    SpeedTokensLowerCase2();
    SpeedTokensLowerCase3();
    SpeedTokensDistinct();
    CasesWellFormed(SpeedTokens(), SpeedUnits());
  }

  /** ParseSpeed: a quantity in a predefined speed unit, or a ParseError. */
  function ParseSpeed(s: string): (r: ParseResult<Quantity>)
    ensures r.Parsed? ==> r.value.unit in Speed.All()
  {
    SpeedUnitsAreAll();
    ParsedUnitIsCase("speed", SpeedTokens(), SpeedUnits(), s);
    ParseWith("speed", SpeedAliases(), s)
  }

  /** The symbol of every case's unit is listed by that case, and is read back whole. */
  lemma SpeedUnitsSymbolListed0()
    ensures SerializeKeys.ToLower(SpeedUnits()[0].base.symbol) in SpeedTokens()[0] && IsUnitToken(SpeedUnits()[0].base.symbol)
  {
    assert SerializeKeys.ToLower("m/s") == "m/s";
    assert SpeedTokens()[0][0] == "m/s";
  }

  lemma SpeedUnitsSymbolListed1()
    ensures SerializeKeys.ToLower(SpeedUnits()[1].base.symbol) in SpeedTokens()[1] && IsUnitToken(SpeedUnits()[1].base.symbol)
  {
    assert SerializeKeys.ToLower("km/h") == "km/h";
    assert SpeedTokens()[1][0] == "km/h";
  }

  lemma SpeedUnitsSymbolListed2()
    ensures SerializeKeys.ToLower(SpeedUnits()[2].base.symbol) in SpeedTokens()[2] && IsUnitToken(SpeedUnits()[2].base.symbol)
  {
    assert SerializeKeys.ToLower("mph") == "mph";
    assert SpeedTokens()[2][0] == "mph";
  }

  lemma SpeedUnitsSymbolListed3()
    ensures SerializeKeys.ToLower(SpeedUnits()[3].base.symbol) in SpeedTokens()[3] && IsUnitToken(SpeedUnits()[3].base.symbol)
  {
    assert SerializeKeys.ToLower("ft/s") == "ft/s";
    assert SpeedTokens()[3][0] == "ft/s";
  }

  lemma SpeedUnitsSymbolListed4()
    ensures SerializeKeys.ToLower(SpeedUnits()[4].base.symbol) in SpeedTokens()[4] && IsUnitToken(SpeedUnits()[4].base.symbol)
  {
    assert SerializeKeys.ToLower("kn") == "kn";
    assert SpeedTokens()[4][0] == "kn";
  }

  lemma SpeedUnitsSymbolsListed()
    ensures forall i | 0 <= i < 5 :: SerializeKeys.ToLower(SpeedUnits()[i].base.symbol) in SpeedTokens()[i] && IsUnitToken(SpeedUnits()[i].base.symbol)
  {
    forall i | 0 <= i < 5
      ensures SerializeKeys.ToLower(SpeedUnits()[i].base.symbol) in SpeedTokens()[i] && IsUnitToken(SpeedUnits()[i].base.symbol)
    {
      if i == 0 { SpeedUnitsSymbolListed0(); }
      else if i == 1 { SpeedUnitsSymbolListed1(); }
      else if i == 2 { SpeedUnitsSymbolListed2(); }
      else if i == 3 { SpeedUnitsSymbolListed3(); }
      else { SpeedUnitsSymbolListed4(); }
    }
  }

  /** Every predefined speed unit, written after a value as FormatWithUnit writes it, is read back. */
  lemma ParseSpeedSymbol(numeral: string, u: Unit)
    requires u in Speed.All()
    requires IsNumeral(numeral) && InFloatRange(NumeralValue(numeral))
    ensures ParseSpeed(numeral + " " + u.base.symbol) == Parsed(New(NumeralValue(numeral), u))
  {
    SpeedUnitsAreAll();
    SpeedUnitsSymbolsListed();
    SpeedAliasesWellFormed();
    ParseWithListedSymbol("speed", SpeedTokens(), SpeedUnits(), u, numeral);
  }

  /* ParseElectricPotentialDifference (conversion.go:655-691) */

  /** The tokens of each case of the switch (conversion.go:665-681), lowered. */
  function ElectricPotentialDifferenceTokens(): seq<seq<string>>
  {
    [
      ["v", "volt", "volts"],
      ["mv", "millivolt", "millivolts"],
      ["µv", "uv", "microvolt", "microvolts"],
      ["kv", "kilovolt", "kilovolts"],
      ["megav", "megavolt", "megavolts"]
    ]
  }

  /** The unit of each case. */
  function ElectricPotentialDifferenceUnits(): seq<Unit>
  {
    [ElectricPotentialDifference.Volt(), ElectricPotentialDifference.Millivolt(), ElectricPotentialDifference.Microvolt(), ElectricPotentialDifference.Kilovolt(), ElectricPotentialDifference.Megavolt()]
  }

  function ElectricPotentialDifferenceAliases(): seq<Alias>
  {
    Cases(ElectricPotentialDifferenceTokens(), ElectricPotentialDifferenceUnits())
  }

  /** The cases hold exactly the predefined electric potential difference units. */
  lemma ElectricPotentialDifferenceUnitsAreAll()
    ensures forall i | 0 <= i < |ElectricPotentialDifferenceUnits()| :: ElectricPotentialDifferenceUnits()[i] in ElectricPotentialDifference.All()
    ensures forall u | u in ElectricPotentialDifference.All() :: u in ElectricPotentialDifferenceUnits()
  {
  }

  lemma ElectricPotentialDifferenceTokensLowerCase0()
    ensures forall i | 0 <= i < 2 :: CaseLowerCase(ElectricPotentialDifferenceTokens(), i)
  {
  }

  lemma ElectricPotentialDifferenceTokensLowerCase2()
    ensures forall i | 2 <= i < 4 :: CaseLowerCase(ElectricPotentialDifferenceTokens(), i)
  {
  }

  lemma ElectricPotentialDifferenceTokensLowerCase4()
    ensures forall i | 4 <= i < 5 :: CaseLowerCase(ElectricPotentialDifferenceTokens(), i)
  {
  }

  lemma ElectricPotentialDifferenceTokensDistinct()
    ensures forall i | 0 <= i < 5 :: CaseDistinct(ElectricPotentialDifferenceTokens(), i)
  {
  }

  /** Every token of the electric potential difference switch is lower-case and listed by one case only. */
  lemma ElectricPotentialDifferenceAliasesWellFormed()
    ensures WellFormedAliases(ElectricPotentialDifferenceAliases())
  {
    ElectricPotentialDifferenceTokensLowerCase0();
    ElectricPotentialDifferenceTokensLowerCase2();
    ElectricPotentialDifferenceTokensLowerCase4();
    ElectricPotentialDifferenceTokensDistinct();
    CasesWellFormed(ElectricPotentialDifferenceTokens(), ElectricPotentialDifferenceUnits());
  }

  /** ParseElectricPotentialDifference: a quantity in a predefined electric potential difference unit, or a ParseError. */
  function ParseElectricPotentialDifference(s: string): (r: ParseResult<Quantity>)
    ensures r.Parsed? ==> r.value.unit in ElectricPotentialDifference.All()
  {
    ElectricPotentialDifferenceUnitsAreAll();
    ParsedUnitIsCase("electric potential difference", ElectricPotentialDifferenceTokens(), ElectricPotentialDifferenceUnits(), s);
    ParseWith("electric potential difference", ElectricPotentialDifferenceAliases(), s)
  }

  /** The symbol of every case's unit but Megavolt is listed by that case, and is read back whole. */
  lemma ElectricPotentialDifferenceUnitsSymbolListed0()
    ensures SerializeKeys.ToLower(ElectricPotentialDifferenceUnits()[0].base.symbol) in ElectricPotentialDifferenceTokens()[0] && IsUnitToken(ElectricPotentialDifferenceUnits()[0].base.symbol)
  {
    assert SerializeKeys.ToLower("V") == "v";
    assert ElectricPotentialDifferenceTokens()[0][0] == "v";
  }

  lemma ElectricPotentialDifferenceUnitsSymbolListed1()
    ensures SerializeKeys.ToLower(ElectricPotentialDifferenceUnits()[1].base.symbol) in ElectricPotentialDifferenceTokens()[1] && IsUnitToken(ElectricPotentialDifferenceUnits()[1].base.symbol)
  {
    assert SerializeKeys.ToLower("mV") == "mv";
    assert ElectricPotentialDifferenceTokens()[1][0] == "mv";
  }

  lemma ElectricPotentialDifferenceUnitsSymbolListed2()
    ensures SerializeKeys.ToLower(ElectricPotentialDifferenceUnits()[2].base.symbol) in ElectricPotentialDifferenceTokens()[2] && IsUnitToken(ElectricPotentialDifferenceUnits()[2].base.symbol)
  {
    assert SerializeKeys.ToLower("µV") == "µv";
    assert ElectricPotentialDifferenceTokens()[2][0] == "µv";
  }

  lemma ElectricPotentialDifferenceUnitsSymbolListed3()
    ensures SerializeKeys.ToLower(ElectricPotentialDifferenceUnits()[3].base.symbol) in ElectricPotentialDifferenceTokens()[3] && IsUnitToken(ElectricPotentialDifferenceUnits()[3].base.symbol)
  {
    assert SerializeKeys.ToLower("kV") == "kv";
    assert ElectricPotentialDifferenceTokens()[3][0] == "kv";
  }

  lemma ElectricPotentialDifferenceUnitsSymbolsListed()
    ensures forall i | 0 <= i < 5 && i != 4 :: SerializeKeys.ToLower(ElectricPotentialDifferenceUnits()[i].base.symbol) in ElectricPotentialDifferenceTokens()[i] && IsUnitToken(ElectricPotentialDifferenceUnits()[i].base.symbol)
  {
    forall i | 0 <= i < 5 && i != 4
      ensures SerializeKeys.ToLower(ElectricPotentialDifferenceUnits()[i].base.symbol) in ElectricPotentialDifferenceTokens()[i] && IsUnitToken(ElectricPotentialDifferenceUnits()[i].base.symbol)
    {
      if i == 0 { ElectricPotentialDifferenceUnitsSymbolListed0(); }
      else if i == 1 { ElectricPotentialDifferenceUnitsSymbolListed1(); }
      else if i == 2 { ElectricPotentialDifferenceUnitsSymbolListed2(); }
      else { ElectricPotentialDifferenceUnitsSymbolListed3(); }
    }
  }

  /** Every predefined electric potential difference unit but Megavolt, written after a value as FormatWithUnit writes it, is read back. */
  lemma ParseElectricPotentialDifferenceSymbol(numeral: string, u: Unit)
    requires u in ElectricPotentialDifference.All() && u != ElectricPotentialDifference.Megavolt()
    requires IsNumeral(numeral) && InFloatRange(NumeralValue(numeral))
    ensures ParseElectricPotentialDifference(numeral + " " + u.base.symbol) == Parsed(New(NumeralValue(numeral), u))
  {
    ElectricPotentialDifferenceUnitsAreAll();
    ElectricPotentialDifferenceUnitsSymbolsListed();
    ElectricPotentialDifferenceAliasesWellFormed();
    ParseWithListedSymbol("electric potential difference", ElectricPotentialDifferenceTokens(), ElectricPotentialDifferenceUnits(), u, numeral);
  }
}
