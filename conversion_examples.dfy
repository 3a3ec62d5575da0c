/**
 * The parsing cases of the tests (length_test.go, quantity_test.go,
 * duration_test.go, acceleration_test.go, mass_test.go,
 * electric_potential_difference_test.go), stated on the model of
 * conversion.go, and the error cases of the same functions.
 */
module ConversionExamples {
  import opened Results
  import opened Units
  import opened Quantities
  import opened Conversion
  import opened ConversionTables
  import SerializeKeys
  import Temperature
  import Pressure
  import Length
  import Mass
  import Duration
  import Acceleration
  import ElectricPotentialDifference

  /*
   * The numerals of the tests and their values, one lemma each: each
   * numeral is its own small verification condition, where the examples
   * below would be costly to check with all of them inline.
   */

  lemma Ten()
    ensures IsNumeral("10") && NumeralValue("10") == 10.0 && InFloatRange(10.0)
  {
    IntegerNotation("10");
    assert DigitsValue("10") == 10 by { assert "10"[..1] == "1"; }
  }

  lemma Six()
    ensures IsNumeral("6") && NumeralValue("6") == 6.0 && InFloatRange(6.0)
  {
    IntegerNotation("6");
  }

  lemma One()
    ensures IsNumeral("1") && NumeralValue("1") == 1.0 && InFloatRange(1.0)
  {
    IntegerNotation("1");
  }

  lemma Five()
    ensures IsNumeral("5") && NumeralValue("5") == 5.0 && InFloatRange(5.0)
  {
    IntegerNotation("5");
  }

  lemma TwentyFive()
    ensures IsNumeral("25") && NumeralValue("25") == 25.0 && InFloatRange(25.0)
  {
    IntegerNotation("25");
    assert DigitsValue("25") == 25 by { assert "25"[..1] == "2"; }
  }

  lemma SeventySeven()
    ensures IsNumeral("77") && NumeralValue("77") == 77.0 && InFloatRange(77.0)
  {
    IntegerNotation("77");
    assert DigitsValue("77") == 77 by { assert "77"[..1] == "7"; }
  }

  lemma FivePointFiveParts()
    ensures AllDigits("5") && "5.5" == "5" + "." + "5" && DigitsValue("5") == 5 && Pow10(1) == 10
  {
  }

  lemma FivePointFive()
    ensures IsNumeral("5.5") && NumeralValue("5.5") == 5.5 && InFloatRange(5.5)
  {
    FivePointFiveParts();
    DecimalValue("5", "5", "5.5", 5, 5, 10);
  }

  lemma OnePointFiveParts()
    ensures AllDigits("1") && AllDigits("5") && "1.5" == "1" + "." + "5" && DigitsValue("1") == 1 && DigitsValue("5") == 5 && Pow10(1) == 10
  {
  }

  lemma OnePointFive()
    ensures IsNumeral("1.5") && NumeralValue("1.5") == 1.5 && InFloatRange(1.5)
  {
    OnePointFiveParts();
    DecimalValue("1", "5", "1.5", 1, 5, 10);
  }

  lemma ThreeDigits(ds: string, v: nat)
    requires |ds| == 3 && AllDigits(ds)
    requires v == (ds[0] as int - '0' as int) * 100 + (ds[1] as int - '0' as int) * 10 + (ds[2] as int - '0' as int)
    ensures DigitsValue(ds) == v
  {
    assert ds[..2][..1] == ds[..1] && ds[..2][1] == ds[1];
    assert ds[..1][..0] == [] && ds[..1][0] == ds[0];
    assert DigitsValue(ds[..1]) == ds[0] as int - '0' as int;
    assert DigitsValue(ds[..2]) == (ds[0] as int - '0' as int) * 10 + (ds[1] as int - '0' as int);
  }

  lemma KilopascalValue()
    ensures IsNumeral("101.325") && NumeralValue("101.325") == 101.325 && InFloatRange(101.325)
  {
    KilopascalDigits();
    DecimalValue("101", "325", "101.325", 101, 325, 1000);
  }

  lemma KilopascalDigits()
    ensures AllDigits("101") && AllDigits("325") && "101.325" == "101" + "." + "325"
    ensures DigitsValue("101") == 101 && DigitsValue("325") == 325 && Pow10(3) == 1000
  {
    ThreeDigits("101", 101);
    ThreeDigits("325", 325);
  }


  /* Parsing (length_test.go:139-174, quantity_test.go:104-129, duration_test.go:108-114,
     acceleration_test.go:138-143, mass_test.go:99-105) */

  lemma ParseTenMetersText() ensures "10" + " " + Length.Meter().base.symbol == "10 m" {}

  /** "10 m" is 10 meters: the symbol of a predefined unit. */
  lemma ParseTenMeters()
    ensures ParseLength("10 m") == Parsed(New(10.0, Length.Meter()))
  {
    Ten();
    ParseLengthSymbol("10", Length.Meter());
    ParseTenMetersText();
  }

  lemma ParseFivePointFiveKilometersText() ensures "5.5" + " " + Length.Kilometer().base.symbol == "5.5 km" {}

  /** "5.5 km" is 5.5 kilometers. */
  lemma ParseFivePointFiveKilometers()
    ensures ParseLength("5.5 km") == Parsed(New(5.5, Length.Kilometer()))
  {
    FivePointFive();
    ParseLengthSymbol("5.5", Length.Kilometer());
    ParseFivePointFiveKilometersText();
  }

  lemma ParseSixFeetText()
    ensures "6 feet" == "6" + " " + "feet" && SerializeKeys.ToLower("feet") in LengthTokens()[7]
  {
    assert SerializeKeys.ToLower("feet") == "feet";
    assert LengthTokens()[7][2] == "feet";
  }

  lemma ParseSixFeetUnit()
    ensures IsUnitToken("feet") && LengthUnits()[7] == Length.Foot()
  {
  }

  /** "6 feet" is 6 feet: a unit word rather than the symbol "ft". */
  lemma ParseSixFeet()
    ensures ParseLength("6 feet") == Parsed(New(6.0, Length.Foot()))
  {
    Six();
    LengthAliasesWellFormed();
    ParseSixFeetText();
    ParseSixFeetUnit();
    ParseWithToken("length", LengthTokens(), LengthUnits(), 7, "6", " ", "feet", "6 feet", 6.0);
  }

  lemma ParseTwentyFiveCelsiusText()
    ensures "25°C" == "25" + "" + "°C" && SerializeKeys.ToLower("°C") in TemperatureTokens()[0]
  {
    assert SerializeKeys.ToLower("°C") == "°c";
    assert TemperatureTokens()[0][1] == "°c";
  }

  lemma ParseTwentyFiveCelsiusUnit()
    ensures IsUnitToken("°C") && TemperatureUnits()[0] == Temperature.Celsius()
  {
  }

  /** "25°C" is 25 degrees Celsius: the symbol may follow the value with no space. */
  lemma ParseTwentyFiveCelsius()
    ensures ParseTemperature("25°C") == Parsed(New(25.0, Temperature.Celsius()))
  {
    TwentyFive();
    TemperatureAliasesWellFormed();
    ParseTwentyFiveCelsiusText();
    ParseTwentyFiveCelsiusUnit();
    ParseWithToken("temperature", TemperatureTokens(), TemperatureUnits(), 0, "25", "", "°C", "25°C", 25.0);
  }

  lemma ParseSeventySevenFahrenheitText()
    ensures "77 F" == "77" + " " + "F" && SerializeKeys.ToLower("F") in TemperatureTokens()[1]
  {
    assert SerializeKeys.ToLower("F") == "f";
    assert TemperatureTokens()[1][0] == "f";
  }

  lemma ParseSeventySevenFahrenheitUnit()
    ensures IsUnitToken("F") && TemperatureUnits()[1] == Temperature.Fahrenheit()
  {
  }

  /** "77 F" is 77 degrees Fahrenheit: a letter without the degree sign. */
  lemma ParseSeventySevenFahrenheit()
    ensures ParseTemperature("77 F") == Parsed(New(77.0, Temperature.Fahrenheit()))
  {
    SeventySeven();
    TemperatureAliasesWellFormed();
    ParseSeventySevenFahrenheitText();
    ParseSeventySevenFahrenheitUnit();
    ParseWithToken("temperature", TemperatureTokens(), TemperatureUnits(), 1, "77", " ", "F", "77 F", 77.0);
  }

  lemma ParseKilopascalsText() ensures "101.325" + " " + Pressure.Kilopascal().base.symbol == "101.325 kPa" {}

  /** "101.325 kPa" is 101.325 kilopascals. */
  lemma ParseKilopascals()
    ensures ParsePressure("101.325 kPa") == Parsed(New(101.325, Pressure.Kilopascal()))
  {
    KilopascalValue();
    ParsePressureSymbol("101.325", Pressure.Kilopascal());
    ParseKilopascalsText();
  }

  lemma ParseOnePointFiveHoursText()
    ensures "1.5 hours" == "1.5" + " " + "hours" && SerializeKeys.ToLower("hours") in DurationTokens()[2]
  {
    assert SerializeKeys.ToLower("hours") == "hours";
    assert DurationTokens()[2][3] == "hours";
  }

  lemma ParseOnePointFiveHoursUnit()
    ensures IsUnitToken("hours") && DurationUnits()[2] == Duration.Hour()
  {
  }

  /** "1.5 hours" is 1.5 hours. */
  lemma ParseOnePointFiveHours()
    ensures ParseDuration("1.5 hours") == Parsed(New(1.5, Duration.Hour()))
  {
    OnePointFive();
    DurationAliasesWellFormed();
    ParseOnePointFiveHoursText();
    ParseOnePointFiveHoursUnit();
    ParseWithToken("duration", DurationTokens(), DurationUnits(), 2, "1.5", " ", "hours", "1.5 hours", 1.5);
  }

  lemma ParseOneGText()
    ensures "1 g" == "1" + " " + "g" && SerializeKeys.ToLower("g") in AccelerationTokens()[1]
  {
    assert SerializeKeys.ToLower("g") == "g";
    assert AccelerationTokens()[1][0] == "g";
  }

  lemma ParseOneGUnit()
    ensures IsUnitToken("g") && AccelerationUnits()[1] == Acceleration.G()
  {
  }

  /** "1 g" is one standard gravity to ParseAcceleration ... */
  lemma ParseOneG()
    ensures ParseAcceleration("1 g") == Parsed(New(1.0, Acceleration.G()))
  {
    One();
    AccelerationAliasesWellFormed();
    ParseOneGText();
    ParseOneGUnit();
    ParseWithToken("acceleration", AccelerationTokens(), AccelerationUnits(), 1, "1", " ", "g", "1 g", 1.0);
  }

  lemma ParseOneGramText()
    ensures "1 g" == "1" + " " + "g" && SerializeKeys.ToLower("g") in MassTokens()[1]
  {
    assert SerializeKeys.ToLower("g") == "g";
    assert MassTokens()[1][0] == "g";
  }

  lemma ParseOneGramUnit()
    ensures IsUnitToken("g") && MassUnits()[1] == Mass.Gram()
  {
  }

  /** ... and one gram to ParseMass. */
  lemma ParseOneGram()
    ensures ParseMass("1 g") == Parsed(New(1.0, Mass.Gram()))
  {
    One();
    MassAliasesWellFormed();
    ParseOneGramText();
    ParseOneGramUnit();
    ParseWithToken("mass", MassTokens(), MassUnits(), 1, "1", " ", "g", "1 g", 1.0);
  }

  lemma MegavoltSymbolIsMillivoltText()
    ensures "5 MV" == "5" + " " + "MV" && SerializeKeys.ToLower("MV") in ElectricPotentialDifferenceTokens()[1]
  {
    assert SerializeKeys.ToLower("MV") == "mv";
    assert ElectricPotentialDifferenceTokens()[1][0] == "mv";
  }

  lemma MegavoltSymbolIsMillivoltUnit()
    ensures IsUnitToken("MV") && ElectricPotentialDifferenceUnits()[1] == ElectricPotentialDifference.Millivolt()
  {
  }

  /** The symbol of Megavolt, "MV", lowers to the token of Millivolt ... */
  lemma MegavoltSymbolIsMillivolt()
    ensures ParseElectricPotentialDifference("5 MV") == Parsed(New(5.0, ElectricPotentialDifference.Millivolt()))
    ensures ElectricPotentialDifference.Megavolt().base.symbol == "MV"
  {
    Five();
    ElectricPotentialDifferenceAliasesWellFormed();
    MegavoltSymbolIsMillivoltText();
    MegavoltSymbolIsMillivoltUnit();
    ParseWithToken("electric potential difference", ElectricPotentialDifferenceTokens(), ElectricPotentialDifferenceUnits(), 1, "5", " ", "MV", "5 MV", 5.0);
  }

  lemma ParseFiveMegavoltsText()
    ensures "5 megav" == "5" + " " + "megav" && SerializeKeys.ToLower("megav") in ElectricPotentialDifferenceTokens()[4]
  {
    assert SerializeKeys.ToLower("megav") == "megav";
    assert ElectricPotentialDifferenceTokens()[4][0] == "megav";
  }

  lemma ParseFiveMegavoltsUnit()
    ensures IsUnitToken("megav") && ElectricPotentialDifferenceUnits()[4] == ElectricPotentialDifference.Megavolt()
  {
  }

  /** ... and a megavolt is written "megav" or spelled out. */
  lemma ParseFiveMegavolts()
    ensures ParseElectricPotentialDifference("5 megav") == Parsed(New(5.0, ElectricPotentialDifference.Megavolt()))
  {
    Five();
    ElectricPotentialDifferenceAliasesWellFormed();
    ParseFiveMegavoltsText();
    ParseFiveMegavoltsUnit();
    ParseWithToken("electric potential difference", ElectricPotentialDifferenceTokens(), ElectricPotentialDifferenceUnits(), 4, "5", " ", "megav", "5 megav", 5.0);
  }

  /* Errors */

  lemma ParsecsText()
    ensures "10 parsecs" == "10" + " " + "parsecs" && IsUnitToken("parsecs")
  {
  }

  lemma ParsecsMessage()
    ensures "unknown length unit: parsecs" == "unknown " + "length" + " unit: " + "parsecs"
  {
  }

  lemma ParsecsUnlisted()
    ensures forall i | 0 <= i < |LengthTokens()| :: SerializeKeys.ToLower("parsecs") !in LengthTokens()[i]
  {
    assert SerializeKeys.ToLower("parsecs") == "parsecs";
  }

  /** An unknown unit is reported with the whole input and the token as written. */
  lemma ParseUnknownLengthUnit()
    ensures ParseLength("10 parsecs") == Failed(ParseError("10 parsecs", "unknown length unit: parsecs"))
  {
    Ten();
    ParsecsText();
    ParsecsMessage();
    ParsecsUnlisted();
    ParseWithUnlistedToken("length", LengthTokens(), LengthUnits(), "10", " ", "parsecs", "10 parsecs", "unknown length unit: parsecs");
  }

  lemma MetersPadded()
    ensures "  meters " == "  " + "meters" + " " && AllSpace("  ") && AllSpace(" ")
  {
  }

  lemma MetersTrimmed()
    ensures TrimSpace("  meters ") == "meters"
  {
    MetersPadded();
    TrimSpaceOfParts("  ", "meters", " ", "  meters ");
  }

  lemma MetersUnmatched()
    ensures forall n: nat, w: nat :: !MatchesAt("meters", n, w)
  {
    forall n: nat, w: nat
      ensures !MatchesAt("meters", n, w)
    {
      assert n > 0 && n <= |"meters"| ==> "meters"[..n][n - 1] == "meters"[n - 1];
    }
  }

  /** A text with no numeral is an invalid format, reported with the trimmed input. */
  lemma ParseNoNumeral()
    ensures ParseLength("  meters ") == Failed(ParseError("meters", InvalidFormat))
  {
    MetersTrimmed();
    MetersUnmatched();
  }

  /** The pattern backtracks: in "1.5" the unit must start with a non-digit, so the numeral is "1" and the unit ".5". */
  lemma OneFiveSplits()
    ensures NumeralEnd("1.5") == Some(1) && SpacesEnd("1.5", 1) == 1
  {
    One();
    assert "1.5"[..1] == "1";
    assert MatchesAt("1.5", 1, 1);
    NumeralEndIsLongest("1.5", 1, 1);
    assert !IsNumeral("1.5"[..2]) by { assert "1.5"[..2][1] == '.'; }
  }

  lemma PointFiveParts()
    ensures "1.5" == [] + "1.5" + [] && ".5" == [] + ".5" + [] && AllSpace([])
    ensures "1.5"[..1] == "1" && "1.5"[1..] == ".5"
  {
  }

  lemma PointFiveTrimmed()
    ensures TrimSpace("1.5") == "1.5" && "1.5"[..1] == "1" && TrimSpace("1.5"[1..]) == ".5"
  {
    PointFiveParts();
    TrimSpaceOfParts([], "1.5", [], "1.5");
    TrimSpaceOfParts([], ".5", [], ".5");
  }

  lemma ParseOnePointFiveAlone()
    ensures ParseValueAndUnit("1.5") == Parsed((1.0, ".5"))
  {
    One();
    OneFiveSplits();
    PointFiveTrimmed();
    ParseMatched("1.5", 1);
  }

  lemma PointFiveText()
    ensures SerializeKeys.ToLower(".5") == ".5"
  {
  }

  lemma PointFiveMessage()
    ensures "unknown " + "length" + " unit: " + ".5" == "unknown length unit: .5"
  {
  }

  lemma PointFiveUnlisted()
    ensures FindAlias(".5", LengthAliases()) == None
  {
    assert forall i | 0 <= i < |LengthTokens()| :: ".5" !in LengthTokens()[i];
    UnlistedToken(".5", LengthTokens(), LengthUnits());
  }

  /** Hence "1.5" alone is a length with the unknown unit ".5", not an invalid format. */
  lemma ParseBareNumber()
    ensures ParseLength("1.5") == Failed(ParseError("1.5", "unknown length unit: .5"))
  {
    ParseOnePointFiveAlone();
    PointFiveText();
    PointFiveMessage();
    PointFiveUnlisted();
    ParseWithUnknown("length", LengthAliases(), "1.5", 1.0, ".5");
  }
}
