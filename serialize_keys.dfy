/**
 * Unit keys (serialize.go:75-116): the snake_case form of a unit name and
 * the "dimension_unitname" keys built from it and split again.
 *
 * Letters are ASCII: `unicode.IsUpper`, `unicode.ToLower`, `strings.ToLower`
 * and `strings.EqualFold` are modelled on 'A'..'Z' only.
 */
module SerializeKeys {

  predicate IsUpper(c: char) {
    'A' <= c <= 'Z'
  }

  function Lower(c: char): (r: char)
    ensures !IsUpper(r)
    ensures IsUpper(c) ==> r as int == c as int + 32
    ensures !IsUpper(c) ==> r == c
  {
    if IsUpper(c) then (c as int + 32) as char else c
  }

  /** strings.ToLower, letter by letter. */
  function ToLower(s: string): (r: string)
    ensures |r| == |s| && forall i | 0 <= i < |s| :: r[i] == Lower(s[i])
  {
    seq(|s|, i requires 0 <= i < |s| => Lower(s[i]))
  }

  /** strings.ReplaceAll(s, " ", "_"). */
  function ReplaceSpaces(s: string): (r: string)
    ensures |r| == |s| && forall i | 0 <= i < |s| :: r[i] == (if s[i] == ' ' then '_' else s[i])
  {
    seq(|s|, i requires 0 <= i < |s| => if s[i] == ' ' then '_' else s[i])
  }

  /** The output written so far is empty or ends in '_': no separator may be added. */
  predicate AtStart(written: string) {
    |written| == 0 || written[|written| - 1] == '_'
  }

  /**
   * The text toSnakeCase writes for the character c, given whether the
   * output so far is empty or ends in '_'.  An uppercase letter is
   * lowered and preceded by '_' unless at the start; a '_' is written only
   * when it would not be at the start; anything else is copied.
   */
  function Emit(c: char, atStart: bool): string
  {
    if IsUpper(c) then (if atStart then [] else "_") + [Lower(c)]
    else if c == '_' then (if atStart then [] else "_")
    else [c]
  }

  /**
   * The output for the remaining characters t.  After any character the
   * output is at the start again exactly when that character was '_'.
   */
  function Snake(t: string, atStart: bool): string
  {
    if |t| == 0 then [] else Emit(t[0], atStart) + Snake(t[1..], t[0] == '_')
  }

  /** toSnakeCase(s) as a value. */
  function SnakeCase(s: string): string
  {
    Snake(ReplaceSpaces(s), true)
  }

  /** After a character is written, the output is at the start exactly when the character was '_'. */
  lemma EmitKeepsAtStart(written: string, c: char)
    ensures AtStart(written + Emit(c, AtStart(written))) == (c == '_')
  {
    var e := Emit(c, AtStart(written));
    assert |e| > 0 ==> (written + e)[|written + e| - 1] == e[|e| - 1];
  }

  /** One character of t, as the recursion and as the loop see it. */
  lemma SnakeStep(t: string, i: nat, written: string)
    requires i < |t|
    ensures Snake(t[i..], AtStart(written)) == Emit(t[i], AtStart(written)) + Snake(t[i + 1..], t[i] == '_')
    ensures AtStart(written + Emit(t[i], AtStart(written))) == (t[i] == '_')
  {
    assert t[i..][1..] == t[i + 1..];
    EmitKeepsAtStart(written, t[i]);
  }

  /** Writing the output of one character keeps the loop invariant of ToSnakeCase. */
  lemma SnakeStepKeeps(t: string, i: nat, written: string, piece: string, whole: string)
    requires i < |t| && piece == Emit(t[i], AtStart(written))
    requires written + Snake(t[i..], AtStart(written)) == whole
    ensures (written + piece) + Snake(t[i + 1..], AtStart(written + piece)) == whole
  {
    SnakeStep(t, i, written);
  }

  /**
   * toSnakeCase (serialize.go:75-100): one pass over the characters, each
   * iteration writing what the strings.Builder receives for that character
   * (collected in piece) after inspecting the last character written.
   */
  method ToSnakeCase(s: string) returns (result: string)
    ensures result == SnakeCase(s)
  {
    var t := ReplaceSpaces(s);
    result := [];
    var i := 0;
    while i < |t|
      invariant 0 <= i <= |t|
      invariant result + Snake(t[i..], AtStart(result)) == Snake(t, true)
    {
      var c := t[i];
      var piece: string := [];
      if IsUpper(c) {
        if |result| > 0 {
          if result[|result| - 1] != '_' {
            piece := ['_'];
          }
        }
        piece := piece + [Lower(c)];
      } else if c == '_' {
        if |result| > 0 && result[|result| - 1] != '_' {
          piece := ['_'];
        }
      } else {
        piece := [c];
      }
      assert piece == Emit(c, AtStart(result));
      SnakeStepKeeps(t, i, result, piece, Snake(t, true));
      result := result + piece;
      i := i + 1;
    }
    assert t[i..] == [];
  }

  /** No two characters in a row are both '_'. */
  predicate NoDoubleUnderscore(r: string) {
    forall k | 0 <= k < |r| - 1 :: !(r[k] == '_' && r[k + 1] == '_')
  }

  /** What Snake promises about its output, proved by induction over t. */
  lemma {:induction false} SnakeShape(t: string, atStart: bool)
    ensures var r := Snake(t, atStart);
            (forall k | 0 <= k < |r| :: !IsUpper(r[k])) &&
            ((forall j | 0 <= j < |t| :: t[j] != ' ') ==> forall k | 0 <= k < |r| :: r[k] != ' ') &&
            NoDoubleUnderscore(r) &&
            (atStart && |r| > 0 ==> r[0] != '_')
    decreases |t|
  {
    if |t| > 0 {
      var e := Emit(t[0], atStart);
      var rest := Snake(t[1..], t[0] == '_');
      SnakeShape(t[1..], t[0] == '_');
      var r := e + rest;
      assert r == Snake(t, atStart);
      EmitShape(t[0], atStart);
      assert forall k | 0 <= k < |e| :: r[k] == e[k];
      assert forall k | |e| <= k < |r| :: r[k] == rest[k - |e|];
      forall k | 0 <= k < |r| - 1
        ensures !(r[k] == '_' && r[k + 1] == '_')
      {
        if k + 1 < |e| {
          assert r[k] == e[k] && r[k + 1] == e[k + 1];
        } else if k + 1 == |e| {
          assert r[k] == e[|e| - 1] && r[k + 1] == rest[0];
        } else {
          assert r[k] == rest[k - |e|] && r[k + 1] == rest[k - |e| + 1];
        }
      }
    }
  }

  /** The text written for one character: no capital, no space unless c is one, no "__", ending in '_' exactly when c is '_'. */
  lemma EmitShape(c: char, atStart: bool)
    ensures var e := Emit(c, atStart);
            (forall k | 0 <= k < |e| :: !IsUpper(e[k])) &&
            (c != ' ' ==> forall k | 0 <= k < |e| :: e[k] != ' ') &&
            NoDoubleUnderscore(e) &&
            (|e| > 0 ==> (e[|e| - 1] == '_' <==> c == '_')) &&
            (atStart && |e| > 0 ==> e[0] != '_') &&
            (|e| == 0 ==> c == '_')
  {
  }

  /** toSnakeCase never writes an uppercase letter, a space, "__" or a leading '_'. */
  lemma SnakeCaseShape(s: string)
    ensures var r := SnakeCase(s);
            (forall k | 0 <= k < |r| :: !IsUpper(r[k]) && r[k] != ' ') &&
            NoDoubleUnderscore(r) &&
            (|r| > 0 ==> r[0] != '_')
  {
    SnakeShape(ReplaceSpaces(s), true);
  }

  /** Text that is already in snake_case is written out unchanged. */
  lemma {:induction false} SnakeOfSnake(t: string, atStart: bool)
    requires forall k | 0 <= k < |t| :: !IsUpper(t[k])
    requires NoDoubleUnderscore(t)
    requires |t| > 0 && t[0] == '_' ==> !atStart
    ensures Snake(t, atStart) == t
    decreases |t|
  {
    if |t| > 0 {
      var rest := t[1..];
      assert forall k | 0 <= k < |rest| :: rest[k] == t[k + 1];
      SnakeOfSnake(rest, t[0] == '_');
    }
  }

  /** Converting a second time changes nothing. */
  lemma SnakeCaseIdempotent(s: string)
    ensures SnakeCase(SnakeCase(s)) == SnakeCase(s)
  {
    var r := SnakeCase(s);
    SnakeCaseShape(s);
    assert ReplaceSpaces(r) == r;
    SnakeOfSnake(r, true);
  }

  /** Snake works character by character, so it splits at any point of its input. */
  lemma {:induction false} SnakeAppend(a: string, b: string, atStart: bool)
    ensures Snake(a + b, atStart) == Snake(a, atStart) + Snake(b, if |a| == 0 then atStart else a[|a| - 1] == '_')
    decreases |a|
  {
    if |a| == 0 {
      assert a + b == b;
    } else {
      assert (a + b)[1..] == a[1..] + b;
      SnakeAppend(a[1..], b, a[0] == '_');
    }
  }

  /** A character that toSnakeCase copies unchanged inside a word. */
  predicate IsWordChar(c: char) {
    !IsUpper(c) && c != '_' && c != ' '
  }

  /** A word of a unit name: not starting with '_' or ' ', and only word characters after the first. */
  predicate IsWord(w: string) {
    |w| > 0 && w[0] != '_' && w[0] != ' ' && forall k | 1 <= k < |w| :: IsWordChar(w[k])
  }

  /** A word is lowered, and a capitalised word not at the start gets an '_' in front. */
  lemma SnakeWord(w: string, atStart: bool)
    requires IsWord(w)
    ensures Snake(w, atStart) == (if IsUpper(w[0]) && !atStart then "_" else "") + ToLower(w)
  {
    var rest := w[1..];
    assert Snake(rest, w[0] == '_') == ToLower(rest) by {
      assert forall k | 0 <= k < |rest| :: rest[k] == w[k + 1];
      SnakeOfSnake(rest, false);
      assert forall k | 0 <= k < |rest| :: Lower(rest[k]) == rest[k];
    }
    assert ToLower(w) == [Lower(w[0])] + ToLower(rest);
  }

  /** The words ws, with sep between each two. */
  function JoinWords(ws: seq<string>, sep: string): string
  {
    if |ws| == 0 then "" else if |ws| == 1 then ws[0] else ws[0] + sep + JoinWords(ws[1..], sep)
  }

  function LowerWords(ws: seq<string>): (r: seq<string>)
    ensures |r| == |ws| && forall i | 0 <= i < |ws| :: r[i] == ToLower(ws[i])
  {
    seq(|ws|, i requires 0 <= i < |ws| => ToLower(ws[i]))
  }

  predicate AllWords(ws: seq<string>) {
    forall i | 0 <= i < |ws| :: IsWord(ws[i])
  }

  /** Words already joined by '_' come out lowered and joined by '_'. */
  lemma {:induction false} SnakeOfUnderscoredWords(ws: seq<string>)
    requires |ws| > 0 && AllWords(ws)
    ensures Snake(JoinWords(ws, "_"), true) == JoinWords(LowerWords(ws), "_")
    decreases |ws|
  {
    SnakeWord(ws[0], true);
    if |ws| > 1 {
      var tail := JoinWords(ws[1..], "_");
      assert LowerWords(ws)[1..] == LowerWords(ws[1..]);
      SnakeOfUnderscoredWords(ws[1..]);
      assert ws[0] + "_" + tail == ws[0] + ("_" + tail);
      SnakeAppend(ws[0], "_" + tail, true);
      assert ("_" + tail)[1..] == tail;
    }
  }

  /** Capitalised words written together come out lowered and joined by '_'. */
  lemma {:induction false} SnakeOfCamelWords(ws: seq<string>, atStart: bool)
    requires |ws| > 0 && AllWords(ws)
    requires forall i | 1 <= i < |ws| :: IsUpper(ws[i][0])
    ensures Snake(JoinWords(ws, ""), atStart)
         == (if IsUpper(ws[0][0]) && !atStart then "_" else "") + JoinWords(LowerWords(ws), "_")
    decreases |ws|
  {
    if |ws| == 1 {
      SnakeWord(ws[0], atStart);
    } else {
      var tail := JoinWords(ws[1..], "");
      var lowered := JoinWords(LowerWords(ws[1..]), "_");
      assert JoinWords(ws, "") == ws[0] + tail by { assert ws[0] + "" + tail == ws[0] + tail; }
      assert ws[1..][0] == ws[1];
      SnakeOfCamelWords(ws[1..], false);
      CamelStep(ws[0], tail, lowered, atStart);
      assert LowerWords(ws)[1..] == LowerWords(ws[1..]);
      assert JoinWords(LowerWords(ws), "_") == ToLower(ws[0]) + "_" + lowered;
    }
  }

  /** A word followed by text whose output starts with '_': the lowered word, then that output. */
  lemma CamelStep(w: string, tail: string, lowered: string, atStart: bool)
    requires IsWord(w) && Snake(tail, false) == "_" + lowered
    ensures Snake(w + tail, atStart) == (if IsUpper(w[0]) && !atStart then "_" else "") + (ToLower(w) + "_" + lowered)
  {
    var pre := if IsUpper(w[0]) && !atStart then "_" else "";
    var lw := ToLower(w);
    SnakeWord(w, atStart);
    assert Snake(w, atStart) == pre + lw;
    assert w[|w| - 1] != '_' by {
      if |w| > 1 { assert IsWordChar(w[|w| - 1]); }
    }
    SnakeAppend(w, tail, atStart);
    assert Snake(w + tail, atStart) == (pre + lw) + ("_" + lowered);
    assert (pre + lw) + ("_" + lowered) == pre + (lw + "_" + lowered);
  }

  /** Joining words changes no character inside them. */
  lemma {:induction false} ReplaceSpacesOfWords(ws: seq<string>, sep: string)
    requires AllWords(ws) && (sep == "" || sep == " ")
    ensures ReplaceSpaces(JoinWords(ws, sep)) == JoinWords(ws, if sep == "" then "" else "_")
    decreases |ws|
  {
    if |ws| == 1 {
      assert ReplaceSpaces(ws[0]) == ws[0];
    } else if |ws| > 1 {
      ReplaceSpacesOfWords(ws[1..], sep);
      var a, b := ws[0], JoinWords(ws[1..], sep);
      assert ReplaceSpaces(a + sep + b) == ReplaceSpaces(a) + ReplaceSpaces(sep) + ReplaceSpaces(b);
      assert ReplaceSpaces(a) == a;
    }
  }

  /** A name of words separated by spaces, such as "Kilometers per Hour", gives its words lowered and joined by '_'. */
  lemma SnakeCaseOfSpacedName(ws: seq<string>)
    requires |ws| > 0 && AllWords(ws)
    ensures SnakeCase(JoinWords(ws, " ")) == JoinWords(LowerWords(ws), "_")
  {
    ReplaceSpacesOfWords(ws, " ");
    SnakeOfUnderscoredWords(ws);
  }

  /** A name of capitalised words written together, such as "KilometersPerHour", does too. */
  lemma SnakeCaseOfCamelName(ws: seq<string>)
    requires |ws| > 0 && AllWords(ws)
    requires forall i | 1 <= i < |ws| :: IsUpper(ws[i][0])
    ensures SnakeCase(JoinWords(ws, "")) == JoinWords(LowerWords(ws), "_")
  {
    ReplaceSpacesOfWords(ws, "");
    SnakeOfCamelWords(ws, true);
  }

  /** Capitalised words are separated by '_' (serialize_compact_test.go:13-19). */
  lemma SnakeCaseCamel()
    ensures SnakeCase("KilometersPerHour") == "kilometers_per_hour"
  {
    SnakeCaseCamelWords();
    SnakeCaseCamelJoined();
    SnakeCaseCamelLowered();
    SnakeCaseCamelRejoined();
    SnakeCaseOfCamelName(["Kilometers", "Per", "Hour"]);
  }

  // The steps of the example above, one lemma each: each step is its own small
  // verification condition, where the whole example at once is costly to check.
  lemma SnakeCaseCamelWords()
    ensures AllWords(["Kilometers", "Per", "Hour"])
    ensures forall i | 1 <= i < 3 :: IsUpper(["Kilometers", "Per", "Hour"][i][0])
  {
  }

  lemma SnakeCaseCamelJoined()
    ensures JoinWords(["Kilometers", "Per", "Hour"], "") == "KilometersPerHour"
  {
  }

  lemma SnakeCaseCamelLowered()
    ensures LowerWords(["Kilometers", "Per", "Hour"]) == ["kilometers", "per", "hour"]
  {
    assert ToLower("Kilometers") == "kilometers";
    assert ToLower("Per") == "per";
    assert ToLower("Hour") == "hour";
  }

  lemma SnakeCaseCamelRejoined()
    ensures JoinWords(["kilometers", "per", "hour"], "_") == "kilometers_per_hour"
  {
  }

  /** An acronym is split letter by letter (serialize_compact_test.go:13-19). */
  lemma SnakeCaseAcronym()
    ensures SnakeCase("BTU") == "b_t_u"
  {
    SnakeCaseAcronymWords();
    SnakeCaseAcronymJoined();
    SnakeCaseAcronymLowered();
    SnakeCaseAcronymRejoined();
    SnakeCaseOfCamelName(["B", "T", "U"]);
  }

  // The steps of the example above, one lemma each: each step is its own small
  // verification condition, where the whole example at once is costly to check.
  lemma SnakeCaseAcronymWords()
    ensures AllWords(["B", "T", "U"])
    ensures forall i | 1 <= i < 3 :: IsUpper(["B", "T", "U"][i][0])
  {
  }

  lemma SnakeCaseAcronymJoined()
    ensures JoinWords(["B", "T", "U"], "") == "BTU"
  {
  }

  lemma SnakeCaseAcronymLowered()
    ensures LowerWords(["B", "T", "U"]) == ["b", "t", "u"]
  {
    assert ToLower("B") == "b";
    assert ToLower("T") == "t";
    assert ToLower("U") == "u";
  }

  lemma SnakeCaseAcronymRejoined()
    ensures JoinWords(["b", "t", "u"], "_") == "b_t_u"
  {
  }

  /** Digits stay with the word before them (serialize_compact_test.go:13-19). */
  lemma SnakeCaseDigits()
    ensures SnakeCase("LitersPer100Kilometers") == "liters_per100_kilometers"
  {
    SnakeCaseDigitsWords();
    SnakeCaseDigitsJoined();
    SnakeCaseDigitsLowered();
    SnakeCaseDigitsRejoined();
    SnakeCaseOfCamelName(["Liters", "Per100", "Kilometers"]);
  }

  // The steps of the example above, one lemma each: each step is its own small
  // verification condition, where the whole example at once is costly to check.
  lemma SnakeCaseDigitsWords()
    ensures AllWords(["Liters", "Per100", "Kilometers"])
    ensures forall i | 1 <= i < 3 :: IsUpper(["Liters", "Per100", "Kilometers"][i][0])
  {
  }

  lemma SnakeCaseDigitsJoined()
    ensures JoinWords(["Liters", "Per100", "Kilometers"], "") == "LitersPer100Kilometers"
  {
  }

  lemma SnakeCaseDigitsLowered()
    ensures LowerWords(["Liters", "Per100", "Kilometers"]) == ["liters", "per100", "kilometers"]
  {
    assert ToLower("Liters") == "liters";
    assert ToLower("Per100") == "per100";
    assert ToLower("Kilometers") == "kilometers";
  }

  lemma SnakeCaseDigitsRejoined()
    ensures JoinWords(["liters", "per100", "kilometers"], "_") == "liters_per100_kilometers"
  {
  }

  /** Spaces become '_': the name of km/h gives the same key part as the capitalised form (speed.go:32). */
  lemma SnakeCaseSpaced()
    ensures SnakeCase("Kilometers per Hour") == "kilometers_per_hour"
  {
    SnakeCaseSpacedWords();
    SnakeCaseSpacedJoined();
    SnakeCaseSpacedLowered();
    SnakeCaseSpacedRejoined();
    SnakeCaseOfSpacedName(["Kilometers", "per", "Hour"]);
  }

  // The steps of the example above, one lemma each: each step is its own small
  // verification condition, where the whole example at once is costly to check.
  lemma SnakeCaseSpacedWords()
    ensures AllWords(["Kilometers", "per", "Hour"])
  {
  }

  lemma SnakeCaseSpacedJoined()
    ensures JoinWords(["Kilometers", "per", "Hour"], " ") == "Kilometers per Hour"
  {
  }

  lemma SnakeCaseSpacedLowered()
    ensures LowerWords(["Kilometers", "per", "Hour"]) == ["kilometers", "per", "hour"]
  {
    assert ToLower("Kilometers") == "kilometers";
    assert ToLower("per") == "per";
    assert ToLower("Hour") == "hour";
  }

  lemma SnakeCaseSpacedRejoined()
    ensures JoinWords(["kilometers", "per", "hour"], "_") == "kilometers_per_hour"
  {
  }

  /** The name of m² (area.go:27). */
  lemma SnakeCaseSquareMeter()
    ensures SnakeCase("Square Meter") == "square_meter"
  {
    SnakeCaseSquareMeterWords();
    SnakeCaseSquareMeterJoined();
    SnakeCaseSquareMeterLowered();
    SnakeCaseSquareMeterRejoined();
    SnakeCaseOfSpacedName(["Square", "Meter"]);
  }

  // The steps of the example above, one lemma each: each step is its own small
  // verification condition, where the whole example at once is costly to check.
  lemma SnakeCaseSquareMeterWords()
    ensures AllWords(["Square", "Meter"])
  {
  }

  lemma SnakeCaseSquareMeterJoined()
    ensures JoinWords(["Square", "Meter"], " ") == "Square Meter"
  {
  }

  lemma SnakeCaseSquareMeterLowered()
    ensures LowerWords(["Square", "Meter"]) == ["square", "meter"]
  {
    assert ToLower("Square") == "square";
    assert ToLower("Meter") == "meter";
  }

  lemma SnakeCaseSquareMeterRejoined()
    ensures JoinWords(["square", "meter"], "_") == "square_meter"
  {
  }

  /** The name of psi (pressure.go:52). */
  lemma SnakeCasePsi()
    ensures SnakeCase("Pounds per Square Inch") == "pounds_per_square_inch"
  {
    SnakeCasePsiWords();
    SnakeCasePsiJoined();
    SnakeCasePsiLowered();
    SnakeCasePsiRejoined();
    SnakeCaseOfSpacedName(["Pounds", "per", "Square", "Inch"]);
  }

  // The steps of the example above, one lemma each: each step is its own small
  // verification condition, where the whole example at once is costly to check.
  lemma SnakeCasePsiWords()
    ensures AllWords(["Pounds", "per", "Square", "Inch"])
  {
  }

  lemma SnakeCasePsiJoined()
    ensures JoinWords(["Pounds", "per", "Square", "Inch"], " ") == "Pounds per Square Inch"
  {
  }

  lemma SnakeCasePsiLowered()
    ensures LowerWords(["Pounds", "per", "Square", "Inch"]) == ["pounds", "per", "square", "inch"]
  {
    assert ToLower("Pounds") == "pounds";
    assert ToLower("per") == "per";
    assert ToLower("Square") == "square";
    assert ToLower("Inch") == "inch";
  }

  lemma SnakeCasePsiRejoined()
    ensures JoinWords(["pounds", "per", "square", "inch"], "_") == "pounds_per_square_inch"
  {
  }

  /** The name of CFM (flowrate.go:40). */
  lemma SnakeCaseCfm()
    ensures SnakeCase("Cubic Feet per Minute") == "cubic_feet_per_minute"
  {
    SnakeCaseCfmWords();
    SnakeCaseCfmJoined();
    SnakeCaseCfmLowered();
    SnakeCaseCfmRejoined();
    SnakeCaseOfSpacedName(["Cubic", "Feet", "per", "Minute"]);
  }

  // The steps of the example above, one lemma each: each step is its own small
  // verification condition, where the whole example at once is costly to check.
  lemma SnakeCaseCfmWords()
    ensures AllWords(["Cubic", "Feet", "per", "Minute"])
  {
  }

  lemma SnakeCaseCfmJoined()
    ensures JoinWords(["Cubic", "Feet", "per", "Minute"], " ") == "Cubic Feet per Minute"
  {
  }

  lemma SnakeCaseCfmLowered()
    ensures LowerWords(["Cubic", "Feet", "per", "Minute"]) == ["cubic", "feet", "per", "minute"]
  {
    assert ToLower("Cubic") == "cubic";
    assert ToLower("Feet") == "feet";
    assert ToLower("per") == "per";
    assert ToLower("Minute") == "minute";
  }

  lemma SnakeCaseCfmRejoined()
    ensures JoinWords(["cubic", "feet", "per", "minute"], "_") == "cubic_feet_per_minute"
  {
  }

  /** The name of °F (temperature.go:30). */
  lemma SnakeCaseFahrenheit()
    ensures SnakeCase("Fahrenheit") == "fahrenheit"
  {
    SnakeCaseFahrenheitWords();
    SnakeCaseFahrenheitJoined();
    SnakeCaseFahrenheitLowered();
    SnakeCaseFahrenheitRejoined();
    SnakeCaseOfSpacedName(["Fahrenheit"]);
  }

  // The steps of the example above, one lemma each: each step is its own small
  // verification condition, where the whole example at once is costly to check.
  lemma SnakeCaseFahrenheitWords()
    ensures AllWords(["Fahrenheit"])
  {
  }

  lemma SnakeCaseFahrenheitJoined()
    ensures JoinWords(["Fahrenheit"], " ") == "Fahrenheit"
  {
  }

  lemma SnakeCaseFahrenheitLowered()
    ensures LowerWords(["Fahrenheit"]) == ["fahrenheit"]
  {
    assert ToLower("Fahrenheit") == "fahrenheit";
  }

  lemma SnakeCaseFahrenheitRejoined()
    ensures JoinWords(["fahrenheit"], "_") == "fahrenheit"
  {
  }

  /** The name of the general base unit (general.go:18). */
  lemma SnakeCaseGeneralUnit()
    ensures SnakeCase("General Unit") == "general_unit"
  {
    SnakeCaseGeneralUnitWords();
    SnakeCaseGeneralUnitJoined();
    SnakeCaseGeneralUnitLowered();
    SnakeCaseGeneralUnitRejoined();
    SnakeCaseOfSpacedName(["General", "Unit"]);
  }

  // The steps of the example above, one lemma each: each step is its own small
  // verification condition, where the whole example at once is costly to check.
  lemma SnakeCaseGeneralUnitWords()
    ensures AllWords(["General", "Unit"])
  {
  }

  lemma SnakeCaseGeneralUnitJoined()
    ensures JoinWords(["General", "Unit"], " ") == "General Unit"
  {
  }

  lemma SnakeCaseGeneralUnitLowered()
    ensures LowerWords(["General", "Unit"]) == ["general", "unit"]
  {
    assert ToLower("General") == "general";
    assert ToLower("Unit") == "unit";
  }

  lemma SnakeCaseGeneralUnitRejoined()
    ensures JoinWords(["general", "unit"], "_") == "general_unit"
  {
  }

  /** The name of kPa (pressure.go:32). */
  lemma SnakeCaseKilopascal()
    ensures SnakeCase("Kilopascal") == "kilopascal"
  {
    SnakeCaseKilopascalWords();
    SnakeCaseKilopascalJoined();
    SnakeCaseKilopascalLowered();
    SnakeCaseKilopascalRejoined();
    SnakeCaseOfSpacedName(["Kilopascal"]);
  }

  // The steps of the example above, one lemma each: each step is its own small
  // verification condition, where the whole example at once is costly to check.
  lemma SnakeCaseKilopascalWords()
    ensures AllWords(["Kilopascal"])
  {
  }

  lemma SnakeCaseKilopascalJoined()
    ensures JoinWords(["Kilopascal"], " ") == "Kilopascal"
  {
  }

  lemma SnakeCaseKilopascalLowered()
    ensures LowerWords(["Kilopascal"]) == ["kilopascal"]
  {
    assert ToLower("Kilopascal") == "kilopascal";
  }

  lemma SnakeCaseKilopascalRejoined()
    ensures JoinWords(["kilopascal"], "_") == "kilopascal"
  {
  }
  /** unitKey (serialize.go:104-106): the lowered dimension, '_', and the snake_case name. */
  function UnitKey(dimension: string, name: string): string
  {
    ToLower(dimension) + "_" + SnakeCase(name)
  }

  /** strings.Index(s, "_"): the first position of '_', or -1. */
  function FirstUnderscore(s: string): (i: int)
    ensures -1 <= i < |s|
    ensures i == -1 <==> '_' !in s
    ensures i >= 0 ==> s[i] == '_' && '_' !in s[..i]
  {
    if |s| == 0 then -1
    else if s[0] == '_' then 0
    else
      var j := FirstUnderscore(s[1..]);
      assert j >= 0 ==> s[..j + 1] == [s[0]] + s[1..][..j];
      assert j == -1 ==> s == [s[0]] + s[1..];
      if j == -1 then -1 else j + 1
  }

  /** In a + "_" + b with no '_' in a, the first '_' is the one after a. */
  lemma {:induction false} FirstUnderscoreOfJoin(a: string, b: string)
    requires '_' !in a
    ensures FirstUnderscore(a + "_" + b) == |a|
    decreases |a|
  {
    if |a| > 0 {
      assert (a + "_" + b)[1..] == a[1..] + "_" + b;
      FirstUnderscoreOfJoin(a[1..], b);
    }
  }

  /**
   * parseUnitKey (serialize.go:110-116): the text before the first '_' and
   * the text after it; a key without '_' is all dimension.
   */
  function ParseUnitKey(key: string): (r: (string, string))
    ensures '_' !in key ==> r == (key, "")
    ensures '_' in key ==> r.0 + "_" + r.1 == key && '_' !in r.0
  {
    var idx := FirstUnderscore(key);
    if idx == -1 then (key, "")
    else
      assert key == key[..idx] + "_" + key[idx + 1..];
      (key[..idx], key[idx + 1..])
  }

  /** The split is determined by where the first '_' is. */
  lemma ParseUnitKeyOfJoin(a: string, b: string)
    requires '_' !in a
    ensures ParseUnitKey(a + "_" + b) == (a, b)
  {
    FirstUnderscoreOfJoin(a, b);
    var key := a + "_" + b;
    assert key[..|a|] == a;
    assert key[|a| + 1..] == b;
  }

  /** A dimension without '_' comes back from the key, and so does the snake_case name. */
  lemma ParseUnitKeyOfUnitKey(dimension: string, name: string)
    requires '_' !in dimension
    ensures ParseUnitKey(UnitKey(dimension, name)) == (ToLower(dimension), SnakeCase(name))
  {
    var d := ToLower(dimension);
    assert forall i | 0 <= i < |d| :: d[i] != '_';
    ParseUnitKeyOfJoin(d, SnakeCase(name));
  }

  /** A key splits at its first '_' (serialize_compact_test.go:55-57). */
  lemma ParseUnitKeySimple()
    ensures ParseUnitKey("temperature_celsius") == ("temperature", "celsius")
  {
    assert "temperature_celsius" == "temperature" + "_" + "celsius";
    ParseUnitKeyOfJoin("temperature", "celsius");
  }

  /** Keys of multi-word dimensions split inside the dimension (serialize_compact_test.go:55-57). */
  lemma ParseUnitKeyMultiWord()
    ensures ParseUnitKey("electric_current_milliampere") == ("electric", "current_milliampere")
  {
    assert "electric_current_milliampere" == "electric" + "_" + "current_milliampere";
    ParseUnitKeyOfJoin("electric", "current_milliampere");
  }

  /** A key without '_' is all dimension. */
  lemma ParseUnitKeyNoUnderscore()
    ensures ParseUnitKey("celsius") == ("celsius", "")
  {
    assert forall i | 0 <= i < |"celsius"| :: "celsius"[i] != '_';
  }

  /** strings.EqualFold on ASCII letters: equal after lowering. */
  function EqualFold(a: string, b: string): (r: bool)
    ensures r <==> ToLower(a) == ToLower(b)
  {
    if |a| != |b| then false
    else if |a| == 0 then true
    else
      assert ToLower(a) == [Lower(a[0])] + ToLower(a[1..]);
      assert ToLower(b) == [Lower(b[0])] + ToLower(b[1..]);
      Lower(a[0]) == Lower(b[0]) && EqualFold(a[1..], b[1..])
  }
}
