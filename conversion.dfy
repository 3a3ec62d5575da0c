/**
 * Textual quantities (conversion.go): a string such as "22.5°C" or
 * "101.3 kPa" is trimmed, split by the measurement pattern
 * `^([-+]?\d*\.?\d+)\s*([^\d\s].*)$` into a numeral and a unit token, and
 * the token, lowered, is looked up in the alias list of a dimension.
 *
 * The pattern is modelled by the match Go's regexp engine returns for it
 * (leftmost-first, greedy); strconv.ParseFloat by the exact decimal value
 * of the numeral and its overflow bound.
 */
module Conversion {
  import opened Results
  import opened Units
  import opened Quantities
  import SerializeKeys

  /** ParseError (conversion.go:12-16): the input and what was wrong with it. */
  datatype ParseError = ParseError(input: string, msg: string)

  /** A value, or the ParseError of a parse that failed. */
  datatype ParseResult<T> = Parsed(value: T) | Failed(error: ParseError) {
    predicate IsFailure() { Failed? }

    function PropagateFailure<U>(): ParseResult<U>
      requires Failed?
    {
      Failed(error)
    }

    function Extract(): T
      requires Parsed?
    {
      value
    }
  }

  const ErrorPrefix: string := "failed to parse measurement '"
  const ErrorInfix: string := "': "

  /** ParseError.Error (conversion.go:19-21): the input quoted, then the message. */
  function ErrorText(e: ParseError): (r: string)
    ensures |r| == |ErrorPrefix| + |e.input| + |ErrorInfix| + |e.msg|
    ensures r[..|ErrorPrefix|] == ErrorPrefix
    ensures r[|ErrorPrefix|..|ErrorPrefix| + |e.input|] == e.input
    ensures r[|r| - |e.msg|..] == e.msg
  {
    ErrorPrefix + e.input + ErrorInfix + e.msg
  }

  /** The index of the first c in s, or |s|. */
  function FirstIndexOf(s: string, c: char): (r: nat)
    ensures r <= |s| && (r < |s| ==> s[r] == c)
    ensures forall k | 0 <= k < r :: s[k] != c
  {
    if |s| == 0 || s[0] == c then 0 else 1 + FirstIndexOf(s[1..], c)
  }

  /** The quoted input of an error text: what follows the prefix, up to the next quote. */
  function InputOfErrorText(text: string): string
  {
    if |text| < |ErrorPrefix| then ""
    else
      var rest := text[|ErrorPrefix|..];
      rest[..FirstIndexOf(rest, '\'')]
  }

  /** The input can be read back from the error text unless it holds a quote itself. */
  lemma InputOfErrorTextRoundTrip(e: ParseError)
    requires '\'' !in e.input
    ensures InputOfErrorText(ErrorText(e)) == e.input
  {
    var text := ErrorText(e);
    var rest := text[|ErrorPrefix|..];
    assert rest == e.input + ErrorInfix + e.msg;
    assert rest[|e.input|] == '\'';
    assert forall k | 0 <= k < |e.input| :: rest[k] == e.input[k];
    assert FirstIndexOf(rest, '\'') == |e.input|;
  }

  /*
   * strings.TrimSpace
   */

  /** unicode.IsSpace: the white-space characters of Unicode. */
  predicate IsSpace(c: char)
  {
    c == '\t' || c == '\n' || c == '\U{000B}' || c == '\U{000C}' || c == '\r' || c == ' ' ||
    c == '\U{0085}' || c == '\U{00A0}' || c == '\U{1680}' || ('\U{2000}' <= c <= '\U{200A}') ||
    c == '\U{2028}' || c == '\U{2029}' || c == '\U{202F}' || c == '\U{205F}' || c == '\U{3000}'
  }

  predicate AllSpace(s: string)
  {
    forall i | 0 <= i < |s| :: IsSpace(s[i])
  }

  /** The number of white-space characters s starts with. */
  function LeadingSpaces(s: string): (n: nat)
    ensures n <= |s| && AllSpace(s[..n])
    ensures n < |s| ==> !IsSpace(s[n])
  {
    if |s| > 0 && IsSpace(s[0]) then
      var n := 1 + LeadingSpaces(s[1..]);
      assert forall i | 1 <= i < n :: s[..n][i] == s[1..][..n - 1][i - 1];
      n
    else 0
  }

  /** The number of white-space characters s ends with. */
  function TrailingSpaces(s: string): (n: nat)
    ensures n <= |s| && AllSpace(s[|s| - n..])
    ensures n < |s| ==> !IsSpace(s[|s| - n - 1])
  {
    if |s| > 0 && IsSpace(s[|s| - 1]) then
      var n := 1 + TrailingSpaces(s[..|s| - 1]);
      assert s[|s| - n..] == s[..|s| - 1][|s| - n..] + [s[|s| - 1]];
      n
    else 0
  }

  /** t is s without its leading and trailing white space. */
  predicate IsTrimOf(t: string, s: string)
  {
    (t == [] || (!IsSpace(t[0]) && !IsSpace(t[|t| - 1]))) &&
    exists i | 0 <= i <= |s| - |t| :: AllSpace(s[..i]) && s[i..i + |t|] == t && AllSpace(s[i + |t|..])
  }

  /** strings.TrimSpace. */
  function TrimSpace(s: string): (r: string)
    ensures IsTrimOf(r, s)
    ensures r == [] <==> AllSpace(s)
  {
    var l := LeadingSpaces(s);
    if l == |s| then
      assert s[..0] == [] && s[0..0] == [] && s[0..] == s[..l] == s;
      []
    else
      var t := TrailingSpaces(s);
      var r := s[l..|s| - t];
      assert s[l + |r|..] == s[|s| - t..];
      assert !AllSpace(s) by { assert !IsSpace(s[l]); }
      r
  }

  /**
   * The partner of TrimSpace: any text with no white space at its ends is
   * what remains of it padded with white space on both sides.
   */
  lemma TrimSpaceOfPadded(a: string, t: string, b: string)
    requires AllSpace(a) && AllSpace(b)
    requires t == [] || (!IsSpace(t[0]) && !IsSpace(t[|t| - 1]))
    ensures TrimSpace(a + t + b) == t
  {
    var s := a + t + b;
    var l := LeadingSpaces(s);
    assert forall i | 0 <= i < |s| :: s[i] == if i < |a| then a[i] else if i < |a| + |t| then t[i - |a|] else b[i - |a| - |t|];
    if t == [] {
      assert AllSpace(s);
    } else {
      assert !IsSpace(s[|a|]) && !IsSpace(s[|a| + |t| - 1]);
      assert l == |a|;
      var n := TrailingSpaces(s);
      assert n == |b|;
      assert s[l..|s| - n] == t;
    }
  }

  /** The same, for a text s given together with its three parts. */
  lemma TrimSpaceOfParts(a: string, t: string, b: string, s: string)
    requires s == a + t + b && AllSpace(a) && AllSpace(b)
    requires t == [] || (!IsSpace(t[0]) && !IsSpace(t[|t| - 1]))
    ensures TrimSpace(s) == t
  {
    TrimSpaceOfPadded(a, t, b);
  }

  /** Trimming twice trims nothing more. */
  lemma TrimSpaceIdempotent(s: string)
    ensures TrimSpace(TrimSpace(s)) == TrimSpace(s)
  {
    TrimSpaceOfTrimmed(TrimSpace(s));
  }

  /** Text with no white space at either end is left as it is. */
  lemma TrimSpaceOfTrimmed(t: string)
    requires t == [] || (!IsSpace(t[0]) && !IsSpace(t[|t| - 1]))
    ensures TrimSpace(t) == t
  {
    TrimSpaceOfPadded([], t, []);
    assert [] + t + [] == t;
  }

  /*
   * The measurement pattern ^([-+]?\d*\.?\d+)\s*([^\d\s].*)$
   */

  /** `\d` of Go's regexp syntax. */
  predicate IsDigit(c: char)
  {
    '0' <= c <= '9'
  }

  /** `\s` of Go's regexp syntax: tab, newline, form feed, carriage return and space only. */
  predicate IsPatternSpace(c: char)
  {
    c == '\t' || c == '\n' || c == '\U{000C}' || c == '\r' || c == ' '
  }

  /** 1 when s starts with the optional sign `[-+]`, else 0. */
  function SignLength(s: string): (r: nat)
    ensures r <= |s|
  {
    if |s| > 0 && (s[0] == '+' || s[0] == '-') then 1 else 0
  }

  /** `[-+]?\d*\.?\d+`: an optional sign, then digits with at most one point and a digit last. */
  predicate IsNumeral(t: string)
  {
    var i := SignLength(t);
    i < |t| && IsDigit(t[|t| - 1]) &&
    (forall k | i <= k < |t| :: IsDigit(t[k]) || t[k] == '.') &&
    (forall k, m | i <= k < m < |t| && t[k] == '.' :: t[m] != '.')
  }

  /**
   * The pattern matches s with the numeral s[..n], the white space
   * s[n..w] and the unit part s[w..]: a first character that is neither a
   * digit nor white space, and no newline after it (`.` stops at "\n" and
   * `$` is the end of the text).
   */
  predicate MatchesAt(s: string, n: nat, w: nat)
  {
    n <= w < |s| && IsNumeral(s[..n]) &&
    (forall k | n <= k < w :: IsPatternSpace(s[k])) &&
    !IsDigit(s[w]) && !IsPatternSpace(s[w]) &&
    forall k | w < k < |s| :: s[k] != '\n'
  }

  /** The end of the run of digits that starts at i. */
  function DigitsEnd(s: string, i: nat): (e: nat)
    requires i <= |s|
    ensures i <= e <= |s|
    ensures forall k | i <= k < e :: IsDigit(s[k])
    ensures e < |s| ==> !IsDigit(s[e])
    decreases |s| - i
  {
    if i < |s| && IsDigit(s[i]) then DigitsEnd(s, i + 1) else i
  }

  /** The end of the run of pattern white space that starts at i. */
  function SpacesEnd(s: string, i: nat): (e: nat)
    requires i <= |s|
    ensures i <= e <= |s|
    ensures forall k | i <= k < e :: IsPatternSpace(s[k])
    ensures e < |s| ==> !IsPatternSpace(s[e])
    decreases |s| - i
  {
    if i < |s| && IsPatternSpace(s[i]) then SpacesEnd(s, i + 1) else i
  }

  /** `\s*([^\d\s].*)$` matches s from n on. */
  predicate TailMatches(s: string, n: nat)
    requires n <= |s|
  {
    var w := SpacesEnd(s, n);
    w < |s| && !IsDigit(s[w]) && forall k | w < k < |s| :: s[k] != '\n'
  }

  /**
   * Where the numeral group of the match ends, if the pattern matches.
   * The greedy `\d*\.?\d+` first tries the digits, the point and the digits
   * after it; when the rest does not match after those, the engine backs
   * up to the digits before the point, and the point starts the unit part.
   */
  function NumeralEnd(s: string): (r: Option<nat>)
    ensures r.Some? ==> r.value <= |s| && MatchesAt(s, r.value, SpacesEnd(s, r.value))
  {
    var i := SignLength(s);
    var d1 := DigitsEnd(s, i);
    if d1 + 1 < |s| && s[d1] == '.' && IsDigit(s[d1 + 1]) && TailMatches(s, DigitsEnd(s, d1 + 1)) then
      var d2 := DigitsEnd(s, d1 + 1);
      assert IsNumeral(s[..d2]) by {
        assert SignLength(s[..d2]) == i;
        assert forall k, m | i <= k < m < d2 && s[k] == '.' :: k == d1 && s[m] != '.';
      }
      Some(d2)
    else if d1 > i && TailMatches(s, d1) then
      assert IsNumeral(s[..d1]) by {
        assert SignLength(s[..d1]) == i;
      }
      Some(d1)
    else None
  }

  /**
   * The partner of NumeralEnd: the pattern matches only where NumeralEnd
   * finds a match, and no match has a longer numeral.
   */
  lemma NumeralEndIsLongest(s: string, n: nat, w: nat)
    requires MatchesAt(s, n, w)
    ensures NumeralEnd(s).Some? && n <= NumeralEnd(s).value
    ensures w == SpacesEnd(s, n)
  {
    MatchedNumeralEnds(s, n, w);
    if exists p | SignLength(s) <= p < n :: s[p] == '.' {
      var p :| SignLength(s) <= p < n && s[p] == '.';
      NumeralWithPoint(s, n, w, p);
    } else {
      NumeralWithoutPoint(s, n, w);
    }
  }

  /** A matched numeral is followed by a character that is not a digit, and then by the white space up to w. */
  lemma MatchedNumeralEnds(s: string, n: nat, w: nat)
    requires MatchesAt(s, n, w)
    ensures n < |s| && !IsDigit(s[n]) && w == SpacesEnd(s, n)
    ensures SignLength(s[..n]) == SignLength(s) < n
  {
    assert n < w ==> IsPatternSpace(s[n]);
  }

  /** A matched numeral with a point is the longest numeral NumeralEnd tries. */
  lemma NumeralWithPoint(s: string, n: nat, w: nat, p: nat)
    requires MatchesAt(s, n, w) && SignLength(s) <= p < n && s[p] == '.'
    ensures NumeralEnd(s) == Some(n)
  {
    MatchedNumeralEnds(s, n, w);
    var t := s[..n];
    var i := SignLength(s);
    assert forall k | i <= k < n :: t[k] == s[k];
    assert t[p] == '.';
    assert forall k | i <= k < n && k != p :: IsDigit(s[k]) by {
      assert forall k | i <= k < p :: t[k] != '.';
      assert forall k | p < k < n :: t[k] != '.';
    }
    assert DigitsEnd(s, i) == p;
    assert p + 1 < n && IsDigit(s[p + 1]);
    assert DigitsEnd(s, p + 1) == n;
    assert TailMatches(s, n);
    NumeralEndAtPoint(s, p, n);
  }

  /** Digits, a point, digits and a matching tail: NumeralEnd takes the second run of digits. */
  lemma NumeralEndAtPoint(s: string, p: nat, n: nat)
    requires p + 1 < n <= |s| && DigitsEnd(s, SignLength(s)) == p && s[p] == '.' && IsDigit(s[p + 1])
    requires DigitsEnd(s, p + 1) == n && TailMatches(s, n)
    ensures NumeralEnd(s) == Some(n)
  {
  }

  /** A matched numeral without a point is the run of digits after the sign. */
  lemma NumeralWithoutPoint(s: string, n: nat, w: nat)
    requires MatchesAt(s, n, w) && forall p | SignLength(s) <= p < n :: s[p] != '.'
    ensures DigitsEnd(s, SignLength(s)) == n && TailMatches(s, n)
  {
    MatchedNumeralEnds(s, n, w);
    var t := s[..n];
    assert forall k | SignLength(s) <= k < n :: t[k] == s[k];
  }

  /** The pattern matches nowhere exactly when NumeralEnd finds nothing. */
  lemma NoMatchExactly(s: string)
    ensures NumeralEnd(s).None? <==> forall n: nat, w: nat :: !MatchesAt(s, n, w)
  {
    if NumeralEnd(s).None? {
      forall n: nat, w: nat ensures !MatchesAt(s, n, w) {
        if MatchesAt(s, n, w) { NumeralEndIsLongest(s, n, w); }
      }
    } else {
      assert MatchesAt(s, NumeralEnd(s).value, SpacesEnd(s, NumeralEnd(s).value));
    }
  }

  /*
   * strconv.ParseFloat on the numeral
   */

  predicate AllDigits(s: string)
  {
    forall k | 0 <= k < |s| :: IsDigit(s[k])
  }

  /** The number a string of decimal digits denotes. */
  function DigitsValue(ds: string): (r: nat)
    requires AllDigits(ds)
  {
    if |ds| == 0 then 0
    else DigitsValue(ds[..|ds| - 1]) * 10 + (ds[|ds| - 1] as int - '0' as int)
  }

  function Pow10(n: nat): (r: nat)
    ensures r > 0
  {
    if n == 0 then 1 else 10 * Pow10(n - 1)
  }

  /** The digits after a block of digits scale it by ten per digit. */
  lemma {:induction false} DigitsValueAppend(a: string, b: string)
    requires AllDigits(a) && AllDigits(b)
    ensures AllDigits(a + b) && DigitsValue(a + b) == DigitsValue(a) * Pow10(|b|) + DigitsValue(b)
  {
    assert AllDigits(a + b) by {
      assert forall k | 0 <= k < |a + b| :: (a + b)[k] == if k < |a| then a[k] else b[k - |a|];
    }
    if |b| > 0 {
      var b' := b[..|b| - 1];
      assert (a + b)[..|a + b| - 1] == a + b';
      assert (a + b)[|a + b| - 1] == b[|b| - 1];
      DigitsValueAppend(a, b');
      var va, vb, d, p := DigitsValue(a), DigitsValue(b'), b[|b| - 1] as int - '0' as int, Pow10(|b'|);
      assert DigitsValue(a + b) == (va * p + vb) * 10 + d;
      assert DigitsValue(b) == vb * 10 + d;
      assert Pow10(|b|) == 10 * p;
      ShiftDigit(va, vb, d, p);
    } else {
      assert a + b == a;
    }
  }

  /** One more digit: (va * p + vb) shifted by a digit equals va shifted by one place more, plus vb shifted. */
  lemma ShiftDigit(va: int, vb: int, d: int, p: int)
    ensures (va * p + vb) * 10 + d == va * (10 * p) + (vb * 10 + d)
  {
  }

  /**
   * The exact value of a numeral: the digits without the point, divided
   * by ten for each digit after the point, negated after a minus sign.
   */
  function NumeralValue(t: string): real
    requires IsNumeral(t)
  {
    var u := t[SignLength(t)..];
    assert IsNumeral(u) && SignLength(u) == 0 by {
      assert forall k | 0 <= k < |u| :: u[k] == t[k + SignLength(t)];
    }
    if t[0] == '-' then -Magnitude(u) else Magnitude(u)
  }

  /** The value of a numeral without a sign. */
  function Magnitude(u: string): real
    requires IsNumeral(u) && SignLength(u) == 0
  {
    var p := FirstIndexOf(u, '.');
    if p < |u| then DigitsValue(u[..p] + u[p + 1..]) as real / Pow10(|u| - p - 1) as real
    else DigitsValue(u) as real
  }

  /**
   * The meaning of decimal notation: a numeral a.b denotes a plus the
   * fraction b over ten to the number of digits of b.
   */
  lemma DecimalNotation(a: string, b: string)
    requires AllDigits(a) && AllDigits(b) && |b| > 0
    ensures IsNumeral(a + "." + b)
    ensures NumeralValue(a + "." + b) == DigitsValue(a) as real + DigitsValue(b) as real / Pow10(|b|) as real
  {
    var t := a + "." + b;
    PointNumeralParts(a, b);
    assert t[0..] == t;
    assert t[..|a|] + t[|a| + 1..] == a + b;
    assert NumeralValue(t) == DigitsValue(a + b) as real / Pow10(|b|) as real;
    DigitsValueAppend(a, b);
    ScaledSum(DigitsValue(a + b), DigitsValue(a), DigitsValue(b), Pow10(|b|));
  }

  /** The numeral a.b, with the values of its parts given, denotes a + b / 10^|b|. */
  lemma DecimalValue(a: string, b: string, t: string, va: nat, vb: nat, p: nat)
    requires AllDigits(a) && AllDigits(b) && |b| > 0 && t == a + "." + b
    requires DigitsValue(a) == va && DigitsValue(b) == vb && Pow10(|b|) == p
    ensures IsNumeral(t) && NumeralValue(t) == va as real + vb as real / p as real
  {
    DecimalNotation(a, b);
  }

  lemma ScaledSum(v: nat, x: nat, y: nat, p: nat)
    requires p > 0 && v == x * p + y
    ensures v as real / p as real == x as real + y as real / p as real
  {
  }

  /** The parts NumeralValue reads from a numeral a.b: no sign, the point after a, and a and b around it. */
  lemma PointNumeralParts(a: string, b: string)
    requires AllDigits(a) && AllDigits(b) && |b| > 0
    ensures var t := a + "." + b;
            IsNumeral(t) && t[0] != '-' && SignLength(t) == 0 && FirstIndexOf(t, '.') == |a| &&
            t[..|a|] == a && t[|a| + 1..] == b
  {
    var t := a + "." + b;
    assert forall k | 0 <= k < |t| :: t[k] == if k < |a| then a[k] else if k == |a| then '.' else b[k - |a| - 1];
    assert t[0] != '+' && t[0] != '-';
    assert forall k | 0 <= k < |a| :: t[k] != '.';
    assert t[|a|] == '.';
    assert t[..|a|] == a && t[|a| + 1..] == b;
  }

  /** A numeral without a point denotes its digits. */
  lemma IntegerNotation(a: string)
    requires AllDigits(a) && |a| > 0
    ensures IsNumeral(a) && NumeralValue(a) == DigitsValue(a) as real
  {
    assert SignLength(a) == 0 by { assert IsDigit(a[0]); }
    assert a[0..] == a;
    assert forall k | 0 <= k < |a| :: a[k] != '.' by {
      assert forall k | 0 <= k < |a| :: IsDigit(a[k]);
    }
    assert FirstIndexOf(a, '.') == |a|;
  }

  /** A minus sign negates the value, a plus sign keeps it. */
  lemma SignedNotation(u: string)
    requires IsNumeral(u) && SignLength(u) == 0
    ensures IsNumeral("-" + u) && NumeralValue("-" + u) == -NumeralValue(u)
    ensures IsNumeral("+" + u) && NumeralValue("+" + u) == NumeralValue(u)
  {
    assert u[0] != '-' by { assert u[0] != '+' && u[0] != '-'; }
    assert ("-" + u)[1..] == u && ("+" + u)[1..] == u;
    assert forall k | 1 <= k < |u| + 1 :: ("-" + u)[k] == u[k - 1] && ("+" + u)[k] == u[k - 1];
    assert u[0..] == u;
  }

  /**
   * ParseFloat fails with a range error when the value rounds to an
   * infinity: from the point half an ulp above the largest float64,
   * (2^53 - 1) * 2^971 + 2^970, on.
   */
  const FloatOverflow: real :=
    179769313486231580793728971405303415079934132710037826936173778980444968292764750946649017977587207096330286416692887910946555547851940402630657488671505820681908902000708383676273854845817711531764475730270069855571366959622842914819860834936475292719074168444365510704342711559699508093042880177904174497792.0

  predicate InFloatRange(v: real)
  {
    -FloatOverflow < v < FloatOverflow
  }

  const InvalidFormat: string := "invalid format, " + "expected '<value><unit>' (e.g., '22.5°C')"

  /** No match of the pattern has a longer numeral than the one NumeralEnd finds. */
  lemma NumeralEndIsLongestOfAll(t: string)
    requires NumeralEnd(t).Some?
    ensures forall n: nat, w: nat :: MatchesAt(t, n, w) ==> n <= NumeralEnd(t).value
  {
    forall n: nat, w: nat | MatchesAt(t, n, w) ensures n <= NumeralEnd(t).value {
      NumeralEndIsLongest(t, n, w);
    }
  }

  /** What follows a position inside trimmed text is not blank. */
  lemma RestOfTrimmedNotBlank(s: string, w: nat)
    requires w < |TrimSpace(s)|
    ensures TrimSpace(TrimSpace(s)[w..]) != []
  {
    var t := TrimSpace(s);
    assert t[w..][|t| - w - 1] == t[|t| - 1];
  }

  /** The two messages of parseValueAndUnit differ. */
  lemma MessagesDiffer(numeral: string)
    ensures "invalid number: " + numeral != InvalidFormat
  {
    assert ("invalid number: " + numeral)[8] == 'n';
    assert InvalidFormat[8] == 'f';
  }

  /**
   * parseValueAndUnit (conversion.go:99-121): trim, match the pattern,
   * trim the unit part and parse the numeral.  Its errors carry the
   * trimmed input.
   */
  function ParseValueAndUnit(s: string): (r: ParseResult<(real, string)>)
    ensures r.Failed? ==> r.error.input == TrimSpace(s)
    ensures (forall n: nat, w: nat :: !MatchesAt(TrimSpace(s), n, w)) <==> r == Failed(ParseError(TrimSpace(s), InvalidFormat))
    ensures r.Parsed? ==>
              (exists n: nat, w: nat :: MatchesAt(TrimSpace(s), n, w) &&
                 InFloatRange(NumeralValue(TrimSpace(s)[..n])) &&
                 r.value == (NumeralValue(TrimSpace(s)[..n]), TrimSpace(TrimSpace(s)[w..])) &&
                 forall n': nat, w': nat :: MatchesAt(TrimSpace(s), n', w') ==> n' <= n)
    ensures r.Parsed? ==> r.value.1 != [] && !IsSpace(r.value.1[0])
  {
    var t := TrimSpace(s);
    NoMatchExactly(t);
    match NumeralEnd(t)
    case None => Failed(ParseError(t, InvalidFormat))
    case Some(n) =>
      var w := SpacesEnd(t, n);
      var numeral := t[..n];
      var value := NumeralValue(numeral);
      if !InFloatRange(value) then
        MessagesDiffer(numeral);
        Failed(ParseError(t, "invalid number: " + numeral))
      else
        NumeralEndIsLongestOfAll(t);
        RestOfTrimmedNotBlank(s, w);
        Parsed((value, TrimSpace(t[w..])))
  }

  /** Once the longest numeral is known and in range, the value and the rest of the text are the result. */
  lemma ParseMatched(s: string, n: nat)
    requires NumeralEnd(TrimSpace(s)) == Some(n) && InFloatRange(NumeralValue(TrimSpace(s)[..n]))
    ensures ParseValueAndUnit(s) ==
              Parsed((NumeralValue(TrimSpace(s)[..n]), TrimSpace(TrimSpace(s)[SpacesEnd(TrimSpace(s), n)..])))
  {
  }

  /**
   * A numeral, then one space or nothing, then a unit token with no white
   * space at its ends, as FormatWithUnit joins them ("22.5 °C") or as the
   * tests write them ("25°C").  Without the space the token must not start
   * with a point, which the numeral would take.
   */
  predicate IsFormatted(numeral: string, sep: string, unit: string)
  {
    IsNumeral(numeral) && (sep == " " || sep == "") && IsUnitToken(unit) &&
    (sep == "" ==> unit[0] != '.')
  }

  /** A token the pattern reads back whole: no digit or white space first, no white space last, no line break. */
  predicate IsUnitToken(unit: string)
  {
    unit != [] && !IsDigit(unit[0]) && !IsSpace(unit[0]) && !IsSpace(unit[|unit| - 1]) &&
    '\n' !in unit
  }

  lemma FormattedIsTrimmed(numeral: string, sep: string, unit: string)
    requires IsFormatted(numeral, sep, unit)
    ensures TrimSpace(numeral + sep + unit) == numeral + sep + unit
  {
    var s := numeral + sep + unit;
    assert s[0] == numeral[0] && s[|s| - 1] == unit[|unit| - 1];
    NumeralStart(numeral);
    TrimSpaceOfTrimmed(s);
  }

  /** A numeral starts with a sign, a digit or a point, none of them white space. */
  lemma NumeralStart(numeral: string)
    requires IsNumeral(numeral)
    ensures !IsSpace(numeral[0])
  {
    assert IsDigit(numeral[0]) || numeral[0] == '.' || numeral[0] == '+' || numeral[0] == '-';
  }

  lemma FormattedMatch(numeral: string, sep: string, unit: string)
    requires IsFormatted(numeral, sep, unit)
    ensures NumeralEnd(numeral + sep + unit) == Some(|numeral|)
    ensures SpacesEnd(numeral + sep + unit, |numeral|) == |numeral| + |sep|
  {
    var s := numeral + sep + unit;
    var n := |numeral|;
    var w := n + |sep|;
    assert s[..n] == numeral;
    assert forall k | w <= k < |s| :: s[k] == unit[k - w];
    assert SpacesEnd(s, w) == w by { assert !IsPatternSpace(s[w]); }
    assert MatchesAt(s, n, w);
    NumeralEndIsLongest(s, n, w);
    assert !IsDigit(s[n]) && s[n] != '.';
  }

  /**
   * A formatted quantity is read back as its value and its token: the
   * round trip of FormatWithUnit (conversion.go:694-696) through
   * parseValueAndUnit, for values in the range of ParseFloat.
   */
  lemma ParseFormatted(numeral: string, sep: string, unit: string)
    requires IsFormatted(numeral, sep, unit) && InFloatRange(NumeralValue(numeral))
    ensures ParseValueAndUnit(numeral + sep + unit) == Parsed((NumeralValue(numeral), unit))
  {
    FormattedIsTrimmed(numeral, sep, unit);
    FormattedMatch(numeral, sep, unit);
    FormattedParts(numeral, sep, unit);
  }

  lemma FormattedParts(numeral: string, sep: string, unit: string)
    requires IsFormatted(numeral, sep, unit)
    ensures (numeral + sep + unit)[..|numeral|] == numeral
    ensures (numeral + sep + unit)[|numeral| + |sep|..] == unit
    ensures TrimSpace(unit) == unit
  {
    var s := numeral + sep + unit;
    assert s[..|numeral|] == numeral;
    assert s[|numeral| + |sep|..] == unit;
    TrimSpaceOfTrimmed(unit);
  }

  /*
   * The unit switch of the Parse<Dimension> functions
   */

  /** One `case` of a Parse<Dimension> switch: the lowered tokens it lists, and its unit. */
  datatype Alias = Alias(names: seq<string>, unit: Unit)

  /** The unit of the first case that lists the token, as the Go `switch` picks it. */
  function FindAlias(token: string, aliases: seq<Alias>): (r: Option<Unit>)
    ensures r.None? <==> forall i | 0 <= i < |aliases| :: token !in aliases[i].names
    ensures r.Some? ==> exists i | 0 <= i < |aliases| ::
              token in aliases[i].names && r.value == aliases[i].unit &&
              forall k | 0 <= k < i :: token !in aliases[k].names
  {
    if |aliases| == 0 then None
    else if token in aliases[0].names then Some(aliases[0].unit)
    else
      var r := FindAlias(token, aliases[1..]);
      assert forall i | 1 <= i < |aliases| :: aliases[i] == aliases[1..][i - 1];
      if r.Some? then
        ghost var i :| 0 <= i < |aliases[1..]| && token in aliases[1..][i].names && r.value == aliases[1..][i].unit &&
                   forall k | 0 <= k < i :: token !in aliases[1..][k].names;
        assert token in aliases[i + 1].names && forall k | 0 <= k < i + 1 :: token !in aliases[k].names;
        r
      else r
  }

  /** Every token of a case is lower-case and listed by no other case. */
  predicate WellFormedAliases(aliases: seq<Alias>)
  {
    (forall i, name | 0 <= i < |aliases| && name in aliases[i].names :: SerializeKeys.ToLower(name) == name) &&
    (forall i, j, name | 0 <= i < j < |aliases| && name in aliases[i].names :: name !in aliases[j].names)
  }

  /** Lowering a lowered text changes nothing. */
  lemma LowerIdempotent(s: string)
    ensures SerializeKeys.ToLower(SerializeKeys.ToLower(s)) == SerializeKeys.ToLower(s)
  {
  }

  /** In a well-formed switch every listed token, in any letter case, selects its own case. */
  lemma WellFormedAliasesSelect(aliases: seq<Alias>, i: nat, name: string, token: string)
    requires WellFormedAliases(aliases) && i < |aliases| && name in aliases[i].names
    requires SerializeKeys.ToLower(token) == SerializeKeys.ToLower(name)
    ensures FindAlias(SerializeKeys.ToLower(token), aliases) == Some(aliases[i].unit)
  {
  }

  /** A switch from its case lists of tokens and the unit of each case, in order. */
  function Cases(tokens: seq<seq<string>>, units: seq<Unit>): (r: seq<Alias>)
    requires |tokens| == |units|
    ensures |r| == |tokens| && forall i | 0 <= i < |r| :: r[i].names == tokens[i] && r[i].unit == units[i]
  {
    seq(|tokens|, i requires 0 <= i < |tokens| => Alias(tokens[i], units[i]))
  }

  /** A text with no upper-case ASCII letter, which strings.ToLower leaves as it is. */
  predicate IsLowerCase(s: string)
  {
    forall k | 0 <= k < |s| :: !SerializeKeys.IsUpper(s[k])
  }

  lemma LowerCaseUnchanged(s: string)
    requires IsLowerCase(s)
    ensures SerializeKeys.ToLower(s) == s
  {
  }

  /** Case i lists lower-case tokens only. */
  predicate CaseLowerCase(tokens: seq<seq<string>>, i: nat)
    requires i < |tokens|
  {
    forall name | name in tokens[i] :: IsLowerCase(name)
  }

  /** No token of case i is listed again by a later case. */
  predicate CaseDistinct(tokens: seq<seq<string>>, i: nat)
    requires i < |tokens|
  {
    forall j, name | i < j < |tokens| && name in tokens[i] :: name !in tokens[j]
  }

  lemma CasesWellFormed(tokens: seq<seq<string>>, units: seq<Unit>)
    requires |tokens| == |units|
    requires forall i | 0 <= i < |tokens| :: CaseLowerCase(tokens, i)
    requires forall i | 0 <= i < |tokens| :: CaseDistinct(tokens, i)
    ensures WellFormedAliases(Cases(tokens, units))
  {
    var aliases := Cases(tokens, units);
    forall i, name | 0 <= i < |aliases| && name in aliases[i].names
      ensures SerializeKeys.ToLower(name) == name
    {
      assert CaseLowerCase(tokens, i);
      LowerCaseUnchanged(name);
    }
    forall i, j, name | 0 <= i < j < |aliases| && name in aliases[i].names
      ensures name !in aliases[j].names
    {
      assert CaseDistinct(tokens, i);
    }
  }

  /** A unit whose lowered symbol its case lists is selected by that symbol, in any letter case. */
  lemma CasesSelectSymbol(tokens: seq<seq<string>>, units: seq<Unit>, i: nat, token: string)
    requires |tokens| == |units| && WellFormedAliases(Cases(tokens, units))
    requires i < |units| && SerializeKeys.ToLower(units[i].base.symbol) in tokens[i]
    requires SerializeKeys.ToLower(token) == SerializeKeys.ToLower(units[i].base.symbol)
    ensures FindAlias(SerializeKeys.ToLower(token), Cases(tokens, units)) == Some(units[i])
  {
    WellFormedAliasesSelect(Cases(tokens, units), i, SerializeKeys.ToLower(units[i].base.symbol), token);
  }

  /** A token no case selects is an unknown unit, reported with the whole input. */
  lemma ParseWithUnknown(noun: string, aliases: seq<Alias>, s: string, value: real, token: string)
    requires ParseValueAndUnit(s) == Parsed((value, token))
    requires FindAlias(SerializeKeys.ToLower(token), aliases) == None
    ensures ParseWith(noun, aliases, s) == Failed(ParseError(s, "unknown " + noun + " unit: " + token))
  {
  }

  /** A token no case lists selects nothing. */
  lemma UnlistedToken(token: string, tokens: seq<seq<string>>, units: seq<Unit>)
    requires |tokens| == |units| && forall i | 0 <= i < |tokens| :: token !in tokens[i]
    ensures FindAlias(token, Cases(tokens, units)) == None
  {
  }

  /** A text written as a numeral, a separator and a token no case lists is reported with the whole text and the token. */
  lemma ParseWithUnlistedToken(noun: string, tokens: seq<seq<string>>, units: seq<Unit>, numeral: string, sep: string, token: string, text: string, msg: string)
    requires |tokens| == |units| && forall i | 0 <= i < |tokens| :: SerializeKeys.ToLower(token) !in tokens[i]
    requires IsFormatted(numeral, sep, token) && InFloatRange(NumeralValue(numeral))
    requires text == numeral + sep + token && msg == "unknown " + noun + " unit: " + token
    ensures ParseWith(noun, Cases(tokens, units), text) == Failed(ParseError(text, msg))
  {
    ParseFormatted(numeral, sep, token);
    UnlistedToken(SerializeKeys.ToLower(token), tokens, units);
    ParseWithUnknown(noun, Cases(tokens, units), text, NumeralValue(numeral), token);
  }

  /** A parsed quantity carries the unit of one of the cases. */
  lemma ParsedUnitIsCase(noun: string, tokens: seq<seq<string>>, units: seq<Unit>, s: string)
    requires |tokens| == |units|
    ensures ParseWith(noun, Cases(tokens, units), s).Parsed? ==> ParseWith(noun, Cases(tokens, units), s).value.unit in units
  {
    var aliases := Cases(tokens, units);
    var r := ParseWith(noun, aliases, s);
    if r.Parsed? {
      var f := FindAlias(SerializeKeys.ToLower(ParseValueAndUnit(s).value.1), aliases);
      assert f.Some?;
      var i :| 0 <= i < |aliases| && f.value == aliases[i].unit;
      assert r.value.unit == units[i];
    }
  }

  /** A quantity formatted with the symbol of a case's unit is parsed back to that quantity. */
  lemma ParseWithSymbol(noun: string, tokens: seq<seq<string>>, units: seq<Unit>, i: nat, numeral: string, sep: string)
    requires |tokens| == |units| && WellFormedAliases(Cases(tokens, units))
    requires i < |units| && SerializeKeys.ToLower(units[i].base.symbol) in tokens[i]
    requires IsFormatted(numeral, sep, units[i].base.symbol) && InFloatRange(NumeralValue(numeral))
    ensures ParseWith(noun, Cases(tokens, units), numeral + sep + units[i].base.symbol) == Parsed(New(NumeralValue(numeral), units[i]))
  {
    ParseWithFormatted(noun, Cases(tokens, units), i, numeral, sep, units[i].base.symbol);
  }

  /** A quantity formatted with " " and the symbol of a unit whose every case lists that symbol is parsed back. */
  lemma ParseWithListedSymbol(noun: string, tokens: seq<seq<string>>, units: seq<Unit>, u: Unit, numeral: string)
    requires |tokens| == |units| && WellFormedAliases(Cases(tokens, units))
    requires u in units
    requires forall i | 0 <= i < |units| && units[i] == u :: SerializeKeys.ToLower(u.base.symbol) in tokens[i] && IsUnitToken(u.base.symbol)
    requires IsNumeral(numeral) && InFloatRange(NumeralValue(numeral))
    ensures ParseWith(noun, Cases(tokens, units), numeral + " " + u.base.symbol) == Parsed(New(NumeralValue(numeral), u))
  {
    var i :| 0 <= i < |units| && units[i] == u;
    ParseWithSymbol(noun, tokens, units, i, numeral, " ");
  }

  /**
   * The shared body of the Parse<Dimension> functions (conversion.go:27-57
   * and the same pattern through conversion.go:692): an unknown token is
   * an error that carries the input as given, untrimmed.
   */
  function ParseWith(noun: string, aliases: seq<Alias>, s: string): (r: ParseResult<Quantity>)
    ensures var p := ParseValueAndUnit(s);
            p.Failed? ==> r == Failed(p.error)
    ensures var p := ParseValueAndUnit(s);
            r.Parsed? <==> p.Parsed? && exists i | 0 <= i < |aliases| :: SerializeKeys.ToLower(p.value.1) in aliases[i].names
    ensures var p := ParseValueAndUnit(s);
            r.Parsed? ==> r.value == New(p.value.0, FindAlias(SerializeKeys.ToLower(p.value.1), aliases).value)
    ensures var p := ParseValueAndUnit(s);
            p.Parsed? && r.Failed? ==> r.error == ParseError(s, "unknown " + noun + " unit: " + p.value.1)
  {
    match ParseValueAndUnit(s)
    case Failed(e) => Failed(e)
    case Parsed((value, unitStr)) =>
      match FindAlias(SerializeKeys.ToLower(unitStr), aliases)
      case None => Failed(ParseError(s, "unknown " + noun + " unit: " + unitStr))
      case Some(unit) => Parsed(New(value, unit))
  }

  /** A formatted quantity whose token a well-formed switch lists, in any letter case, parses back. */
  lemma ParseWithFormatted(noun: string, aliases: seq<Alias>, i: nat, numeral: string, sep: string, token: string)
    requires WellFormedAliases(aliases) && i < |aliases| && SerializeKeys.ToLower(token) in aliases[i].names
    requires IsFormatted(numeral, sep, token) && InFloatRange(NumeralValue(numeral))
    ensures ParseWith(noun, aliases, numeral + sep + token) == Parsed(New(NumeralValue(numeral), aliases[i].unit))
  {
    ParseFormatted(numeral, sep, token);
    WellFormedAliasesSelect(aliases, i, SerializeKeys.ToLower(token), token);
    LowerIdempotent(token);
  }

  /** A text written as a numeral, a separator and a token that case i lists is parsed as the numeral's value in case i's unit. */
  lemma ParseWithToken(noun: string, tokens: seq<seq<string>>, units: seq<Unit>, i: nat, numeral: string, sep: string, token: string, text: string, v: real)
    requires |tokens| == |units| && WellFormedAliases(Cases(tokens, units))
    requires i < |units| && SerializeKeys.ToLower(token) in tokens[i]
    requires IsFormatted(numeral, sep, token) && NumeralValue(numeral) == v && InFloatRange(v)
    requires text == numeral + sep + token
    ensures ParseWith(noun, Cases(tokens, units), text) == Parsed(New(v, units[i]))
  {
    ParseWithFormatted(noun, Cases(tokens, units), i, numeral, sep, token);
  }
}
