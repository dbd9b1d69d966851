/**
 * The two JavaScript string-to-number conversions the command-line client
 * uses: `parseFloat` (for the price) and the `Number` coercion behind the
 * global `isNaN` (for product ids). Both follow the StringToNumber grammar
 * of section 7.1.4.1 of ECMA-262, with the number represented exactly as a
 * `real` instead of an IEEE-754 double.
 */
module JsNumbers {
  import opened Results

  /** A JavaScript number without rounding: an exact real, an infinity, or NaN. */
  datatype Num = NaN | Finite(value: real) | Infinity(negative: bool)

  /** Unary minus on numbers. */
  function Negate(n: Num): Num
  {
    match n
    case NaN => NaN
    case Finite(v) => Finite(-v)
    case Infinity(neg) => Infinity(!neg)
  }

  // ---------------------------------------------------------------- digits

  /** Value of `c` as a hexadecimal digit, or -1 when it is not one. */
  function HexDigitValue(c: char): (v: int)
    ensures -1 <= v < 16
  {
    if '0' <= c <= '9' then c as int - '0' as int
    else if 'a' <= c <= 'f' then c as int - 'a' as int + 10
    else if 'A' <= c <= 'F' then c as int - 'A' as int + 10
    else -1
  }

  predicate IsRadixDigit(c: char, radix: nat) { 0 <= HexDigitValue(c) < radix }

  predicate AllRadixDigits(s: string, radix: nat)
  {
    forall i | 0 <= i < |s| :: IsRadixDigit(s[i], radix)
  }

  /** The value of a digit string read in base `radix`, most significant digit first. */
  function RadixValue(d: string, radix: nat): nat
    requires AllRadixDigits(d, radix)
    decreases |d|
  {
    if d == [] then 0
    else radix * RadixValue(d[..|d| - 1], radix) + HexDigitValue(d[|d| - 1])
  }

  predicate IsDigit(c: char) { IsRadixDigit(c, 10) }

  predicate AllDigits(s: string) { AllRadixDigits(s, 10) }

  function DigitsValue(d: string): nat
    requires AllDigits(d)
  {
    RadixValue(d, 10)
  }

  function Pow10(n: nat): (p: nat)
    ensures p >= 1
  {
    if n == 0 then 1 else 10 * Pow10(n - 1)
  }

  /** `m` times ten to the power `e`. */
  function Scale(m: real, e: int): real
  {
    if e >= 0 then m * Pow10(e) as real else m / Pow10(-e) as real
  }

  /** Decimal rendering of a natural number, as `String(n)` gives it. */
  function NatToString(n: nat): (s: string)
    ensures |s| > 0 && AllDigits(s)
    ensures DigitsValue(s) == n
  {
    var c := ('0' as int + n % 10) as char;
    assert HexDigitValue(c) == n % 10;
    var last := [c];
    assert last[..0] == [];
    assert RadixValue(last, 10) == 10 * RadixValue([], 10) + HexDigitValue(c);
    if n < 10 then last
    else
      var s := NatToString(n / 10) + last;
      assert s[..|s| - 1] == NatToString(n / 10);
      s
  }

  // ------------------------------------------------------------ white space

  /**
   * StrWhiteSpaceChar: the white space and line terminators that the
   * conversions skip (tab, vertical tab, form feed, the space separators of
   * Unicode category Zs, the byte order mark, and LF, CR, LS, PS).
   */
  predicate IsWhiteSpace(c: char)
  {
    || c == '\t' || c == '\U{000B}' || c == '\U{000C}' || c == '\U{FEFF}'
    || c == ' ' || c == '\U{00A0}' || c == '\U{1680}' || ('\U{2000}' <= c <= '\U{200A}')
    || c == '\U{202F}' || c == '\U{205F}' || c == '\U{3000}'
    || c == '\n' || c == '\r' || c == '\U{2028}' || c == '\U{2029}'
  }

  /** The string without its leading white space. */
  function TrimStart(s: string): (t: string)
    ensures |t| <= |s| && t == s[|s| - |t|..]
    ensures forall i | 0 <= i < |s| - |t| :: IsWhiteSpace(s[i])
    ensures t == [] || !IsWhiteSpace(t[0])
  {
    if s != [] && IsWhiteSpace(s[0]) then TrimStart(s[1..]) else s
  }

  /** The string without its trailing white space. */
  function TrimEnd(s: string): (t: string)
    ensures |t| <= |s| && t == s[..|t|]
    ensures forall i | |t| <= i < |s| :: IsWhiteSpace(s[i])
    ensures t == [] || !IsWhiteSpace(t[|t| - 1])
  {
    if s != [] && IsWhiteSpace(s[|s| - 1]) then TrimEnd(s[..|s| - 1]) else s
  }

  function Trim(s: string): string
  {
    TrimEnd(TrimStart(s))
  }

  // --------------------------------------------------------------- scanning

  /** Length of the run of decimal digits that starts at `i`. */
  function DigitRun(s: string, i: nat): (n: nat)
    requires i <= |s|
    ensures i + n <= |s|
    ensures AllDigits(s[i..i + n])
    ensures i + n == |s| || !IsDigit(s[i + n])
    decreases |s| - i
  {
    if i < |s| && IsDigit(s[i]) then
      var n := DigitRun(s, i + 1);
      assert s[i..i + 1 + n] == [s[i]] + s[i + 1..i + 1 + n];
      1 + n
    else 0
  }

  /**
   * ExponentPart at `i`: `e` or `E`, an optional sign and at least one
   * digit. Gives the number of characters it takes and the exponent; (0, 0)
   * when there is no exponent there.
   */
  function ScanExponent(s: string, i: nat): (r: (nat, int))
    requires i <= |s|
    ensures i + r.0 <= |s|
  {
    if i < |s| && (s[i] == 'e' || s[i] == 'E') then
      var signed := i + 1 < |s| && (s[i + 1] == '+' || s[i + 1] == '-');
      var j := if signed then i + 2 else i + 1;
      var k := DigitRun(s, j);
      if k == 0 then (0, 0)
      else
        var e: int := DigitsValue(s[j..j + k]);
        var exponent: int := if signed && s[i + 1] == '-' then -e else e;
        (j + k - i, exponent)
    else (0, 0)
  }

  /**
   * The longest StrUnsignedDecimalLiteral other than `Infinity` at the start
   * of `t`: digits, an optional `.` with more digits (at least one digit in
   * all), an optional exponent. Gives its value and its length.
   */
  function ScanUnsignedDecimal(t: string): (r: Option<(real, nat)>)
    ensures r.Some? ==> 0 < r.value.1 <= |t|
  {
    var a := DigitRun(t, 0);
    var dot := a < |t| && t[a] == '.';
    var b := if dot then DigitRun(t, a + 1) else 0;
    if a == 0 && b == 0 then None
    else
      var mantissaEnd := if dot then a + 1 + b else a;
      var whole := DigitsValue(t[..a]) as real;
      var fraction := if dot then DigitsValue(t[a + 1..a + 1 + b]) as real / Pow10(b) as real else 0.0;
      var exponent := ScanExponent(t, mantissaEnd);
      Some((Scale(whole + fraction, exponent.1), mantissaEnd + exponent.0))
  }

  const InfinityWord: string := "Infinity"

  /** A scanned literal: its value and how many characters it took. */
  datatype Scan = Scan(value: Num, length: nat)

  /** The longest StrUnsignedDecimalLiteral at the start of `t`, `Infinity` included. */
  function ScanUnsigned(t: string): (r: Option<Scan>)
    ensures r.Some? ==> 0 < r.value.length <= |t| && !r.value.value.NaN?
  {
    if InfinityWord <= t then Some(Scan(Infinity(false), |InfinityWord|))
    else
      match ScanUnsignedDecimal(t)
      case None => None
      case Some(m) => Some(Scan(Finite(m.0), m.1))
  }

  /** The longest StrDecimalLiteral at the start of `s`: an optional sign, then an unsigned literal. */
  function ScanDecimal(s: string): (r: Option<Scan>)
    ensures r.Some? ==> 0 < r.value.length <= |s| && !r.value.value.NaN?
  {
    if |s| > 0 && (s[0] == '+' || s[0] == '-') then
      match ScanUnsigned(s[1..])
      case None => None
      case Some(sc) => Some(Scan(if s[0] == '-' then Negate(sc.value) else sc.value, sc.length + 1))
    else ScanUnsigned(s)
  }

  /** The radix a `0x`, `0o` or `0b` prefix selects, or 0 for any other letter. */
  function RadixOf(c: char): nat
  {
    if c == 'x' || c == 'X' then 16
    else if c == 'o' || c == 'O' then 8
    else if c == 'b' || c == 'B' then 2
    else 0
  }

  /** NonDecimalIntegerLiteral: `0x1F`, `0o17`, `0b101`, with no sign. */
  function NonDecimalInteger(t: string): Num
  {
    if |t| >= 3 && t[0] == '0' && RadixOf(t[1]) > 0 && AllRadixDigits(t[2..], RadixOf(t[1])) then
      Finite(RadixValue(t[2..], RadixOf(t[1])) as real)
    else NaN
  }

  // ------------------------------------------------------------ conversions

  /**
   * `parseFloat(s)`: skip leading white space, then read the longest
   * StrDecimalLiteral prefix and ignore whatever follows; NaN when there is
   * none.
   */
  function ParseFloat(s: string): Num
  {
    match ScanDecimal(TrimStart(s))
    case None => NaN
    case Some(sc) => sc.value
  }

  /**
   * `Number(s)`: the whole string, white space trimmed on both sides, must
   * be a numeric literal; the empty string is 0.
   */
  function ToNumber(s: string): Num
  {
    var t := Trim(s);
    if t == [] then Finite(0.0)
    else
      var sc := ScanDecimal(t);
      if sc.Some? && sc.value.length == |t| then sc.value.value
      else NonDecimalInteger(t)
  }

  /** The global `isNaN` applied to a string. */
  predicate IsNaN(s: string)
  {
    ToNumber(s).NaN?
  }

  // ----------------------------------------------------------------- lemmas

  /** A digit run is fixed by where the digits stop. */
  lemma DigitRunIs(s: string, i: nat, k: nat)
    requires i + k <= |s|
    requires AllDigits(s[i..i + k])
    requires i + k == |s| || !IsDigit(s[i + k])
    ensures DigitRun(s, i) == k
  {
    var n := DigitRun(s, i);
    if n < k {
      assert IsDigit(s[i..i + k][n]);
    } else if n > k {
      assert IsDigit(s[i..i + n][k]);
    }
  }

  /** `t` cannot extend a literal that ends in a digit. */
  predicate EndsLiteral(t: string)
  {
    t == [] || (!IsDigit(t[0]) && t[0] != '.' && t[0] != 'e' && t[0] != 'E')
  }

  /** Characters that can open a StrDecimalLiteral. */
  predicate OpensLiteral(c: char)
  {
    IsDigit(c) || c == '+' || c == '-' || c == '.' || c == InfinityWord[0]
  }

  /**
   * A run of digits followed by anything that cannot continue a literal
   * scans as exactly those digits: `300abc` reads as 300.
   */
  lemma ScanDigitsThen(d: string, t: string)
    requires |d| > 0 && AllDigits(d) && EndsLiteral(t)
    ensures ScanDecimal(d + t) == Some(Scan(Finite(DigitsValue(d) as real), |d|))
  {
    var s := d + t;
    assert s[0..] == s;
    assert s[0..|d|] == d;
    DigitRunIs(s, 0, |d|);
    assert !(InfinityWord <= s) by {
      assert IsDigit(s[0]) && s[0] != InfinityWord[0];
    }
    assert s[..|d|] == d;
    assert ScanExponent(s, |d|) == (0, 0);
  }

  /** `parseFloat` reads the leading digits and ignores what follows them. */
  lemma ParseFloatDigitsThen(d: string, t: string)
    requires |d| > 0 && AllDigits(d) && EndsLiteral(t)
    ensures ParseFloat(d + t) == Finite(DigitsValue(d) as real)
  {
    assert (d + t)[0] == d[0];
    assert TrimStart(d + t) == d + t;
    ScanDigitsThen(d, t);
  }

  /** `Number` of a non-empty digit string is its decimal value. */
  lemma ToNumberOfDigits(d: string)
    requires |d| > 0 && AllDigits(d)
    ensures ToNumber(d) == Finite(DigitsValue(d) as real)
    ensures !IsNaN(d)
  {
    assert TrimStart(d) == d;
    assert IsDigit(d[|d| - 1]);
    assert TrimEnd(d) == d;
    ScanDigitsThen(d, []);
    assert d + [] == d;
  }

  /** Both conversions read back the decimal rendering of every natural number. */
  lemma NatRoundTrip(n: nat)
    ensures ParseFloat(NatToString(n)) == Finite(n as real)
    ensures ToNumber(NatToString(n)) == Finite(n as real)
  {
    var s := NatToString(n);
    ParseFloatDigitsThen(s, []);
    assert s + [] == s;
    ToNumberOfDigits(s);
  }

  /**
   * A leading sign flips or keeps the value `parseFloat` reads from the rest,
   * when the rest starts with neither white space nor another sign.
   */
  lemma ParseFloatSign(s: string)
    requires s == [] || (!IsWhiteSpace(s[0]) && s[0] != '+' && s[0] != '-')
    ensures ParseFloat("-" + s) == Negate(ParseFloat(s))
    ensures ParseFloat("+" + s) == ParseFloat(s)
  {
    assert TrimStart(s) == s;
    assert ScanDecimal(s) == ScanUnsigned(s);
    SignedScan('-', s);
    SignedScan('+', s);
  }

  /** Reading past a leading sign. */
  lemma SignedScan(sign: char, s: string)
    requires sign == '+' || sign == '-'
    ensures ParseFloat([sign] + s) == match ScanUnsigned(s)
                                      case None => NaN
                                      case Some(sc) => if sign == '-' then Negate(sc.value) else sc.value
  {
    var m := [sign] + s;
    assert !IsWhiteSpace(m[0]);
    assert TrimStart(m) == m;
    assert m[1..] == s;
  }

  /** No unsigned literal starts with a character other than a digit, `.` or `I`. */
  lemma UnsignedNothing(t: string)
    requires t != [] && !IsDigit(t[0]) && t[0] != '.' && t[0] != 'I'
    ensures ScanUnsigned(t) == None
  {
    assert !(InfinityWord <= t) by {
      assert t[0] != InfinityWord[0];
    }
    assert t[0..] == t;
    assert DigitRun(t, 0) == 0;
  }

  /** A sign followed by white space or another sign reads as no number. */
  lemma SignThenNothing(sign: char, s: string)
    requires sign == '+' || sign == '-'
    requires s != [] && (IsWhiteSpace(s[0]) || s[0] == '+' || s[0] == '-')
    ensures ParseFloat([sign] + s) == NaN
  {
    UnsignedNothing(s);
    SignedScan(sign, s);
  }

  /** No literal starts with a character that cannot open one. */
  lemma ScanNothing(t: string)
    requires t != [] && !OpensLiteral(t[0])
    ensures ScanDecimal(t) == None
  {
    UnsignedNothing(t);
  }

  /**
   * Text whose first non-blank character cannot open a literal is not a
   * number to either conversion (`Number` maps blank text to 0, though).
   */
  lemma NoLiteralStart(s: string)
    requires TrimStart(s) == [] || !OpensLiteral(TrimStart(s)[0])
    ensures ParseFloat(s) == NaN
    ensures TrimStart(s) != [] ==> IsNaN(s)
  {
    var t := TrimStart(s);
    if t != [] {
      ScanNothing(t);
      TrimmedStart(s);
      ScanNothing(Trim(s));
    }
  }

  /** Trimming both ends keeps the first non-blank character in front. */
  lemma TrimmedStart(s: string)
    requires TrimStart(s) != []
    ensures Trim(s) != [] && Trim(s)[0] == TrimStart(s)[0]
  {
    var t := TrimStart(s);
    assert Trim(s) == TrimEnd(t);
    assert !IsWhiteSpace(t[0]);
  }
}
