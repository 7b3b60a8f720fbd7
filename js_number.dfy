/** JavaScript's string-to-number conversions, as the modelled code uses
    them: `parseInt` (no radix argument), `parseFloat`, the implicit
    conversion of a string operand of `<`/`>` (ToNumber), and `Math.round`.
    For `parseInt` and `parseFloat`, `None` stands for NaN. Numbers are
    exact (integers and reals): the rounding of IEEE doubles is not
    modelled, and `parseFloat` does not read an `Infinity` literal. */
module JsNumber {
  import opened Wrappers
  import opened Js

  /** The value of a digit character in radix 36, or 36 for anything else. */
  function CharValue(c: char): (v: nat)
    ensures v <= 36
  {
    if '0' <= c <= '9' then c as int - '0' as int
    else if 'a' <= c <= 'z' then c as int - 'a' as int + 10
    else if 'A' <= c <= 'Z' then c as int - 'A' as int + 10
    else 36
  }

  predicate IsDigitIn(c: char, radix: nat) {
    CharValue(c) < radix
  }

  predicate AllDigitsIn(s: string, radix: nat) {
    forall i :: 0 <= i < |s| ==> IsDigitIn(s[i], radix)
  }

  /** The length of the longest prefix of s made of digits of the radix. */
  function Run(s: string, radix: nat): (k: nat)
    ensures k <= |s|
    ensures AllDigitsIn(s[..k], radix)
    ensures k == |s| || !IsDigitIn(s[k], radix)
  {
    if s != [] && IsDigitIn(s[0], radix) then
      var k := 1 + Run(s[1..], radix);
      assert s[..k] == [s[0]] + s[1..][..k - 1];
      k
    else 0
  }

  /** The value of a string of digits, most significant first. */
  function Value(d: string, radix: nat): nat
    requires AllDigitsIn(d, radix)
  {
    if d == [] then 0
    else
      var init := d[..|d| - 1];
      DigitsPrefix(d, |d| - 1, radix);
      Value(init, radix) * radix + CharValue(d[|d| - 1])
  }

  /** A prefix of a string of digits is a string of digits. */
  lemma DigitsPrefix(d: string, k: nat, radix: nat)
    requires AllDigitsIn(d, radix) && k <= |d|
    ensures AllDigitsIn(d[..k], radix)
  {
    forall i | 0 <= i < k ensures IsDigitIn(d[..k][i], radix) {
      assert d[..k][i] == d[i];
    }
  }

  function Pow10(e: nat): (p: nat)
    ensures p >= 1
  {
    if e == 0 then 1 else 10 * Pow10(e - 1)
  }

  /** `parseInt(s)`: skip leading white space, then read a signed integer. */
  function ParseInt(s: string): (r: Option<int>)
    ensures var t := TrimStart(s);
      r.Some? ==> t != [] && (IsDigitIn(t[0], 10) || t[0] == '-' || t[0] == '+')
  {
    ParseSigned(TrimStart(s))
  }

  /** An optional sign followed by an unsigned integer; NaN when no digit
      follows. */
  function ParseSigned(t: string): (r: Option<int>)
  {
    if t != [] && (t[0] == '-' || t[0] == '+') then
      match ParseUnsigned(t[1..])
      case None => None
      case Some(v) => Some(if t[0] == '-' then -(v as int) else v)
    else
      match ParseUnsigned(t)
      case None => None
      case Some(v) => Some(v)
  }

  /** Hexadecimal digits after a `0x`/`0X` prefix, decimal digits otherwise,
      up to the first character that is not a digit. */
  function ParseUnsigned(u: string): (r: Option<nat>)
  {
    var hex := |u| >= 2 && u[0] == '0' && (u[1] == 'x' || u[1] == 'X');
    var radix := if hex then 16 else 10;
    var body := if hex then u[2..] else u;
    var k := Run(body, radix);
    if k == 0 then None else Some(Value(body[..k], radix))
  }

  /** The result of scanning a numeric literal at the front of a string. */
  datatype Scan = Scan(value: real, length: nat)

  /** An exponent part `e[+-]digits` at the front of s: its value and length,
      or length 0 when s does not start with a complete one. */
  function ScanExponent(s: string): (r: (int, nat))
    ensures r.1 <= |s|
  {
    if s == [] || (s[0] != 'e' && s[0] != 'E') then (0, 0)
    else
      var signed := |s| > 1 && (s[1] == '+' || s[1] == '-');
      var digits := if signed then s[2..] else s[1..];
      var k := Run(digits, 10);
      if k == 0 then (0, 0)
      else
        var v: int := Value(digits[..k], 10);
        (if signed && s[1] == '-' then -v else v, (if signed then 2 else 1) + k)
  }

  /** The value of the digits after a decimal point. */
  function Fraction(f: string): (r: real)
    requires AllDigitsIn(f, 10)
    ensures 0.0 <= r < 1.0
  {
    ValueBelowPow10(f);
    QuotientBelowOne(Value(f, 10) as real, Pow10(|f|) as real);
    Value(f, 10) as real / Pow10(|f|) as real
  }

  lemma QuotientBelowOne(a: real, b: real)
    requires 0.0 <= a < b
    ensures 0.0 <= a / b < 1.0
  {
    assert (a / b) * b == a;
  }

  /** n decimal digits stay below 10^n. */
  lemma {:induction false} ValueBelowPow10(d: string)
    requires AllDigitsIn(d, 10)
    ensures Value(d, 10) < Pow10(|d|)
  {
    if d != [] {
      var init := d[..|d| - 1];
      DigitsPrefix(d, |d| - 1, 10);
      ValueBelowPow10(init);
      assert CharValue(d[|d| - 1]) < 10;
    }
  }

  function Scale(x: real, e: int): real {
    if e >= 0 then x * Pow10(e) as real else x / Pow10(-e) as real
  }

  /** The longest unsigned decimal literal (`12`, `12.`, `.5`, `1.5e3`) at the
      front of s. */
  function ScanUnsigned(s: string): (r: Option<Scan>)
    ensures r.Some? ==> 0 < r.value.length <= |s|
  {
    var i := Run(s, 10);
    if i < |s| && s[i] == '.' then ScanPoint(s, i)
    else if i == 0 then None
    else Some(WithExponent(Value(s[..i], 10) as real, s, i))
  }

  /** The literal once its whole digits s[..i] and the point at s[i] are
      read: the fraction digits follow, and at least one digit is needed on
      one side of the point. */
  function ScanPoint(s: string, i: nat): (r: Option<Scan>)
    requires i < |s| && AllDigitsIn(s[..i], 10)
    ensures r.Some? ==> i < r.value.length <= |s|
  {
    var f := Run(s[i + 1..], 10);
    if i == 0 && f == 0 then None
    else Some(WithExponent(Value(s[..i], 10) as real + Fraction(s[i + 1..][..f]), s, i + 1 + f))
  }

  /** The mantissa x read from s[..m], scaled by the exponent part that
      follows it, if any. */
  function WithExponent(x: real, s: string, m: nat): (r: Scan)
    requires m <= |s|
    ensures m <= r.length <= |s|
  {
    var exponent := ScanExponent(s[m..]);
    Scan(Scale(x, exponent.0), m + exponent.1)
  }

  /** A decimal literal with an optional sign at the front of s. */
  function ScanSigned(s: string): (r: Option<Scan>)
    ensures r.Some? ==> 0 < r.value.length <= |s|
  {
    if s != [] && (s[0] == '+' || s[0] == '-') then
      match ScanUnsigned(s[1..])
      case None => None
      case Some(sc) => Some(Scan(if s[0] == '-' then -sc.value else sc.value, sc.length + 1))
    else ScanUnsigned(s)
  }

  /** `parseFloat(s)`: the longest decimal literal after leading white space. */
  function ParseFloat(s: string): (r: Option<real>)
    ensures var t := TrimStart(s);
      r.Some? ==> t != [] && (IsDigitIn(t[0], 10) || t[0] == '-' || t[0] == '+' || t[0] == '.')
  {
    match ScanSigned(TrimStart(s))
    case None => None
    case Some(sc) => Some(sc.value)
  }

  /** A JavaScript number as the comparisons see it. */
  datatype Number = NaN | Finite(value: real) | Infinity(positive: bool)

  /** The radix a `0x`/`0o`/`0b` prefix letter selects, or 0 for none. */
  function PrefixRadix(c: char): nat {
    if c == 'x' || c == 'X' then 16
    else if c == 'o' || c == 'O' then 8
    else if c == 'b' || c == 'B' then 2
    else 0
  }

  /** The digits after a radix prefix, all of which must be digits of it. */
  function PrefixedNumber(d: string, radix: nat): Number {
    if d != [] && Run(d, radix) == |d| then Finite(Value(d, radix) as real) else NaN
  }

  /** A decimal literal that must take up the whole text. */
  function DecimalNumber(t: string): Number {
    match ScanSigned(t)
    case Some(sc) => if sc.length == |t| then Finite(sc.value) else NaN
    case None => NaN
  }

  /** ToNumber of a string, as in `s < -90`: the whole string, once trimmed,
      must be a literal or a signed `Infinity`; the empty string is 0. */
  function ToNumber(s: string): (r: Number)
    ensures Trim(s) == [] ==> r == Finite(0.0)
    ensures r == Infinity(true) <==> Trim(s) == "Infinity" || Trim(s) == "+Infinity"
    ensures r == Infinity(false) <==> Trim(s) == "-Infinity"
  {
    var t := Trim(s);
    if t == [] then Finite(0.0)
    else if t == "Infinity" || t == "+Infinity" then Infinity(true)
    else if t == "-Infinity" then Infinity(false)
    else if |t| >= 2 && t[0] == '0' && PrefixRadix(t[1]) != 0 then PrefixedNumber(t[2..], PrefixRadix(t[1]))
    else DecimalNumber(t)
  }

  /** `x < bound`; every comparison with NaN is false. */
  predicate LessThan(x: Number, bound: real) {
    match x
    case NaN => false
    case Finite(v) => v < bound
    case Infinity(positive) => !positive
  }

  /** `x > bound`. */
  predicate GreaterThan(x: Number, bound: real) {
    match x
    case NaN => false
    case Finite(v) => v > bound
    case Infinity(positive) => positive
  }

  /** `Math.round(x)`: the nearest integer, halves rounded towards +infinity. */
  function Round(x: real): (r: int)
    ensures r as real - 0.5 <= x < r as real + 0.5
  {
    (x + 0.5).Floor
  }

  /** A run of digits is read in full. */
  lemma {:induction false} RunOfDigits(d: string, radix: nat)
    requires AllDigitsIn(d, radix)
    ensures Run(d, radix) == |d|
  {
    if d != [] {
      assert AllDigitsIn(d[1..], radix) by {
        forall i | 0 <= i < |d[1..]| ensures IsDigitIn(d[1..][i], radix) {
          assert d[1..][i] == d[i + 1];
        }
      }
      RunOfDigits(d[1..], radix);
    }
  }

  /** A numeral that starts with a digit is its own trimmed form. */
  lemma TrimStartOfDigit(s: string)
    requires s != [] && IsDigitIn(s[0], 10)
    ensures TrimStart(s) == s
  {
    assert !IsWhite(s[0]);
  }

  /** An unsigned numeral followed by a non-digit is read up to that
      character, unless it is a lone `0` that starts a `0x` prefix. */
  lemma ParseUnsignedOfNumeral(d: string, tail: string)
    requires d != [] && AllDigitsIn(d, 10)
    requires tail == [] || !IsDigitIn(tail[0], 10)
    requires d == "0" ==> tail == [] || (tail[0] != 'x' && tail[0] != 'X')
    ensures ParseUnsigned(d + tail) == Some(Value(d, 10))
  {
    var s := d + tail;
    assert s[0] == d[0];
    if |d| >= 2 {
      assert s[1] == d[1];
    } else if tail != [] {
      assert d == [d[0]];
      assert s[1] == tail[0];
    }
    RunPrefix(d, tail, 10);
    assert s[..|d|] == d;
  }

  /** `parseInt` reads a plain decimal numeral exactly, with or without a
      minus sign. */
  lemma ParseIntOfNumeral(d: string)
    requires d != [] && AllDigitsIn(d, 10)
    ensures ParseInt(d) == Some(Value(d, 10))
    ensures ParseInt("-" + d) == Some(-(Value(d, 10) as int))
  {
    assert d + "" == d;
    ParseUnsignedOfNumeral(d, "");
    assert ParseUnsigned(d) == Some(Value(d, 10));
    assert d[0] != '-' && d[0] != '+' by { assert IsDigitIn(d[0], 10); }
    assert ParseSigned(d) == Some(Value(d, 10));
    TrimStartOfDigit(d);
    var m := "-" + d;
    assert m[0] == '-' && m[1..] == d;
    assert ParseSigned(m) == Some(-(Value(d, 10) as int));
    assert TrimStart(m) == m by { assert !IsWhite(m[0]); }
  }

  /** `parseInt("8080")` is 8080. */
  lemma ParseIntOf8080()
    ensures ParseInt("8080") == Some(8080)
  {
    var d := "8080";
    assert TrimStart(d) == d by { assert !IsWhite('8'); }
    assert Run(d, 10) == 4 by { RunOfDigits(d, 10); }
    assert d[..4] == d;
    ValueOf8080();
    assert ParseUnsigned(d) == Some(8080);
  }

  lemma ValueOf8080()
    ensures AllDigitsIn("8080", 10) && Value("8080", 10) == 8080
  {
    assert Value("8", 10) == 8 by { assert "8"[..0] == []; }
    assert Value("80", 10) == 80 by { assert "80"[..1] == "8"; }
    assert Value("808", 10) == 808 by { assert "808"[..2] == "80"; }
    assert "8080"[..3] == "808";
  }

  /** `parseInt("abc")` is NaN. */
  lemma ParseIntOfLetters()
    ensures ParseInt("abc") == None
  {
    assert TrimStart("abc") == "abc" by { assert !IsWhite('a'); }
    assert Run("abc", 10) == 0 by { assert !IsDigitIn('a', 10); }
  }

  /** `parseInt("0")` is 0. */
  lemma ParseIntOfZero()
    ensures ParseInt("0") == Some(0)
  {
    assert TrimStart("0") == "0" by { assert !IsWhite('0'); }
    assert ParseUnsigned("0") == Some(0) by {
      assert Run("0", 10) == 1;
      assert "0"[..1] == "0";
      assert "0"[..0] == [];
    }
  }

  /** White space in front of the text never changes what `parseInt` or
      `parseFloat` read. */
  lemma ParseSkipsLeadingWhite(w: string, s: string)
    requires AllWhite(w)
    ensures ParseInt(w + s) == ParseInt(s)
    ensures ParseFloat(w + s) == ParseFloat(s)
  {
    TrimStartSkipsWhite(w, s);
  }

  /** `parseInt` stops at the first character that is not a digit (`"15min"`
      reads as 15), except that `"0x..."` is read as hexadecimal. */
  lemma ParseIntIgnoresTail(d: string, tail: string)
    requires d != [] && AllDigitsIn(d, 10)
    requires tail == [] || !IsDigitIn(tail[0], 10)
    requires d == "0" ==> tail == [] || (tail[0] != 'x' && tail[0] != 'X')
    ensures ParseInt(d + tail) == Some(Value(d, 10))
  {
    var s := d + tail;
    assert s[0] == d[0];
    ParseUnsignedOfNumeral(d, tail);
    assert s[0] != '-' && s[0] != '+' by { assert IsDigitIn(s[0], 10); }
    assert ParseSigned(s) == Some(Value(d, 10));
    TrimStartOfDigit(s);
  }

  /** `parseInt("0x" + h + tail)` reads the hexadecimal digits h and stops
      at the first character that is not one. */
  lemma ParseIntOfHex(h: string, tail: string)
    requires h != [] && AllDigitsIn(h, 16)
    requires tail == [] || !IsDigitIn(tail[0], 16)
    ensures ParseInt("0x" + h + tail) == Some(Value(h, 16))
  {
    var s := "0x" + h + tail;
    ParseUnsignedOfHex(h, tail);
    assert s[0] == '0';
    assert TrimStart(s) == s by { assert !IsWhite(s[0]); }
  }

  lemma ParseUnsignedOfHex(h: string, tail: string)
    requires h != [] && AllDigitsIn(h, 16)
    requires tail == [] || !IsDigitIn(tail[0], 16)
    ensures ParseUnsigned("0x" + h + tail) == Some(Value(h, 16))
  {
    var s := "0x" + h + tail;
    assert s[0] == '0' && s[1] == 'x';
    assert s[2..] == h + tail;
    RunPrefix(h, tail, 16);
    assert (h + tail)[..|h|] == h;
  }

  lemma {:induction false} RunPrefix(d: string, tail: string, radix: nat)
    requires AllDigitsIn(d, radix)
    requires tail == [] || !IsDigitIn(tail[0], radix)
    ensures Run(d + tail, radix) == |d|
  {
    if d == [] {
      assert d + tail == tail;
    } else {
      assert (d + tail)[0] == d[0];
      assert (d + tail)[1..] == d[1..] + tail;
      assert AllDigitsIn(d[1..], radix) by {
        forall i | 0 <= i < |d[1..]| ensures IsDigitIn(d[1..][i], radix) {
          assert d[1..][i] == d[i + 1];
        }
      }
      RunPrefix(d[1..], tail, radix);
    }
  }

  /** A value that is empty or only white space converts to 0. */
  lemma ToNumberOfBlank(w: string)
    requires AllWhite(w)
    ensures ToNumber(w) == Finite(0.0)
  {
    TrimOfBlank(w);
  }

  /** No digit of a radix up to 36 is white space. */
  lemma {:induction false} DigitNotWhite(c: char, radix: nat)
    requires radix <= 36 && IsDigitIn(c, radix)
    ensures !IsWhite(c)
  {
  }

  /** A string that neither starts nor ends with white space is its own trimmed form. */
  lemma {:induction false} TrimOfPlain(t: string)
    requires t != [] && !IsWhite(t[0]) && !IsWhite(t[|t| - 1])
    ensures TrimStart(t) == t && Trim(t) == t
  {
    assert LeadingWhite(t) == 0;
    assert t[0..] == t;
    assert TrailingWhite(t) == 0;
    assert t[..|t|] == t;
  }

  /** The value of `d.f` for digit strings d and f. */
  function DecimalValue(d: string, f: string): (r: real)
    requires AllDigitsIn(d, 10) && AllDigitsIn(f, 10)
    ensures Value(d, 10) as real <= r < Value(d, 10) as real + 1.0
  {
    Value(d, 10) as real + Fraction(f)
  }

  /** A tail that cannot continue a decimal literal: it starts with no
      digit, no point and no exponent mark. */
  predicate EndsLiteral(tail: string) {
    tail == [] || (!IsDigitIn(tail[0], 10) && tail[0] != '.' && tail[0] != 'e' && tail[0] != 'E')
  }

  /** With no exponent mark after the mantissa, the mantissa is the value. */
  lemma {:induction false} NoExponent(x: real, s: string, m: nat)
    requires m <= |s| && (m == |s| || (s[m] != 'e' && s[m] != 'E'))
    ensures WithExponent(x, s, m) == Scan(x, m)
  {
    assert s[m..] == [] || s[m..][0] == s[m];
  }

  /** With a point right after the whole digits, the scanner goes on in
      `ScanPoint`. */
  lemma {:induction false} ScanAtPoint(s: string, i: nat)
    requires Run(s, 10) == i && i < |s| && s[i] == '.'
    ensures ScanUnsigned(s) == ScanPoint(s, i)
  {
  }

  /** With a digit on either side of the point, `ScanPoint` reads the
      fraction digits and goes on to the exponent. */
  lemma {:induction false} ScanPointDigits(s: string, i: nat)
    requires i < |s| && AllDigitsIn(s[..i], 10)
    requires i > 0 || Run(s[i + 1..], 10) > 0
    ensures var f := Run(s[i + 1..], 10);
      ScanPoint(s, i) == Some(WithExponent(Value(s[..i], 10) as real + Fraction(s[i + 1..][..f]), s, i + 1 + f))
  {
  }

  /** What the scanner returns once the lengths of the whole and fraction
      digit runs are known and no exponent follows. */
  lemma {:induction false} ScanShape(s: string, i: nat, f: nat)
    requires Run(s, 10) == i && i < |s| && s[i] == '.'
    requires Run(s[i + 1..], 10) == f && (i > 0 || f > 0)
    requires i + 1 + f == |s| || (s[i + 1 + f] != 'e' && s[i + 1 + f] != 'E')
    ensures ScanUnsigned(s) == Some(Scan(Value(s[..i], 10) as real + Fraction(s[i + 1..][..f]), i + 1 + f))
  {
    ScanAtPoint(s, i);
    ScanPointDigits(s, i);
    NoExponent(Value(s[..i], 10) as real + Fraction(s[i + 1..][..f]), s, i + 1 + f);
  }

  /** Where the digit runs of `d.f` followed by a tail begin and end. */
  lemma {:induction false} DecimalLayout(d: string, f: string, tail: string)
    requires AllDigitsIn(d, 10) && AllDigitsIn(f, 10)
    requires tail == [] || (!IsDigitIn(tail[0], 10) && tail[0] != 'e' && tail[0] != 'E')
    ensures var s := d + "." + f + tail;
      Run(s, 10) == |d| && |d| < |s| && s[|d|] == '.' && Run(s[|d| + 1..], 10) == |f| &&
      (|d| + 1 + |f| == |s| || (s[|d| + 1 + |f|] != 'e' && s[|d| + 1 + |f|] != 'E')) &&
      s[..|d|] == d && s[|d| + 1..][..|f|] == f
  {
    var rest := "." + f + tail;
    var s := d + rest;
    assert s == d + "." + f + tail;
    RunPrefix(d, rest, 10);
    assert s[..|d|] == d && s[|d|] == '.';
    assert s[|d| + 1..] == f + tail;
    RunPrefix(f, tail, 10);
    assert (f + tail)[..|f|] == f;
    assert s[|d| + 1 + |f|..] == tail;
  }

  /** The scanner reads `d.f` in full and stops before the tail. */
  lemma {:induction false} ScanOfDecimal(d: string, f: string, tail: string)
    requires AllDigitsIn(d, 10) && AllDigitsIn(f, 10) && (d != [] || f != [])
    requires tail == [] || (!IsDigitIn(tail[0], 10) && tail[0] != 'e' && tail[0] != 'E')
    ensures ScanUnsigned(d + "." + f + tail) == Some(Scan(DecimalValue(d, f), |d| + 1 + |f|))
  {
    DecimalLayout(d, f, tail);
    ScanShape(d + "." + f + tail, |d|, |f|);
  }

  /** The scanner reads an integer numeral in full and stops before the tail. */
  lemma {:induction false} ScanOfInteger(d: string, tail: string)
    requires d != [] && AllDigitsIn(d, 10) && EndsLiteral(tail)
    ensures ScanUnsigned(d + tail) == Some(Scan(Value(d, 10) as real, |d|))
  {
    var s := d + tail;
    RunPrefix(d, tail, 10);
    assert s[..|d|] == d && s[|d|..] == tail;
    NoExponent(Value(d, 10) as real, s, |d|);
  }

  /** A text that starts with no sign is scanned as an unsigned literal. */
  lemma {:induction false} SignedOfUnsigned(u: string)
    requires u == [] || (u[0] != '+' && u[0] != '-')
    ensures ScanSigned(u) == ScanUnsigned(u)
  {
  }

  /** A sign in front of an unsigned literal is read with it; a minus
      negates its value. */
  lemma {:induction false} SignedOfSign(sign: char, u: string, v: real, n: nat)
    requires sign == '+' || sign == '-'
    requires ScanUnsigned(u) == Some(Scan(v, n))
    ensures ScanSigned([sign] + u) == Some(Scan(if sign == '-' then -v else v, n + 1))
  {
    var t := [sign] + u;
    assert t[0] == sign && t[1..] == u;
  }

  /** `parseFloat` of a text that starts with no white space is what the
      signed scanner reads there. */
  lemma {:induction false} ParseFloatOfScan(t: string, v: real, n: nat)
    requires t != [] && !IsWhite(t[0])
    requires ScanSigned(t) == Some(Scan(v, n))
    ensures ParseFloat(t) == Some(v)
  {
    TrimStartFirst(t);
  }

  /** `parseFloat` reads a decimal literal `d.f` up to the first character
      that cannot continue it. */
  lemma {:induction false} ParseFloatOfDecimal(d: string, f: string, tail: string)
    requires AllDigitsIn(d, 10) && AllDigitsIn(f, 10) && (d != [] || f != [])
    requires tail == [] || (!IsDigitIn(tail[0], 10) && tail[0] != 'e' && tail[0] != 'E')
    ensures ParseFloat(d + "." + f + tail) == Some(DecimalValue(d, f))
  {
    var s := d + "." + f + tail;
    ScanOfDecimal(d, f, tail);
    UnsignedStart(d, f, tail);
    SignedOfUnsigned(s);
    ParseFloatOfScan(s, DecimalValue(d, f), |d| + 1 + |f|);
  }

  /** The same with a minus sign in front: the value is negated. */
  lemma {:induction false} ParseFloatOfNegativeDecimal(d: string, f: string, tail: string)
    requires AllDigitsIn(d, 10) && AllDigitsIn(f, 10) && (d != [] || f != [])
    requires tail == [] || (!IsDigitIn(tail[0], 10) && tail[0] != 'e' && tail[0] != 'E')
    ensures ParseFloat("-" + d + "." + f + tail) == Some(-DecimalValue(d, f))
  {
    var s := d + "." + f + tail;
    var m := "-" + d + "." + f + tail;
    ScanOfDecimal(d, f, tail);
    ParseFloatOfMinus(s, DecimalValue(d, f), |d| + 1 + |f|);
    MinusInFront(m, s, d, f, tail);
  }

  /** `parseFloat` of a minus sign and an unsigned literal is the literal's
      value negated. */
  lemma {:induction false} ParseFloatOfMinus(u: string, v: real, n: nat)
    requires ScanUnsigned(u) == Some(Scan(v, n))
    ensures ParseFloat(['-'] + u) == Some(-v)
  {
    SignedOfSign('-', u, v, n);
    ParseFloatOfScan(['-'] + u, -v, n + 1);
  }

  /** Regrouping a text with a minus sign in front. */
  lemma {:induction false} MinusInFront(m: string, s: string, d: string, f: string, tail: string)
    requires m == "-" + d + "." + f + tail && s == d + "." + f + tail
    ensures m == ['-'] + s
  {
  }

  /** `d.f` starts with a digit or the point: no white space, no sign. */
  lemma {:induction false} UnsignedStart(d: string, f: string, tail: string)
    requires AllDigitsIn(d, 10) && (d != [] || f != [])
    ensures var s := d + "." + f + tail;
      s != [] && !IsWhite(s[0]) && s[0] != '+' && s[0] != '-'
  {
    var s := d + "." + f + tail;
    if d != [] {
      assert s[0] == d[0] && IsDigitIn(d[0], 10);
      DigitNotWhite(d[0], 10);
    } else {
      assert s[0] == '.';
    }
  }

  /** `parseFloat` reads an integer numeral up to the first character that
      cannot continue it. */
  lemma {:induction false} ParseFloatOfInteger(d: string, tail: string)
    requires d != [] && AllDigitsIn(d, 10) && EndsLiteral(tail)
    ensures ParseFloat(d + tail) == Some(Value(d, 10) as real)
  {
    var s := d + tail;
    ScanOfInteger(d, tail);
    assert s[0] == d[0] && IsDigitIn(d[0], 10);
    DigitNotWhite(d[0], 10);
    SignedOfUnsigned(s);
    ParseFloatOfScan(s, Value(d, 10) as real, |d|);
  }

  /** Text that does not start with white space is its own `trimStart`. */
  lemma {:induction false} TrimStartFirst(s: string)
    requires s != [] && !IsWhite(s[0])
    ensures TrimStart(s) == s
  {
    assert LeadingWhite(s) == 0;
    assert s[0..] == s;
  }

  /** ToNumber of a text that neither starts nor ends with white space, is
      no `Infinity` and has no radix prefix is the value the signed scanner
      reads, when that reading takes up the whole text. */
  lemma {:induction false} ToNumberOfLiteral(t: string, v: real)
    requires t != [] && !IsWhite(t[0]) && !IsWhite(t[|t| - 1])
    requires t != "Infinity" && t != "+Infinity" && t != "-Infinity"
    requires !(|t| >= 2 && t[0] == '0' && PrefixRadix(t[1]) != 0)
    requires ScanSigned(t) == Some(Scan(v, |t|))
    ensures ToNumber(t) == Finite(v)
  {
    TrimOfPlain(t);
  }

  /** A digit or a point is neither white space nor the start of a sign,
      an `Infinity` or a radix prefix letter. */
  lemma {:induction false} PlainChar(c: char)
    requires IsDigitIn(c, 10) || c == '.'
    ensures !IsWhite(c) && c != '+' && c != '-' && c != 'I' && PrefixRadix(c) == 0
  {
  }

  /** The first two characters of `d.f`, when d and f are digit strings. */
  lemma {:induction false} DecimalFront(d: string, f: string)
    requires AllDigitsIn(d, 10) && AllDigitsIn(f, 10) && (d != [] || f != [])
    ensures var t := d + "." + f;
      |t| >= 2 && (IsDigitIn(t[0], 10) || t[0] == '.') && (IsDigitIn(t[1], 10) || t[1] == '.')
      && (IsDigitIn(t[|t| - 1], 10) || t[|t| - 1] == '.') && (t[0] == '0' ==> d != [])
  {
    var t := d + "." + f;
    if d != [] {
      assert t[0] == d[0];
      if |d| >= 2 { assert t[1] == d[1]; } else { assert t[1] == '.'; }
    } else {
      assert t[0] == '.' && t[1] == f[0];
    }
    if f != [] { assert t[|t| - 1] == f[|f| - 1]; } else { assert t[|t| - 1] == '.'; }
  }

  /** A text that starts with a character other than `I` or a sign is no
      spelling of `Infinity`. */
  lemma {:induction false} NotInfinity(t: string)
    requires t != [] && t[0] != 'I' && t[0] != '+' && t[0] != '-'
    ensures t != "Infinity" && t != "+Infinity" && t != "-Infinity"
  {
    assert "Infinity"[0] == 'I' && "+Infinity"[0] == '+' && "-Infinity"[0] == '-';
  }

  /** A minus sign followed by anything but `I` is no spelling of `Infinity`. */
  lemma {:induction false} NotNegativeInfinity(m: string)
    requires |m| >= 2 && m[0] == '-' && m[1] != 'I'
    ensures m != "Infinity" && m != "+Infinity" && m != "-Infinity"
  {
    assert "Infinity"[0] == 'I' && "+Infinity"[0] == '+' && "-Infinity"[1] == 'I';
  }

  /** ToNumber of a plain unsigned literal that the scanner reads in full. */
  lemma {:induction false} ToNumberOfUnsigned(t: string, v: real)
    requires |t| >= 1 && (IsDigitIn(t[0], 10) || t[0] == '.') && (IsDigitIn(t[|t| - 1], 10) || t[|t| - 1] == '.')
    requires |t| >= 2 ==> IsDigitIn(t[1], 10) || t[1] == '.'
    requires ScanUnsigned(t) == Some(Scan(v, |t|))
    ensures ToNumber(t) == Finite(v)
  {
    PlainChar(t[0]);
    PlainChar(t[|t| - 1]);
    if |t| >= 2 { PlainChar(t[1]); }
    NotInfinity(t);
    SignedOfUnsigned(t);
    ToNumberOfLiteral(t, v);
  }

  /** ToNumber of a minus sign in front of a plain unsigned literal that
      the scanner reads in full. */
  lemma {:induction false} ToNumberOfNegative(m: string, t: string, v: real)
    requires |t| >= 1 && (IsDigitIn(t[0], 10) || t[0] == '.') && (IsDigitIn(t[|t| - 1], 10) || t[|t| - 1] == '.')
    requires ScanUnsigned(t) == Some(Scan(v, |t|))
    requires m == ['-'] + t
    ensures ToNumber(m) == Finite(-v)
  {
    SignedOfSign('-', t, v, |t|);
    assert m[0] == '-' && m[1] == t[0] && m[|m| - 1] == t[|t| - 1];
    PlainChar(t[0]);
    PlainChar(t[|t| - 1]);
    NotNegativeInfinity(m);
    ToNumberOfLiteral(m, -v);
  }

  /** A decimal literal `d.f` (either side of the point may be empty, not
      both) converts to its value, and with a minus sign in front to the
      negated value. */
  lemma {:induction false} ToNumberOfDecimal(d: string, f: string)
    requires AllDigitsIn(d, 10) && AllDigitsIn(f, 10) && (d != [] || f != [])
    ensures ToNumber(d + "." + f) == Finite(DecimalValue(d, f))
    ensures ToNumber("-" + d + "." + f) == Finite(-DecimalValue(d, f))
  {
    PositiveDecimal(d, f);
    NegativeDecimal(d, f);
  }

  lemma {:induction false} PositiveDecimal(d: string, f: string)
    requires AllDigitsIn(d, 10) && AllDigitsIn(f, 10) && (d != [] || f != [])
    ensures ToNumber(d + "." + f) == Finite(DecimalValue(d, f))
  {
    DecimalScan(d, f);
    ToNumberOfUnsigned(d + "." + f, DecimalValue(d, f));
  }

  lemma {:induction false} NegativeDecimal(d: string, f: string)
    requires AllDigitsIn(d, 10) && AllDigitsIn(f, 10) && (d != [] || f != [])
    ensures ToNumber("-" + d + "." + f) == Finite(-DecimalValue(d, f))
  {
    NegativeOfScan("-" + d + "." + f, d + "." + f, DecimalValue(d, f), d, f);
  }

  lemma {:induction false} NegativeOfScan(m: string, t: string, v: real, d: string, f: string)
    requires AllDigitsIn(d, 10) && AllDigitsIn(f, 10) && (d != [] || f != [])
    requires t == d + "." + f && m == "-" + d + "." + f && v == DecimalValue(d, f)
    ensures ToNumber(m) == Finite(-v)
  {
    assert |t| >= 1 && (IsDigitIn(t[0], 10) || t[0] == '.') && (IsDigitIn(t[|t| - 1], 10) || t[|t| - 1] == '.')
        && ScanUnsigned(t) == Some(Scan(v, |t|)) by {
      DecimalScan(d, f);
    }
    assert m == ['-'] + t by { MinusDecimal(d, f); }
    ToNumberOfNegative(m, t, v);
  }

  /** Regrouping `-d.f`. */
  lemma {:induction false} MinusDecimal(d: string, f: string)
    ensures "-" + d + "." + f == ['-'] + (d + "." + f)
  {
  }

  /** What the scanner needs to know about `d.f`. */
  lemma {:induction false} DecimalScan(d: string, f: string)
    requires AllDigitsIn(d, 10) && AllDigitsIn(f, 10) && (d != [] || f != [])
    ensures var t := d + "." + f;
      && |t| >= 2 && (IsDigitIn(t[0], 10) || t[0] == '.') && (IsDigitIn(t[1], 10) || t[1] == '.')
      && (IsDigitIn(t[|t| - 1], 10) || t[|t| - 1] == '.')
      && ScanUnsigned(t) == Some(Scan(DecimalValue(d, f), |t|))
  {
    var t := d + "." + f;
    assert t + "" == t;
    ScanOfDecimal(d, f, "");
    DecimalFront(d, f);
  }

  /** An integer numeral converts to its value, and with a minus sign in
      front to the negated value. */
  lemma {:induction false} ToNumberOfInteger(d: string)
    requires d != [] && AllDigitsIn(d, 10)
    ensures ToNumber(d) == Finite(Value(d, 10) as real)
    ensures ToNumber("-" + d) == Finite(-(Value(d, 10) as real))
  {
    PositiveInteger(d);
    NegativeInteger("-" + d, d);
  }

  lemma {:induction false} PositiveInteger(d: string)
    requires d != [] && AllDigitsIn(d, 10)
    ensures ToNumber(d) == Finite(Value(d, 10) as real)
  {
    IntegerScan(d);
    ToNumberOfUnsigned(d, Value(d, 10) as real);
  }

  lemma {:induction false} NegativeInteger(m: string, d: string)
    requires d != [] && AllDigitsIn(d, 10) && m == "-" + d
    ensures ToNumber(m) == Finite(-(Value(d, 10) as real))
  {
    IntegerScan(d);
    assert m == ['-'] + d;
    ToNumberOfNegative(m, d, Value(d, 10) as real);
  }

  /** What the scanner needs to know about an integer numeral. */
  lemma {:induction false} IntegerScan(d: string)
    requires d != [] && AllDigitsIn(d, 10)
    ensures IsDigitIn(d[0], 10) && IsDigitIn(d[|d| - 1], 10) && (|d| >= 2 ==> IsDigitIn(d[1], 10))
    ensures ScanUnsigned(d) == Some(Scan(Value(d, 10) as real, |d|))
  {
    assert d + "" == d;
    ScanOfInteger(d, "");
  }

  /** `0x` followed by hexadecimal digits converts to their value; with a
      minus sign in front the text is no number at all. */
  lemma {:induction false} ToNumberOfHex(h: string)
    requires h != [] && AllDigitsIn(h, 16)
    ensures ToNumber("0x" + h) == Finite(Value(h, 16) as real)
    ensures ToNumber("-0x" + h) == NaN
  {
    PositiveHex(h);
    NegativeHex(h);
  }

  lemma {:induction false} PositiveHex(h: string)
    requires h != [] && AllDigitsIn(h, 16)
    ensures ToNumber("0x" + h) == Finite(Value(h, 16) as real)
  {
    var t := "0x" + h;
    assert t[0] == '0' && t[1] == 'x' && t[2..] == h;
    assert t[|t| - 1] == h[|h| - 1];
    DigitNotWhite(h[|h| - 1], 16);
    TrimOfPlain(t);
    NotInfinity(t);
    RunOfDigits(h, 16);
  }

  lemma {:induction false} NegativeHex(h: string)
    requires h != [] && AllDigitsIn(h, 16)
    ensures ToNumber("-0x" + h) == NaN
  {
    var m := "-0x" + h;
    assert m[0] == '-' && m[1] == '0' && m[|m| - 1] == h[|h| - 1];
    DigitNotWhite(h[|h| - 1], 16);
    TrimOfPlain(m);
    NotNegativeInfinity(m);
    MinusHexScan(h);
  }

  /** The decimal scanner reads only `-0` from `-0x...`. */
  lemma {:induction false} MinusHexScan(h: string)
    requires h != []
    ensures ScanSigned("-0x" + h) == Some(Scan(-0.0, 2))
  {
    var m := "-0x" + h;
    var u := "0x" + h;
    assert m[0] == '-' && m[1..] == u;
    assert u[0] == '0' && u[1] == 'x';
    assert Run(u, 10) == 1 by { assert Run(u[1..], 10) == 0; }
    assert u[..1] == "0" && Value("0", 10) == 0 by { assert "0"[..0] == []; }
    assert ScanExponent(u[1..]) == (0, 0);
  }

  /** White space around a text changes nothing in its conversion. */
  lemma {:induction false} ToNumberSkipsWhite(w1: string, t: string, w2: string)
    requires AllWhite(w1) && AllWhite(w2)
    requires t != [] && !IsWhite(t[0]) && !IsWhite(t[|t| - 1])
    ensures ToNumber(w1 + t + w2) == ToNumber(t)
  {
    TrimOfPadded(w1, t, w2);
    TrimOfPlain(t);
  }
}
