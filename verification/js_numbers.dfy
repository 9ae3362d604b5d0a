/**
 * JavaScript's `Number(text)` conversion (StringToNumber, section 7.1.4.1.1 of ECMA-262), which decides
 * both `isNaN(text)` and the value `Number(text)` used by the query builder.
 * A finite result is kept as an exact real: rounding to a double is not modelled.
 */
module JsNumbers {
  import opened Wrappers

  /** A JavaScript Number. */
  datatype Num = NaN | Finite(r: real) | Infinity(negative: bool)

  /** The characters `Number()` ignores around a literal: WhiteSpace and LineTerminator of ECMA-262. */
  predicate IsWhiteSpace(c: char)
  {
    || c in {'\t', '\n', '\U{000B}', '\U{000C}', '\r', ' ', '\U{00A0}', '\U{1680}'}
    || c in {'\U{2028}', '\U{2029}', '\U{202F}', '\U{205F}', '\U{3000}', '\U{FEFF}'}
    || '\U{2000}' <= c <= '\U{200A}'
  }

  function TrimStart(s: string): (r: string)
    ensures |r| <= |s| && r == s[|s| - |r|..]
    ensures r == [] || !IsWhiteSpace(r[0])
    ensures forall i :: 0 <= i < |s| - |r| ==> IsWhiteSpace(s[i])
  {
    if s != [] && IsWhiteSpace(s[0]) then TrimStart(s[1..]) else s
  }

  function TrimEnd(s: string): (r: string)
    ensures |r| <= |s| && r == s[..|r|]
    ensures r == [] || !IsWhiteSpace(r[|r| - 1])
    ensures forall i :: |r| <= i < |s| ==> IsWhiteSpace(s[i])
  {
    if s != [] && IsWhiteSpace(s[|s| - 1]) then TrimEnd(s[..|s| - 1]) else s
  }

  /** The text with its leading and trailing white space removed. */
  function Trim(s: string): string
  {
    TrimEnd(TrimStart(s))
  }

  /** The value of a digit in bases up to 36; 36 for a character that is no digit. */
  function DigitValue(c: char): (d: nat)
    ensures d <= 36
    ensures d < 10 <==> '0' <= c <= '9'
  {
    if '0' <= c <= '9' then c as int - '0' as int
    else if 'a' <= c <= 'z' then c as int - 'a' as int + 10
    else if 'A' <= c <= 'Z' then c as int - 'A' as int + 10
    else 36
  }

  predicate IsDigit(c: char, radix: nat)
  {
    DigitValue(c) < radix
  }

  predicate AllDigits(s: string, radix: nat)
  {
    forall i :: 0 <= i < |s| ==> IsDigit(s[i], radix)
  }

  /** The value of a digit string read most significant digit first. */
  function DigitsValue(s: string, radix: nat): nat
    requires AllDigits(s, radix)
  {
    if s == [] then 0 else DigitsValue(s[..|s| - 1], radix) * radix + DigitValue(s[|s| - 1])
  }

  /** The length of the longest prefix of `s` made of digits. */
  function DigitSpan(s: string, radix: nat): (n: nat)
    ensures n <= |s|
    ensures AllDigits(s[..n], radix)
    ensures n == |s| || !IsDigit(s[n], radix)
  {
    if s == [] || !IsDigit(s[0], radix) then 0
    else
      var k := DigitSpan(s[1..], radix);
      assert s[..1 + k] == [s[0]] + s[1..][..k];
      1 + k
  }

  function Pow(b: nat, e: nat): (r: nat)
    ensures b > 0 ==> r > 0
  {
    if e == 0 then 1 else b * Pow(b, e - 1)
  }

  /** The real `m * 10^e`. */
  function Scale(m: nat, e: int): real
  {
    if e >= 0 then (m * Pow(10, e)) as real else m as real / Pow(10, -e) as real
  }

  /** An optionally signed run of at least one decimal digit, making up all of `y`. */
  function SignedInteger(y: string): Option<int>
  {
    var negative := y != [] && y[0] == '-';
    var ds := if y != [] && (y[0] == '-' || y[0] == '+') then y[1..] else y;
    if ds != [] && AllDigits(ds, 10) then
      Some(if negative then -(DigitsValue(ds, 10) as int) else DigitsValue(ds, 10))
    else None
  }

  /** An ExponentPart, or nothing at all (exponent 0). */
  function Exponent(x: string): Option<int>
  {
    if x == [] then Some(0)
    else if x[0] == 'e' || x[0] == 'E' then SignedInteger(x[1..])
    else None
  }

  /** StrUnsignedDecimalLiteral: `Infinity`, or digits with an optional fraction and exponent. */
  function UnsignedDecimal(u: string): Num
  {
    if u == "Infinity" then Infinity(false)
    else
      var n := DigitSpan(u, 10);
      FractionAndExponent(u[..n], u[n..])
  }

  /** What follows the integer digits `ds`: an optional `.` with fraction digits, then an optional exponent, and nothing else. */
  function FractionAndExponent(ds: string, rest: string): Num
    requires AllDigits(ds, 10)
  {
    var dotted := rest != [] && rest[0] == '.';
    var frac := if dotted then rest[1..][..DigitSpan(rest[1..], 10)] else [];
    var tail := if dotted then rest[1 + |frac|..] else rest;
    if |ds| + |frac| == 0 then NaN
    else
      assert AllDigits(ds + frac, 10);
      match Exponent(tail)
      case None => NaN
      case Some(e) => Finite(Scale(DigitsValue(ds + frac, 10), e - |frac|))
  }

  function Negate(x: Num): Num
  {
    match x
    case NaN => NaN
    case Finite(r) => Finite(-r)
    case Infinity(negative) => Infinity(!negative)
  }

  /** The base announced by the second character of a `0x`, `0o` or `0b` prefix; 0 for none. */
  function RadixOf(c: char): nat
  {
    if c == 'x' || c == 'X' then 16
    else if c == 'o' || c == 'O' then 8
    else if c == 'b' || c == 'B' then 2
    else 0
  }

  /** `Number(s)` for a string `s`: the literal left after trimming white space. */
  function StringToNumber(s: string): Num
  {
    TrimmedToNumber(Trim(s))
  }

  /** StringNumericLiteral without surrounding white space: empty (zero), non-decimal, or signed decimal. */
  function TrimmedToNumber(t: string): Num
  {
    if t == [] then Finite(0.0)
    else if |t| >= 2 && t[0] == '0' && RadixOf(t[1]) != 0 then
      var ds := t[2..];
      if ds != [] && AllDigits(ds, RadixOf(t[1])) then Finite(DigitsValue(ds, RadixOf(t[1])) as real) else NaN
    else if t[0] == '-' then Negate(UnsignedDecimal(t[1..]))
    else if t[0] == '+' then UnsignedDecimal(t[1..])
    else UnsignedDecimal(t)
  }

  /** `!isNaN(s)` for a string `s`: the text converts to a number. */
  predicate IsNumericText(s: string)
  {
    !StringToNumber(s).NaN?
  }

  /** The shortest decimal text of a natural number. */
  function DecimalText(n: nat): (r: string)
    ensures r != [] && AllDigits(r, 10)
    ensures r[0] == '0' ==> r == "0"
  {
    var d := [('0' as int + n % 10) as char];
    if n < 10 then d else DecimalText(n / 10) + d
  }

  lemma {:induction false} DecimalTextValue(n: nat)
    ensures DigitsValue(DecimalText(n), 10) == n
  {
    var d := [('0' as int + n % 10) as char];
    if n >= 10 {
      DecimalTextValue(n / 10);
      var t := DecimalText(n / 10) + d;
      assert t[..|t| - 1] == DecimalText(n / 10);
    }
  }

  /** Converting the decimal text of a natural number gives that number back. */
  lemma {:induction false} DecimalTextRoundTrip(n: nat)
    ensures StringToNumber(DecimalText(n)) == Finite(n as real)
  {
    DigitTextToNumber(DecimalText(n));
    DecimalTextValue(n);
  }

  /** A run of decimal digits, leading zeros allowed, converts to the number it spells. */
  lemma DigitTextToNumber(t: string)
    requires t != [] && AllDigits(t, 10)
    ensures StringToNumber(t) == Finite(DigitsValue(t, 10) as real)
  {
    DigitTextTrimmed(t);
    assert RadixOf(t[0]) == 0 && (|t| >= 2 ==> RadixOf(t[1]) == 0) by {
      assert IsDigit(t[0], 10);
      assert |t| >= 2 ==> IsDigit(t[1], 10);
    }
    assert t[0] != '-' && t[0] != '+' by {
      assert IsDigit(t[0], 10);
    }
    DigitTextUnsigned(t);
  }

  lemma DigitTextTrimmed(t: string)
    requires t != [] && AllDigits(t, 10)
    ensures Trim(t) == t
  {
    assert IsDigit(t[0], 10) && IsDigit(t[|t| - 1], 10);
    assert TrimStart(t) == t;
  }

  lemma DigitTextUnsigned(t: string)
    requires t != [] && AllDigits(t, 10)
    ensures UnsignedDecimal(t) == Finite(DigitsValue(t, 10) as real)
  {
    assert t != "Infinity" by {
      assert IsDigit(t[0], 10);
    }
    var k := DigitSpan(t, 10);
    assert k == |t|;
    assert t[..k] == t && t[k..] == [];
    DigitsAlone(t);
  }

  lemma DigitsAlone(ds: string)
    requires ds != [] && AllDigits(ds, 10)
    ensures FractionAndExponent(ds, []) == Finite(DigitsValue(ds, 10) as real)
  {
    assert ds + [] == ds;
    assert Exponent([]) == Some(0);
    assert Scale(DigitsValue(ds, 10), 0) == DigitsValue(ds, 10) as real;
  }

  lemma {:induction false} TrimStartSkipsWhiteSpace(w: string, s: string)
    requires forall i :: 0 <= i < |w| ==> IsWhiteSpace(w[i])
    ensures TrimStart(w + s) == TrimStart(s)
  {
    if w != [] {
      assert (w + s)[0] == w[0];
      assert (w + s)[1..] == w[1..] + s;
      TrimStartSkipsWhiteSpace(w[1..], s);
    } else {
      assert w + s == s;
    }
  }

  lemma {:induction false} TrimEndSkipsWhiteSpace(s: string, w: string)
    requires forall i :: 0 <= i < |w| ==> IsWhiteSpace(w[i])
    ensures TrimEnd(s + w) == TrimEnd(s)
  {
    if w != [] {
      assert (s + w)[|s + w| - 1] == w[|w| - 1];
      assert (s + w)[..|s + w| - 1] == s + w[..|w| - 1];
      TrimEndSkipsWhiteSpace(s, w[..|w| - 1]);
    } else {
      assert s + w == s;
    }
  }

  /** Trimming the front of `s` and then appending `w` is trimming the front of `s + w`, unless `s` was all white space. */
  lemma {:induction false} TrimStartAppend(s: string, w: string)
    requires TrimStart(s) != []
    ensures TrimStart(s + w) == TrimStart(s) + w
  {
    assert (s + w)[0] == s[0];
    if IsWhiteSpace(s[0]) {
      assert (s + w)[1..] == s[1..] + w;
      TrimStartAppend(s[1..], w);
    }
  }

  /** White space around a numeric literal does not change what it converts to. */
  lemma PaddingIgnored(w1: string, s: string, w2: string)
    requires forall i :: 0 <= i < |w1| ==> IsWhiteSpace(w1[i])
    requires forall i :: 0 <= i < |w2| ==> IsWhiteSpace(w2[i])
    ensures StringToNumber(w1 + s + w2) == StringToNumber(s)
  {
    TrimPadded(w1, s, w2);
  }

  lemma TrimPadded(w1: string, s: string, w2: string)
    requires forall i :: 0 <= i < |w1| ==> IsWhiteSpace(w1[i])
    requires forall i :: 0 <= i < |w2| ==> IsWhiteSpace(w2[i])
    ensures Trim(w1 + s + w2) == Trim(s)
  {
    assert w1 + s + w2 == w1 + (s + w2);
    TrimStartSkipsWhiteSpace(w1, s + w2);
    if TrimStart(s) != [] {
      TrimStartAppend(s, w2);
      TrimEndSkipsWhiteSpace(TrimStart(s), w2);
    } else {
      TrimStartSkipsWhiteSpace(s, w2);
      AllWhiteSpaceTrims(w2);
    }
  }

  lemma {:induction false} AllWhiteSpaceTrims(s: string)
    requires forall i :: 0 <= i < |s| ==> IsWhiteSpace(s[i])
    ensures TrimStart(s) == []
  {
    if s != [] {
      assert IsWhiteSpace(s[0]);
      AllWhiteSpaceTrims(s[1..]);
    }
  }
}
