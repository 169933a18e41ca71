/**
 * Optional values, standing in for C#'s nullable types (`Guid?`, `DateTime?`, `bool?`), and
 * the outcome of a validation that either yields a value or names what was wrong.
 */
module Wrappers {
  datatype Option<+T> = None | Some(value: T)

  datatype Result<+T> = Ok(value: T) | Err(message: string)
}

/**
 * The pieces of .NET arithmetic and text handling that the application relies on:
 * 32-bit wrap-around, division that truncates toward zero, `char.IsWhiteSpace`,
 * `string.Trim`, `string.IsNullOrWhiteSpace`, `int.ToString` and `int.TryParse`.
 */
module Numeric {
  import opened Wrappers

  const Int32Min: int := -0x8000_0000
  const Int32Max: int := 0x7fff_ffff
  const TwoTo32: int := 0x1_0000_0000

  predicate IsInt32(n: int) {
    Int32Min <= n <= Int32Max
  }

  /** The value C#'s unchecked 32-bit arithmetic produces for the mathematical result `n`. */
  function Wrap32(n: int): (r: int)
    ensures IsInt32(r)
    ensures (n - r) % TwoTo32 == 0
    ensures IsInt32(n) ==> r == n
  {
    (n - Int32Min) % TwoTo32 + Int32Min
  }

  /** C#'s integer `/` for a positive divisor: the quotient truncated toward zero. */
  function TruncDiv(a: int, b: int): (q: int)
    requires b > 0
    ensures a >= 0 ==> q == a / b
    ensures a < 0 ==> q == -((-a) / b)
  {
    if a >= 0 then a / b else -((-a) / b)
  }

  /** C#'s integer `%` for a positive divisor: the remainder takes the sign of the dividend. */
  function TruncMod(a: int, b: int): (m: int)
    requires b > 0
    ensures a == b * TruncDiv(a, b) + m
    ensures a >= 0 ==> 0 <= m < b
    ensures a < 0 ==> -b < m <= 0
  {
    a - b * TruncDiv(a, b)
  }

  // ---------------------------------------------------------------------------
  // Whitespace and trimming

  /** `char.IsWhiteSpace`: the Unicode separators, the ASCII controls 9-13 and U+0085. */
  predicate IsWhiteSpace(c: char) {
    ('\U{0009}' <= c <= '\U{000D}') || c == '\U{0020}' || c == '\U{0085}' || c == '\U{00A0}'
    || c == '\U{1680}' || ('\U{2000}' <= c <= '\U{200A}') || c == '\U{2028}' || c == '\U{2029}'
    || c == '\U{202F}' || c == '\U{205F}' || c == '\U{3000}'
  }

  /** The white space `int.TryParse` skips around a number: ASCII 9-13 and the space. */
  predicate IsParseWhite(c: char) {
    ('\U{0009}' <= c <= '\U{000D}') || c == '\U{0020}'
  }

  /** `string.IsNullOrWhiteSpace` for a non-null string. */
  predicate IsBlank(s: string) {
    forall i :: 0 <= i < |s| ==> IsWhiteSpace(s[i])
  }

  /** Drops the leading characters satisfying `white`; what remains is a suffix of `s`. */
  function TrimStart(s: string, white: char -> bool): (r: string)
    ensures |r| <= |s| && r == s[|s| - |r|..]
    ensures r != [] ==> !white(r[0])
    ensures forall i :: 0 <= i < |s| - |r| ==> white(s[i])
  {
    if s != [] && white(s[0]) then TrimStart(s[1..], white) else s
  }

  /** Drops the trailing characters satisfying `white`; what remains is a prefix of `s`. */
  function TrimEnd(s: string, white: char -> bool): (r: string)
    ensures |r| <= |s| && r == s[..|r|]
    ensures r != [] ==> !white(r[|r| - 1])
    ensures forall i :: |r| <= i < |s| ==> white(s[i])
  {
    if s != [] && white(s[|s| - 1]) then TrimEnd(s[..|s| - 1], white) else s
  }

  /** `string.Trim()`: both ends stripped of `char.IsWhiteSpace` characters. */
  function Trim(s: string): (r: string)
    ensures |r| <= |s|
    ensures r != [] ==> !IsWhiteSpace(r[0]) && !IsWhiteSpace(r[|r| - 1])
  {
    TrimEnd(TrimStart(s, IsWhiteSpace), IsWhiteSpace)
  }

  /** What trimming keeps is a contiguous slice of `s`, and everything it drops is white space. */
  lemma TrimIsInfix(s: string)
    ensures exists i, j :: (0 <= i <= j <= |s| && Trim(s) == s[i..j]
      && (forall k :: 0 <= k < i ==> IsWhiteSpace(s[k]))
      && (forall k :: j <= k < |s| ==> IsWhiteSpace(s[k])))
  {
    var a := TrimStart(s, IsWhiteSpace);
    var r := TrimEnd(a, IsWhiteSpace);
    var i := |s| - |a|;
    var j := i + |r|;
    assert Trim(s) == s[i..j] by {
      assert a == s[i..];
      assert r == a[..|r|];
    }
    assert forall k :: j <= k < |s| ==> IsWhiteSpace(s[k]) by {
      forall k | j <= k < |s| ensures IsWhiteSpace(s[k]) {
        assert s[k] == a[k - i];
      }
    }
  }

  /** A string is blank exactly when trimming leaves nothing. */
  lemma BlankIffTrimEmpty(s: string)
    ensures IsBlank(s) <==> Trim(s) == []
  {
    var a := TrimStart(s, IsWhiteSpace);
    if a != [] {
      assert a[0] == s[|s| - |a|];
    }
  }

  /** Trimming twice is trimming once: a trimmed string has no white space left at either end. */
  lemma TrimIdempotent(s: string)
    ensures Trim(Trim(s)) == Trim(s)
  {
    var r := Trim(s);
    assert TrimStart(r, IsWhiteSpace) == r;
    assert TrimEnd(r, IsWhiteSpace) == r;
  }

  // ---------------------------------------------------------------------------
  // Decimal digits

  predicate IsDigit(c: char) {
    '0' <= c <= '9'
  }

  predicate AllDigits(s: string) {
    forall i :: 0 <= i < |s| ==> IsDigit(s[i])
  }

  function DigitChar(d: int): (c: char)
    requires 0 <= d < 10
    ensures IsDigit(c)
  {
    ('0' as int + d) as char
  }

  /** The value of a string of decimal digits, most significant first. */
  function DigitsValue(s: string): (n: nat)
    requires AllDigits(s)
  {
    if s == [] then 0 else DigitsValue(s[..|s| - 1]) * 10 + (s[|s| - 1] as int - '0' as int)
  }

  /** The decimal digits of `n`, without leading zeros. */
  function NatToString(n: nat): (s: string)
    ensures |s| >= 1 && AllDigits(s)
  {
    if n < 10 then [DigitChar(n)] else NatToString(n / 10) + [DigitChar(n % 10)]
  }

  /** `int.ToString()` (a leading '-' for negative numbers). */
  function IntToString(n: int): (s: string)
    ensures |s| >= 1
    ensures n >= 0 <==> IsDigit(s[0])
  {
    if n < 0 then "-" + NatToString(-n) else NatToString(n)
  }

  lemma {:induction false} NatToStringValue(n: nat)
    ensures DigitsValue(NatToString(n)) == n
  {
    if n >= 10 {
      NatToStringValue(n / 10);
      var s := NatToString(n);
      assert s[..|s| - 1] == NatToString(n / 10);
    }
  }

  /**
   * `int.TryParse(text, out v)` with the default integer style: optional white space at
   * both ends, an optional '+' or '-', at least one decimal digit, and a value that fits
   * in 32 bits; anything else fails.
   */
  function TryParseInt32(text: string): (r: Option<int>)
    ensures r.Some? ==> IsInt32(r.value)
  {
    ParseSignedDigits(TrimEnd(TrimStart(text, IsParseWhite), IsParseWhite))
  }

  /** The number a trimmed text spells: an optional sign, then decimal digits only. */
  function ParseSignedDigits(t: string): (r: Option<int>)
    ensures r.Some? ==> IsInt32(r.value)
  {
    var negative := |t| > 0 && t[0] == '-';
    var body := if |t| > 0 && (t[0] == '-' || t[0] == '+') then t[1..] else t;
    if body == [] || !AllDigits(body) then None
    else
      var v: int := if negative then -(DigitsValue(body) as int) else DigitsValue(body);
      if IsInt32(v) then Some(v) else None
  }

  /** A formatted integer has no white space to trim. */
  lemma FormattedIsTrimmed(n: int)
    ensures var s := IntToString(n); TrimEnd(TrimStart(s, IsParseWhite), IsParseWhite) == s
  {
    var s := IntToString(n);
    assert !IsParseWhite(s[0]);
    assert !IsParseWhite(s[|s| - 1]) by {
      if n < 0 { assert s[|s| - 1] == NatToString(-n)[|NatToString(-n)| - 1]; }
    }
    assert TrimStart(s, IsParseWhite) == s;
    assert TrimEnd(s, IsParseWhite) == s;
  }

  /** Formatting a 32-bit integer and parsing it back gives the integer again. */
  lemma ParseFormatRoundTrip(n: int)
    requires IsInt32(n)
    ensures TryParseInt32(IntToString(n)) == Some(n)
  {
    FormattedIsTrimmed(n);
    assert ParseSignedDigits(IntToString(n)) == Some(n) by {
      if n < 0 {
        var digits := NatToString(-n);
        NatToStringValue(-n);
        SignedDigitsValue("-" + digits, digits);
      } else {
        var digits := NatToString(n);
        NatToStringValue(n);
        SignedDigitsValue(digits, digits);
      }
    }
  }

  /** A sign followed by digits, or digits alone, parse to their (signed) value when it fits. */
  lemma SignedDigitsValue(t: string, digits: string)
    requires digits != [] && AllDigits(digits)
    requires t == digits || t == "-" + digits
    ensures var v: int := if t == digits then DigitsValue(digits) else -(DigitsValue(digits) as int);
      ParseSignedDigits(t) == if IsInt32(v) then Some(v) else None
  {
    if t != digits {
      assert t[0] == '-' && t[1..] == digits;
    } else {
      assert IsDigit(t[0]);
    }
  }
}
