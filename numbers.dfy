/**
 * JavaScript's `Number.parseInt` (with no radix argument) and the decimal rendering of an array
 * index (`String(i)`), on unbounded integers.
 */
module Numbers {
  import opened Wrappers

  /** The code points ECMAScript counts as WhiteSpace or LineTerminator (removed by trimStart). */
  predicate IsWhitespace(c: char)
  {
    || c == '\t' || c == '\U{B}' || c == '\U{C}' || c == ' ' || c == '\U{A0}' || c == '\U{FEFF}'
    || c == '\n' || c == '\r' || c == '\U{2028}' || c == '\U{2029}'
    || c == '\U{1680}' || ('\U{2000}' <= c <= '\U{200A}') || c == '\U{202F}' || c == '\U{205F}'
    || c == '\U{3000}'
  }

  /** The string without its leading white space. */
  function TrimStart(s: string): (r: string)
    ensures |r| <= |s| && r == s[|s| - |r|..]
    ensures forall i :: 0 <= i < |s| - |r| ==> IsWhitespace(s[i])
    ensures r == [] || !IsWhitespace(r[0])
  {
    if s != [] && IsWhitespace(s[0]) then TrimStart(s[1..]) else s
  }

  /** The value of a digit in radix 36 ('0'..'9', then 'a'..'z' in either case); 36 for a non-digit. */
  function DigitValue(c: char): nat
  {
    if '0' <= c <= '9' then c as int - '0' as int
    else if 'a' <= c <= 'z' then c as int - 'a' as int + 10
    else if 'A' <= c <= 'Z' then c as int - 'A' as int + 10
    else 36
  }

  predicate IsDigit(c: char, radix: nat)
  {
    DigitValue(c) < radix
  }

  predicate AllDigits(s: string, radix: nat)
  {
    forall i :: 0 <= i < |s| ==> IsDigit(s[i], radix)
  }

  /** The longest prefix of `s` made of digits of the radix. */
  function DigitPrefix(s: string, radix: nat): (r: string)
    ensures |r| <= |s| && r == s[..|r|]
    ensures AllDigits(r, radix)
    ensures |r| == |s| || !IsDigit(s[|r|], radix)
  {
    if s != [] && IsDigit(s[0], radix) then [s[0]] + DigitPrefix(s[1..], radix) else []
  }

  /** The number a string of digits denotes, most significant digit first. */
  function DigitsValue(s: string, radix: nat): nat
  {
    if s == [] then 0 else DigitsValue(s[..|s| - 1], radix) * radix + DigitValue(s[|s| - 1])
  }

  /** A "0x" or "0X" prefix, which switches parseInt to radix 16. */
  predicate HasHexPrefix(u: string)
  {
    |u| >= 2 && u[0] == '0' && (u[1] == 'x' || u[1] == 'X')
  }

  /** The string without one leading '+' or '-'. */
  function StripSign(t: string): string
  {
    if t != [] && (t[0] == '-' || t[0] == '+') then t[1..] else t
  }

  /** The magnitude parseInt reads after the sign: the longest run of digits, None if there is none. */
  function ParseUnsigned(u: string): Option<nat>
  {
    var radix := if HasHexPrefix(u) then 16 else 10;
    var digits := DigitPrefix(if HasHexPrefix(u) then u[2..] else u, radix);
    if digits == [] then None else Some(DigitsValue(digits, radix))
  }

  /**
   * `Number.parseInt(s)`: skip leading white space, take an optional sign, switch to radix 16 after
   * a "0x" or "0X" prefix, and read the longest run of digits that follows. None is NaN (no digit).
   */
  function ParseInt(s: string): Option<int>
  {
    var t := TrimStart(s);
    match ParseUnsigned(StripSign(t))
    case None => None
    case Some(magnitude) =>
      var value: int := if t != [] && t[0] == '-' then -(magnitude as int) else magnitude;
      Some(value)
  }

  lemma DecimalDigitNotWhitespace(c: char)
    requires IsDigit(c, 10)
    ensures '0' <= c <= '9' && !IsWhitespace(c)
  {
  }

  lemma {:induction false} DigitPrefixOfDigits(d: string, t: string, radix: nat)
    requires AllDigits(d, radix)
    requires t == [] || !IsDigit(t[0], radix)
    ensures DigitPrefix(d + t, radix) == d
  {
    if d != [] {
      assert (d + t)[1..] == d[1..] + t;
      DigitPrefixOfDigits(d[1..], t, radix);
    } else {
      assert d + t == t;
    }
  }

  /** A string that starts with a decimal digit has no white space, sign or hexadecimal prefix to skip. */
  lemma StartsWithDigit(d: string, t: string)
    requires d != [] && AllDigits(d, 10)
    requires t == [] || !IsDigit(t[0], 10)
    requires !(|d| == 1 && d[0] == '0' && t != [] && (t[0] == 'x' || t[0] == 'X'))
    ensures ParseInt(d + t) == ParseUnsigned(d + t)
    ensures !HasHexPrefix(d + t)
  {
    var s := d + t;
    assert s[0] == d[0];
    DecimalDigitNotWhitespace(d[0]);
    assert TrimStart(s) == s;
    assert StripSign(s) == s;
    if |d| >= 2 { assert s[1] == d[1]; } else if |s| >= 2 { assert s[1] == t[0]; }
  }

  /**
   * parseInt reads the leading decimal digits and ignores what follows the first non-digit, unless
   * the digits are a lone "0" followed by 'x' or 'X' (a hexadecimal prefix).
   */
  lemma ParseLeadingDigits(d: string, t: string)
    requires d != [] && AllDigits(d, 10)
    requires t == [] || !IsDigit(t[0], 10)
    requires !(|d| == 1 && d[0] == '0' && t != [] && (t[0] == 'x' || t[0] == 'X'))
    ensures ParseInt(d + t) == Some(DigitsValue(d, 10))
  {
    StartsWithDigit(d, t);
    DigitPrefixOfDigits(d, t, 10);
  }

  /** Past the sign, parseInt reads the leading decimal digits. */
  lemma UnsignedLeadingDigits(d: string, t: string)
    requires d != [] && AllDigits(d, 10)
    requires t == [] || !IsDigit(t[0], 10)
    requires !(|d| == 1 && d[0] == '0' && t != [] && (t[0] == 'x' || t[0] == 'X'))
    ensures ParseUnsigned(d + t) == Some(DigitsValue(d, 10))
  {
    StartsWithDigit(d, t);
    DigitPrefixOfDigits(d, t, 10);
  }

  /** A '-' before the leading digits negates what parseInt reads, so "-0" reads as 0. */
  lemma ParseNegatedLeadingDigits(d: string, t: string)
    requires d != [] && AllDigits(d, 10)
    requires t == [] || !IsDigit(t[0], 10)
    requires !(|d| == 1 && d[0] == '0' && t != [] && (t[0] == 'x' || t[0] == 'X'))
    ensures ParseInt("-" + (d + t)).Some?
    ensures ParseInt("-" + (d + t)).value == -(DigitsValue(d, 10) as int)
  {
    var s := "-" + (d + t);
    assert s[0] == '-';
    assert TrimStart(s) == s;
    assert StripSign(s) == d + t by { assert s[1..] == d + t; }
    UnsignedLeadingDigits(d, t);
  }

  /** parseInt("60") is 60. */
  lemma ParseSixty()
    ensures ParseInt("60") == Some(60)
  {
    var d := "60";
    assert d + [] == d;
    assert DigitsValue(d, 10) == 60 by { assert d[..1] == "6"; }
    ParseLeadingDigits(d, []);
  }

  /** parseInt of a one-character string: the digit's value, NaN (None) for anything else. */
  lemma ParseSingleChar(c: char)
    ensures ParseInt([c]) == if '0' <= c <= '9' then Some(DigitValue(c)) else None
  {
    if '0' <= c <= '9' {
      assert [c] + [] == [c];
      ParseLeadingDigits([c], []);
    } else if !IsWhitespace(c) && c != '-' && c != '+' {
      assert DigitPrefix([c], 10) == [];
    }
  }

  /** The decimal digit character for 0..9. */
  function DigitChar(d: nat): (c: char)
    requires d < 10
    ensures IsDigit(c, 10) && DigitValue(c) == d
  {
    ('0' as int + d) as char
  }

  /** `String(n)` for an array index n: its decimal digits without leading zeros. */
  function NatToString(n: nat): (r: string)
    ensures r != [] && AllDigits(r, 10)
    ensures DigitsValue(r, 10) == n
  {
    if n < 10 then [DigitChar(n)]
    else
      var prefix := NatToString(n / 10);
      var r := prefix + [DigitChar(n % 10)];
      assert r[..|r| - 1] == prefix;
      r
  }

  /** Reading back a rendered index gives the index: `parseInt(String(n)) == n`. */
  lemma ParseNatToString(n: nat)
    ensures ParseInt(NatToString(n)) == Some(n)
  {
    assert NatToString(n) + [] == NatToString(n);
    ParseLeadingDigits(NatToString(n), []);
  }

  /** Distinct indexes render to distinct strings. */
  lemma NatToStringInjective(m: nat, n: nat)
    requires m != n
    ensures NatToString(m) != NatToString(n)
  {
    ParseNatToString(m);
    ParseNatToString(n);
  }
}
