/**
 * The JavaScript string operations the forms rely on: `String.prototype.trim`,
 * the UTF-16 `length`, `parseInt` without a radix (decimal, or hexadecimal
 * after a `0x` prefix) and `Number.prototype.toString` of an integer.
 */
module Text {
  import opened Wrappers
  import opened Seqs

  /** The ECMAScript WhiteSpace and LineTerminator code points: what `trim` removes. */
  predicate IsWhitespace(c: char) {
    c == '\t' || c == '\n' || c == '\U{000B}' || c == '\U{000C}' || c == '\r' || c == ' '
    || c == '\U{00A0}' || c == '\U{1680}' || ('\U{2000}' <= c <= '\U{200A}')
    || c == '\U{2028}' || c == '\U{2029}' || c == '\U{202F}' || c == '\U{205F}'
    || c == '\U{3000}' || c == '\U{FEFF}'
  }

  /** Every character is whitespace (so `s.trim()` is empty and `!s.trim()` holds). */
  predicate IsBlank(s: string) {
    forall i :: 0 <= i < |s| ==> IsWhitespace(s[i])
  }

  /** The number of whitespace characters `s` starts with. */
  function LeadingWhitespace(s: string): (k: nat)
    ensures k <= |s|
    ensures forall i :: 0 <= i < k ==> IsWhitespace(s[i])
    ensures k < |s| ==> !IsWhitespace(s[k])
  {
    if s != [] && IsWhitespace(s[0]) then 1 + LeadingWhitespace(s[1..]) else 0
  }

  /** The number of whitespace characters `s` ends with. */
  function TrailingWhitespace(s: string): (k: nat)
    ensures k <= |s|
    ensures forall i :: |s| - k <= i < |s| ==> IsWhitespace(s[i])
    ensures k < |s| ==> !IsWhitespace(s[|s| - k - 1])
  {
    if s != [] && IsWhitespace(s[|s| - 1]) then 1 + TrailingWhitespace(s[..|s| - 1]) else 0
  }

  /** `s.trim()`: `s` without its leading and trailing whitespace. */
  function Trim(s: string): (r: string)
    ensures |r| <= |s|
    ensures r == [] <==> IsBlank(s)
    ensures r != [] ==> !IsWhitespace(r[0]) && !IsWhitespace(r[|r| - 1])
  {
    var a := LeadingWhitespace(s);
    var rest := s[a..];
    assert IsBlank(s) ==> a == |s|;
    assert !IsBlank(s) ==> a < |s|;
    rest[..|rest| - TrailingWhitespace(rest)]
  }

  /** `s.trim()` is a slice of `s`, and everything cut off on either side is whitespace. */
  lemma TrimIsSlice(s: string)
    ensures exists a, b :: 0 <= a <= b <= |s| && Trim(s) == s[a..b] && WhitespaceOutside(s, a, b)
  {
    var a := LeadingWhitespace(s);
    var rest := s[a..];
    var b := a + |rest| - TrailingWhitespace(rest);
    assert Trim(s) == s[a..b];
    TrailingCut(s, rest, a, b);
  }

  /** Every character of `s` before position `a` or from position `b` on is whitespace. */
  predicate WhitespaceOutside(s: string, a: int, b: int) {
    (forall i :: 0 <= i < a && i < |s| ==> IsWhitespace(s[i]))
    && (forall i :: b <= i < |s| && 0 <= i ==> IsWhitespace(s[i]))
  }

  /** Whitespace before `a` and whitespace at the end of `rest == s[a..]` from `b - a` on leave only whitespace outside `s[a..b]`. */
  lemma TrailingCut(s: string, rest: string, a: nat, b: int)
    requires a <= b <= |s| && rest == s[a..]
    requires forall i :: 0 <= i < a ==> IsWhitespace(s[i])
    requires forall j :: b - a <= j < |rest| ==> IsWhitespace(rest[j])
    ensures WhitespaceOutside(s, a, b)
  {
    forall i | b <= i < |s| && 0 <= i
      ensures IsWhitespace(s[i])
    {
      assert s[i] == rest[i - a];
    }
  }

  /** Trimming twice is trimming once. */
  lemma TrimIdempotent(s: string)
    ensures Trim(Trim(s)) == Trim(s)
  {
    var t := Trim(s);
    if t != [] {
      assert LeadingWhitespace(t) == 0;
      assert TrailingWhitespace(t) == 0;
    }
  }

  /** A character outside the Basic Multilingual Plane, which UTF-16 stores as a surrogate pair. */
  predicate IsAstral(c: char) {
    c as int >= 0x1_0000
  }

  /** `s.length`: one UTF-16 code unit per character, and a second one for each astral character. */
  function Utf16Length(s: string): (n: nat)
    ensures |s| <= n <= 2 * |s|
  {
    if s == [] then 0
    else (if IsAstral(s[0]) then 2 else 1) + Utf16Length(s[1..])
  }

  /** The UTF-16 length is the number of characters plus the number of astral ones. */
  lemma {:induction false} Utf16LengthCountsAstral(s: string)
    ensures Utf16Length(s) == |s| + |Filter(s, IsAstral)|
  {
    if s != [] {
      Utf16LengthCountsAstral(s[1..]);
      assert Filter(s, IsAstral) == FilterRaw(s, IsAstral);
      assert Filter(s[1..], IsAstral) == FilterRaw(s[1..], IsAstral);
    }
  }

  predicate IsDigit(c: char) {
    '0' <= c <= '9'
  }

  /** A digit in base `radix`; the hexadecimal letters are read in either case. */
  predicate IsDigitIn(c: char, radix: nat) {
    IsDigit(c) || (radix == 16 && ('a' <= c <= 'f' || 'A' <= c <= 'F'))
  }

  function DigitChar(d: nat): (c: char)
    requires d < 10
    ensures IsDigit(c)
  {
    ('0' as int + d) as char
  }

  /** The number of base-`radix` digits `s` starts with. */
  function LeadingDigits(s: string, radix: nat): (k: nat)
    ensures k <= |s|
    ensures forall i :: 0 <= i < k ==> IsDigitIn(s[i], radix)
    ensures k < |s| ==> !IsDigitIn(s[k], radix)
  {
    if s != [] && IsDigitIn(s[0], radix) then 1 + LeadingDigits(s[1..], radix) else 0
  }

  function DigitValue(c: char, radix: nat): (d: nat)
    requires radix == 10 || radix == 16
    requires IsDigitIn(c, radix)
    ensures d < radix
    ensures IsDigit(c) ==> d < 10 && DigitChar(d) == c
  {
    if IsDigit(c) then c as int - '0' as int
    else if 'a' <= c <= 'f' then c as int - 'a' as int + 10
    else c as int - 'A' as int + 10
  }

  /** The value of a string of base-`radix` digits, most significant first. */
  function DigitsValue(ds: string, radix: nat): nat
    requires radix == 10 || radix == 16
    requires forall i :: 0 <= i < |ds| ==> IsDigitIn(ds[i], radix)
  {
    if ds == [] then 0
    else radix * DigitsValue(ds[..|ds| - 1], radix) + DigitValue(ds[|ds| - 1], radix)
  }

  /** The value of the run of base-`radix` digits `u` starts with; `None` when there is none. */
  function ReadDigits(u: string, radix: nat): (r: Option<nat>)
    requires radix == 10 || radix == 16
    ensures r.None? <==> LeadingDigits(u, radix) == 0
    ensures r.Some? ==> r.value == DigitsValue(u[..LeadingDigits(u, radix)], radix)
  {
    var k := LeadingDigits(u, radix);
    if k == 0 then None else Some(DigitsValue(u[..k], radix))
  }

  /** `u` starts with `0x` or `0X`, which `parseInt` without a radix takes as base 16. */
  predicate HasHexPrefix(u: string) {
    |u| >= 2 && u[0] == '0' && (u[1] == 'x' || u[1] == 'X')
  }

  /** The unsigned number `u` starts with: hexadecimal after a `0x` prefix, decimal otherwise. */
  function ReadNumber(u: string): Option<nat> {
    if HasHexPrefix(u) then ReadDigits(u[2..], 16) else ReadDigits(u, 10)
  }

  /** `-v` for a read value `v`. */
  function Negated(r: Option<nat>): (n: Option<int>)
    ensures n.None? <==> r.None?
    ensures r.Some? ==> n == Some(-(r.value as int))
  {
    match r
    case Some(v) => Some(-(v as int))
    case None => None
  }

  /**
   * `parseInt(s)` with no radix: skip leading whitespace, read an optional sign,
   * then the number after it; `None` stands for `NaN` (no digit there).
   */
  function ParseInt(s: string): (r: Option<int>)
    ensures IsBlank(s) ==> r.None?
    ensures (forall i :: 0 <= i < |s| ==> !IsDigit(s[i])) ==> r.None?
  {
    var a := LeadingWhitespace(s);
    var t := s[a..];
    var signed := t != [] && (t[0] == '-' || t[0] == '+');
    var u := if signed then t[1..] else t;
    assert u != [] ==> u[0] == s[if signed then a + 1 else a];
    if t != [] && t[0] == '-' then Negated(ReadNumber(u)) else ReadNumber(u)
  }

  /** The decimal digits of `n`, without leading zeros. */
  function NatToString(n: nat): (s: string)
    ensures s != [] && forall i :: 0 <= i < |s| ==> IsDigit(s[i])
  {
    if n < 10 then [DigitChar(n)] else NatToString(n / 10) + [DigitChar(n % 10)]
  }

  /** `n.toString()` for an integer `n`. */
  function IntToString(n: int): (s: string)
    ensures s != [] && (s[0] == '-' <==> n < 0)
    ensures forall i :: (if n < 0 then 1 else 0) <= i < |s| ==> IsDigit(s[i])
  {
    if n < 0 then "-" + NatToString(-n) else NatToString(n)
  }

  lemma {:induction false} DigitsOfNat(n: nat)
    ensures DigitsValue(NatToString(n), 10) == n
  {
    var s := NatToString(n);
    if n >= 10 {
      DigitsOfNat(n / 10);
      assert s[..|s| - 1] == NatToString(n / 10);
    }
  }

  /** Reading back what `toString` wrote gives the number: `parseInt(n.toString()) == n`. */
  lemma ParseIntOfIntToString(n: int)
    ensures ParseInt(IntToString(n)) == Some(n)
  {
    var m: nat := if n < 0 then -n else n;
    var ds := NatToString(m);
    DigitsOfNat(m);
    ReadAllDigitsIn(ds, 10);
    assert !HasHexPrefix(ds) by {
      if |ds| >= 2 {
        assert IsDigit(ds[1]);
      }
    }
    if n < 0 {
      var t := "-" + ds;
      assert t[0] == '-' && t[1..] == ds;
      ParseOfMinus(t);
    } else {
      ParseOfDigits(ds);
    }
  }

  /** Without whitespace, sign or `0x` in front, `parseInt` reads the decimal digits `t` starts with. */
  lemma ParseOfDigits(t: string)
    requires t != [] && IsDigit(t[0]) && !HasHexPrefix(t)
    ensures ParseInt(t) == ReadDigits(t, 10)
  {
    assert LeadingWhitespace(t) == 0;
    assert t[0..] == t;
  }

  /** After a `0x` or `0X` prefix, `parseInt` reads the hexadecimal digits that follow. */
  lemma ParseOfHex(t: string)
    requires HasHexPrefix(t)
    ensures ParseInt(t) == ReadDigits(t[2..], 16)
  {
    assert LeadingWhitespace(t) == 0;
    assert t[0..] == t;
  }

  /** After a leading minus sign, `parseInt` reads the number that follows and negates it. */
  lemma ParseOfMinus(t: string)
    requires t != [] && t[0] == '-'
    ensures ParseInt(t) == Negated(ReadNumber(t[1..]))
  {
    assert LeadingWhitespace(t) == 0;
    assert t[0..] == t;
  }

  /** A string of base-`radix` digits is read whole. */
  lemma ReadAllDigitsIn(ds: string, radix: nat)
    requires radix == 10 || radix == 16
    requires ds != [] && forall i :: 0 <= i < |ds| ==> IsDigitIn(ds[i], radix)
    ensures ReadDigits(ds, radix) == Some(DigitsValue(ds, radix))
  {
    assert LeadingDigits(ds, radix) == |ds| by {
      LeadingDigitsAll(ds, radix);
    }
    assert ds[..|ds|] == ds;
  }

  lemma {:induction false} LeadingDigitsAll(ds: string, radix: nat)
    requires forall i :: 0 <= i < |ds| ==> IsDigitIn(ds[i], radix)
    ensures LeadingDigits(ds, radix) == |ds|
  {
    if ds != [] {
      LeadingDigitsAll(ds[1..], radix);
    }
  }

  /** `parseInt("0x1F")` is 31: the radix-less call reads hexadecimal after the prefix. */
  lemma HexExample()
    ensures ParseInt("0x1F") == Some(31)
  {
    var t := "0x1F";
    ParseOfHex(t);
    assert t[2..] == "1F";
    TwoHexDigits('1', 'F');
  }

  /** `parseInt("-0x10")` is -16: the sign comes before the prefix. */
  lemma NegativeHexExample()
    ensures ParseInt("-0x10") == Some(-16)
  {
    var t := "-0x10";
    ParseOfMinus(t);
    var u := t[1..];
    assert u == "0x10" && HasHexPrefix(u);
    assert u[2..] == "10";
    TwoHexDigits('1', '0');
  }

  /** Two hexadecimal digits are read as `16 * hi + lo`. */
  lemma TwoHexDigits(hi: char, lo: char)
    requires IsDigitIn(hi, 16) && IsDigitIn(lo, 16)
    ensures ReadDigits([hi, lo], 16) == Some(16 * DigitValue(hi, 16) + DigitValue(lo, 16))
  {
    var h := [hi, lo];
    ReadAllDigitsIn(h, 16);
    assert h[..1] == [hi] && [hi][..0] == [];
    assert DigitsValue([hi], 16) == DigitValue(hi, 16);
    assert DigitsValue(h, 16) == 16 * DigitsValue([hi], 16) + DigitValue(lo, 16);
  }
}
