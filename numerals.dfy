/**
 * Integers as JavaScript writes and reads them in the dashboard's labels:
 * the template literal `${n}` for an integral number, the standard `parseInt`
 * with no radix, and `String.prototype.includes`.
 */
module Numerals {
  import opened Wrappers

  /** True for the decimal digits '0'..'9'. */
  predicate IsDecimalDigit(c: char) {
    '0' <= c <= '9'
  }

  /** The value of c as a digit in any radix up to 36; 36 for a character that is no digit. */
  function DigitValue(c: char): (v: nat)
    ensures v <= 36
    ensures v < 10 <==> IsDecimalDigit(c)
  {
    if '0' <= c <= '9' then c as int - '0' as int
    else if 'a' <= c <= 'z' then c as int - 'a' as int + 10
    else if 'A' <= c <= 'Z' then c as int - 'A' as int + 10
    else 36
  }

  /** The character of the decimal digit d. */
  function DigitChar(d: nat): (c: char)
    requires d < 10
    ensures IsDecimalDigit(c) && DigitValue(c) == d
  {
    ('0' as int + d) as char
  }

  /** The leading white space `parseInt` skips: WhiteSpace and LineTerminator of ECMAScript. */
  predicate IsJsSpace(c: char) {
    var k := c as int;
    k == 0x09 || k == 0x0A || k == 0x0B || k == 0x0C || k == 0x0D || k == 0x20 ||
    k == 0xA0 || k == 0x1680 || (0x2000 <= k <= 0x200A) || k == 0x2028 || k == 0x2029 ||
    k == 0x202F || k == 0x205F || k == 0x3000 || k == 0xFEFF
  }

  /** Decimal digits of n, most significant first, without leading zeros. */
  function NatToString(n: nat): (s: string)
    ensures |s| >= 1
    ensures forall i :: 0 <= i < |s| ==> IsDecimalDigit(s[i])
    ensures s[0] == '0' ==> n == 0
    decreases n
  {
    if n < 10 then [DigitChar(n)] else NatToString(n / 10) + [DigitChar(n % 10)]
  }

  /** `${n}` for an integral number n: an optional minus sign and the decimal digits. */
  function IntToString(n: int): (s: string)
    ensures |s| >= 1
    ensures s[0] == '-' <==> n < 0
    ensures n < 0 ==> s[1..] == NatToString(-n)
    ensures n >= 0 ==> s == NatToString(n)
  {
    if n < 0 then "-" + NatToString(-n) else NatToString(n)
  }

  /** The number written by the digits ds (most significant first) in the given radix. */
  function DigitsValue(ds: string, radix: nat): nat
  {
    if ds == [] then 0 else DigitsValue(ds[..|ds| - 1], radix) * radix + DigitValue(ds[|ds| - 1])
  }

  /** The longest prefix of s made of digits of the radix. */
  function LeadingDigits(s: string, radix: nat): (d: string)
    ensures |d| <= |s| && d == s[..|d|]
    ensures forall i :: 0 <= i < |d| ==> DigitValue(d[i]) < radix
    ensures |d| < |s| ==> DigitValue(s[|d|]) >= radix
  {
    if s != [] && DigitValue(s[0]) < radix then [s[0]] + LeadingDigits(s[1..], radix) else []
  }

  /** s without its leading white space. */
  function TrimStart(s: string): (t: string)
    ensures |t| <= |s| && t == s[|s| - |t|..]
    ensures t == [] || !IsJsSpace(t[0])
    ensures forall i :: 0 <= i < |s| - |t| ==> IsJsSpace(s[i])
  {
    if s != [] && IsJsSpace(s[0]) then TrimStart(s[1..]) else s
  }

  /**
   * The part of `parseInt` after the sign: "0x" or "0X" switches to radix 16, then the
   * longest run of digits of the radix is read. None is NaN (no digit at all).
   */
  function ParseMagnitude(u: string): (r: Option<nat>)
    ensures u == [] || !IsDecimalDigit(u[0]) ==> r == None
    ensures u != [] && IsDecimalDigit(u[0]) && !(|u| >= 2 && u[0] == '0' && (u[1] == 'x' || u[1] == 'X')) ==> r.Some?
    ensures |u| >= 2 && u[0] == '0' && (u[1] == 'x' || u[1] == 'X') && (|u| == 2 || DigitValue(u[2]) >= 16) ==> r == None
  {
    var hex := |u| >= 2 && u[0] == '0' && (u[1] == 'x' || u[1] == 'X');
    var radix := if hex then 16 else 10;
    var digits := LeadingDigits(if hex then u[2..] else u, radix);
    if digits == [] then None else Some(DigitsValue(digits, radix))
  }

  /**
   * `parseInt(s)` with no radix: skip leading white space, take an optional sign,
   * then read the magnitude. None is NaN.
   */
  function ParseInt(s: string): (r: Option<int>)
    ensures s == [] ==> r == None
    ensures s != [] && !IsJsSpace(s[0]) && !IsDecimalDigit(s[0]) && s[0] != '-' && s[0] != '+' ==> r == None
    ensures r.Some? && r.value < 0 ==> '-' in s
  {
    var t := TrimStart(s);
    var negative := t != [] && t[0] == '-';
    var u := if t != [] && (t[0] == '-' || t[0] == '+') then t[1..] else t;
    match ParseMagnitude(u)
    case None => None
    case Some(v) => Some(if negative then -(v as int) else v as int)
  }

  /** `s.includes(sub)`: sub occurs in s at some position. */
  predicate Contains(s: string, sub: string): (b: bool)
    ensures b <==> exists i :: 0 <= i <= |s| - |sub| && s[i..][..|sub|] == sub
    decreases |s|
  {
    if |sub| > |s| then false
    else if s[..|sub|] == sub then
      assert s[0..][..|sub|] == sub;
      true
    else
      ContainsShift(s, sub);
      Contains(s[1..], sub)
  }

  /** When sub does not start s, it occurs in s exactly when it occurs in s without its first character. */
  lemma ContainsShift(s: string, sub: string)
    requires |sub| <= |s| && s[..|sub|] != sub
    ensures (exists i :: 0 <= i <= |s| - |sub| && s[i..][..|sub|] == sub) <==>
            (exists i :: 0 <= i <= |s| - 1 - |sub| && s[1..][i..][..|sub|] == sub)
  {
    if exists i :: 0 <= i <= |s| - |sub| && s[i..][..|sub|] == sub {
      var i :| 0 <= i <= |s| - |sub| && s[i..][..|sub|] == sub;
      assert i != 0;
      assert s[1..][i - 1..] == s[i..];
    }
    if exists i :: 0 <= i <= |s| - 1 - |sub| && s[1..][i..][..|sub|] == sub {
      var i :| 0 <= i <= |s| - 1 - |sub| && s[1..][i..][..|sub|] == sub;
      assert s[1..][i..] == s[i + 1..];
    }
  }

  lemma {:induction false} NatToStringValue(n: nat)
    ensures DigitsValue(NatToString(n), 10) == n
    decreases n
  {
    var s := NatToString(n);
    if n < 10 {
      assert s[..0] == [];
    } else {
      assert s[..|s| - 1] == NatToString(n / 10);
      NatToStringValue(n / 10);
    }
  }

  /** A run of digits followed by a non-digit is exactly what LeadingDigits reads. */
  lemma {:induction false} LeadingDigitsOfRun(d: string, t: string, radix: nat)
    requires forall i :: 0 <= i < |d| ==> DigitValue(d[i]) < radix
    requires t == [] || DigitValue(t[0]) >= radix
    ensures LeadingDigits(d + t, radix) == d
  {
    if d == [] {
      assert d + t == t;
    } else {
      assert (d + t)[1..] == d[1..] + t;
      LeadingDigitsOfRun(d[1..], t, radix);
    }
  }

  /** The digits of m followed by non-digit text read back as m; after a lone 0 the text must not start with 'x'. */
  lemma ParseMagnitudeOfDigits(m: nat, t: string)
    requires t == [] || (!IsDecimalDigit(t[0]) && (m == 0 ==> t[0] != 'x' && t[0] != 'X'))
    ensures ParseMagnitude(NatToString(m) + t) == Some(m)
  {
    var digits := NatToString(m);
    var u := digits + t;
    if |u| >= 2 && u[0] == '0' {
      assert m == 0 && |digits| == 1;
      assert u[1] == t[0];
    }
    assert t != [] ==> DigitValue(t[0]) >= 10;
    LeadingDigitsOfRun(digits, t, 10);
    NatToStringValue(m);
  }

  /** Text starting with '-' is read as the negated magnitude of the rest. */
  lemma ParseIntOfMinus(s: string, v: nat)
    requires s != [] && s[0] == '-' && ParseMagnitude(s[1..]) == Some(v)
    ensures ParseInt(s) == Some(-(v as int))
  {
    assert TrimStart(s) == s;
  }

  /** Text starting with a digit is read as its magnitude. */
  lemma ParseIntOfDigit(s: string, v: nat)
    requires s != [] && IsDecimalDigit(s[0]) && ParseMagnitude(s) == Some(v)
    ensures ParseInt(s) == Some(v)
  {
    assert TrimStart(s) == s;
  }

  /** `${n}` for a negative n, followed by non-digit text, parses back to n. */
  lemma ParseIntOfNegative(n: int, t: string)
    requires n < 0
    requires t == [] || !IsDecimalDigit(t[0])
    ensures ParseInt(IntToString(n) + t) == Some(n)
  {
    var s := IntToString(n) + t;
    AfterFirst(IntToString(n), t);
    ParseMagnitudeOfDigits(-n, t);
    ParseIntOfMinus(s, -n);
  }

  /** The text after the first character of a + b, for a non-empty a. */
  lemma AfterFirst(a: string, b: string)
    requires a != []
    ensures (a + b)[0] == a[0] && (a + b)[1..] == a[1..] + b
  {
  }

  /** The digits of m followed by non-digit text parse to m. */
  lemma ParseIntOfNonNegative(m: nat, t: string)
    requires t == [] || (!IsDecimalDigit(t[0]) && (m == 0 ==> t[0] != 'x' && t[0] != 'X'))
    ensures ParseInt(NatToString(m) + t) == Some(m)
  {
    var s := NatToString(m) + t;
    assert s[0] == NatToString(m)[0];
    ParseMagnitudeOfDigits(m, t);
    ParseIntOfDigit(s, m);
  }

  /**
   * `parseInt` reads back the integer that `${n}` wrote, whatever non-digit text follows it;
   * only "0" followed by 'x' would be read as a hexadecimal prefix instead.
   */
  lemma ParseIntOfIntToString(n: int, t: string)
    requires t == [] || (!IsDecimalDigit(t[0]) && (n == 0 ==> t[0] != 'x' && t[0] != 'X'))
    ensures ParseInt(IntToString(n) + t) == Some(n)
  {
    if n < 0 {
      ParseIntOfNegative(n, t);
    } else {
      assert IntToString(n) == NatToString(n);
      ParseIntOfNonNegative(n, t);
    }
  }

  /** Text that contains sub still contains it with anything put in front. */
  lemma {:induction false} ContainsAfterPrefix(p: string, q: string, sub: string)
    requires Contains(q, sub)
    ensures Contains(p + q, sub)
    decreases |p|
  {
    if p == [] {
      assert p + q == q;
    } else {
      assert (p + q)[1..] == p[1..] + q;
      ContainsAfterPrefix(p[1..], q, sub);
    }
  }
}
