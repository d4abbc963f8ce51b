/** Documents as the store and the routes see them: string-keyed mappings of
    scalar values, and Python's `str()` on those values. */
module Documents {

  /** The values a stored document holds in this service: strings, integers,
      `None`, and the store-assigned object identifier (kept abstract as a
      number handed out by the store). */
  datatype Value = Str(s: string) | Int(i: int) | Null | ObjId(n: nat)

  /** A document: a key -> value mapping. Key order is not modelled. */
  type Doc = map<string, Value>

  /** The digit character for `d` in any base up to 16: `0`-`9`, then
      lower-case `a`-`f`. */
  function DigitChar(d: nat): (c: char)
    requires d < 16
  {
    if d < 10 then ('0' as int + d) as char else ('a' as int + (d - 10)) as char
  }

  /** A digit of `base`: `0`-`9`, and in base 16 also lower-case `a`-`f`. */
  predicate IsDigit(c: char, base: nat)
  {
    '0' <= c <= '9' || (base == 16 && 'a' <= c <= 'f')
  }

  /** Every character of `s` is a digit of `base`. */
  predicate AllDigits(s: string, base: nat)
  {
    forall k :: 0 <= k < |s| ==> IsDigit(s[k], base)
  }

  /** A rendering with more than one digit does not start with '0'. */
  predicate NoLeadingZero(s: string)
  {
    |s| > 1 ==> s[0] != '0'
  }

  lemma {:induction false} DigitCharIsDigit(d: nat, base: nat)
    requires base == 10 || base == 16
    requires d < base
    ensures IsDigit(DigitChar(d), base)
  {
  }

  /** The value of a digit character; 0 for anything else. */
  function DigitValue(c: char): nat
  {
    if '0' <= c <= '9' then c as int - '0' as int
    else if 'a' <= c <= 'f' then c as int - 'a' as int + 10
    else 0
  }

  lemma {:induction false} DigitValueOfChar(d: nat)
    requires d < 16
    ensures DigitValue(DigitChar(d)) == d
  {
  }

  /** The number a string of digits denotes in `base`, most significant
      digit first. */
  function ValueOf(s: string, base: nat): nat
    decreases |s|
  {
    if s == [] then 0 else ValueOf(s[..|s| - 1], base) * base + DigitValue(s[|s| - 1])
  }

  /** Positional rendering of `n` in `base`, most significant digit first, no
      leading zeros. Python renders integers in decimal and object ids in
      hexadecimal; those are the two bases used. */
  function NatToString(n: nat, base: nat): (s: string)
    requires base == 10 || base == 16
    ensures |s| >= 1
    ensures |s| == 1 <==> n < base
    ensures s[0] != '-'
    ensures AllDigits(s, base)
    ensures NoLeadingZero(s)
    ensures ValueOf(s, base) == n
    decreases n
  {
    if n < base then
      DigitValueOfChar(n);
      DigitCharIsDigit(n, base);
      assert [DigitChar(n)][..0] == [];
      [DigitChar(n)]
    else
      DivisionShrinks(n, base);
      var prefix := NatToString(n / base, base);
      // a one-digit prefix is the digit for n / base, which is at least 1
      assert |prefix| == 1 ==> prefix[0] != '0' by {
        if |prefix| == 1 {
          DigitValueOfChar(n / base);
          assert prefix == [DigitChar(n / base)];
        }
      }
      DigitValueOfChar(n % base);
      DigitCharIsDigit(n % base, base);
      assert (prefix + [DigitChar(n % base)])[..|prefix|] == prefix;
      prefix + [DigitChar(n % base)]
  }

  /** Dividing a number of two or more digits by the base leaves a smaller
      quotient and a remainder that is a digit, which together give the
      number back. */
  lemma {:induction false} DivisionShrinks(n: nat, base: nat)
    requires base == 10 || base == 16
    requires base <= n
    ensures 1 <= n / base < n && n % base < base
    ensures n / base * base + n % base == n
  {
    if base == 10 {
      assert 1 <= n / 10 < n && n % 10 < 10;
      assert n / 10 * 10 + n % 10 == n;
    } else {
      assert 1 <= n / 16 < n && n % 16 < 16;
      assert n / 16 * 16 + n % 16 == n;
    }
  }

  /** `str()` of an object identifier: its lowercase hexadecimal rendering. */
  function IdToString(n: nat): (s: string)
    ensures |s| >= 1
    ensures AllDigits(s, 16)
    ensures NoLeadingZero(s)
    ensures ValueOf(s, 16) == n
  {
    NatToString(n, 16)
  }

  /** Distinct identifiers have distinct string forms: the hex digits give
      the identifier back. */
  lemma {:induction false} IdToStringInjective(a: nat, b: nat)
    ensures IdToString(a) == IdToString(b) <==> a == b
  {
    if IdToString(a) == IdToString(b) {
      assert ValueOf(IdToString(a), 16) == a && ValueOf(IdToString(b), 16) == b;
    }
  }

  /** `str()` of a Python integer: decimal, with a leading '-' when negative. */
  function IntToString(i: int): (s: string)
    ensures |s| >= 1
    ensures (s[0] == '-') <==> i < 0
    ensures i < 0 ==> AllDigits(s[1..], 10) && NoLeadingZero(s[1..]) && ValueOf(s[1..], 10) == -i
    ensures i >= 0 ==> AllDigits(s, 10) && NoLeadingZero(s) && ValueOf(s, 10) == i
  {
    if i < 0 then "-" + NatToString(-i, 10) else NatToString(i, 10)
  }

  /** Two integers print the same exactly when they are equal: the sign
      character tells the signs apart and the digits give the magnitude back. */
  lemma {:induction false} IntToStringInjective(a: int, b: int)
    ensures IntToString(a) == IntToString(b) <==> a == b
  {
    if IntToString(a) == IntToString(b) {
      var s := IntToString(a);
      if a < 0 {
        assert b < 0;
        assert s[1..] == NatToString(-a, 10);
        assert IntToString(b)[1..] == NatToString(-b, 10);
      } else {
        assert b >= 0;
      }
    }
  }

  /** Python's `str()` on a stored value. */
  function ToStr(v: Value): (s: string)
    ensures v.Str? ==> s == v.s
    ensures v.Null? ==> s == "None"
    ensures v.ObjId? ==> s == IdToString(v.n)
    ensures v.Int? ==> s == IntToString(v.i)
  {
    match v
    case Str(t) => t
    case Int(i) => IntToString(i)
    case Null => "None"
    case ObjId(n) => IdToString(n)
  }

  /** Two object identifiers print the same exactly when they are the same. */
  lemma {:induction false} ToStrObjIdInjective(u: Value, v: Value)
    requires u.ObjId? && v.ObjId?
    ensures ToStr(u) == ToStr(v) <==> u == v
  {
    IdToStringInjective(u.n, v.n);
  }
}
