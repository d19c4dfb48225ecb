/** Unpadded decimal rendering of natural numbers, as Python's f-string
    interpolation `f"{n}"` produces it for a non-negative integer, together
    with the small parsing helpers that read such renderings back. */
module Decimal {
  import opened Optional

  predicate IsDigit(c: char) {
    '0' <= c <= '9'
  }

  predicate AllDigits(s: string) {
    forall i :: 0 <= i < |s| ==> IsDigit(s[i])
  }

  function DigitChar(d: nat): (c: char)
    requires d < 10
    ensures IsDigit(c)
  {
    ('0' as int + d) as char
  }

  function DigitValue(c: char): (d: nat)
    requires IsDigit(c)
    ensures d < 10
  {
    c as int - '0' as int
  }

  /** `f"{n}"`: the shortest decimal rendering of `n`, most significant
      digit first, with no sign and no leading zero (except for 0 itself). */
  function FromNat(n: nat): (s: string)
    ensures |s| >= 1
    ensures AllDigits(s)
    ensures s[0] == '0' <==> n == 0
    ensures n == 0 ==> s == "0"
    decreases n
  {
    if n < 10 then [DigitChar(n)] else FromNat(n / 10) + [DigitChar(n % 10)]
  }

  /** The number a string of decimal digits denotes. */
  function Value(s: string): nat
    requires AllDigits(s)
  {
    if s == [] then 0 else Value(s[..|s| - 1]) * 10 + DigitValue(s[|s| - 1])
  }

  lemma {:induction false} ValueOfFromNat(n: nat)
    ensures Value(FromNat(n)) == n
    decreases n
  {
    if n >= 10 {
      var s := FromNat(n);
      assert s[..|s| - 1] == FromNat(n / 10);
      ValueOfFromNat(n / 10);
      assert DigitValue(DigitChar(n % 10)) == n % 10;
    } else {
      assert DigitValue(DigitChar(n)) == n;
    }
  }

  /** The length of the longest all-digit prefix of `s`. */
  function DigitRun(s: string): (k: nat)
    ensures k <= |s|
    ensures AllDigits(s[..k])
    ensures k < |s| ==> !IsDigit(s[k])
  {
    if s == [] || !IsDigit(s[0]) then 0
    else
      var k := 1 + DigitRun(s[1..]);
      assert s[..k] == [s[0]] + s[1..][..k - 1];
      k
  }

  lemma {:induction false} DigitRunOfDigits(d: string, t: string)
    requires AllDigits(d)
    requires t == [] || !IsDigit(t[0])
    ensures DigitRun(d + t) == |d|
    decreases |d|
  {
    if d != [] {
      assert (d + t)[1..] == d[1..] + t;
      DigitRunOfDigits(d[1..], t);
    } else {
      assert d + t == t;
    }
  }

  /** Reads a non-empty run of decimal digits off the front of `s`,
      returning the number it denotes and what follows it. */
  function ReadNat(s: string): (r: Option<(nat, string)>)
    ensures r.Some? <==> |s| > 0 && IsDigit(s[0])
    ensures r.Some? ==> |r.value.1| < |s| && s[|s| - |r.value.1|..] == r.value.1
  {
    var k := DigitRun(s);
    if k == 0 then None else Some((Value(s[..k]), s[k..]))
  }

  /** Reading back a rendering stops at the first non-digit and recovers
      the number. */
  lemma ReadNatFromNat(n: nat, t: string)
    requires t == [] || !IsDigit(t[0])
    ensures ReadNat(FromNat(n) + t) == Some((n, t))
  {
    var d := FromNat(n);
    DigitRunOfDigits(d, t);
    assert (d + t)[..|d|] == d;
    assert (d + t)[|d|..] == t;
    ValueOfFromNat(n);
  }

  /** Strips the literal `lit` off the front of `s`, if it is there. */
  function Expect(lit: string, s: string): (r: Option<string>)
    ensures r.Some? <==> |lit| <= |s| && s[..|lit|] == lit
    ensures r.Some? ==> s == lit + r.value
  {
    if lit <= s then
      assert s == lit + s[|lit|..];
      Some(s[|lit|..])
    else None
  }

  lemma ExpectLiteral(lit: string, t: string)
    ensures Expect(lit, lit + t) == Some(t)
  {
    assert (lit + t)[..|lit|] == lit;
    assert (lit + t)[|lit|..] == t;
  }

  /** Reads the literal `lit` and then a number off the front of `s`,
      returning the number and what follows it. */
  function ReadField(lit: string, s: string): (r: Option<(nat, string)>)
    ensures r.Some? ==> |r.value.1| < |s| - |lit|
  {
    var rest :- Expect(lit, s);
    ReadNat(rest)
  }

  /** A literal followed by a rendered number reads back as that number,
      provided what follows does not continue the digits. */
  lemma ReadFieldOf(lit: string, n: nat, t: string)
    requires t == [] || !IsDigit(t[0])
    ensures ReadField(lit, lit + (FromNat(n) + t)) == Some((n, t))
  {
    ExpectLiteral(lit, FromNat(n) + t);
    ReadNatFromNat(n, t);
  }
}
