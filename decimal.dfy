/**
  Decimal text as the C library writes and reads it: `%d` in snprintf,
  `strtol(buf, NULL, 10)` and the `%u` conversion of sscanf.
 */
module Decimal {

  import opened Wrappers

  predicate IsDigit(c: char) {
    '0' <= c <= '9'
  }

  /** The characters isspace() accepts in the "C" locale. */
  predicate IsSpace(c: char) {
    c == ' ' || c == '\t' || c == '\n' || c == '\r' || c == 11 as char || c == 12 as char
  }

  function DigitChar(d: nat): (c: char)
    requires d < 10
    ensures IsDigit(c) && DigitValue(c) == d
  {
    ('0' as int + d) as char
  }

  function DigitValue(c: char): (d: nat)
    requires IsDigit(c)
    ensures d < 10
  {
    c as int - '0' as int
  }

  predicate AllDigits(s: string) {
    forall i :: 0 <= i < |s| ==> IsDigit(s[i])
  }

  /** `%d` of a non-negative number: its shortest decimal spelling. */
  function NatToString(n: nat): (s: string)
    ensures 1 <= |s| && AllDigits(s)
    ensures |s| > 1 ==> s[0] != '0'
  {
    if n < 10 then [DigitChar(n)] else NatToString(n / 10) + [DigitChar(n % 10)]
  }

  /** `%d` of any int: a minus sign before the magnitude when negative. */
  function IntToString(n: int): (s: string)
    ensures 1 <= |s|
    ensures n >= 0 <==> IsDigit(s[0])
  {
    if n < 0 then "-" + NatToString(-n) else NatToString(n)
  }

  /** The number a string of digits spells, most significant digit first. */
  function DigitsValue(s: string): nat
    requires AllDigits(s)
  {
    if s == [] then 0 else DigitsValue(s[..|s| - 1]) * 10 + DigitValue(s[|s| - 1])
  }

  /** How many digits `s` starts with. */
  function LeadingDigits(s: string): (k: nat)
    ensures k <= |s| && AllDigits(s[..k])
    ensures k < |s| ==> !IsDigit(s[k])
  {
    if s != [] && IsDigit(s[0]) then
      var k := 1 + LeadingDigits(s[1..]);
      assert s[..k] == [s[0]] + s[1..][..k - 1];
      k
    else 0
  }

  /** How many white-space characters `s` starts with. */
  function LeadingSpaces(s: string): (k: nat)
    ensures k <= |s|
    ensures forall i :: 0 <= i < k ==> IsSpace(s[i])
    ensures k < |s| ==> !IsSpace(s[k])
  {
    if s != [] && IsSpace(s[0]) then 1 + LeadingSpaces(s[1..]) else 0
  }

  /** The value of the digits `s` starts with (0 when there are none). */
  function DigitPrefixValue(s: string): nat {
    DigitsValue(s[..LeadingDigits(s)])
  }

  /**
    `strtol(s, NULL, 10)` on a buffer that holds exactly `s`: leading white
    space, an optional sign, then digits; 0 when no digit follows.
   */
  function StrToL(s: string): (v: int)
    ensures (|s| > 0 && IsDigit(s[0])) ==> v >= 0
  {
    var t := s[LeadingSpaces(s)..];
    if t != [] && t[0] == '-' then -(DigitPrefixValue(t[1..]) as int)
    else if t != [] && t[0] == '+' then DigitPrefixValue(t[1..])
    else DigitPrefixValue(t)
  }

  /**
    The `%u` conversion of sscanf at position `i`: white space is skipped, then
    at least one digit is required. Returns the value and the position after it.
   */
  function ScanUnsigned(s: string, i: nat): (r: Option<(nat, nat)>)
    requires i <= |s|
    ensures r.Some? ==> i < r.value.1 <= |s|
  {
    var j := i + LeadingSpaces(s[i..]);
    var k := LeadingDigits(s[j..]);
    if k == 0 then None else Some((DigitPrefixValue(s[j..]), j + k))
  }

  // ---------------------------------------------------------------------
  // Round trips between printing and reading
  // ---------------------------------------------------------------------

  lemma {:induction false} DigitsValueOfNatToString(n: nat)
    ensures DigitsValue(NatToString(n)) == n
  {
    var s := NatToString(n);
    if n < 10 {
    } else {
      var front := NatToString(n / 10);
      assert s == front + [DigitChar(n % 10)];
      assert s[..|s| - 1] == front;
      DigitsValueOfNatToString(n / 10);
    }
  }

  lemma {:induction false} LeadingDigitsOfAppend(d: string, rest: string)
    requires AllDigits(d)
    requires rest == [] || !IsDigit(rest[0])
    ensures LeadingDigits(d + rest) == |d|
  {
    if d != [] {
      assert (d + rest)[1..] == d[1..] + rest;
      LeadingDigitsOfAppend(d[1..], rest);
    } else {
      assert d + rest == rest;
    }
  }

  /** Reading back what `%d` printed gives the number, whatever non-digit follows. */
  lemma DigitPrefixValueOfNatToString(n: nat, rest: string)
    requires rest == [] || !IsDigit(rest[0])
    ensures DigitPrefixValue(NatToString(n) + rest) == n
  {
    var s := NatToString(n);
    LeadingDigitsOfAppend(s, rest);
    assert (s + rest)[..|s|] == s;
    DigitsValueOfNatToString(n);
  }

  lemma StrToLOfNatToString(n: nat, rest: string)
    requires rest == [] || !IsDigit(rest[0])
    ensures StrToL(NatToString(n) + rest) == n
  {
    var s := NatToString(n) + rest;
    assert IsDigit(s[0]);
    assert LeadingSpaces(s) == 0;
    assert s[0..] == s;
    DigitPrefixValueOfNatToString(n, rest);
  }

  /** `%u` at position `k` reads back a number `%d` printed there, whatever non-digit follows. */
  lemma ScanUnsignedAt(s: string, k: nat, n: nat, rest: string)
    requires k <= |s| && s[k..] == NatToString(n) + rest
    requires rest == [] || !IsDigit(rest[0])
    ensures ScanUnsigned(s, k) == Some((n, k + |NatToString(n)|))
  {
    var t := s[k..];
    assert IsDigit(t[0]);
    assert LeadingSpaces(t) == 0;
    assert s[k + 0..] == t;
    LeadingDigitsOfAppend(NatToString(n), rest);
    DigitPrefixValueOfNatToString(n, rest);
  }

  /** Two numbers printed with `%d` are the same text only if they are the same number. */
  lemma NatToStringInjective(a: nat, b: nat)
    requires NatToString(a) == NatToString(b)
    ensures a == b
  {
    DigitsValueOfNatToString(a);
    DigitsValueOfNatToString(b);
  }

  /**
    When two printed numbers are each followed by text that does not start
    with a digit, equal concatenations mean equal numbers and equal tails.
   */
  lemma {:induction false} NatToStringPrefixUnique(a: nat, x: string, b: nat, y: string)
    requires x == [] || !IsDigit(x[0])
    requires y == [] || !IsDigit(y[0])
    requires NatToString(a) + x == NatToString(b) + y
    ensures a == b && x == y
  {
    var sa, sb := NatToString(a), NatToString(b);
    LeadingDigitsOfAppend(sa, x);
    LeadingDigitsOfAppend(sb, y);
    assert |sa| == |sb|;
    assert sa == (sa + x)[..|sa|] == (sb + y)[..|sb|] == sb;
    NatToStringInjective(a, b);
    assert x == (sa + x)[|sa|..] == (sb + y)[|sb|..] == y;
  }

  function Pow10(k: nat): (r: nat)
    ensures r >= 1
  {
    if k == 0 then 1 else 10 * Pow10(k - 1)
  }

  /** A number below 10^k is printed with at most k digits. */
  lemma {:induction false} NatToStringLength(n: nat, k: nat)
    requires 1 <= k && n < Pow10(k)
    ensures |NatToString(n)| <= k
  {
    if n >= 10 {
      assert k != 1;
      assert n / 10 < Pow10(k - 1);
      NatToStringLength(n / 10, k - 1);
    }
  }

  // ---------------------------------------------------------------------
  // Text printed by a format with two `%d` conversions
  // ---------------------------------------------------------------------

  /** The text `snprintf` writes for the format "pre%dmid%dpost" and two non-negative numbers. */
  function Printed2(pre: string, a: nat, mid: string, b: nat, post: string): string {
    pre + (NatToString(a) + (mid + (NatToString(b) + post)))
  }

  lemma DropAppend(x: string, y: string)
    ensures (x + y)[|x|..] == y
  {
  }

  lemma DropDrop(s: string, i: nat, j: nat)
    requires i + j <= |s|
    ensures s[i..][j..] == s[i + j..]
  {
  }

  /** `%u` where the first number was printed reads it back. */
  lemma ScanPrinted2First(pre: string, a: nat, mid: string, b: nat, post: string)
    requires mid != [] && !IsDigit(mid[0])
    ensures ScanUnsigned(Printed2(pre, a, mid, b, post), |pre|) == Some((a, |pre| + |NatToString(a)|))
  {
    var rest := mid + (NatToString(b) + post);
    DropAppend(pre, NatToString(a) + rest);
    ScanUnsignedAt(Printed2(pre, a, mid, b, post), |pre|, a, rest);
  }

  /** What follows the text before the second number. */
  lemma Printed2Tail(pre: string, a: nat, mid: string, b: nat, post: string)
    ensures |pre| + |NatToString(a)| + |mid| <= |Printed2(pre, a, mid, b, post)|
    ensures Printed2(pre, a, mid, b, post)[|pre| + |NatToString(a)| + |mid|..] == NatToString(b) + post
  {
    var s := Printed2(pre, a, mid, b, post);
    var t2 := mid + (NatToString(b) + post);
    var t1 := NatToString(a) + t2;
    DropAppend(pre, t1);
    DropAppend(NatToString(a), t2);
    DropAppend(mid, NatToString(b) + post);
    DropDrop(s, |pre|, |NatToString(a)|);
    DropDrop(s, |pre| + |NatToString(a)|, |mid|);
  }

  /** `%u` where the second number was printed reads it back. */
  lemma ScanPrinted2Second(pre: string, a: nat, mid: string, b: nat, post: string)
    requires post == [] || !IsDigit(post[0])
    ensures ScanUnsigned(Printed2(pre, a, mid, b, post), |pre| + |NatToString(a)| + |mid|)
         == Some((b, |pre| + |NatToString(a)| + |mid| + |NatToString(b)|))
  {
    Printed2Tail(pre, a, mid, b, post);
    ScanUnsignedAt(Printed2(pre, a, mid, b, post), |pre| + |NatToString(a)| + |mid|, b, post);
  }

  /** The same format with different numbers never prints the same text. */
  lemma Printed2Injective(pre: string, a: nat, mid: string, b: nat, post: string, a': nat, b': nat)
    requires mid != [] && !IsDigit(mid[0])
    requires post == [] || !IsDigit(post[0])
    requires Printed2(pre, a, mid, b, post) == Printed2(pre, a', mid, b', post)
    ensures a == a' && b == b'
  {
    var s, s' := Printed2(pre, a, mid, b, post), Printed2(pre, a', mid, b', post);
    assert s[|pre|..] == NatToString(a) + (mid + (NatToString(b) + post));
    assert s'[|pre|..] == NatToString(a') + (mid + (NatToString(b') + post));
    NatToStringPrefixUnique(a, mid + (NatToString(b) + post), a', mid + (NatToString(b') + post));
    var t, t' := mid + (NatToString(b) + post), mid + (NatToString(b') + post);
    assert t[|mid|..] == NatToString(b) + post;
    assert t'[|mid|..] == NatToString(b') + post;
    NatToStringPrefixUnique(b, post, b', post);
  }
}
