/**
 * Decimal rendering of integers, as Go's fmt.Sprintf("%d", n) produces it.
 *
 * The session keys its table of outstanding requests by the decimal text of the
 * request id, and the dispatcher looks replies up by the decimal text of the
 * reply's id. That routing is only correct because the rendering is injective,
 * which is proved here through a parser that inverts it.
 */
module Fmt {

  /** The character of one decimal digit. */
  function DigitChar(d: nat): (c: char)
    requires d < 10
    ensures '0' <= c <= '9'
  {
    (48 + d) as char
  }

  /** The value of one decimal digit character. */
  function DigitValue(c: char): (d: nat)
    requires '0' <= c <= '9'
    ensures d < 10
  {
    (c as int) - 48
  }

  predicate IsDigits(s: string) {
    forall i :: 0 <= i < |s| ==> '0' <= s[i] <= '9'
  }

  /** The digits of a natural number, most significant first, no leading zero. */
  function NatText(n: nat): (s: string)
    ensures |s| >= 1 && IsDigits(s)
    decreases n
  {
    if n < 10 then [DigitChar(n)] else NatText(n / 10) + [DigitChar(n % 10)]
  }

  /** fmt.Sprintf("%d", n): a minus sign before the digits of a negative number. */
  function Itoa(n: int): (s: string)
    ensures |s| >= 1
    ensures (s[0] == '-') <==> n < 0
  {
    if n < 0 then "-" + NatText(-n) else NatText(n)
  }

  /** Reads a string of digits back as a natural number. */
  function ParseNat(s: string): nat
    requires IsDigits(s)
    decreases |s|
  {
    if |s| == 0 then 0 else ParseNat(s[..|s| - 1]) * 10 + DigitValue(s[|s| - 1])
  }

  /** Reads an optionally signed decimal text back as an integer. */
  function ParseInt(s: string): int
    requires |s| >= 1
    requires s[0] == '-' ==> IsDigits(s[1..])
    requires s[0] != '-' ==> IsDigits(s)
  {
    if s[0] == '-' then 0 - ParseNat(s[1..]) as int else ParseNat(s)
  }

  lemma {:induction false} ParseNatText(n: nat)
    ensures ParseNat(NatText(n)) == n
    decreases n
  {
    var s := NatText(n);
    if n >= 10 {
      ParseNatText(n / 10);
      assert s[..|s| - 1] == NatText(n / 10);
    }
  }

  /** Parsing inverts the rendering: the decimal text of an id determines the id. */
  lemma ParseItoa(n: int)
    ensures var s := Itoa(n);
      (s[0] == '-' ==> IsDigits(s[1..])) && (s[0] != '-' ==> IsDigits(s)) && ParseInt(s) == n
  {
    var s := Itoa(n);
    if n < 0 {
      assert s[1..] == NatText(-n);
      ParseNatText(-n);
    } else {
      ParseNatText(n);
    }
  }

  /** Two ids have the same decimal text exactly when they are equal. */
  lemma ItoaInjective(a: int, b: int)
    ensures Itoa(a) == Itoa(b) <==> a == b
  {
    ParseItoa(a);
    ParseItoa(b);
  }
}
