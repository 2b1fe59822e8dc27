/** Decimal rendering of integers, as JavaScript's number-to-string does for them. */
module Decimal {

  predicate IsDigits(s: string)
  {
    forall k :: 0 <= k < |s| ==> '0' <= s[k] <= '9'
  }

  function Digit(d: nat): (c: char)
    requires d < 10
    ensures '0' <= c <= '9'
    ensures c as int - '0' as int == d
  {
    ('0' as int + d) as char
  }

  /** The decimal digits of `n`, most significant first, without leading zeros. */
  function NatToString(n: nat): (s: string)
    ensures 1 <= |s|
    ensures IsDigits(s)
    ensures |s| == 1 <==> n < 10
    decreases n
  {
    if n < 10 then [Digit(n)] else NatToString(n / 10) + [Digit(n % 10)]
  }

  /** The value of a string of decimal digits (0 for the empty string). */
  function DigitsValue(s: string): nat
    requires IsDigits(s)
    decreases |s|
  {
    if s == [] then 0 else DigitsValue(s[..|s| - 1]) * 10 + (s[|s| - 1] as int - '0' as int)
  }

  /** Reading the digits back gives the number that was printed. */
  lemma {:induction false} NatToStringRoundTrip(n: nat)
    ensures DigitsValue(NatToString(n)) == n
    decreases n
  {
    var s := NatToString(n);
    if n < 10 {
      assert s[..|s| - 1] == [];
    } else {
      NatToStringRoundTrip(n / 10);
      assert s[..|s| - 1] == NatToString(n / 10);
    }
  }

  /** An integer in decimal, with a leading '-' when negative. */
  function IntToString(k: int): (s: string)
    ensures 1 <= |s|
    ensures s[0] == '-' <==> k < 0
    ensures k < 0 ==> s[1..] == NatToString(-k)
    ensures 0 <= k ==> s == NatToString(k)
    ensures IntText(s)
  {
    if k < 0 then "-" + NatToString(-k) else NatToString(k)
  }

  /** Digits, optionally after one leading '-': the texts ParseInt reads. */
  predicate IntText(s: string)
  {
    1 <= |s| && IsDigits(if s[0] == '-' then s[1..] else s)
  }

  /** The integer an IntText denotes; any other text reads as 0. */
  function ParseInt(s: string): int
  {
    if !IntText(s) then 0
    else if s[0] == '-' then -(DigitsValue(s[1..]) as int) else DigitsValue(s)
  }

  /** Printing an integer gives an IntText that reads back as that integer. */
  lemma IntToStringRoundTrip(k: int)
    ensures IntText(IntToString(k))
    ensures ParseInt(IntToString(k)) == k
  {
    if k < 0 {
      NatToStringRoundTrip(-k);
    } else {
      NatToStringRoundTrip(k);
    }
  }
}
