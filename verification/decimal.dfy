/**
 * Decimal rendering of non-negative counts, as produced by Java's string
 * concatenation of an `int` (`counter + "\n"`, `"#variables: " + n`), and the
 * matching reader used to show that a rendered count can be read back.
 */
module Decimal {
  import opened Wrappers

  predicate IsDigit(c: char) { '0' <= c <= '9' }

  predicate AllDigits(s: string) {
    forall i :: 0 <= i < |s| ==> IsDigit(s[i])
  }

  /** The strings Java produces for a non-negative int: digits, no leading zero. */
  predicate Canonical(s: string) {
    |s| >= 1 && AllDigits(s) && (|s| > 1 ==> s[0] != '0')
  }

  function DigitValue(c: char): (d: nat)
    requires IsDigit(c)
    ensures d < 10
  {
    c as int - '0' as int
  }

  function DigitChar(d: nat): (c: char)
    requires d < 10
    ensures IsDigit(c) && DigitValue(c) == d
  {
    ('0' as int + d) as char
  }

  /** Decimal text of `n`, most significant digit first. */
  function NatToString(n: nat): (s: string)
    ensures Canonical(s)
    decreases n
  {
    if n < 10 then [DigitChar(n)] else NatToString(n / 10) + [DigitChar(n % 10)]
  }

  /** The number a digit string denotes. */
  function ValueOf(s: string): nat
    requires AllDigits(s)
    decreases |s|
  {
    if |s| == 0 then 0 else 10 * ValueOf(s[..|s| - 1]) + DigitValue(s[|s| - 1])
  }

  /** Reads back a count written by `NatToString`; anything else is rejected. */
  function ParseNat(s: string): Option<nat> {
    if Canonical(s) then Some(ValueOf(s)) else None
  }

  lemma {:induction false} ValueOfNatToString(n: nat)
    ensures ValueOf(NatToString(n)) == n
    decreases n
  {
    var s := NatToString(n);
    if n >= 10 {
      ValueOfNatToString(n / 10);
      assert s[..|s| - 1] == NatToString(n / 10);
    }
  }

  /** Every count is rendered so that it reads back as itself. */
  lemma ParseNatToString(n: nat)
    ensures ParseNat(NatToString(n)) == Some(n)
  {
    ValueOfNatToString(n);
  }

  /** A digit string that starts with a non-zero digit denotes a positive number. */
  lemma {:induction false} ValueOfPositive(s: string)
    requires |s| >= 1 && AllDigits(s) && s[0] != '0'
    ensures ValueOf(s) >= 1
    decreases |s|
  {
    if |s| > 1 {
      ValueOfPositive(s[..|s| - 1]);
    }
  }

  /** Conversely, a canonical digit string is the rendering of the number it denotes. */
  lemma {:induction false} NatToStringValueOf(s: string)
    requires Canonical(s)
    ensures NatToString(ValueOf(s)) == s
    decreases |s|
  {
    if |s| > 1 {
      var p := s[..|s| - 1];
      assert Canonical(p);
      ValueOfPositive(p);
      NatToStringValueOf(p);
      var n := ValueOf(s);
      assert n / 10 == ValueOf(p) && n % 10 == DigitValue(s[|s| - 1]);
      assert DigitChar(n % 10) == s[|s| - 1];
      assert s == p + [s[|s| - 1]];
    } else {
      assert DigitChar(DigitValue(s[0])) == s[0];
    }
  }

  /** The reader accepts exactly the renderings: `ParseNat` and `NatToString` are inverse. */
  lemma ParseNatIff(s: string, n: nat)
    ensures ParseNat(s) == Some(n) <==> NatToString(n) == s
  {
    if ParseNat(s) == Some(n) {
      NatToStringValueOf(s);
    }
    if NatToString(n) == s {
      ParseNatToString(n);
    }
  }

  /** A rendered count never contains a line break. */
  lemma NatToStringNoNewline(n: nat)
    ensures '\n' !in NatToString(n)
  {
  }
}
