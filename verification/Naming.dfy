/** Names built from numbers: Go's strconv.Itoa, and the object names and
    placement keys the node controller derives from an OSD number. */
module Naming {

  function Digit(d: nat): char
    requires d < 10
  {
    "0123456789"[d]
  }

  function DigitValue(c: char): nat {
    if '0' <= c <= '9' then c as int - '0' as int else 0
  }

  function DecimalNat(n: nat): string {
    if n < 10 then [Digit(n)] else DecimalNat(n / 10) + [Digit(n % 10)]
  }

  /** strconv.Itoa */
  function Itoa(n: int): string {
    if n < 0 then "-" + DecimalNat(-n) else DecimalNat(n)
  }

  function ParseNat(s: string): nat {
    if s == "" then 0 else 10 * ParseNat(s[..|s| - 1]) + DigitValue(s[|s| - 1])
  }

  function Parse(s: string): int {
    var signed: bool := s != "" && s[0] == '-';
    var size: int := ParseNat(if signed then s[1..] else s);
    if signed then -size else size
  }

  /** A rendered natural is non-empty, starts with a digit and parses back. */
  lemma {:induction false} ParseNatDecimal(n: nat)
    ensures DecimalNat(n) != "" && DecimalNat(n)[0] != '-'
    ensures ParseNat(DecimalNat(n)) == n
  {
    var s := DecimalNat(n);
    if n < 10 {
      assert s[..|s| - 1] == "";
    } else {
      ParseNatDecimal(n / 10);
      assert s[..|s| - 1] == DecimalNat(n / 10);
    }
  }

  /** Print and parse are inverse, for every integer. */
  lemma ParseItoa(n: int)
    ensures Parse(Itoa(n)) == n
  {
    var digits := DecimalNat(if n < 0 then -n else n);
    ParseNatDecimal(if n < 0 then -n else n);
    if n < 0 {
      assert Itoa(n)[1..] == digits;
    }
  }

  function OsdName(n: int): string {
    "vitastor-osd-" + Itoa(n)
  }

  /** Distinct OSD numbers get distinct object names and distinct placement keys. */
  lemma NamesAreDistinct(m: int, n: int)
    ensures OsdName(m) == OsdName(n) <==> m == n
    ensures Itoa(m) == Itoa(n) <==> m == n
  {
    ParseItoa(m);
    ParseItoa(n);
    assert OsdName(m)[13..] == Itoa(m) && OsdName(n)[13..] == Itoa(n);
  }

  ghost predicate IsNumeral(s: string) {
    exists n :: s == Itoa(n)
  }

  // --------------------------------------------------------- canonical numerals

  predicate IsDigits(s: string) {
    forall i :: 0 <= i < |s| ==> '0' <= s[i] <= '9'
  }

  /** One digit or more, none of them a leading zero. */
  predicate IsCanonicalNat(s: string) {
    s != "" && IsDigits(s) && (s[0] != '0' || s == "0")
  }

  /** The same, or a minus sign before such a numeral that is not zero. */
  predicate IsCanonical(s: string) {
    IsCanonicalNat(s) || (|s| > 1 && s[0] == '-' && s[1] != '0' && IsCanonicalNat(s[1..]))
  }

  lemma {:induction false} DecimalIsCanonical(n: nat)
    ensures IsCanonicalNat(DecimalNat(n)) && (DecimalNat(n)[0] == '0' <==> n == 0)
  {
    if n >= 10 {
      DecimalIsCanonical(n / 10);
    }
  }

  /** Every rendered number is a canonical numeral, and only zero is rendered "0". */
  lemma ItoaIsCanonical(n: int)
    ensures IsCanonical(Itoa(n)) && (Itoa(n) == "0" <==> n == 0)
  {
    DecimalIsCanonical(if n < 0 then -n else n);
    if n < 0 {
      assert Itoa(n)[1..] == DecimalNat(-n);
    }
  }

  lemma {:induction false} ParsedIsPositive(s: string)
    requires IsCanonicalNat(s) && s[0] != '0'
    ensures ParseNat(s) > 0
  {
    if |s| > 1 {
      ParsedIsPositive(s[..|s| - 1]);
    } else {
      assert ParseNat(s[..0]) == 0;
    }
  }

  lemma DigitOfValue(c: char)
    requires '0' <= c <= '9'
    ensures DigitValue(c) < 10 && Digit(DigitValue(c)) == c
  {
  }

  lemma DecimalStep(p: nat, d: nat)
    requires p > 0 && d < 10
    ensures DecimalNat(10 * p + d) == DecimalNat(p) + [Digit(d)]
  {
    assert (10 * p + d) / 10 == p && (10 * p + d) % 10 == d;
  }

  lemma {:induction false} DecimalOfParsed(s: string)
    requires IsCanonicalNat(s)
    ensures DecimalNat(ParseNat(s)) == s
  {
    var init, c := s[..|s| - 1], s[|s| - 1];
    DigitOfValue(c);
    assert s == init + [c];
    if init == "" {
      assert ParseNat(init) == 0;
    } else {
      ParsedIsPositive(init);
      DecimalOfParsed(init);
      DecimalStep(ParseNat(init), DigitValue(c));
    }
  }

  /** The other round trip: a canonical numeral is the rendering of what it says. */
  lemma ItoaOfParsed(s: string)
    requires IsCanonical(s)
    ensures Itoa(Parse(s)) == s
  {
    if s[0] == '-' {
      ParsedIsPositive(s[1..]);
      DecimalOfParsed(s[1..]);
      assert s == "-" + s[1..];
    } else {
      DecimalOfParsed(s);
    }
  }

  /** The rendered numbers are exactly the canonical numerals. */
  lemma NumeralIffCanonical(s: string)
    ensures IsNumeral(s) <==> IsCanonical(s)
  {
    if n :| s == Itoa(n) {
      ItoaIsCanonical(n);
    }
    if IsCanonical(s) {
      ItoaOfParsed(s);
    }
  }

  /** The names spelled out. */
  lemma NamesExample()
    ensures Itoa(0) == "0" && Itoa(7) == "7" && Itoa(10) == "10" && Itoa(-3) == "-3"
    ensures OsdName(7) == "vitastor-osd-7"
  {
  }
}
