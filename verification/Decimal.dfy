/** Decimal numerals: printing, zero padding and the parsing of unsigned numbers. */
module Decimal {
  import opened Wrappers

  const U32_MAX: nat := 0xFFFF_FFFF
  const U64_MAX: nat := 0xFFFF_FFFF_FFFF_FFFF

  function DigitChar(d: nat): (c: char)
    requires d < 10
  {
    (d + '0' as int) as char
  }

  predicate IsDigit(c: char) {
    '0' <= c <= '9'
  }

  predicate AllDigits(s: string) {
    forall c :: c in s ==> IsDigit(c)
  }

  function DigitValue(c: char): (d: nat)
    requires IsDigit(c)
    ensures d < 10
  {
    c as int - '0' as int
  }

  function Print(n: nat): (s: string)
    ensures s != []
  {
    if n < 10 then [DigitChar(n)] else Print(n / 10) + [DigitChar(n % 10)]
  }

  /** `n` padded with zeros on the left to at least `width` characters. */
  function Pad(n: nat, width: nat): string {
    var s := Print(n);
    if |s| >= width then s else seq(width - |s|, i => '0') + s
  }

  function Value(s: string): nat
    requires AllDigits(s)
  {
    if s == [] then 0 else 10 * Value(s[..|s| - 1]) + DigitValue(s[|s| - 1])
  }

  /** Parses an unsigned number of at most `max`: an optional plus sign, then at
      least one digit. */
  function ParseUnsigned(s: string, max: nat): Option<nat> {
    var digits := if s != [] && s[0] == '+' then s[1..] else s;
    if digits != [] && AllDigits(digits) && Value(digits) <= max then Some(Value(digits)) else None
  }

  lemma {:induction false} PrintIsNumeral(n: nat)
    ensures AllDigits(Print(n)) && Value(Print(n)) == n
  {
    if n >= 10 {
      PrintIsNumeral(n / 10);
      var s := Print(n);
      assert s[..|s| - 1] == Print(n / 10);
    } else {
      assert Print(n)[..0] == [];
    }
  }

  lemma {:induction false} LeadingZeros(k: nat, s: string)
    requires AllDigits(s)
    ensures AllDigits(seq(k, i => '0') + s)
    ensures Value(seq(k, i => '0') + s) == Value(s)
    decreases |s|, k
  {
    var t := seq(k, i => '0') + s;
    if s == [] {
      if k > 0 {
        LeadingZeros(k - 1, s);
        assert t[..|t| - 1] == seq(k - 1, i => '0') + s;
        assert t[|t| - 1] == '0';
      } else {
        assert t == [];
      }
    } else {
      LeadingZeros(k, s[..|s| - 1]);
      assert t[..|t| - 1] == seq(k, i => '0') + s[..|s| - 1];
    }
  }

  lemma PadIsNumeral(n: nat, width: nat)
    ensures Pad(n, width) != [] && AllDigits(Pad(n, width)) && Value(Pad(n, width)) == n
  {
    PrintIsNumeral(n);
    if |Print(n)| < width {
      LeadingZeros(width - |Print(n)|, Print(n));
    }
  }

  /** A padded number parses back to itself, exactly when it is in range. */
  lemma ParsePad(n: nat, width: nat, max: nat)
    ensures ParseUnsigned(Pad(n, width), max) == if n <= max then Some(n) else None
  {
    PadIsNumeral(n, width);
    assert Pad(n, width)[0] in Pad(n, width);
  }
}
