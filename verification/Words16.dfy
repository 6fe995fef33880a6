/** Sixteen-bit words: the frame checksum, divisor `x^16 + x^15 + x^2 + 1`. */
module Words16 {
  import opened Polynomials

  type Word = bv16

  const POLY: Word := 0x8005

  predicate Top(x: Word) {
    x & 0x8000 != 0
  }

  function Double(x: Word): Word {
    x << 1
  }

  function Plus(x: Word, y: Word): Word {
    x ^ y
  }

  /** One iteration of the table builder's inner loop. */
  function Shift(crc: Word): Word {
    if !Top(crc) then Double(crc) else Plus(Double(crc), POLY)
  }

  function Shifts(crc: Word, n: nat): Word {
    if n == 0 then crc else Shift(Shifts(crc, n - 1))
  }

  function Doubles(x: Word, n: nat): Word
    decreases n
  {
    if n == 0 then x else Doubles(Double(x), n - 1)
  }

  /** The leading `n` bits of a word, highest power first. */
  function Leading(x: Word, n: nat): (r: Poly)
    ensures |r| == n
  {
    seq(n, i requires 0 <= i < n => Top(Doubles(x, i)))
  }

  function Bits(x: Word): (r: Poly)
    ensures |r| == 16
  {
    Leading(x, 16)
  }

  /** One clock of the division register, on words. */
  function ClockWord(reg: Word, bit: bool): Word {
    if Top(reg) != bit then Plus(Double(reg), POLY) else Double(reg)
  }

  /** Clocks the top `n` bits of `x` through the register. */
  function Feed(reg: Word, x: Word, n: nat): Word
    decreases n
  {
    if n == 0 then reg else Feed(ClockWord(reg, Top(x)), Double(x), n - 1)
  }

  // ----- facts of the machine word alone

  lemma TopOfSum(x: Word, y: Word)
    ensures Top(Plus(x, y)) == (Top(x) != Top(y))
  {
  }

  lemma DoubleOfSum(x: Word, y: Word)
    ensures Double(Plus(x, y)) == Plus(Double(x), Double(y))
  {
  }

  lemma SumsRearrange(a: Word, b: Word, p: Word)
    ensures Plus(Plus(a, p), b) == Plus(Plus(a, b), p)
    ensures Plus(a, Plus(b, p)) == Plus(Plus(a, b), p)
    ensures Plus(Plus(a, p), Plus(b, p)) == Plus(a, b)
  {
  }

  lemma SumsCancel(a: Word, b: Word, p: Word)
    requires Plus(a, p) == Plus(b, p) || Plus(p, a) == Plus(p, b)
    ensures a == b
  {
    assert (a ^ p) ^ p == a && (b ^ p) ^ p == b;
  }

  lemma DoubleKeepsRest(x: Word, y: Word)
    requires Double(x) == Double(y) && Top(x) == Top(y)
    ensures x == y
  {
  }

  lemma DoubleIsEven(x: Word, y: Word)
    ensures Double(x) != Plus(Double(y), POLY)
  {
  }

  lemma {:induction false} DoublesAdd(x: Word, m: nat, n: nat)
    ensures Doubles(x, m + n) == Doubles(Doubles(x, m), n)
    decreases m
  {
    if m > 0 {
      DoublesAdd(Double(x), m - 1, n);
    }
  }

  lemma DoublesByEight(x: Word)
    ensures Doubles(x, 8) == x << 8
  {
  }

  lemma DoublesVanish(x: Word)
    ensures Doubles(x, 16) == 0
  {
    DoublesAdd(x, 8, 8);
    DoublesByEight(x);
    DoublesByEight(x << 8);
  }

  // ----- words and polynomials agree

  lemma {:induction false} DoublesOfSum(x: Word, y: Word, n: nat)
    ensures Doubles(Plus(x, y), n) == Plus(Doubles(x, n), Doubles(y, n))
    decreases n
  {
    if n > 0 {
      DoubleOfSum(x, y);
      DoublesOfSum(Double(x), Double(y), n - 1);
    }
  }

  lemma LeadingOfSum(x: Word, y: Word, n: nat)
    ensures Leading(Plus(x, y), n) == Add(Leading(x, n), Leading(y, n))
  {
    forall i: nat | i < n
      ensures Top(Doubles(Plus(x, y), i)) == (Top(Doubles(x, i)) != Top(Doubles(y, i)))
    {
      DoublesOfSum(x, y, i);
      TopOfSum(Doubles(x, i), Doubles(y, i));
    }
  }

  lemma LeadingCons(x: Word, n: nat)
    ensures Leading(x, n + 1) == [Top(x)] + Leading(Double(x), n)
  {
  }

  lemma LeadingOfDouble(x: Word, w: nat)
    requires w > 0 && Doubles(x, w) == 0
    ensures Leading(Double(x), w) == Leading(x, w)[1..] + [false]
  {
    assert forall i: nat :: i < w ==> Doubles(Double(x), i) == Doubles(x, i + 1);
  }

  lemma ClockWordIsClock(reg: Word, bit: bool, w: nat)
    requires w > 0 && Doubles(reg, w) == 0
    ensures Clock(Leading(POLY, w), Leading(reg, w), bit) == Leading(ClockWord(reg, bit), w)
  {
    LeadingOfDouble(reg, w);
    LeadingOfSum(Double(reg), POLY, w);
    assert Leading(reg, w)[0] == Top(reg);
  }

  lemma {:induction false} FeedIsRegister(reg: Word, x: Word, n: nat, w: nat)
    requires w > 0 && forall r: Word :: Doubles(r, w) == 0
    ensures Register(Leading(POLY, w), Leading(reg, w), Leading(x, n)) == Leading(Feed(reg, x, n), w)
    decreases n
  {
    if n > 0 {
      var rest := Leading(Double(x), n - 1);
      LeadingCons(x, n - 1);
      ClockWordIsClock(reg, Top(x), w);
      FeedIsRegister(ClockWord(reg, Top(x)), Double(x), n - 1, w);
      RegisterCons(Leading(POLY, w), Leading(reg, w), Top(x), rest);
    }
  }

  // ----- feeding is shifting the sum

  lemma ClockAbsorbs(reg: Word, x: Word)
    ensures Plus(ClockWord(reg, Top(x)), Double(x)) == Shift(Plus(reg, x))
  {
    TopOfSum(reg, x);
    DoubleOfSum(reg, x);
    SumsRearrange(Double(reg), Double(x), POLY);
  }

  lemma {:induction false} ShiftsFront(crc: Word, n: nat)
    requires n > 0
    ensures Shifts(crc, n) == Shifts(Shift(crc), n - 1)
  {
    if n > 1 {
      ShiftsFront(crc, n - 1);
    }
  }

  lemma {:induction false} FeedAbsorbs(reg: Word, x: Word, n: nat)
    ensures Plus(Feed(reg, x, n), Doubles(x, n)) == Shifts(Plus(reg, x), n)
    decreases n
  {
    if n > 0 {
      ClockAbsorbs(reg, x);
      FeedAbsorbs(ClockWord(reg, Top(x)), Double(x), n - 1);
      ShiftsFront(Plus(reg, x), n);
    }
  }

  // ----- algebra of the builder's loop

  lemma ShiftIsLinear(x: Word, y: Word)
    ensures Shift(Plus(x, y)) == Plus(Shift(x), Shift(y))
  {
    TopOfSum(x, y);
    DoubleOfSum(x, y);
    SumsRearrange(Double(x), Double(y), POLY);
    if Top(x) {
      if Top(y) {
        assert Shift(Plus(x, y)) == Plus(Double(x), Double(y));
      } else {
        assert Shift(Plus(x, y)) == Plus(Plus(Double(x), Double(y)), POLY);
      }
    } else if Top(y) {
      assert Shift(Plus(x, y)) == Plus(Plus(Double(x), Double(y)), POLY);
    }
  }

  lemma {:induction false} ShiftsAreLinear(x: Word, y: Word, n: nat)
    ensures Shifts(Plus(x, y), n) == Plus(Shifts(x, n), Shifts(y, n))
  {
    if n > 0 {
      ShiftsAreLinear(x, y, n - 1);
      ShiftIsLinear(Shifts(x, n - 1), Shifts(y, n - 1));
    }
  }

  lemma ShiftIsInjective(x: Word, y: Word)
    requires Shift(x) == Shift(y)
    ensures x == y
  {
    if Top(x) == Top(y) {
      if Top(x) {
        SumsCancel(Double(x), Double(y), POLY);
      }
      DoubleKeepsRest(x, y);
    } else if Top(x) {
      DoubleIsEven(y, x);
    } else {
      DoubleIsEven(x, y);
    }
  }

  lemma {:induction false} ShiftsAreInjective(x: Word, y: Word, n: nat)
    requires Shifts(x, n) == Shifts(y, n)
    ensures x == y
  {
    if n > 0 {
      ShiftIsInjective(Shifts(x, n - 1), Shifts(y, n - 1));
      ShiftsAreInjective(x, y, n - 1);
    }
  }

  lemma {:induction false} ShiftsOfZero(n: nat)
    ensures Shifts(0, n) == 0
  {
    if n > 0 {
      ShiftsOfZero(n - 1);
    }
  }
}
