/**
 Polynomials over the two-element field, written as bit sequences with the
 highest power first. The divisor `x^w + g` of a checksum of width `w` is
 represented by the bits `g` of its low-order part, so `|g| == w`.

 Everything here is independent of the table-driven code: it is the reference
 the checksums of the FLAC format are measured against.
 */
module Polynomials {
  type Poly = seq<bool>

  function Zeros(n: nat): (z: Poly)
    ensures |z| == n
  {
    seq(n, i => false)
  }

  /** The sum of the listed powers, all below `w`. */
  function Powers(w: nat, exponents: set<nat>): (p: Poly)
    ensures |p| == w
  {
    seq(w, i requires 0 <= i < w => (w - 1 - i) in exponents)
  }

  /** Adds `p` to the leading coefficients of `s`. */
  function AddFront(s: Poly, p: Poly): (r: Poly)
    requires |p| <= |s|
    ensures |r| == |s|
  {
    seq(|s|, i requires 0 <= i < |s| => if i < |p| then s[i] != p[i] else s[i])
  }

  function Add(s: Poly, t: Poly): (r: Poly)
    requires |s| == |t|
    ensures |r| == |s|
  {
    AddFront(s, t)
  }

  /** Remainder of `s` modulo `x^|g| + g`, by schoolbook long division. */
  function Remainder(s: Poly, g: Poly): (r: Poly)
    requires |g| <= |s|
    ensures |r| == |g|
    decreases |s|
  {
    if |s| == |g| then s
    else if s[0] then Remainder(AddFront(s[1..], g), g)
    else Remainder(s[1..], g)
  }

  /** The product of `q` and `x^|g| + g`. */
  function Times(q: Poly, g: Poly): (p: Poly)
    ensures |p| == |q| + |g|
  {
    if q == [] then Zeros(|g|)
    else if q[0] then [true] + AddFront(Times(q[1..], g), g)
    else [false] + Times(q[1..], g)
  }

  /** Long division is exact: whatever the quotient, a dividend built from a
      multiple of the divisor plus `r` leaves `r`. */
  lemma {:induction false} RemainderOfMultiple(q: Poly, g: Poly, r: Poly)
    requires |r| == |g|
    ensures Remainder(Add(Times(q, g), Zeros(|q|) + r), g) == r
  {
    var s := Add(Times(q, g), Zeros(|q|) + r);
    if q == [] {
      assert s == r;
    } else {
      var rest := Add(Times(q[1..], g), Zeros(|q| - 1) + r);
      if q[0] {
        assert AddFront(s[1..], g) == rest;
      } else {
        assert s[1..] == rest;
      }
      RemainderOfMultiple(q[1..], g, r);
    }
  }

  lemma AddFrontCommutes(s: Poly, t: Poly, g: Poly)
    requires |g| <= |s| == |t|
    ensures AddFront(Add(s, t), g) == Add(AddFront(s, g), t)
  {
  }

  lemma AddPrepend(a: bool, b: bool, s: Poly, t: Poly)
    requires |s| == |t|
    ensures Add([a] + s, [b] + t) == [a != b] + Add(s, t)
  {
  }

  lemma TimesPrepend(lead: bool, q: Poly, g: Poly)
    ensures Times([lead] + q, g) == [lead] + (if lead then AddFront(Times(q, g), g) else Times(q, g))
  {
    assert ([lead] + q)[1..] == q;
  }

  lemma QuotientStep(lead: bool, q: Poly, g: Poly, r: Poly, rest: Poly)
    requires |r| == |g|
    requires rest == Add(Times(q, g), Zeros(|q|) + r)
    ensures [lead] + (if lead then AddFront(rest, g) else rest)
         == Add(Times([lead] + q, g), Zeros(|q| + 1) + r)
  {
    var t, z := Times(q, g), Zeros(|q|) + r;
    TimesPrepend(lead, q, g);
    assert Zeros(|q| + 1) + r == [false] + z;
    if lead {
      AddFrontCommutes(t, z, g);
      AddPrepend(true, false, AddFront(t, g), z);
    } else {
      AddPrepend(false, false, t, z);
    }
  }

  lemma {:induction false} QuotientExists(s: Poly, g: Poly) returns (q: Poly)
    requires |g| <= |s|
    ensures |q| == |s| - |g|
    ensures s == Add(Times(q, g), Zeros(|q|) + Remainder(s, g))
    decreases |s|
  {
    if |s| == |g| {
      q := [];
    } else {
      var rest := if s[0] then AddFront(s[1..], g) else s[1..];
      var q' := QuotientExists(rest, g);
      q := [s[0]] + q';
      QuotientStep(s[0], q', g, Remainder(s, g), rest);
      assert s[1..] == if s[0] then AddFront(rest, g) else rest;
    }
  }

  /** `Remainder` computes the remainder: `r` is the result exactly when the
      dividend is a multiple of the divisor plus `r`. */
  lemma RemainderIffDivision(s: Poly, g: Poly, r: Poly)
    requires |g| <= |s| && |r| == |g|
    ensures r == Remainder(s, g) <==>
            exists q: Poly :: |q| == |s| - |g| && s == Add(Times(q, g), Zeros(|q|) + r)
  {
    if r == Remainder(s, g) {
      var q := QuotientExists(s, g);
    }
    forall q: Poly | |q| == |s| - |g| && s == Add(Times(q, g), Zeros(|q|) + r)
      ensures r == Remainder(s, g)
    {
      RemainderOfMultiple(q, g, r);
    }
  }

  /** One clock of the bit-serial division register. */
  function Clock(g: Poly, reg: Poly, bit: bool): (r: Poly)
    requires |g| == |reg| > 0
    ensures |r| == |g|
  {
    var shifted := reg[1..] + [false];
    if reg[0] != bit then Add(shifted, g) else shifted
  }

  function Register(g: Poly, reg: Poly, bits: Poly): (r: Poly)
    requires |g| == |reg| > 0
    ensures |r| == |g|
    decreases |bits|
  {
    if bits == [] then reg else Register(g, Clock(g, reg, bits[0]), bits[1..])
  }

  lemma RegisterCons(g: Poly, reg: Poly, bit: bool, rest: Poly)
    requires |g| == |reg| > 0
    ensures Register(g, reg, [bit] + rest) == Register(g, Clock(g, reg, bit), rest)
  {
    assert ([bit] + rest)[1..] == rest;
  }

  lemma {:induction false} RegisterAppend(g: Poly, reg: Poly, a: Poly, b: Poly)
    requires |g| == |reg| > 0
    ensures Register(g, reg, a + b) == Register(g, Register(g, reg, a), b)
    decreases |a|
  {
    if a == [] {
      assert a + b == b;
    } else {
      assert (a + b)[1..] == a[1..] + b;
      RegisterAppend(g, Clock(g, reg, a[0]), a[1..], b);
    }
  }

  /** Clocking a message through the register divides `message * x^w`. */
  lemma {:induction false} RegisterDivides(g: Poly, reg: Poly, bits: Poly)
    requires |g| == |reg| > 0
    ensures Register(g, reg, bits) == Remainder(AddFront(bits + Zeros(|g|), reg), g)
    decreases |bits|
  {
    var s := AddFront(bits + Zeros(|g|), reg);
    if bits == [] {
      assert s == reg;
    } else {
      var next := Clock(g, reg, bits[0]);
      assert (if s[0] then AddFront(s[1..], g) else s[1..]) == AddFront(bits[1..] + Zeros(|g|), next);
      RegisterDivides(g, next, bits[1..]);
    }
  }
}
