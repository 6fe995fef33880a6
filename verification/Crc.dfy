/**
 The two checksums of a FLAC frame: CRC-8 over the header and CRC-16 over the
 whole frame (RFC 9639, sections 9.1.8 and 9.3), folded over tables that are
 built by loops, and their meaning as polynomial remainders.
 */
module Crc {
  import opened Polynomials
  import W8 = Words8
  import W16 = Words16

  type Byte = bv8

  // ----- the table builders

  /** What a byte contributes: its eight zero-fed division steps. */
  function Entry8(b: Byte): bv8 {
    W8.Shifts(b, 8)
  }

  function Widen(b: Byte): bv16 {
    (b as bv16) << 8
  }

  function Entry16(b: Byte): bv16 {
    W16.Shifts(Widen(b), 8)
  }

  ghost predicate IsCrc8Table(table: seq<bv8>) {
    |table| == 256 && forall b: Byte :: table[b as int] == Entry8(b)
  }

  ghost predicate IsCrc16Table(table: seq<bv16>) {
    |table| == 256 && forall b: Byte :: table[b as int] == Entry16(b)
  }

  method BuildCrc8Table() returns (table: array<bv8>)
    ensures fresh(table) && IsCrc8Table(table[..])
  {
    table := new bv8[256];
    var i := 0;
    while i < 256
      invariant 0 <= i <= 256
      invariant forall b: Byte :: b as int < i ==> table[b as int] == Entry8(b)
    {
      var crc := i as bv8;
      var bit := 0;
      while bit < 8
        invariant 0 <= bit <= 8
        invariant crc == W8.Shifts(i as bv8, bit)
      {
        crc := if crc & 0x80 == 0 then crc << 1 else (crc << 1) ^ W8.POLY;
        bit := bit + 1;
      }
      table[i] := crc;
      i := i + 1;
    }
  }

  method BuildCrc16Table() returns (table: array<bv16>)
    ensures fresh(table) && IsCrc16Table(table[..])
  {
    table := new bv16[256];
    var i := 0;
    while i < 256
      invariant 0 <= i <= 256
      invariant forall b: Byte :: b as int < i ==> table[b as int] == Entry16(b)
    {
      var start := Widen(i as Byte);  // the index fits a byte
      var crc := start;
      var bit := 0;
      while bit < 8
        invariant 0 <= bit <= 8
        invariant crc == W16.Shifts(start, bit)
      {
        crc := if crc & 0x8000 == 0 then crc << 1 else (crc << 1) ^ W16.POLY;
        bit := bit + 1;
      }
      table[i] := crc;
      i := i + 1;
    }
  }

  // ----- the folds

  function HighByte(crc: bv16): Byte {
    (crc >> 8) as bv8
  }

  function LowByte(crc: bv16): Byte {
    (crc & 0xFF) as bv8
  }

  /** `crc8` as the program computes it, by table look-ups. */
  function Crc8(table: seq<bv8>, bytes: seq<Byte>): bv8
    requires |table| == 256
  {
    if bytes == [] then 0
    else
      var crc := Crc8(table, bytes[..|bytes| - 1]);
      table[W8.Plus(crc, bytes[|bytes| - 1]) as int]
  }

  /** `crc16` as the program computes it, by table look-ups. */
  function Crc16(table: seq<bv16>, bytes: seq<Byte>): bv16
    requires |table| == 256
  {
    if bytes == [] then 0
    else
      var crc := Crc16(table, bytes[..|bytes| - 1]);
      W16.Plus(crc << 8, table[W8.Plus(HighByte(crc), bytes[|bytes| - 1]) as int])
  }

  function Next8(crc: bv8, b: Byte): bv8 {
    Entry8(W8.Plus(crc, b))
  }

  function Next16(crc: bv16, b: Byte): bv16 {
    W16.Plus(crc << 8, Entry16(W8.Plus(HighByte(crc), b)))
  }

  /** The checksums without their tables. */
  function Checksum8(bytes: seq<Byte>): bv8 {
    if bytes == [] then 0 else Next8(Checksum8(bytes[..|bytes| - 1]), bytes[|bytes| - 1])
  }

  function Checksum16(bytes: seq<Byte>): bv16 {
    if bytes == [] then 0 else Next16(Checksum16(bytes[..|bytes| - 1]), bytes[|bytes| - 1])
  }

  lemma {:induction false} Crc8IsChecksum8(table: seq<bv8>, bytes: seq<Byte>)
    requires IsCrc8Table(table)
    ensures Crc8(table, bytes) == Checksum8(bytes)
  {
    if bytes != [] {
      Crc8IsChecksum8(table, bytes[..|bytes| - 1]);
    }
  }

  lemma {:induction false} Crc16IsChecksum16(table: seq<bv16>, bytes: seq<Byte>)
    requires IsCrc16Table(table)
    ensures Crc16(table, bytes) == Checksum16(bytes)
  {
    if bytes != [] {
      Crc16IsChecksum16(table, bytes[..|bytes| - 1]);
    }
  }

  // ----- the checksums are polynomial remainders

  /** The message as a polynomial: the bits of its bytes, in order. */
  function MessageBits(bytes: seq<Byte>): (r: Poly) {
    if bytes == [] then []
    else MessageBits(bytes[..|bytes| - 1]) + W8.Bits(bytes[|bytes| - 1])
  }

  lemma Next8IsRegister(crc: bv8, b: Byte)
    ensures W8.Bits(Next8(crc, b)) == Register(W8.Bits(W8.POLY), W8.Bits(crc), W8.Bits(b))
  {
    forall r: bv8 ensures W8.Doubles(r, 8) == 0 { W8.DoublesVanish(r); }
    W8.FeedIsRegister(crc, b, 8, 8);
    W8.FeedAbsorbs(crc, b, 8);
    assert W8.Plus(W8.Feed(crc, b, 8), 0) == W8.Feed(crc, b, 8);
  }

  lemma {:induction false} Checksum8IsRegister(bytes: seq<Byte>)
    ensures W8.Bits(Checksum8(bytes)) == Register(W8.Bits(W8.POLY), Zeros(8), MessageBits(bytes))
  {
    var g := W8.Bits(W8.POLY);
    if bytes == [] {
      ZeroBits8(8);
    } else {
      var front, last := bytes[..|bytes| - 1], bytes[|bytes| - 1];
      Checksum8IsRegister(front);
      RegisterAppend(g, Zeros(8), MessageBits(front), W8.Bits(last));
      Next8IsRegister(Checksum8(front), last);
    }
  }

  lemma {:induction false} DoublesOfZero8(n: nat)
    ensures W8.Doubles(0, n) == 0
  {
    if n > 0 {
      assert W8.Double(0) == 0;
      DoublesOfZero8(n - 1);
    }
  }

  lemma ZeroBits8(n: nat)
    ensures W8.Leading(0, n) == Zeros(n)
  {
    forall i: nat | i < n ensures !W8.Top(W8.Doubles(0, i)) { DoublesOfZero8(i); }
  }

  /** The header divisor is `x^8 + x^2 + x + 1`. */
  lemma Divisor8()
    ensures W8.Bits(W8.POLY) == Powers(8, {2, 1, 0})
  {
    FourBits8(W8.POLY, 0, 0x07);
    FourBits8(W8.POLY, 4, 0x70);
    var bits := W8.Bits(W8.POLY);
    assert !bits[0] && !bits[1] && !bits[2] && !bits[3] && !bits[4] && bits[5] && bits[6] && bits[7];
  }

  lemma FourBits8(x: bv8, n: nat, v: bv8)
    requires n + 4 <= 8 && W8.Doubles(x, n) == v
    ensures W8.Bits(x)[n] == (v & 0x80 != 0) && W8.Bits(x)[n + 1] == (v & 0x40 != 0)
    ensures W8.Bits(x)[n + 2] == (v & 0x20 != 0) && W8.Bits(x)[n + 3] == (v & 0x10 != 0)
    ensures W8.Doubles(x, n + 4) == v << 4
  {
    OneMoreDouble8(x, n);
    OneMoreDouble8(x, n + 1);
    OneMoreDouble8(x, n + 2);
    OneMoreDouble8(x, n + 3);
  }

  lemma {:induction false} OneMoreDouble8(x: bv8, n: nat)
    ensures W8.Doubles(x, n + 1) == W8.Double(W8.Doubles(x, n))
    decreases n
  {
    if n > 0 {
      OneMoreDouble8(W8.Double(x), n - 1);
    }
  }

  /** `crc8` is the remainder of `message * x^8` modulo `x^8 + x^2 + x + 1`. */
  lemma Crc8IsRemainder(table: seq<bv8>, bytes: seq<Byte>)
    requires IsCrc8Table(table)
    ensures W8.Bits(Crc8(table, bytes)) == Remainder(MessageBits(bytes) + Zeros(8), Powers(8, {2, 1, 0}))
  {
    Divisor8();
    var m := MessageBits(bytes) + Zeros(8);
    Crc8IsChecksum8(table, bytes);
    Checksum8IsRegister(bytes);
    RegisterDivides(W8.Bits(W8.POLY), Zeros(8), MessageBits(bytes));
    assert AddFront(m, Zeros(8)) == m;
  }

  lemma WidenedTop(b: Byte)
    ensures W16.Top(Widen(b)) == W8.Top(b)
    ensures W16.Double(Widen(b)) == Widen(W8.Double(b))
  {
  }

  lemma {:induction false} WidenedDoubles(b: Byte, n: nat)
    ensures W16.Doubles(Widen(b), n) == Widen(W8.Doubles(b, n))
    decreases n
  {
    if n > 0 {
      WidenedTop(b);
      WidenedDoubles(W8.Double(b), n - 1);
    }
  }

  lemma WidenedBits(b: Byte, n: nat)
    ensures W16.Leading(Widen(b), n) == W8.Leading(b, n)
  {
    forall i: nat | i < n ensures W16.Top(W16.Doubles(Widen(b), i)) == W8.Top(W8.Doubles(b, i)) {
      WidenedDoubles(b, i);
      WidenedTop(W8.Doubles(b, i));
    }
  }

  lemma SplitWord(crc: bv16, b: Byte)
    ensures W16.Plus(crc, Widen(b)) == W16.Plus(crc & 0xFF, Widen(W8.Plus(HighByte(crc), b)))
  {
  }

  lemma SmallWordsOnlyMove(y: bv16)
    requires y & 0xFF00 == 0
    ensures W16.Shifts(y, 8) == y << 8
  {
    assert W16.Shifts(y, 1) == y << 1;
    assert W16.Shifts(y, 2) == y << 2;
    assert W16.Shifts(y, 3) == y << 3;
    assert W16.Shifts(y, 4) == y << 4;
    assert W16.Shifts(y, 5) == y << 5;
    assert W16.Shifts(y, 6) == y << 6;
    assert W16.Shifts(y, 7) == y << 7;
  }

  /** The low byte moves up and the high byte goes through the table. */
  lemma Next16IsShifts(crc: bv16, b: Byte)
    ensures Next16(crc, b) == W16.Shifts(W16.Plus(crc, Widen(b)), 8)
  {
    var low, index := crc & 0xFF, W8.Plus(HighByte(crc), b);
    SplitWord(crc, b);
    W16.ShiftsAreLinear(low, Widen(index), 8);
    SmallWordsOnlyMove(low);
    assert low << 8 == crc << 8;
  }

  lemma WidenedVanishes(b: Byte)
    ensures W16.Doubles(Widen(b), 8) == 0
  {
    W16.DoublesByEight(Widen(b));
  }

  lemma Next16IsRegister(crc: bv16, b: Byte)
    ensures W16.Bits(Next16(crc, b)) == Register(W16.Bits(W16.POLY), W16.Bits(crc), W8.Bits(b))
  {
    forall r: bv16 ensures W16.Doubles(r, 16) == 0 { W16.DoublesVanish(r); }
    W16.FeedIsRegister(crc, Widen(b), 8, 16);
    WidenedBits(b, 8);
    W16.FeedAbsorbs(crc, Widen(b), 8);
    WidenedVanishes(b);
    PlusZero(W16.Feed(crc, Widen(b), 8));
    Next16IsShifts(crc, b);
  }

  lemma PlusZero(x: bv16)
    ensures W16.Plus(x, 0) == x
  {
  }

  lemma {:induction false} DoublesOfZero16(n: nat)
    ensures W16.Doubles(0, n) == 0
  {
    if n > 0 {
      assert W16.Double(0) == 0;
      DoublesOfZero16(n - 1);
    }
  }

  lemma ZeroBits16(n: nat)
    ensures W16.Leading(0, n) == Zeros(n)
  {
    forall i: nat | i < n ensures !W16.Top(W16.Doubles(0, i)) { DoublesOfZero16(i); }
  }

  lemma {:induction false} Checksum16IsRegister(bytes: seq<Byte>)
    ensures W16.Bits(Checksum16(bytes)) == Register(W16.Bits(W16.POLY), Zeros(16), MessageBits(bytes))
  {
    if bytes == [] {
      ZeroBits16(16);
    } else {
      var front, last := bytes[..|bytes| - 1], bytes[|bytes| - 1];
      Checksum16IsRegister(front);
      RegisterAppend(W16.Bits(W16.POLY), Zeros(16), MessageBits(front), W8.Bits(last));
      Next16IsRegister(Checksum16(front), last);
    }
  }

  /** The frame divisor is `x^16 + x^15 + x^2 + 1`. */
  lemma Divisor16()
    ensures W16.Bits(W16.POLY) == Powers(16, {15, 2, 0})
  {
    FourBits16(W16.POLY, 0, 0x8005);
    FourBits16(W16.POLY, 4, 0x0050);
    FourBits16(W16.POLY, 8, 0x0500);
    FourBits16(W16.POLY, 12, 0x5000);
    var bits := W16.Bits(W16.POLY);
    assert bits[0] && !bits[1] && !bits[2] && !bits[3] && !bits[4] && !bits[5] && !bits[6] && !bits[7];
    assert !bits[8] && !bits[9] && !bits[10] && !bits[11] && !bits[12] && bits[13] && !bits[14] && bits[15];
  }

  lemma FourBits16(x: bv16, n: nat, v: bv16)
    requires n + 4 <= 16 && W16.Doubles(x, n) == v
    ensures W16.Bits(x)[n] == (v & 0x8000 != 0) && W16.Bits(x)[n + 1] == (v & 0x4000 != 0)
    ensures W16.Bits(x)[n + 2] == (v & 0x2000 != 0) && W16.Bits(x)[n + 3] == (v & 0x1000 != 0)
    ensures W16.Doubles(x, n + 4) == v << 4
  {
    OneMoreDouble16(x, n);
    OneMoreDouble16(x, n + 1);
    OneMoreDouble16(x, n + 2);
    OneMoreDouble16(x, n + 3);
  }

  lemma {:induction false} OneMoreDouble16(x: bv16, n: nat)
    ensures W16.Doubles(x, n + 1) == W16.Double(W16.Doubles(x, n))
    decreases n
  {
    if n > 0 {
      OneMoreDouble16(W16.Double(x), n - 1);
    }
  }

  /** `crc16` is the remainder of `message * x^16` modulo `x^16 + x^15 + x^2 + 1`. */
  lemma Crc16IsRemainder(table: seq<bv16>, bytes: seq<Byte>)
    requires IsCrc16Table(table)
    ensures W16.Bits(Crc16(table, bytes)) == Remainder(MessageBits(bytes) + Zeros(16), Powers(16, {15, 2, 0}))
  {
    Divisor16();
    var m := MessageBits(bytes) + Zeros(16);
    Crc16IsChecksum16(table, bytes);
    Checksum16IsRegister(bytes);
    RegisterDivides(W16.Bits(W16.POLY), Zeros(16), MessageBits(bytes));
    assert AddFront(m, Zeros(16)) == m;
  }

  // ----- what a reader of the stream can rely on

  lemma Next8IsInjective(c: bv8, d: bv8, x: Byte, y: Byte)
    requires Next8(c, x) == Next8(d, y)
    ensures c == d <==> x == y
  {
    W8.ShiftsAreInjective(W8.Plus(c, x), W8.Plus(d, y), 8);
    if c == d {
      W8.SumsCancel(x, y, c);
    }
    if x == y {
      W8.SumsCancel(c, d, x);
    }
  }

  /** Changing any one byte of a message changes its CRC-8. */
  lemma {:induction false} OneByteChangesChecksum8(a: seq<Byte>, i: nat, b: Byte)
    requires i < |a| && b != a[i]
    ensures Checksum8(a[i := b]) != Checksum8(a)
  {
    var n := |a| - 1;
    if i == n {
      assert a[i := b][..n] == a[..n];
      if Checksum8(a[i := b]) == Checksum8(a) {
        Next8IsInjective(Checksum8(a[..n]), Checksum8(a[..n]), b, a[n]);
      }
    } else {
      assert a[i := b][..n] == a[..n][i := b];
      OneByteChangesChecksum8(a[..n], i, b);
      if Checksum8(a[i := b]) == Checksum8(a) {
        Next8IsInjective(Checksum8(a[..n][i := b]), Checksum8(a[..n]), a[n], a[n]);
      }
    }
  }

  /** A message followed by its own CRC-8 divides evenly. */
  lemma Checksum8Residue(bytes: seq<Byte>)
    ensures Checksum8(bytes + [Checksum8(bytes)]) == 0
  {
    var m := bytes + [Checksum8(bytes)];
    assert m[..|m| - 1] == bytes;
    W8.ShiftsOfZero(8);
    assert W8.Plus(Checksum8(bytes), Checksum8(bytes)) == 0;
  }

  /** A message followed by its CRC-16, high byte first, divides evenly. */
  lemma Checksum16Residue(bytes: seq<Byte>)
    ensures Checksum16(bytes + [HighByte(Checksum16(bytes)), LowByte(Checksum16(bytes))]) == 0
  {
    var c := Checksum16(bytes);
    var m1, m2 := bytes + [HighByte(c)], bytes + [HighByte(c), LowByte(c)];
    assert m1[..|m1| - 1] == bytes && m2[..|m2| - 1] == m1;
    W16.ShiftsOfZero(8);
    SelfCancels(c);
  }

  lemma SelfCancels(c: bv16)
    ensures W8.Plus(HighByte(c), HighByte(c)) == 0
    ensures W8.Plus(HighByte(c << 8), LowByte(c)) == 0
    ensures (c << 8) << 8 == 0 && Widen(0) == 0
    ensures W16.Plus(c << 8, 0) == c << 8 && W16.Plus(0, 0) == 0
  {
  }
}
