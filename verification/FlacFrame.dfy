/**
 In-place rewriting of the sample-rate field of every frame header in an encoded
 FLAC stream (RFC 9639, sections 9.1 and 9.3).
 */
module FlacFrame {
  import opened Crc
  import opened FlacReader
  import opened Wrappers

  const USIZE_MAX: nat := 0xFFFF_FFFF_FFFF_FFFF
  const FRAME_HEADER_PREFIX_LEN: nat := 4
  const FRAME_FOOTER_LEN: nat := 2
  const MAGIC: seq<Byte> := [0x66, 0x4C, 0x61, 0x43]  // "fLaC"

  // ----- header fields

  function SampleRateCode(rateHz: nat): (code: Option<Byte>)
    ensures code.Some? ==> 1 <= code.value <= 11
  {
    match rateHz
    case 88200 => Some(1)
    case 176400 => Some(2)
    case 192000 => Some(3)
    case 8000 => Some(4)
    case 16000 => Some(5)
    case 22050 => Some(6)
    case 24000 => Some(7)
    case 32000 => Some(8)
    case 44100 => Some(9)
    case 48000 => Some(10)
    case 96000 => Some(11)
    case _ => None
  }

  function Utf8CodedNumberLen(lead: Byte): (n: Option<nat>)
    ensures n.Some? ==> 1 <= n.value <= 7
  {
    if lead <= 0x7F then Some(1)
    else if 0xC0 <= lead <= 0xDF then Some(2)
    else if 0xE0 <= lead <= 0xEF then Some(3)
    else if 0xF0 <= lead <= 0xF7 then Some(4)
    else if 0xF8 <= lead <= 0xFB then Some(5)
    else if 0xFC <= lead <= 0xFD then Some(6)
    else if lead == 0xFE then Some(7)
    else None
  }

  /** The block-size code decides how many block-size bytes follow. */
  function BlockSizeLen(b: Byte): nat {
    if b >> 4 == 6 then 1 else if b >> 4 == 7 then 2 else 0
  }

  function RateField(b: Byte): Byte {
    b & 0x0F
  }

  function SampleRateLen(b: Byte): Option<nat> {
    if RateField(b) == 12 then Some(1)
    else if RateField(b) == 13 || RateField(b) == 14 then Some(2)
    else if RateField(b) == 15 then None
    else Some(0)
  }

  predicate SyncCode(b0: Byte, b1: Byte) {
    b0 == 0xFF && b1 & 0xFC == 0xF8
  }

  /** Bytes of a frame header, its CRC-8 byte included. */
  function FrameHeaderLen(frame: seq<Byte>): (n: Option<nat>)
    ensures n.Some? ==> |frame| >= 6 && n.value >= 6
  {
    if |frame| < FRAME_HEADER_PREFIX_LEN + 2 || !SyncCode(frame[0], frame[1]) then None
    else
      match Utf8CodedNumberLen(frame[FRAME_HEADER_PREFIX_LEN])
      case None => None
      case Some(codedNumberLen) =>
        match SampleRateLen(frame[2])
        case None => None
        case Some(sampleRateLen) =>
          Some(FRAME_HEADER_PREFIX_LEN + codedNumberLen + BlockSizeLen(frame[2]) + sampleRateLen + 1)
  }

  // ----- the fields as a decoder reads them

  /** The low four bits of a byte spell its rate field. */
  lemma RateFieldIs(b: Byte, code: Byte)
    requires code <= 15
    ensures RateField(b) == code <==> RateBits(b) == RateBits(code)
  {
    var n := RateField(b);
    assert (n & 8 != 0) == (b & 8 != 0) && (n & 4 != 0) == (b & 4 != 0);
    assert (n & 2 != 0) == (b & 2 != 0) && (n & 1 != 0) == (b & 1 != 0);
    SameBits(n, code);
    assert RateBits(b) == RateBits(n);
  }

  lemma SameBits(n: Byte, code: Byte)
    requires n <= 15 && code <= 15
    ensures n == code <==> RateBits(n) == RateBits(code)
  {
    assert n == code <==> (n & 8 == code & 8 && n & 4 == code & 4 && n & 2 == code & 2 && n & 1 == code & 1);
    assert n & 8 == code & 8 <==> BitAt(n, 8) == BitAt(code, 8);
    assert n & 4 == code & 4 <==> BitAt(n, 4) == BitAt(code, 4);
    assert n & 2 == code & 2 <==> BitAt(n, 2) == BitAt(code, 2);
    assert n & 1 == code & 1 <==> BitAt(n, 1) == BitAt(code, 1);
    if RateBits(n) == RateBits(code) {
      assert RateBits(n)[0] == RateBits(code)[0] && RateBits(n)[1] == RateBits(code)[1];
      assert RateBits(n)[2] == RateBits(code)[2] && RateBits(n)[3] == RateBits(code)[3];
    }
  }

  /** The code chosen for a rate is the one that a decoder reads as that rate. */
  lemma RateCodeIsRead(rateHz: nat, code: Byte)
    requires code <= 15
    ensures SampleRateCode(rateHz) == Some(code) <==> DeclaredRate(RateBits(code)) == Some(rateHz)
  {
  }

  lemma CodedNumberIsRead(lead: Byte)
    ensures Utf8CodedNumberLen(lead) == CodedNumberLen(Bits(lead))
  {
    var bits := Bits(lead);
    LeadingOnesAre(bits, CountOnes(lead));
  }

  /** The number of leading 1s, by ranges. */
  function CountOnes(b: Byte): (n: nat)
    ensures n <= 8
    ensures forall i :: 0 <= i < n ==> Bits(b)[i] == '1'
    ensures n < 8 ==> Bits(b)[n] == '0'
  {
    if b < 0x80 then 0
    else if b < 0xC0 then 1
    else if b < 0xE0 then 2
    else if b < 0xF0 then 3
    else if b < 0xF8 then 4
    else if b < 0xFC then 5
    else if b < 0xFE then 6
    else if b < 0xFF then 7
    else 8
  }

  lemma RateLenIsRead(b: Byte)
    ensures SampleRateLen(b) == UncommonRateLen(RateBits(b))
  {
    RateFieldIs(b, 12);
    RateFieldIs(b, 13);
    RateFieldIs(b, 14);
    RateFieldIs(b, 15);
  }

  lemma BlockSizeLenIsRead(b: Byte)
    ensures BlockSizeLen(b) == UncommonBlockSizeLen(BlockSizeBits(b))
  {
    var n := b >> 4;
    assert n <= 15;
    assert (n & 8 != 0) == (b & 0x80 != 0) && (n & 4 != 0) == (b & 0x40 != 0);
    assert (n & 2 != 0) == (b & 0x20 != 0) && (n & 1 != 0) == (b & 0x10 != 0);
    assert BlockSizeBits(b) == RateBits(n);
    SameBits(n, 6);
    SameBits(n, 7);
  }

  lemma AllOnes(b: Byte)
    ensures b == 0xFF <==> Bits(b) == "11111111"
  {
    var bits := Bits(b);
    assert b == 0xFF <==> bits[0] == bits[1] == bits[2] == bits[3] == bits[4] == bits[5] == bits[6] == bits[7] == '1';
  }

  lemma FiveOnesAndZero(b: Byte)
    ensures b & 0xFC == 0xF8 <==> Bits(b)[..6] == "111110"
  {
    var bits := Bits(b)[..6];
    assert b & 0xFC == 0xF8 <==> bits[0] == bits[1] == bits[2] == bits[3] == bits[4] == '1' && bits[5] == '0';
  }

  lemma SyncCodeIsRead(b0: Byte, b1: Byte)
    ensures SyncCode(b0, b1) <==> Bits(b0) + Bits(b1)[..6] == "11111111111110"
  {
    AllOnes(b0);
    FiveOnesAndZero(b1);
    assert "11111111" + "111110" == "11111111111110";
    var bits := Bits(b0) + Bits(b1)[..6];
    assert bits[..8] == Bits(b0) && bits[8..] == Bits(b1)[..6];
    assert "11111111111110"[..8] == "11111111" && "11111111111110"[8..] == "111110";
  }

  /** The header length is the one a decoder works out from the header's bits. */
  lemma HeaderLenIsRead(frame: seq<Byte>)
    ensures FrameHeaderLen(frame) == HeaderLen(frame)
  {
    if |frame| >= 6 {
      SyncCodeIsRead(frame[0], frame[1]);
      CodedNumberIsRead(frame[4]);
      RateLenIsRead(frame[2]);
      BlockSizeLenIsRead(frame[2]);
    }
  }

  // ----- frames of a stream

  function Offset(first: nat, lengths: seq<nat>, k: nat): nat
    requires k <= |lengths|
  {
    if k == 0 then first else Offset(first, lengths, k - 1) + lengths[k - 1]
  }

  lemma {:induction false} OffsetsOrdered(first: nat, lengths: seq<nat>, j: nat, k: nat)
    requires j <= k <= |lengths|
    ensures first <= Offset(first, lengths, j) <= Offset(first, lengths, k)
    decreases k
  {
    if k > 0 {
      if j < k {
        OffsetsOrdered(first, lengths, j, k - 1);
      } else {
        OffsetsOrdered(first, lengths, j - 1, k - 1);
      }
    }
  }

  lemma {:induction false} OffsetShifts(first: nat, lengths: seq<nat>, k: nat)
    requires k <= |lengths|
    ensures Offset(first, lengths, k) == first + Offset(0, lengths, k)
  {
    if k > 0 {
      OffsetShifts(first, lengths, k - 1);
    }
  }

  /** Frame `k` of the stream; empty when the lengths overrun it. */
  function Frame(s: seq<Byte>, first: nat, lengths: seq<nat>, k: nat): seq<Byte>
    requires k < |lengths|
  {
    var lo := Offset(first, lengths, k);
    if lo + lengths[k] <= |s| then s[lo..lo + lengths[k]] else []
  }

  /** A frame that parses, has room for its footer and carries its own CRC-8. */
  predicate WellFormed(frame: seq<Byte>) {
    var h := FrameHeaderLen(frame);
    h.Some? && |frame| >= h.value + FRAME_FOOTER_LEN && frame[h.value - 1] == Checksum8(frame[..h.value - 1])
  }

  /** The rate code a well-formed frame declares. */
  function FrameRate(frame: seq<Byte>): Option<Byte> {
    if WellFormed(frame) then Some(RateField(frame[2])) else None
  }

  predicate WithRate(frame: seq<Byte>, code: Byte) {
    FrameRate(frame) == Some(code)
  }

  predicate FrameHasRate(s: seq<Byte>, first: nat, lengths: seq<nat>, k: nat, code: Byte)
    requires k < |lengths|
  {
    WithRate(Frame(s, first, lengths, k), code)
  }

  ghost predicate AllWithRate(s: seq<Byte>, first: nat, lengths: seq<nat>, code: Byte) {
    forall k: nat :: k < |lengths| ==> FrameHasRate(s, first, lengths, k, code)
  }

  /** The rates of all frames, `None` where a frame is not well formed. */
  ghost function Rates(s: seq<Byte>, first: nat, lengths: seq<nat>): (r: seq<Option<Byte>>)
    ensures |r| == |lengths|
  {
    seq(|lengths|, k requires 0 <= k < |lengths| => FrameRate(Frame(s, first, lengths, k)))
  }

  /** The first `n` of `rates` are the rates of the first `n` frames. */
  ghost predicate RatesMatch(rates: seq<Option<Byte>>, s: seq<Byte>, first: nat, lengths: seq<nat>, n: nat)
    requires n <= |rates| == |lengths|
  {
    n == 0 || (RatesMatch(rates, s, first, lengths, n - 1) && rates[n - 1] == FrameRate(Frame(s, first, lengths, n - 1)))
  }

  lemma {:induction false} RatesAllMatch(s: seq<Byte>, first: nat, lengths: seq<nat>, n: nat)
    requires n <= |lengths|
    ensures RatesMatch(Rates(s, first, lengths), s, first, lengths, n)
  {
    if n > 0 {
      RatesAllMatch(s, first, lengths, n - 1);
    }
  }

  lemma {:induction false} RateMatches(rates: seq<Option<Byte>>, s: seq<Byte>, first: nat, lengths: seq<nat>, n: nat, i: nat)
    requires i < n <= |rates| == |lengths| && RatesMatch(rates, s, first, lengths, n)
    ensures rates[i] == FrameRate(Frame(s, first, lengths, i))
  {
    if i < n - 1 {
      RateMatches(rates, s, first, lengths, n - 1, i);
    }
  }

  ghost predicate AllAre(rates: seq<Option<Byte>>, code: Byte) {
    forall k: nat :: k < |rates| ==> rates[k] == Some(code)
  }

  lemma OneMoreRate(rates: seq<Option<Byte>>, i: nat, code: Byte)
    requires i < |rates|
    ensures AllAre(rates[..i + 1], code) <==> AllAre(rates[..i], code) && rates[i] == Some(code)
    ensures AllAre(rates, code) ==> rates[i] == Some(code)
  {
    assert rates[..i + 1] == rates[..i] + [rates[i]];
  }

  lemma AllWithRateIsAllAre(s: seq<Byte>, first: nat, lengths: seq<nat>, code: Byte)
    ensures AllWithRate(s, first, lengths, code) <==> AllAre(Rates(s, first, lengths), code)
  {
    forall k: nat | k < |lengths|
      ensures FrameHasRate(s, first, lengths, k, code) <==> Rates(s, first, lengths)[k] == Some(code)
    {
    }
  }

  datatype Preflight = Rewritable | AlreadyExplicit | Ineligible

  /** The rate of the frame in the slice `[lo, lo + len)`, or `None` when the
      slice overruns the stream or does not hold a well-formed frame. */
  method InspectFrame(crc8Table: seq<bv8>, encoded: array<Byte>, lo: nat, len: nat) returns (rate: Option<Byte>)
    requires IsCrc8Table(crc8Table)
    ensures rate == if lo + len <= encoded.Length then FrameRate(encoded[..][lo..lo + len]) else None
  {
    if lo + len > encoded.Length {
      return None;
    }
    var frame := encoded[lo..lo + len];
    assert frame == encoded[..][lo..lo + len];
    var header := FrameHeaderLen(frame);
    if header == None {
      return None;
    }
    var h := header.value;
    if |frame| < h + FRAME_FOOTER_LEN {
      return None;
    }
    Crc8IsChecksum8(crc8Table, frame[..h - 1]);
    if frame[h - 1] != Crc8(crc8Table, frame[..h - 1]) {
      return None;
    }
    return Some(RateField(frame[2]));
  }

  method InspectNext(crc8Table: seq<bv8>, encoded: array<Byte>, ghost first: nat, lengths: seq<nat>, i: nat, offset: nat,
                     ghost rates: seq<Option<Byte>>)
    returns (rate: Option<Byte>)
    requires IsCrc8Table(crc8Table)
    requires i < |lengths| == |rates| && offset == Offset(first, lengths, i)
    requires RatesMatch(rates, encoded[..], first, lengths, |lengths|)
    ensures rate == rates[i]
  {
    RateMatches(rates, encoded[..], first, lengths, |lengths|, i);
    rate := InspectFrame(crc8Table, encoded, offset, lengths[i]);
  }

  method ScanFrames(crc8Table: seq<bv8>, encoded: array<Byte>, first: nat, lengths: seq<nat>, code: Byte, ghost rates: seq<Option<Byte>>)
    returns (outcome: Preflight)
    requires IsCrc8Table(crc8Table)
    requires code != 0
    requires |rates| == |lengths| && RatesMatch(rates, encoded[..], first, lengths, |lengths|)
    ensures outcome == Rewritable <==> AllAre(rates, 0)
    ensures outcome == AlreadyExplicit <==> rates != [] && AllAre(rates, code)
  {
    var offset := first;
    var unspecified, explicit := 0, 0;
    for i := 0 to |lengths|
      invariant offset == Offset(first, lengths, i)
      invariant unspecified >= 0 && explicit >= 0 && unspecified + explicit == i
      invariant unspecified == i <==> AllAre(rates[..i], 0)
      invariant explicit == i <==> AllAre(rates[..i], code)
    {
      var rate := InspectNext(crc8Table, encoded, first, lengths, i, offset, rates);
      OneMoreRate(rates, i, 0);
      OneMoreRate(rates, i, code);
      if rate == Some(0) {
        unspecified := unspecified + 1;
      } else if rate == Some(code) {
        explicit := explicit + 1;
      } else {
        return Ineligible;
      }
      offset := offset + lengths[i];
    }
    assert rates[..|lengths|] == rates;
    if unspecified == |lengths| {
      return Rewritable;
    } else if explicit == |lengths| {
      return AlreadyExplicit;
    } else {
      return Ineligible;
    }
  }

  /** The pre-flight check, with the meaning of each of its three answers. */
  method RunPreflight(crc8Table: seq<bv8>, encoded: array<Byte>, first: nat, lengths: seq<nat>, code: Byte)
    returns (outcome: Preflight)
    requires IsCrc8Table(crc8Table)
    requires code != 0
    ensures outcome == Rewritable <==> AllWithRate(encoded[..], first, lengths, 0)
    ensures outcome == AlreadyExplicit <==> lengths != [] && AllWithRate(encoded[..], first, lengths, code)
  {
    AllWithRateIsAllAre(encoded[..], first, lengths, 0);
    AllWithRateIsAllAre(encoded[..], first, lengths, code);
    RatesAllMatch(encoded[..], first, lengths, |lengths|);
    outcome := ScanFrames(crc8Table, encoded, first, lengths, code, Rates(encoded[..], first, lengths));
  }

  // ----- rewriting one frame

  function SetRate(b: Byte, code: Byte): Byte {
    (b & 0xF0) | code
  }

  /** The header with its rate field set and its CRC-8 recomputed. */
  function FixedHeader(frame: seq<Byte>, h: nat, code: Byte): (r: seq<Byte>)
    requires 6 <= h <= |frame|
    ensures |r| == |frame|
  {
    var f := frame[2 := SetRate(frame[2], code)];
    f[h - 1 := Checksum8(f[..h - 1])]
  }

  /** The frame with its CRC-16 footer recomputed, high byte first. */
  function FixedFooter(frame: seq<Byte>): (r: seq<Byte>)
    requires |frame| >= FRAME_FOOTER_LEN
    ensures |r| == |frame|
  {
    var body := frame[..|frame| - FRAME_FOOTER_LEN];
    body + [HighByte(Checksum16(body)), LowByte(Checksum16(body))]
  }

  /** A frame that parses, has room for its footer and leaves its rate unspecified,
      whatever its checksums. */
  predicate Unspecified(frame: seq<Byte>) {
    var h := FrameHeaderLen(frame);
    h.Some? && |frame| >= h.value + FRAME_FOOTER_LEN && RateField(frame[2]) == 0
  }

  function RewrittenFrame(frame: seq<Byte>, code: Byte): (r: seq<Byte>)
    requires Unspecified(frame)
    ensures |r| == |frame|
  {
    FixedFooter(FixedHeader(frame, FrameHeaderLen(frame).value, code))
  }

  lemma RateIsSet(b: Byte, code: Byte)
    requires RateField(b) == 0 && 1 <= code <= 11
    ensures RateField(SetRate(b, code)) == code
    ensures BlockSizeLen(SetRate(b, code)) == BlockSizeLen(b)
    ensures SampleRateLen(SetRate(b, code)) == SampleRateLen(b) == Some(0)
  {
    assert ((b & 0xF0) | code) & 0x0F == code;
    assert ((b & 0xF0) | code) >> 4 == b >> 4;
  }

  /** Only the first five bytes decide how long a header is. */
  lemma HeaderLenDependsOnPrefix(f: seq<Byte>, g: seq<Byte>)
    requires |f| == |g| >= 6
    requires f[0] == g[0] && f[1] == g[1] && f[4] == g[4]
    requires BlockSizeLen(f[2]) == BlockSizeLen(g[2]) && SampleRateLen(f[2]) == SampleRateLen(g[2])
    ensures FrameHeaderLen(f) == FrameHeaderLen(g)
  {
  }

  lemma FixedHeaderIsSound(frame: seq<Byte>, code: Byte)
    requires Unspecified(frame)
    requires 1 <= code <= 11
    ensures var h := FrameHeaderLen(frame).value;
            var r := FixedHeader(frame, h, code);
            FrameHeaderLen(r) == Some(h) && WithRate(r, code)
  {
    var h := FrameHeaderLen(frame).value;
    var f := frame[2 := SetRate(frame[2], code)];
    var r := FixedHeader(frame, h, code);
    RateIsSet(frame[2], code);
    HeaderLenDependsOnPrefix(frame, r);
    assert r[..h - 1] == f[..h - 1];
  }

  lemma FixedFooterIsSound(frame: seq<Byte>, code: Byte)
    requires WithRate(frame, code)
    ensures var r := FixedFooter(frame);
            && FrameHeaderLen(r) == FrameHeaderLen(frame)
            && WithRate(r, code)
            && Checksum16(r) == 0
  {
    var h, n := FrameHeaderLen(frame).value, |frame|;
    var r := FixedFooter(frame);
    HeaderLenDependsOnPrefix(frame, r);
    assert r[..h - 1] == frame[..h - 1];
    Checksum16Residue(frame[..n - 2]);
  }

  /** What the rewrite of one frame promises: the header keeps its length, the
      rate is explicit, both checksums hold, and no other byte changes. */
  lemma RewrittenFrameIsSound(frame: seq<Byte>, code: Byte)
    requires Unspecified(frame)
    requires 1 <= code <= 11
    ensures var r := RewrittenFrame(frame, code);
            var h, n := FrameHeaderLen(frame).value, |frame|;
            && FrameHeaderLen(r) == Some(h)
            && WithRate(r, code)
            && BlockSizeLen(r[2]) == BlockSizeLen(frame[2])
            && Checksum16(r) == 0
            && (forall i :: 0 <= i < n && i != 2 && i != h - 1 && i < n - 2 ==> r[i] == frame[i])
  {
    FixedHeaderIsSound(frame, code);
    FixedFooterIsSound(FixedHeader(frame, FrameHeaderLen(frame).value, code), code);
    RateIsSet(frame[2], code);
  }

  /** The bytes of the stream outside the slice `[lo, hi)` are as before. */
  ghost predicate SameOutside(s: seq<Byte>, t: seq<Byte>, lo: nat, hi: nat) {
    |s| == |t| && forall i :: 0 <= i < |s| && !(lo <= i < hi) ==> t[i] == s[i]
  }

  method FixHeader(crc8Table: seq<bv8>, encoded: array<Byte>, lo: nat, hi: nat, h: nat, code: Byte)
    requires IsCrc8Table(crc8Table)
    requires lo + h <= hi <= encoded.Length && 6 <= h
    modifies encoded
    ensures SameOutside(old(encoded[..]), encoded[..], lo, hi)
    ensures encoded[lo..hi] == FixedHeader(old(encoded[lo..hi]), h, code)
  {
    ghost var was := encoded[lo..hi];
    encoded[lo + 2] := SetRate(encoded[lo + 2], code);
    ghost var f := was[2 := SetRate(was[2], code)];
    assert encoded[lo..lo + h - 1] == f[..h - 1];
    Crc8IsChecksum8(crc8Table, encoded[lo..lo + h - 1]);
    encoded[lo + h - 1] := Crc8(crc8Table, encoded[lo..lo + h - 1]);
  }

  method FixFooter(crc16Table: seq<bv16>, encoded: array<Byte>, lo: nat, hi: nat)
    requires IsCrc16Table(crc16Table)
    requires lo + FRAME_FOOTER_LEN <= hi <= encoded.Length
    modifies encoded
    ensures SameOutside(old(encoded[..]), encoded[..], lo, hi)
    ensures encoded[lo..hi] == FixedFooter(old(encoded[lo..hi]))
  {
    ghost var was := encoded[lo..hi];
    var footer := hi - FRAME_FOOTER_LEN;
    assert encoded[lo..footer] == was[..|was| - 2];
    Crc16IsChecksum16(crc16Table, encoded[lo..footer]);
    var checksum := Crc16(crc16Table, encoded[lo..footer]);
    encoded[footer] := HighByte(checksum);
    encoded[footer + 1] := LowByte(checksum);
  }

  method RewriteFrame(crc8Table: seq<bv8>, crc16Table: seq<bv16>, encoded: array<Byte>, lo: nat, hi: nat, code: Byte)
    returns (done: bool)
    requires IsCrc8Table(crc8Table) && IsCrc16Table(crc16Table)
    requires lo <= hi <= encoded.Length
    modifies encoded
    ensures SameOutside(old(encoded[..]), encoded[..], lo, hi)
    ensures done <==> Unspecified(old(encoded[lo..hi]))
    ensures !done ==> encoded[..] == old(encoded[..])
    ensures done ==> encoded[lo..hi] == RewrittenFrame(old(encoded[lo..hi]), code)
  {
    ghost var was := encoded[lo..hi];
    var header := FrameHeaderLen(encoded[lo..hi]);
    if header == None {
      return false;
    }
    var h := header.value;
    if RateField(encoded[lo + 2]) != 0 || hi - lo < h + FRAME_FOOTER_LEN {
      assert !Unspecified(was);
      return false;
    }
    FixHeader(crc8Table, encoded, lo, hi, h, code);
    FixFooter(crc16Table, encoded, lo, hi);
    return true;
  }

  // ----- rewriting the stream

  function TotalLength(lengths: seq<nat>): nat {
    Offset(0, lengths, |lengths|)
  }

  /** The running sum of the frame lengths, `None` once it overflows a `usize`. */
  method CheckedTotal(lengths: seq<nat>) returns (total: Option<nat>)
    ensures total == if TotalLength(lengths) <= USIZE_MAX then Some(TotalLength(lengths)) else None
  {
    var acc := 0;
    for i := 0 to |lengths|
      invariant acc == Offset(0, lengths, i) <= USIZE_MAX
    {
      OffsetsOrdered(0, lengths, i + 1, |lengths|);
      if acc + lengths[i] > USIZE_MAX {
        return None;
      }
      acc := acc + lengths[i];
    }
    return Some(acc);
  }

  /** The streams the pass rewrites: a supported rate, lengths that add up, the
      magic number, and every frame well formed with an unspecified rate. */
  ghost predicate Eligible(s: seq<Byte>, lengths: seq<nat>, rateHz: nat) {
    && SampleRateCode(rateHz).Some?
    && TotalLength(lengths) <= |s|
    && MAGIC <= s
    && AllWithRate(s, |s| - TotalLength(lengths), lengths, 0)
  }

  /** What the frames of an eligible stream become. */
  ghost function RewrittenFrames(s: seq<Byte>, first: nat, lengths: seq<nat>, code: Byte): (r: seq<seq<Byte>>)
    requires AllWithRate(s, first, lengths, 0)
    ensures |r| == |lengths|
  {
    seq(|lengths|, k requires 0 <= k < |lengths| =>
      assert FrameHasRate(s, first, lengths, k, 0);
      RewrittenFrame(Frame(s, first, lengths, k), code))
  }

  /** `t` is `s` with its first `n` frames replaced and nothing else changed. */
  ghost predicate ReplacedUpTo(s: seq<Byte>, t: seq<Byte>, first: nat, lengths: seq<nat>, n: nat, frames: seq<seq<Byte>>)
    requires n <= |lengths| == |frames|
  {
    && SameOutside(s, t, first, Offset(first, lengths, n))
    && forall k: nat :: k < n ==> Frame(t, first, lengths, k) == frames[k]
  }

  lemma FrameInside(s: seq<Byte>, first: nat, lengths: seq<nat>, k: nat)
    requires k < |lengths| && Offset(first, lengths, |lengths|) == |s|
    ensures Offset(first, lengths, k) + lengths[k] == Offset(first, lengths, k + 1) <= |s|
    ensures Frame(s, first, lengths, k) == s[Offset(first, lengths, k)..Offset(first, lengths, k + 1)]
  {
    OffsetsOrdered(first, lengths, k + 1, |lengths|);
  }

  lemma SameSlice(t: seq<Byte>, u: seq<Byte>, a: nat, b: nat, lo: nat, hi: nat)
    requires a <= b <= lo && b <= |t| && SameOutside(t, u, lo, hi)
    ensures u[a..b] == t[a..b]
  {
  }

  lemma OneMoreReplaced(s: seq<Byte>, t: seq<Byte>, u: seq<Byte>, first: nat, lengths: seq<nat>, n: nat, frames: seq<seq<Byte>>)
    requires n < |lengths| == |frames| && Offset(first, lengths, |lengths|) == |s|
    requires ReplacedUpTo(s, t, first, lengths, n, frames)
    requires SameOutside(t, u, Offset(first, lengths, n), Offset(first, lengths, n + 1))
    requires Frame(u, first, lengths, n) == frames[n]
    ensures ReplacedUpTo(s, u, first, lengths, n + 1, frames)
  {
    OffsetsOrdered(first, lengths, 0, n);
    forall k: nat | k < n
      ensures Frame(u, first, lengths, k) == Frame(t, first, lengths, k)
    {
      FrameInside(t, first, lengths, k);
      FrameInside(u, first, lengths, k);
      OffsetsOrdered(first, lengths, k + 1, n);
      SameSlice(t, u, Offset(first, lengths, k), Offset(first, lengths, k + 1), Offset(first, lengths, n), Offset(first, lengths, n + 1));
    }
  }

  lemma UntouchedFrame(s: seq<Byte>, t: seq<Byte>, first: nat, lengths: seq<nat>, n: nat, frames: seq<seq<Byte>>)
    requires n < |lengths| == |frames| && Offset(first, lengths, |lengths|) == |s|
    requires ReplacedUpTo(s, t, first, lengths, n, frames)
    ensures Frame(t, first, lengths, n) == Frame(s, first, lengths, n)
  {
    FrameInside(s, first, lengths, n);
    FrameInside(t, first, lengths, n);
    OffsetsOrdered(first, lengths, 0, n);
  }

  /** The whole pass: either every frame is rewritten or no byte changes, and
      which of the two happens is decided by `Eligible` alone. */
  method RewriteFrameSampleRates(crc8Table: seq<bv8>, crc16Table: seq<bv16>, encoded: array<Byte>,
                                 lengths: seq<nat>, rateHz: nat)
    returns (rewritten: nat)
    requires IsCrc8Table(crc8Table) && IsCrc16Table(crc16Table)
    requires encoded.Length <= USIZE_MAX
    modifies encoded
    ensures !Eligible(old(encoded[..]), lengths, rateHz) ==>
              rewritten == 0 && encoded[..] == old(encoded[..])
    ensures Eligible(old(encoded[..]), lengths, rateHz) ==>
              rewritten == |lengths| &&
              IsRewrite(old(encoded[..]), encoded[..], lengths, SampleRateCode(rateHz).value)
  {
    ghost var s := encoded[..];
    var rateCode := SampleRateCode(rateHz);
    if rateCode == None {
      return 0;
    }
    var code := rateCode.value;
    var total := CheckedTotal(lengths);
    if total == None || encoded.Length < total.value {
      return 0;
    }
    if !(MAGIC <= encoded[..]) {
      return 0;
    }
    var first := encoded.Length - total.value;
    OffsetShifts(first, lengths, |lengths|);
    var outcome := RunPreflight(crc8Table, encoded, first, lengths, code);
    if outcome != Rewritable {
      return 0;
    }
    rewritten := RewriteAll(crc8Table, crc16Table, encoded, first, lengths, code);
  }

  /** One turn of the rewriting loop. */
  method RewriteNext(crc8Table: seq<bv8>, crc16Table: seq<bv16>, encoded: array<Byte>, lo: nat, len: nat, code: Byte,
                     ghost first: nat, ghost lengths: seq<nat>, ghost i: nat, ghost s: seq<Byte>, ghost frames: seq<seq<Byte>>)
    returns (done: bool)
    requires IsCrc8Table(crc8Table) && IsCrc16Table(crc16Table)
    requires i < |lengths| == |frames| && Offset(first, lengths, |lengths|) == |s|
    requires ReplacedUpTo(s, encoded[..], first, lengths, i, frames)
    requires lo == Offset(first, lengths, i) && len == lengths[i]
    requires WithRate(Frame(s, first, lengths, i), 0)
    requires frames[i] == RewrittenFrame(Frame(s, first, lengths, i), code)
    modifies encoded
    ensures done
    ensures ReplacedUpTo(s, encoded[..], first, lengths, i + 1, frames)
  {
    ghost var t := encoded[..];
    var hi := lo + len;
    UntouchedFrame(s, t, first, lengths, i, frames);
    FrameInside(t, first, lengths, i);
    assert encoded[lo..hi] == Frame(s, first, lengths, i);
    done := RewriteFrame(crc8Table, crc16Table, encoded, lo, hi, code);
    FrameInside(encoded[..], first, lengths, i);
    assert encoded[lo..hi] == Frame(encoded[..], first, lengths, i);
    OneMoreReplaced(s, t, encoded[..], first, lengths, i, frames);
  }

  method RewriteAll(crc8Table: seq<bv8>, crc16Table: seq<bv16>, encoded: array<Byte>,
                    first: nat, lengths: seq<nat>, code: Byte)
    returns (rewritten: nat)
    requires IsCrc8Table(crc8Table) && IsCrc16Table(crc16Table)
    requires Offset(first, lengths, |lengths|) == encoded.Length
    requires AllWithRate(encoded[..], first, lengths, 0)
    modifies encoded
    ensures rewritten == |lengths|
    ensures ReplacedUpTo(old(encoded[..]), encoded[..], first, lengths, |lengths|,
                         RewrittenFrames(old(encoded[..]), first, lengths, code))
  {
    ghost var s := encoded[..];
    ghost var frames := RewrittenFrames(s, first, lengths, code);
    var offset := first;
    rewritten := 0;
    for i := 0 to |lengths|
      invariant offset == Offset(first, lengths, i)
      invariant rewritten == i
      invariant ReplacedUpTo(s, encoded[..], first, lengths, i, frames)
    {
      assert FrameHasRate(s, first, lengths, i, 0);
      var done := RewriteNext(crc8Table, crc16Table, encoded, offset, lengths[i], code, first, lengths, i, s, frames);
      if done {
        rewritten := rewritten + 1;
      }
      offset := offset + lengths[i];
    }
  }

  ghost predicate IsRewrite(s: seq<Byte>, t: seq<Byte>, lengths: seq<nat>, code: Byte) {
    && TotalLength(lengths) <= |s|
    && var first := |s| - TotalLength(lengths);
       && AllWithRate(s, first, lengths, 0)
       && ReplacedUpTo(s, t, first, lengths, |lengths|, RewrittenFrames(s, first, lengths, code))
  }

  // ----- what the pass promises

  /** A decoder finds a header that names the rate. */
  predicate Declares(f: seq<Byte>, rateHz: nat) {
    HeaderLen(f).Some? && DeclaredRate(RateBits(f[2])) == Some(rateHz)
  }

  lemma RateIsDeclared(f: seq<Byte>, rateHz: nat, code: Byte)
    requires SampleRateCode(rateHz) == Some(code) && WithRate(f, code)
    ensures Declares(f, rateHz)
  {
    HeaderLenIsRead(f);
    RateFieldIs(f[2], code);
    RateCodeIsRead(rateHz, code);
  }

  ghost predicate DeclaresAt(s: seq<Byte>, first: nat, lengths: seq<nat>, k: nat, rateHz: nat)
    requires k < |lengths|
  {
    Declares(Frame(s, first, lengths, k), rateHz)
  }

  /** After the pass every frame tells a decoder the rate the pass was asked for. */
  lemma RewriteDeclaresRate(s: seq<Byte>, t: seq<Byte>, lengths: seq<nat>, rateHz: nat, k: nat)
    requires SampleRateCode(rateHz).Some? && k < |lengths|
    requires IsRewrite(s, t, lengths, SampleRateCode(rateHz).value)
    ensures DeclaresAt(t, |s| - TotalLength(lengths), lengths, k, rateHz)
  {
    var code := SampleRateCode(rateHz).value;
    RewriteIsSoundAt(s, t, lengths, code, k);
    RateIsDeclared(Frame(t, |s| - TotalLength(lengths), lengths, k), rateHz, code);
  }

  /** To a decoder: a header, its CRC-8, room for the footer, and a rate left open. */
  predicate OpenFrame(f: seq<Byte>) {
    HeaderLen(f).Some? && ClosedBy(f, HeaderLen(f).value) && RateBits(f[2]) == "0000"
  }

  predicate ClosedBy(f: seq<Byte>, h: nat) {
    1 <= h && |f| >= h + 2 && f[h - 1] == Checksum8(f[..h - 1])
  }

  lemma OpenFramesAre(f: seq<Byte>)
    ensures WithRate(f, 0) <==> OpenFrame(f)
  {
    HeaderLenIsRead(f);
    var header := FrameHeaderLen(f);
    if header.Some? {
      RateFieldIs(f[2], 0);
      assert RateBits(0) == "0000";
    }
  }

  ghost predicate Spells(s: seq<Byte>, text: string) {
    |s| >= |text| && forall i :: 0 <= i < |text| ==> s[i] as int == text[i] as int
  }

  predicate IsOpenAt(s: seq<Byte>, first: nat, lengths: seq<nat>, k: nat)
    requires k < |lengths|
  {
    OpenFrame(Frame(s, first, lengths, k))
  }

  ghost predicate AllOpen(s: seq<Byte>, first: nat, lengths: seq<nat>) {
    forall k: nat :: k < |lengths| ==> IsOpenAt(s, first, lengths, k)
  }

  /** The pass takes up exactly the streams that a decoder would recognise: a rate with
      bits of its own, "fLaC" in front, and frames that leave the rate open. */
  lemma EligibleStreamsAre(s: seq<Byte>, lengths: seq<nat>, rateHz: nat)
    ensures Eligible(s, lengths, rateHz) <==>
            && (exists bits :: DeclaredRate(bits) == Some(rateHz))
            && Spells(s, "fLaC") && TotalLength(lengths) <= |s|
            && AllOpen(s, |s| - TotalLength(lengths), lengths)
  {
    if SampleRateCode(rateHz).Some? {
      RateCodeIsRead(rateHz, SampleRateCode(rateHz).value);
    }
    MagicSpells(s);
    if TotalLength(lengths) <= |s| {
      var first := |s| - TotalLength(lengths);
      forall k: nat | k < |lengths|
        ensures FrameHasRate(s, first, lengths, k, 0) <==> IsOpenAt(s, first, lengths, k)
      {
        OpenFramesAre(Frame(s, first, lengths, k));
      }
    }
  }

  lemma MagicSpells(s: seq<Byte>)
    ensures MAGIC <= s <==> Spells(s, "fLaC")
  {
    var magic := "fLaC";
    assert magic[0] as int == 0x66 && magic[1] as int == 0x4C && magic[2] as int == 0x61 && magic[3] as int == 0x43;
    if Spells(s, magic) {
      assert s[0] == 0x66 && s[1] == 0x4C && s[2] == 0x61 && s[3] == 0x43;
    }
  }

  lemma FirstFrameFollowsMagic(s: seq<Byte>, first: nat, lengths: seq<nat>)
    requires MAGIC <= s && lengths != []
    requires AllWithRate(s, first, lengths, 0)
    requires Offset(first, lengths, |lengths|) == |s|
    ensures first >= |MAGIC|
  {
    assert FrameHasRate(s, first, lengths, 0, 0);
    FrameInside(s, first, lengths, 0);
    assert s[first] == 0xFF;
    assert MAGIC[0] != 0xFF && MAGIC[1] != 0xFF && MAGIC[2] != 0xFF && MAGIC[3] != 0xFF;
  }

  /** Frame `g` is frame `f` with the rate made explicit: the header keeps its
      length, both checksums hold, and only the rate nibble, the CRC-8 byte and
      the two footer bytes may differ. */
  ghost predicate SoundRewrite(f: seq<Byte>, g: seq<Byte>, code: Byte) {
    && WellFormed(f) && WithRate(g, code)
    && FrameHeaderLen(g) == FrameHeaderLen(f)
    && Checksum16(g) == 0
    && |f| == |g| > 2
    && BlockSizeLen(f[2]) == BlockSizeLen(g[2])
    && forall i :: 0 <= i < |f| && i != 2 && i != FrameHeaderLen(f).value - 1 && i < |f| - 2 ==> g[i] == f[i]
  }

  ghost predicate SoundAt(s: seq<Byte>, t: seq<Byte>, lengths: seq<nat>, code: Byte, k: nat)
    requires k < |lengths| && TotalLength(lengths) <= |s|
  {
    var first := |s| - TotalLength(lengths);
    SoundRewrite(Frame(s, first, lengths, k), Frame(t, first, lengths, k), code)
  }

  /** Every frame of a rewritten stream names the rate and is soundly rewritten. */
  lemma RewriteIsSoundAt(s: seq<Byte>, t: seq<Byte>, lengths: seq<nat>, code: Byte, k: nat)
    requires 1 <= code <= 11 && k < |lengths|
    requires IsRewrite(s, t, lengths, code)
    ensures SoundAt(s, t, lengths, code, k)
    ensures FrameHasRate(t, |s| - TotalLength(lengths), lengths, k, code)
  {
    var first := |s| - TotalLength(lengths);
    assert FrameHasRate(s, first, lengths, k, 0);
    RewrittenFrameIsSound(Frame(s, first, lengths, k), code);
  }

  /** The length, the magic number and the metadata before the frames stay. */
  lemma RewriteKeepsHead(s: seq<Byte>, t: seq<Byte>, lengths: seq<nat>, code: Byte)
    requires MAGIC <= s && IsRewrite(s, t, lengths, code)
    ensures |t| == |s| && MAGIC <= t
    ensures t[..|s| - TotalLength(lengths)] == s[..|s| - TotalLength(lengths)]
  {
    var first := |s| - TotalLength(lengths);
    OffsetShifts(first, lengths, |lengths|);
    assert t[..first] == s[..first];
    if lengths != [] {
      FirstFrameFollowsMagic(s, first, lengths);
      assert MAGIC <= s[..first];
    } else {
      assert t == s;
    }
  }

  /** A second pass, for whatever rate, finds nothing to rewrite. */
  lemma SecondPassIsNoOp(s: seq<Byte>, t: seq<Byte>, lengths: seq<nat>, code: Byte, rateHz: nat)
    requires MAGIC <= s && 1 <= code <= 11 && lengths != []
    requires IsRewrite(s, t, lengths, code)
    ensures !Eligible(t, lengths, rateHz)
  {
    var first := |s| - TotalLength(lengths);
    RewriteIsSoundAt(s, t, lengths, code, 0);
    RewriteKeepsHead(s, t, lengths, code);
    assert !FrameHasRate(t, first, lengths, 0, 0);
  }

  lemma DamagedFrameIsNotWellFormed(f: seq<Byte>, i: nat, b: Byte)
    requires WellFormed(f)
    requires i < FrameHeaderLen(f).value && b != f[i]
    requires FrameHeaderLen(f[i := b]) == FrameHeaderLen(f)
    ensures !WellFormed(f[i := b])
  {
    var g, h := f[i := b], FrameHeaderLen(f).value;
    if i == h - 1 {
      assert g[..h - 1] == f[..h - 1];
    } else {
      assert g[..h - 1] == f[..h - 1][i := b];
      OneByteChangesChecksum8(f[..h - 1], i, b);
    }
  }

  /** One damaged byte in any frame header makes a stream that had passed the
      pre-flight check fail it, unless the damage changes the header's length. */
  lemma DamagedHeaderIsIneligible(s: seq<Byte>, first: nat, lengths: seq<nat>, code: Byte, k: nat, i: nat, b: Byte, other: Byte)
    requires Offset(first, lengths, |lengths|) == |s| && k < |lengths|
    requires AllWithRate(s, first, lengths, code)
    requires i < |Frame(s, first, lengths, k)|
    requires var f := Frame(s, first, lengths, k);
             && WellFormed(f) && i < FrameHeaderLen(f).value && b != f[i]
             && FrameHeaderLen(f[i := b]) in {None, FrameHeaderLen(f)}
    ensures Offset(first, lengths, k) + i < |s|
    ensures !AllWithRate(s[Offset(first, lengths, k) + i := b], first, lengths, other)
  {
    var f := Frame(s, first, lengths, k);
    var t := s[Offset(first, lengths, k) + i := b];
    FrameInside(s, first, lengths, k);
    FrameInside(t, first, lengths, k);
    assert Frame(t, first, lengths, k) == f[i := b];
    if FrameHeaderLen(f[i := b]) == FrameHeaderLen(f) {
      DamagedFrameIsNotWellFormed(f, i, b);
    }
    assert !FrameHasRate(t, first, lengths, k, other);
  }
}
