/**
 The fields of a FLAC frame header as a decoder reads them: bit strings looked up in
 the tables of RFC 9639, sections 9.1.1 to 9.1.5.
 */
module FlacReader {
  import opened Crc
  import opened Wrappers

  function BitAt(b: Byte, mask: Byte): char {
    if b & mask != 0 then '1' else '0'
  }

  /** The bits of a byte, most significant first. */
  function Bits(b: Byte): (bits: string)
    ensures |bits| == 8
  {
    [BitAt(b, 0x80), BitAt(b, 0x40), BitAt(b, 0x20), BitAt(b, 0x10),
     BitAt(b, 0x08), BitAt(b, 0x04), BitAt(b, 0x02), BitAt(b, 0x01)]
  }

  /** The block-size bits come first in the third byte, the sample-rate bits last. */
  function BlockSizeBits(b: Byte): string {
    Bits(b)[..4]
  }

  function RateBits(b: Byte): string {
    Bits(b)[4..]
  }

  /** The sample rate that the bits name by themselves, in hertz (section 9.1.2). */
  function DeclaredRate(bits: string): Option<nat> {
    match bits
    case "0001" => Some(88200)
    case "0010" => Some(176400)
    case "0011" => Some(192000)
    case "0100" => Some(8000)
    case "0101" => Some(16000)
    case "0110" => Some(22050)
    case "0111" => Some(24000)
    case "1000" => Some(32000)
    case "1001" => Some(44100)
    case "1010" => Some(48000)
    case "1011" => Some(96000)
    case _ => None
  }

  /** How many bytes an uncommon sample rate takes; "1111" is forbidden. */
  function UncommonRateLen(bits: string): Option<nat> {
    if bits == "1111" then None
    else if bits == "1100" then Some(1)
    else if bits == "1101" || bits == "1110" then Some(2)
    else Some(0)
  }

  /** How many bytes an uncommon block size takes (section 9.1.1). */
  function UncommonBlockSizeLen(bits: string): nat {
    if bits == "0110" then 1 else if bits == "0111" then 2 else 0
  }

  function LeadingOnes(bits: string): nat {
    if bits == "" || bits[0] == '0' then 0 else 1 + LeadingOnes(bits[1..])
  }

  /** A coded number is one byte without a leading 1, or as many bytes as its first byte
      has leading 1s, seven at most (section 9.1.5). */
  function CodedNumberLen(bits: string): Option<nat> {
    var ones := LeadingOnes(bits);
    if ones == 0 then Some(1) else if 2 <= ones <= 7 then Some(ones) else None
  }

  /** The length of a frame header up to and including its CRC-8 byte. */
  function HeaderLen(frame: seq<Byte>): Option<nat> {
    if |frame| < 6 || Bits(frame[0]) + Bits(frame[1])[..6] != "11111111111110" then None
    else
      var number, rate := CodedNumberLen(Bits(frame[4])), UncommonRateLen(RateBits(frame[2]));
      if number == None || rate == None then None
      else Some(4 + number.value + UncommonBlockSizeLen(BlockSizeBits(frame[2])) + rate.value + 1)
  }

  lemma {:induction false} LeadingOnesAre(bits: string, n: nat)
    requires n <= |bits| && (forall i :: 0 <= i < n ==> bits[i] == '1') && (n < |bits| ==> bits[n] == '0')
    ensures LeadingOnes(bits) == n
  {
    if n > 0 {
      LeadingOnesAre(bits[1..], n - 1);
    }
  }
}
