/**
 Keys stored as files: percent-encoded names, atomic replacement through temporary
 files. Names are handled as their UTF-8 bytes; every character the encoding touches
 is a single byte. Decoding fails where it would cut a character in two.
 */
module FileStorage {
  import opened Wrappers

  type Byte = b: nat | b < 256

  const PERCENT: Byte := 0x25
  const DOT: Byte := 0x2E
  const PLUS: Byte := 0x2B

  /** `%empty`, the name of the empty key. */
  const EMPTY_NAME: seq<Byte> := [0x25, 0x65, 0x6D, 0x70, 0x74, 0x79]
  /** `.tmp-` */
  const TEMP_PREFIX: seq<Byte> := [0x2E, 0x74, 0x6D, 0x70, 0x2D]

  /** `/`, `\`, `:`, `%`, NUL and `.` are escaped. */
  predicate Special(b: Byte) {
    b == 0x2F || b == 0x5C || b == 0x3A || b == PERCENT || b == 0 || b == DOT
  }

  /** An upper-case hexadecimal digit. */
  function HexDigit(d: nat): Byte
    requires d < 16
  {
    if d < 10 then 0x30 + d else 0x41 + (d - 10)
  }

  function Escaped(b: Byte): (r: seq<Byte>)
    ensures |r| == 3
  {
    [PERCENT, HexDigit(b / 16), HexDigit(b % 16)]
  }

  function EncodedByte(b: Byte): seq<Byte> {
    if Special(b) then Escaped(b) else [b]
  }

  /** The bytes of a text in ASCII. */
  function Ascii(text: string): (r: seq<Byte>)
    requires forall i :: 0 <= i < |text| ==> text[i] as int < 128
  {
    if text == [] then [] else [text[0] as int] + Ascii(text[1..])
  }

  /** How a name spells each character. */
  function Spelling(b: Byte): seq<Byte> {
    if b == '/' as int then Ascii("%2F")
    else if b == '\\' as int then Ascii("%5C")
    else if b == ':' as int then Ascii("%3A")
    else if b == '%' as int then Ascii("%25")
    else if b == 0 then Ascii("%00")
    else if b == '.' as int then Ascii("%2E")
    else [b]
  }

  lemma AsciiOfThree(text: string)
    requires |text| == 3 && forall i :: 0 <= i < 3 ==> text[i] as int < 128
    ensures Ascii(text) == [text[0] as int, text[1] as int, text[2] as int]
  {
    assert Ascii(text[1..]) == [text[1] as int] + Ascii(text[1..][1..]);
    assert Ascii(text[1..][1..]) == [text[2] as int] + Ascii(text[1..][1..][1..]);
  }

  /** Six characters are spelled as escapes, every other one as itself. */
  lemma EncodingIsSpelled(b: Byte)
    ensures EncodedByte(b) == Spelling(b)
  {
    AsciiOfThree("%2F");
    AsciiOfThree("%5C");
    AsciiOfThree("%3A");
    AsciiOfThree("%25");
    AsciiOfThree("%00");
    AsciiOfThree("%2E");
  }

  lemma FixedNamesAreSpelled()
    ensures EMPTY_NAME == Ascii("%empty") && TEMP_PREFIX == Ascii(".tmp-")
  {
    assert Ascii("%empty") == [0x25] + Ascii("empty") == [0x25, 0x65] + Ascii("mpty");
    assert Ascii("mpty") == [0x6D, 0x70] + Ascii("ty") && Ascii("ty") == [0x74, 0x79];
    assert Ascii(".tmp-") == [0x2E, 0x74] + Ascii("mp-") && Ascii("mp-") == [0x6D, 0x70, 0x2D];
  }

  function EncodedBytes(key: seq<Byte>): seq<Byte> {
    if key == [] then [] else EncodedByte(key[0]) + EncodedBytes(key[1..])
  }

  function Encoded(key: seq<Byte>): seq<Byte> {
    if key == [] then EMPTY_NAME else EncodedBytes(key)
  }

  method EncodeKey(key: seq<Byte>) returns (out: seq<Byte>)
    ensures out == Encoded(key)
  {
    if key == [] {
      return EMPTY_NAME;
    }
    out := [];
    for i := 0 to |key|
      invariant out == EncodedBytes(key[..i])
    {
      EncodedSnoc(key[..i], key[i]);
      assert key[..i + 1] == key[..i] + [key[i]];
      if Special(key[i]) {
        out := out + [PERCENT];
        out := out + [HexDigit(key[i] / 16), HexDigit(key[i] % 16)];
      } else {
        out := out + [key[i]];
      }
    }
    assert key[..|key|] == key;
  }

  lemma {:induction false} EncodedSnoc(key: seq<Byte>, b: Byte)
    ensures EncodedBytes(key + [b]) == EncodedBytes(key) + EncodedByte(b)
    decreases |key|
  {
    var all := key + [b];
    if key == [] {
      assert all[1..] == [];
    } else {
      assert all[1..] == key[1..] + [b];
      EncodedSnoc(key[1..], b);
    }
  }

  function HexValue(b: Byte): Option<nat> {
    if 0x30 <= b <= 0x39 then Some(b - 0x30)
    else if 0x41 <= b <= 0x46 then Some(b - 0x41 + 10)
    else if 0x61 <= b <= 0x66 then Some(b - 0x61 + 10)
    else None
  }

  /** Two characters parsed as a hexadecimal byte, the first possibly a plus sign. */
  function ParseHex(a: Byte, b: Byte): (r: Option<Byte>) {
    if a == PLUS then HexByte(Some(0), HexValue(b)) else HexByte(HexValue(a), HexValue(b))
  }

  function HexByte(high: Option<nat>, low: Option<nat>): Option<Byte> {
    if high.Some? && low.Some? && high.value < 16 && low.value < 16 then Some(16 * high.value + low.value) else None
  }

  /** One step of the decoder: the byte it yields and how far it moves. */
  function DecodedStep(encoded: seq<Byte>): (Byte, nat)
    requires encoded != []
  {
    if encoded[0] == PERCENT && |encoded| > 2 && ParseHex(encoded[1], encoded[2]).Some? then
      (ParseHex(encoded[1], encoded[2]).value, 3)
    else (encoded[0], 1)
  }

  function DecodedBytes(encoded: seq<Byte>): seq<Byte>
    decreases |encoded|
  {
    if encoded == [] then []
    else
      var (b, n) := DecodedStep(encoded);
      [b] + DecodedBytes(encoded[n..])
  }

  function Decoded(encoded: seq<Byte>): seq<Byte> {
    if encoded == EMPTY_NAME then [] else DecodedBytes(encoded)
  }

  lemma DecodeUnfolds(encoded: seq<Byte>, i: nat)
    requires i < |encoded|
    ensures var parsed := if encoded[i] == PERCENT && i + 2 < |encoded| then ParseHex(encoded[i + 1], encoded[i + 2]) else None;
      DecodedBytes(encoded[i..])
      == if parsed.Some? then [parsed.value] + DecodedBytes(encoded[i + 3..])
         else [encoded[i]] + DecodedBytes(encoded[i + 1..])
  {
    var rest := encoded[i..];
    assert rest[1..] == encoded[i + 1..];
    if i + 2 < |encoded| {
      assert rest[1] == encoded[i + 1] && rest[2] == encoded[i + 2];
      assert rest[3..] == encoded[i + 3..];
    }
  }

  lemma Regroup(out: seq<Byte>, b: Byte, rest: seq<Byte>)
    ensures out + ([b] + rest) == (out + [b]) + rest
  {
  }

  // ----- text (section 4 of RFC 3629)

  predicate Continues(b: Byte) {
    0x80 <= b < 0xC0
  }

  /** The range of the second byte of a character, by its first. */
  predicate Second(a: Byte, b: Byte) {
    if a == 0xE0 then 0xA0 <= b < 0xC0
    else if a == 0xED then 0x80 <= b < 0xA0
    else if a == 0xF0 then 0x90 <= b < 0xC0
    else if a == 0xF4 then 0x80 <= b < 0x90
    else Continues(b)
  }

  /** The length of the character that `s` begins with; 0 if it begins with none. */
  function CharLen(s: seq<Byte>): (n: nat)
    requires s != []
    ensures n <= |s|
    ensures n > 0 ==> !Continues(s[0]) && forall i :: 0 < i < n ==> Continues(s[i])
    ensures n > 1 ==> s[0] >= 0xC2
  {
    if s[0] < 0x80 then 1
    else if 0xC2 <= s[0] < 0xE0 && |s| >= 2 && Continues(s[1]) then 2
    else if 0xE0 <= s[0] < 0xF0 && |s| >= 3 && Second(s[0], s[1]) && Continues(s[2]) then 3
    else if 0xF0 <= s[0] < 0xF5 && |s| >= 4 && Second(s[0], s[1]) && Continues(s[2]) && Continues(s[3]) then 4
    else 0
  }

  predicate IsText(s: seq<Byte>)
    decreases |s|
  {
    s == [] || (CharLen(s) > 0 && IsText(s[CharLen(s)..]))
  }

  /** Parsing the two bytes after a percent sign takes a slice of text, and fails if the
      slice ends within a character. */
  predicate CutsCharacter(encoded: seq<Byte>)
    decreases |encoded|
  {
    encoded != [] &&
    ((encoded[0] == PERCENT && |encoded| > 3 && Continues(encoded[3])) || CutsCharacter(encoded[DecodedStep(encoded).1..]))
  }

  /** What decoding makes of a name: nothing if it fails, and the empty key if the bytes
      are no text. */
  function DecodeResult(encoded: seq<Byte>): Option<seq<Byte>> {
    if encoded == EMPTY_NAME then Some([])
    else if CutsCharacter(encoded) then None
    else if IsText(DecodedBytes(encoded)) then Some(DecodedBytes(encoded))
    else Some([])
  }

  /** Which is when a percent sign stands three bytes before the rest of a character. */
  lemma {:induction false} CutsExactly(encoded: seq<Byte>)
    ensures CutsCharacter(encoded)
       <==> exists i: nat :: i + 3 < |encoded| && encoded[i] == PERCENT && Continues(encoded[i + 3])
    decreases |encoded|
  {
    if encoded != [] {
      var n := DecodedStep(encoded).1;
      var rest := encoded[n..];
      CutsExactly(rest);
      if CutsCharacter(rest) {
        var i: nat :| i + 3 < |rest| && rest[i] == PERCENT && Continues(rest[i + 3]);
        assert encoded[i + n] == PERCENT && Continues(encoded[i + n + 3]);
      }
      forall i: nat | 0 < i && i + 3 < |encoded| && encoded[i] == PERCENT && Continues(encoded[i + 3])
        ensures CutsCharacter(rest)
      {
        assert i >= n;
        assert rest[i - n] == PERCENT && Continues(rest[i - n + 3]);
      }
    }
  }

  lemma CutsUnfolds(encoded: seq<Byte>, i: nat)
    requires i < |encoded|
    ensures var parsed := if encoded[i] == PERCENT && i + 2 < |encoded| then ParseHex(encoded[i + 1], encoded[i + 2]) else None;
      CutsCharacter(encoded[i..])
      <==> (encoded[i] == PERCENT && i + 3 < |encoded| && Continues(encoded[i + 3]))
           || CutsCharacter(if parsed.Some? then encoded[i + 3..] else encoded[i + 1..])
  {
    var rest := encoded[i..];
    assert rest[1..] == encoded[i + 1..];
    if i + 2 < |encoded| {
      assert rest[1] == encoded[i + 1] && rest[2] == encoded[i + 2];
      assert rest[3..] == encoded[i + 3..];
    }
  }

  method DecodeKey(encoded: seq<Byte>) returns (key: Option<seq<Byte>>)
    ensures key == DecodeResult(encoded)
  {
    if encoded == EMPTY_NAME {
      return Some([]);
    }
    var out := [];
    var i := 0;
    ghost var all := DecodedBytes(encoded);
    assert encoded[0..] == encoded;
    while i < |encoded|
      invariant 0 <= i <= |encoded|
      invariant out + DecodedBytes(encoded[i..]) == all
      invariant CutsCharacter(encoded) <==> CutsCharacter(encoded[i..])
    {
      DecodeUnfolds(encoded, i);
      CutsUnfolds(encoded, i);
      if encoded[i] == PERCENT && i + 2 < |encoded| {
        if i + 3 < |encoded| && Continues(encoded[i + 3]) {
          return None;
        }
        var parsed := ParseHex(encoded[i + 1], encoded[i + 2]);
        if parsed.Some? {
          Regroup(out, parsed.value, DecodedBytes(encoded[i + 3..]));
          out := out + [parsed.value];
          i := i + 3;
          continue;
        }
      }
      Regroup(out, encoded[i], DecodedBytes(encoded[i + 1..]));
      out := out + [encoded[i]];
      i := i + 1;
    }
    assert out == all && !CutsCharacter(encoded);
    return Some(if IsText(out) then out else []);
  }

  // ----- printer and parser

  lemma EscapeParses(b: Byte)
    ensures ParseHex(HexDigit(b / 16), HexDigit(b % 16)) == Some(b)
  {
    assert b == 16 * (b / 16) + b % 16;
  }

  lemma {:induction false} BytesRoundTrip(key: seq<Byte>)
    ensures DecodedBytes(EncodedBytes(key)) == key
    decreases |key|
  {
    if key != [] {
      var rest := EncodedBytes(key[1..]);
      var all := EncodedByte(key[0]) + rest;
      BytesRoundTrip(key[1..]);
      EscapeParses(key[0]);
      assert DecodedStep(all) == (key[0], |EncodedByte(key[0])|);
      assert all[|EncodedByte(key[0])|..] == rest;
    }
  }

  lemma NeverPlaceholder(key: seq<Byte>)
    requires key != []
    ensures EncodedBytes(key) != EMPTY_NAME && EncodedBytes(key) != []
  {
    var all := EncodedByte(key[0]) + EncodedBytes(key[1..]);
    assert if Special(key[0]) then all[1] == HexDigit(key[0] / 16) else all[0] == key[0] != PERCENT;
  }

  /** The bytes of every name decode back. */
  lemma NameRoundTrip(key: seq<Byte>)
    ensures Decoded(Encoded(key)) == key
  {
    if key != [] {
      BytesRoundTrip(key);
      NeverPlaceholder(key);
    }
  }

  /** In text a single-byte character is followed by the start of another. */
  lemma {:induction false} AfterSingleByte(s: seq<Byte>, j: nat)
    requires IsText(s) && 0 < j < |s| && s[j - 1] < 0x80
    ensures !Continues(s[j])
    decreases |s|
  {
    var n := CharLen(s);
    var rest := s[n..];
    if j == n {
      assert s[j] == rest[0] && CharLen(rest) > 0;
    } else if j > n {
      AfterSingleByte(rest, j - n);
      assert rest[j - n] == s[j];
    }
  }

  /** No escape in a name is followed by the rest of a character. */
  lemma {:induction false} EscapesAreWhole(key: seq<Byte>)
    requires forall j :: 0 < j < |key| && key[j - 1] < 0x80 ==> !Continues(key[j])
    ensures !CutsCharacter(EncodedBytes(key))
    decreases |key|
  {
    if key != [] {
      var tail := key[1..];
      var rest := EncodedBytes(tail);
      var all := EncodedByte(key[0]) + rest;
      forall j | 0 < j < |tail| && tail[j - 1] < 0x80 ensures !Continues(tail[j]) {
        assert tail[j - 1] == key[j] && tail[j] == key[j + 1];
      }
      EscapesAreWhole(tail);
      EscapeParses(key[0]);
      assert DecodedStep(all) == (key[0], |EncodedByte(key[0])|);
      assert all[|EncodedByte(key[0])|..] == rest;
      if tail != [] {
        assert rest[0] == PERCENT || rest[0] == tail[0] == key[1];
      }
    }
  }

  /** Every key, the empty one included, decodes back from its name. */
  lemma KeyRoundTrip(key: seq<Byte>)
    requires IsText(key)
    ensures DecodeResult(Encoded(key)) == Some(key)
  {
    NameRoundTrip(key);
    if key != [] {
      NeverPlaceholder(key);
      forall j | 0 < j < |key| && key[j - 1] < 0x80 ensures !Continues(key[j]) {
        AfterSingleByte(key, j);
      }
      EscapesAreWhole(key);
    }
  }

  lemma {:induction false} SingleBytesFirst(bytes: seq<Byte>, rest: seq<Byte>)
    requires (forall b :: b in bytes ==> b < 0x80) && IsText(rest)
    ensures IsText(bytes + rest)
    decreases |bytes|
  {
    if bytes == [] {
      assert bytes + rest == rest;
    } else {
      var all, tail := bytes + rest, bytes[1..];
      assert forall b :: b in tail ==> b in bytes;
      assert all[0] == bytes[0] && bytes[0] in bytes && all[1..] == tail + rest;
      SingleBytesFirst(tail, rest);
      assert CharLen(all) == 1;
    }
  }

  /** A character of several bytes is left alone. */
  lemma {:induction false} WideIsKept(key: seq<Byte>, n: nat)
    requires n <= |key| && forall i :: 0 <= i < n ==> key[i] >= 0x80
    ensures EncodedBytes(key) == key[..n] + EncodedBytes(key[n..])
    decreases n
  {
    if n == 0 {
      assert key[0..] == key;
    } else {
      WideIsKept(key[1..], n - 1);
      assert key[1..][n - 1..] == key[n..] && key[..n] == [key[0]] + key[1..][..n - 1];
    }
  }

  lemma {:induction false} EncodedIsText(key: seq<Byte>)
    requires IsText(key)
    ensures IsText(EncodedBytes(key))
    decreases |key|
  {
    if key != [] {
      var n := CharLen(key);
      EncodedIsText(key[n..]);
      var rest := EncodedBytes(key[n..]);
      if n == 1 {
        SingleBytesFirst(EncodedByte(key[0]), rest);
      } else {
        WideIsKept(key, n);
        var all := key[..n] + rest;
        assert CharLen(all) == n && all[n..] == rest;
      }
    }
  }

  /** The name of a key is text again. */
  lemma NamesAreText(key: seq<Byte>)
    requires IsText(key)
    ensures IsText(Encoded(key))
  {
    if key == [] {
      assert EMPTY_NAME + [] == EMPTY_NAME;
      SingleBytesFirst(EMPTY_NAME, []);
    } else {
      EncodedIsText(key);
    }
  }

  /** Decoding a name fails or loses it where it is not one: a percent sign before half a
      character, and an escape that is no text by itself. */
  lemma NotEveryNameDecodes()
    ensures DecodeResult([PERCENT, 0x61, 0xC3, 0xA9]) == None
    ensures DecodeResult([PERCENT, 0x38, 0x30]) == Some([])
  {
    var escape: seq<Byte> := [PERCENT, 0x38, 0x30];
    assert DecodedStep(escape) == (0x80, 3) && escape[3..] == [];
    assert DecodedBytes(escape) == [0x80] && CharLen([0x80]) == 0;
    assert !CutsCharacter(escape[3..]) && |escape| != |EMPTY_NAME|;
  }

  lemma EncodingIsInjective(a: seq<Byte>, b: seq<Byte>)
    ensures Encoded(a) == Encoded(b) <==> a == b
  {
    NameRoundTrip(a);
    NameRoundTrip(b);
  }

  /** A name contains nothing that the file system could read as structure. */
  lemma {:induction false} NamesAreSafe(key: seq<Byte>)
    ensures Encoded(key) != []
    ensures forall b :: b in Encoded(key) ==> b == PERCENT || !Special(b)
  {
    if key != [] {
      NeverPlaceholder(key);
      BytesAreSafe(key);
    }
  }

  lemma {:induction false} BytesAreSafe(key: seq<Byte>)
    ensures forall b :: b in EncodedBytes(key) ==> b == PERCENT || !Special(b)
    decreases |key|
  {
    if key != [] {
      BytesAreSafe(key[1..]);
    }
  }

  /** No key is stored under the name of a temporary file. */
  lemma NamesAvoidTemporaries(key: seq<Byte>, suffix: seq<Byte>)
    ensures Encoded(key) != TEMP_PREFIX + suffix
  {
    NamesAreSafe(key);
    assert (TEMP_PREFIX + suffix)[0] == DOT;
  }

  // ----- the store

  /** Where writing a key stops: before or within the temporary file (`partial` is
      what it then holds), or at the rename. */
  datatype SetFault = SetSucceeds | WriteFails(partial: Option<seq<Byte>>) | RenameFails(cleaned: bool)

  class Store {
    var files: map<seq<Byte>, seq<Byte>>

    constructor ()
      ensures files == map[]
    {
      files := map[];
    }

    /** The value a reader of the key finds. */
    ghost function Lookup(key: seq<Byte>): Option<seq<Byte>>
      reads this
    {
      if Encoded(key) in files then Some(files[Encoded(key)]) else None
    }

    method Get(key: seq<Byte>) returns (value: Option<seq<Byte>>)
      ensures value == Lookup(key)
    {
      var path := EncodeKey(key);
      value := if path in files then Some(files[path]) else None;
    }

    /** Replaces a value atomically: wherever it stops, every key still has its old
        value, or, for this key once the call succeeds, the new one. */
    method Set(key: seq<Byte>, value: seq<Byte>, suffix: seq<Byte>, fault: SetFault) returns (ok: bool)
      modifies this
      ensures ok == fault.SetSucceeds?
      ensures var temp := TEMP_PREFIX + suffix;
              && (ok ==> files == old(files)[Encoded(key) := value] - {temp})
              && (!ok ==> files - {temp} == old(files) - {temp})
              && (fault.RenameFails? && fault.cleaned ==> temp !in files)
      ensures forall k :: Lookup(k) == if ok && k == key then Some(value) else old(Lookup(k))
    {
      forall k ensures Encoded(k) != TEMP_PREFIX + suffix && (Encoded(k) == Encoded(key) <==> k == key) {
        NamesAvoidTemporaries(k, suffix);
        EncodingIsInjective(k, key);
      }
      var path := EncodeKey(key);
      var temp := TEMP_PREFIX + suffix;
      match fault {
        case WriteFails(partial) =>
          if partial.Some? {
            files := files[temp := partial.value];
          }
          return false;
        case RenameFails(cleaned) =>
          files := files[temp := value];
          if cleaned {
            files := files - {temp};
          }
          return false;
        case SetSucceeds =>
          files := files[temp := value];
          files := files[path := files[temp]] - {temp};
          return true;
      }
    }

    /** Deleting a missing key succeeds. */
    method Delete(key: seq<Byte>, removable: bool) returns (ok: bool)
      modifies this
      ensures ok <==> removable || old(Lookup(key)).None?
      ensures forall k :: Lookup(k) == if ok && k == key then None else old(Lookup(k))
    {
      forall k ensures Encoded(k) == Encoded(key) <==> k == key {
        EncodingIsInjective(k, key);
      }
      var path := EncodeKey(key);
      if path in files && !removable {
        return false;
      }
      files := files - {path};
      return true;
    }
  }
}
