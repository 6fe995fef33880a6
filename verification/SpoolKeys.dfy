/**
 Keys of spooled event files: a sequence number and a path of part numbers, their
 order, and the file names they are printed as and parsed from.
 */
module SpoolKeys {
  import opened Wrappers
  import opened Decimal

  /** `parts` holds one more than each printed part index, so that a file sorts
      before its own parts. */
  datatype Key = Key(sequence: nat, parts: seq<Part>)

  type Part = p: nat | p > 0 witness 1

  // ----- order

  predicate LexLess(a: seq<nat>, b: seq<nat>) {
    if b == [] then false
    else if a == [] then true
    else a[0] < b[0] || (a[0] == b[0] && LexLess(a[1..], b[1..]))
  }

  predicate Less(a: Key, b: Key) {
    a.sequence < b.sequence || (a.sequence == b.sequence && LexLess(a.parts, b.parts))
  }

  lemma {:induction false} LexTotal(a: seq<nat>, b: seq<nat>)
    ensures !LexLess(a, a)
    ensures LexLess(a, b) || a == b || LexLess(b, a)
    ensures !(LexLess(a, b) && LexLess(b, a))
    decreases |a| + |b|
  {
    if a != [] {
      LexTotal(a[1..], if b == [] then [] else b[1..]);
      if b != [] && a[1..] == b[1..] && a[0] == b[0] {
        assert a == [a[0]] + a[1..] == b;
      }
    }
  }

  lemma {:induction false} LexTransitive(a: seq<nat>, b: seq<nat>, c: seq<nat>)
    requires LexLess(a, b) && LexLess(b, c)
    ensures LexLess(a, c)
    decreases |a|
  {
    if a != [] && a[0] == b[0] == c[0] {
      LexTransitive(a[1..], b[1..], c[1..]);
    }
  }

  lemma LessIsTotal(a: Key, b: Key)
    ensures !Less(a, a)
    ensures Less(a, b) || a == b || Less(b, a)
    ensures !(Less(a, b) && Less(b, a))
  {
    LexTotal(a.parts, b.parts);
  }

  lemma LessIsTransitive(a: Key, b: Key, c: Key)
    requires Less(a, b) && Less(b, c)
    ensures Less(a, c)
  {
    if a.sequence == b.sequence == c.sequence {
      LexTransitive(a.parts, b.parts, c.parts);
    }
  }

  // ----- parts of a key

  function Child(k: Key, index: nat): Key {
    Key(k.sequence, k.parts + [index + 1])
  }

  /** `b` is a part, at any depth, of `a`. */
  predicate Extends(b: Key, a: Key) {
    a.sequence == b.sequence && a.parts < b.parts
  }

  lemma {:induction false} ExtensionIsLater(a: seq<nat>, tail: seq<nat>)
    requires tail != []
    ensures LexLess(a, a + tail)
    decreases |a|
  {
    if a != [] {
      assert (a + tail)[1..] == a[1..] + tail;
      ExtensionIsLater(a[1..], tail);
    }
  }

  lemma {:induction false} LexBeforeExtension(a: seq<nat>, b: seq<nat>, tail: seq<nat>)
    requires LexLess(a, b)
    ensures LexLess(a, b + tail)
    decreases |a|
  {
    if a != [] {
      assert (b + tail)[1..] == b[1..] + tail;
      if a[0] == b[0] {
        LexBeforeExtension(a[1..], b[1..], tail);
      }
    }
  }

  lemma PrefixCons(a: seq<nat>, b: seq<nat>)
    requires a != [] && b != [] && a[0] == b[0]
    ensures a <= b <==> a[1..] <= b[1..]
  {
    assert a == [a[0]] + a[1..] && b == [b[0]] + b[1..];
  }

  lemma {:induction false} LexAfterExtension(a: seq<nat>, b: seq<nat>, tail: seq<nat>)
    requires LexLess(a, b) && !(a <= b)
    ensures LexLess(a + tail, b)
    decreases |a|
  {
    if a == [] {
    } else {
      assert (a + tail)[1..] == a[1..] + tail;
      if a[0] == b[0] {
        PrefixCons(a, b);
        LexAfterExtension(a[1..], b[1..], tail);
      }
    }
  }

  lemma {:induction false} LexChildren(p: seq<nat>, i: nat, j: nat)
    requires i < j
    ensures LexLess(p + [i], p + [j])
    decreases |p|
  {
    if p != [] {
      assert (p + [i])[1..] == p[1..] + [i] && (p + [j])[1..] == p[1..] + [j];
      LexChildren(p[1..], i, j);
    }
  }

  /** The parts of a file take its place in the order: whatever precedes the file
      precedes its parts, and whatever follows it without being one of its parts
      follows them. */
  lemma ChildTakesPlace(k: Key, index: nat, other: Key)
    ensures Less(k, Child(k, index)) && Extends(Child(k, index), k)
    ensures Less(other, k) ==> Less(other, Child(k, index))
    ensures Less(k, other) && !Extends(other, k) ==> Less(Child(k, index), other)
  {
    var tail := [index + 1];
    ExtensionIsLater(k.parts, tail);
    if Less(other, k) && other.sequence == k.sequence {
      LexBeforeExtension(other.parts, k.parts, tail);
    }
    if Less(k, other) && !Extends(other, k) && other.sequence == k.sequence {
      LexTotal(k.parts, other.parts);
      assert !(k.parts < other.parts) && k.parts != other.parts;
      LexAfterExtension(k.parts, other.parts, tail);
    }
  }

  lemma ChildrenAreOrdered(k: Key, i: nat, j: nat)
    requires i < j
    ensures Less(Child(k, i), Child(k, j))
  {
    LexChildren(k.parts, i + 1, j + 1);
  }

  // ----- names

  const PREFIX: string := "batch-"
  const MARK: string := "-part-"

  /** The chunk index a part is printed with. */
  function Index(p: Part): nat {
    p as nat - 1
  }

  function PartNames(parts: seq<Part>): string
  {
    if parts == [] then ""
    else MARK + Pad(Index(parts[0]), 6) + PartNames(parts[1..])
  }

  /** The file stem a key is printed as. */
  function Stem(k: Key): string
  {
    PREFIX + Pad(k.sequence, 20) + PartNames(k.parts)
  }

  /** The components of `s` between occurrences of the mark. */
  function SplitMark(s: string): (r: seq<string>)
    ensures r != []
    decreases |s|
  {
    if |s| < |MARK| then [s]
    else if MARK <= s then [[]] + SplitMark(s[|MARK|..])
    else
      var rest := SplitMark(s[1..]);
      [[s[0]] + rest[0]] + rest[1..]
  }

  function ParseParts(components: seq<string>): Option<seq<Part>> {
    if components == [] then Some([])
    else
      match ParseUnsigned(components[0], U32_MAX)
      case None => None
      case Some(p) =>
        if p + 1 > U32_MAX then None
        else
          match ParseParts(components[1..])
          case None => None
          case Some(rest) => Some([p + 1] + rest)
  }

  /** The sort key of a file stem; `None` for names of another shape. */
  function ParseStem(stem: string): Option<Key> {
    if !(PREFIX <= stem) then None
    else
      var components := SplitMark(stem[|PREFIX|..]);
      match ParseUnsigned(components[0], U64_MAX)
      case None => None
      case Some(sequence) =>
        match ParseParts(components[1..])
        case None => None
        case Some(parts) => Some(Key(sequence, parts))
  }

  /** Keys whose printed names parse back. */
  predicate InRange(k: Key) {
    k.sequence <= U64_MAX && Small(k.parts)
  }

  predicate Small(parts: seq<Part>) {
    forall i :: 0 <= i < |parts| ==> parts[i] <= U32_MAX
  }

  /** A digit string before the mark is a component of its own. */
  lemma {:induction false} SplitAfterDigits(digits: string, rest: string)
    requires AllDigits(digits)
    requires rest == [] || MARK <= rest
    ensures SplitMark(digits + rest) == [digits] + (if rest == [] then [] else SplitMark(rest[|MARK|..]))
    decreases |digits|
  {
    var s := digits + rest;
    if digits == [] {
      assert s == rest;
    } else {
      assert digits[0] in digits;
      assert s[0] == digits[0] && s[1..] == digits[1..] + rest;
      assert MARK[0] == '-' && !(MARK <= s);
      if |s| >= |MARK| {
        SplitAfterDigits(digits[1..], rest);
        assert [s[0]] + digits[1..] == digits;
        var tail := if rest == [] then [] else SplitMark(rest[|MARK|..]);
        assert SplitMark(s[1..]) == [digits[1..]] + tail;
        assert SplitMark(s) == [[s[0]] + digits[1..]] + tail;
      } else {
        assert rest == [] && s == digits;
      }
    }
  }

  function PartComponents(parts: seq<Part>): seq<string>
  {
    if parts == [] then [] else [Pad(Index(parts[0]), 6)] + PartComponents(parts[1..])
  }

  lemma {:induction false} PartNamesSnoc(parts: seq<Part>, p: Part)
    ensures PartNames(parts + [p]) == PartNames(parts) + MARK + Pad(Index(p), 6)
    decreases |parts|
  {
    var all := parts + [p];
    if parts == [] {
      assert all[1..] == [];
    } else {
      assert all[1..] == parts[1..] + [p];
      PartNamesSnoc(parts[1..], p);
    }
  }

  lemma {:induction false} SplitNames(digits: string, parts: seq<Part>)
    requires AllDigits(digits)
    ensures SplitMark(digits + PartNames(parts)) == [digits] + PartComponents(parts)
    decreases |parts|
  {
    if parts == [] {
      SplitAfterDigits(digits, "");
    } else {
      var head := Pad(Index(parts[0]), 6);
      PadIsNumeral(Index(parts[0]), 6);
      var rest := PartNames(parts);
      assert rest == MARK + (head + PartNames(parts[1..]));
      assert rest[|MARK|..] == head + PartNames(parts[1..]);
      SplitAfterDigits(digits, rest);
      SplitNames(head, parts[1..]);
    }
  }

  lemma ParseOnePart(p: Part, rest: seq<string>)
    ensures ParseParts([Pad(Index(p), 6)] + rest)
         == if p > U32_MAX || ParseParts(rest).None? then None else Some([p] + ParseParts(rest).value)
  {
    ParsePad(Index(p), 6, U32_MAX);
    assert ([Pad(Index(p), 6)] + rest)[1..] == rest;
  }

  lemma {:induction false} ParseComponents(parts: seq<Part>)
    ensures ParseParts(PartComponents(parts))
         == if Small(parts) then Some(parts) else None
    decreases |parts|
  {
    if parts != [] {
      ParseOnePart(parts[0], PartComponents(parts[1..]));
      ParseComponents(parts[1..]);
      assert parts == [parts[0]] + parts[1..];
      assert Small(parts) <==> parts[0] <= U32_MAX && Small(parts[1..]);
    }
  }

  /** A printed name parses back to its key exactly when the key is in range; the
      largest part index a name can carry is two below 2^32. */
  lemma NamesRoundTrip(k: Key)
    ensures ParseStem(Stem(k)) == if InRange(k) then Some(k) else None
  {
    var digits := Pad(k.sequence, 20);
    PadIsNumeral(k.sequence, 20);
    ParsePad(k.sequence, 20, U64_MAX);
    assert Stem(k) == PREFIX + (digits + PartNames(k.parts));
    assert Stem(k)[|PREFIX|..] == digits + PartNames(k.parts);
    SplitNames(digits, k.parts);
    ParseComponents(k.parts);
  }

  /** Distinct keys in range have distinct names. */
  lemma NamesAreDistinct(a: Key, b: Key)
    requires InRange(a) && InRange(b) && a != b
    ensures Stem(a) != Stem(b)
  {
    NamesRoundTrip(a);
    NamesRoundTrip(b);
  }

  /** A chunk's name is its source's name with the padded chunk index appended. */
  lemma ChildName(k: Key, index: nat)
    ensures Stem(Child(k, index)) == Stem(k) + "-part-" + Pad(index, 6)
  {
    PartNamesSnoc(k.parts, index + 1);
  }

  /** The first batch ever spilled, and its first chunk. */
  lemma FirstNames()
    ensures Stem(Key(1, [])) == "batch-" + "00000000000000000001"
    ensures Stem(Child(Key(1, []), 0)) == "batch-" + "00000000000000000001" + "-part-" + "000000"
  {
    FirstNumerals();
    ChildName(Key(1, []), 0);
    assert Stem(Key(1, [])) == "batch-" + Pad(1, 20);
  }

  lemma FirstNumerals()
    ensures Pad(1, 20) == "00000000000000000001" && Pad(0, 6) == "000000"
  {
  }
}
