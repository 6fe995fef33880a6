/**
 The spool directory as a queue: files listed in key order and flattened, and what
 spilling, splitting, capping and removing do to that queue.
 */
module SpoolQueue {
  import opened SpoolKeys

  /** A JSON event; only its identity matters here. */
  type Event = nat

  type Directory = map<Key, seq<Event>>

  // ----- listings

  ghost predicate Sorted(ks: seq<Key>) {
    forall i, j :: 0 <= i < j < |ks| ==> Less(ks[i], ks[j])
  }

  /** The keys of a set, each once, in order. */
  ghost predicate IsListing(ks: seq<Key>, s: set<Key>) {
    Sorted(ks) && forall k :: k in ks <==> k in s
  }

  function Insert(ks: seq<Key>, k: Key): (r: seq<Key>)
    ensures forall x :: x in r <==> x == k || x in ks
  {
    if ks == [] then [k]
    else if Less(k, ks[0]) then [k] + ks
    else
      var rest := Insert(ks[1..], k);
      assert forall x :: x in ks <==> x == ks[0] || x in ks[1..];
      [ks[0]] + rest
  }

  lemma {:induction false} InsertKeepsSorted(ks: seq<Key>, k: Key)
    requires Sorted(ks) && k !in ks
    ensures Sorted(Insert(ks, k))
    decreases |ks|
  {
    if ks != [] {
      if Less(k, ks[0]) {
        forall j | 0 <= j < |ks| ensures Less(k, ks[j]) {
          if j > 0 {
            LessIsTransitive(k, ks[0], ks[j]);
          }
        }
      } else {
        LessIsTotal(k, ks[0]);
        InsertKeepsSorted(ks[1..], k);
        var rest := Insert(ks[1..], k);
        forall j | 0 <= j < |rest| ensures Less(ks[0], rest[j]) {
          assert rest[j] in rest;
          assert rest[j] == k || rest[j] in ks[1..];
        }
      }
    }
  }

  lemma {:induction false} ListingExists(s: set<Key>)
    ensures exists ks :: IsListing(ks, s)
  {
    if s == {} {
      assert IsListing([], s);
    } else {
      var k :| k in s;
      ListingExists(s - {k});
      var ks :| IsListing(ks, s - {k});
      InsertKeepsSorted(ks, k);
      assert IsListing(Insert(ks, k), s);
    }
  }

  ghost function Listing(s: set<Key>): (ks: seq<Key>)
    ensures IsListing(ks, s)
  {
    ListingExists(s);
    var ks :| IsListing(ks, s);
    ks
  }

  lemma SortedHasNoRepeats(ks: seq<Key>, i: nat, j: nat)
    requires Sorted(ks) && i < |ks| && j < |ks| && ks[i] == ks[j]
    ensures i == j
  {
    LessIsTotal(ks[i], ks[i]);
  }

  lemma FirstIsLeast(ks: seq<Key>, k: Key)
    requires Sorted(ks) && k in ks
    ensures ks[0] == k || Less(ks[0], k)
  {
    var i :| 0 <= i < |ks| && ks[i] == k;
  }

  lemma NoMembers(ks: seq<Key>)
    ensures ks == [] || exists k :: k in ks
  {
    if ks != [] {
      assert ks[0] in ks;
    }
  }

  lemma {:induction false} ListingsAgree(a: seq<Key>, b: seq<Key>)
    requires Sorted(a) && Sorted(b) && forall k :: k in a <==> k in b
    ensures a == b
    decreases |a|
  {
    if a == [] {
      NoMembers(b);
    } else {
      assert a[0] in a;
      assert b[0] in b;
      FirstIsLeast(a, b[0]);
      FirstIsLeast(b, a[0]);
      LessIsTotal(a[0], b[0]);
      forall k ensures k in a[1..] <==> k in b[1..] {
        TailMembers(a, k);
        TailMembers(b, k);
      }
      ListingsAgree(a[1..], b[1..]);
      assert a == [a[0]] + a[1..] && b == [b[0]] + b[1..];
    }
  }

  lemma TailMembers(ks: seq<Key>, k: Key)
    requires Sorted(ks) && ks != []
    ensures k in ks[1..] <==> k in ks && k != ks[0]
  {
    LessIsTotal(k, k);
    if k in ks && k != ks[0] {
      var i :| 0 <= i < |ks| && ks[i] == k;
      assert ks[1..][i - 1] == k;
    }
  }

  lemma ListingIsUnique(ks: seq<Key>, s: set<Key>)
    requires IsListing(ks, s)
    ensures ks == Listing(s)
  {
    ListingsAgree(ks, Listing(s));
  }

  lemma {:induction false} ListingLength(ks: seq<Key>, s: set<Key>)
    requires IsListing(ks, s)
    ensures |ks| == |s|
    decreases |ks|
  {
    if ks != [] {
      assert ks[0] in ks;
      forall k ensures k in ks[1..] <==> k in s - {ks[0]} { TailMembers(ks, k); }
      ListingLength(ks[1..], s - {ks[0]});
    } else {
      assert s == {};
    }
  }

  // ----- the queue

  function Flatten(dir: Directory, ks: seq<Key>): seq<Event>
    requires forall k :: k in ks ==> k in dir
  {
    if ks == [] then [] else dir[ks[0]] + Flatten(dir, ks[1..])
  }

  lemma {:induction false} FlattenAppend(dir: Directory, a: seq<Key>, b: seq<Key>)
    requires forall k :: k in a + b ==> k in dir
    ensures (forall k :: k in a ==> k in dir) && (forall k :: k in b ==> k in dir)
    ensures Flatten(dir, a + b) == Flatten(dir, a) + Flatten(dir, b)
    decreases |a|
  {
    assert forall k :: k in a || k in b ==> k in a + b;
    if a == [] {
      assert a + b == b;
    } else {
      assert (a + b)[1..] == a[1..] + b;
      FlattenAppend(dir, a[1..], b);
    }
  }

  lemma {:induction false} FlattenCongruent(dir: Directory, other: Directory, ks: seq<Key>)
    requires forall k :: k in ks ==> k in dir && k in other && dir[k] == other[k]
    ensures Flatten(dir, ks) == Flatten(other, ks)
    decreases |ks|
  {
    if ks != [] {
      assert ks[0] in ks;
      FlattenCongruent(dir, other, ks[1..]);
    }
  }

  lemma FlattenSplit(dir: Directory, ks: seq<Key>, n: nat)
    requires n <= |ks| && forall k :: k in ks ==> k in dir
    ensures (forall k :: k in ks[..n] ==> k in dir) && (forall k :: k in ks[n..] ==> k in dir)
    ensures Flatten(dir, ks) == Flatten(dir, ks[..n]) + Flatten(dir, ks[n..])
  {
    assert ks == ks[..n] + ks[n..];
    FlattenAppend(dir, ks[..n], ks[n..]);
  }

  lemma FlattenThree(dir: Directory, a: seq<Key>, b: seq<Key>, c: seq<Key>)
    requires forall k :: k in a || k in b || k in c ==> k in dir
    ensures forall k :: k in a + b + c ==> k in dir
    ensures Flatten(dir, a + b + c) == Flatten(dir, a) + Flatten(dir, b) + Flatten(dir, c)
  {
    FlattenAppend(dir, a + b, c);
    FlattenAppend(dir, a, b);
  }

  lemma FlattenOne(dir: Directory, k: Key)
    requires k in dir
    ensures Flatten(dir, [k]) == dir[k]
  {
    assert Flatten(dir, [k]) == dir[k] + Flatten(dir, [k][1..]);
  }

  /** The spooled events, oldest first. */
  ghost function Queue(dir: Directory): seq<Event> {
    Flatten(dir, Listing(dir.Keys))
  }

  /** No file is a part of another file. */
  ghost predicate PrefixFree(keys: set<Key>) {
    forall a, b :: a in keys && b in keys ==> !Extends(a, b)
  }

  // ----- spilling

  ghost function LastSequence(keys: set<Key>): nat {
    var ks := Listing(keys);
    if ks == [] then 0 else ks[|ks| - 1].sequence
  }

  lemma LastSequenceIsMax(keys: set<Key>, k: Key)
    requires k in keys
    ensures k.sequence <= LastSequence(keys)
  {
    var ks := Listing(keys);
    var i :| 0 <= i < |ks| && ks[i] == k;
    if i < |ks| - 1 {
      assert Less(ks[i], ks[|ks| - 1]);
    }
  }

  ghost function NewKey(dir: Directory): Key {
    Key(LastSequence(dir.Keys) + 1, [])
  }

  ghost function Spilled(dir: Directory, batch: seq<Event>): Directory {
    dir[NewKey(dir) := batch]
  }

  lemma SpilledListing(dir: Directory, batch: seq<Event>)
    ensures NewKey(dir) !in dir
    ensures Listing(Spilled(dir, batch).Keys) == Listing(dir.Keys) + [NewKey(dir)]
  {
    var ks, k := Listing(dir.Keys), NewKey(dir);
    forall x | x in dir.Keys ensures Less(x, k) {
      LastSequenceIsMax(dir.Keys, x);
    }
    LessIsTotal(k, k);
    forall i | 0 <= i < |ks| ensures Less(ks[i], k) {
      assert ks[i] in ks;
    }
    ListingIsUnique(ks + [k], Spilled(dir, batch).Keys);
  }

  /** Spilling appends at the end of the queue and keeps files apart. */
  lemma SpillAppends(dir: Directory, batch: seq<Event>)
    ensures Queue(Spilled(dir, batch)) == Queue(dir) + batch
    ensures PrefixFree(dir.Keys) ==> PrefixFree(Spilled(dir, batch).Keys)
  {
    var ks, k := Listing(dir.Keys), NewKey(dir);
    var dir' := Spilled(dir, batch);
    SpilledListing(dir, batch);
    FlattenAppend(dir', ks, [k]);
    FlattenCongruent(dir, dir', ks);
    assert Flatten(dir', [k]) == batch + Flatten(dir', [k][1..]);
    forall x | x in dir.Keys ensures x.sequence < k.sequence {
      LastSequenceIsMax(dir.Keys, x);
    }
  }

  // ----- removing from the front

  /** The directory without its first `n` files. */
  ghost function WithoutFirst(dir: Directory, n: nat): Directory
    requires n <= |dir.Keys|
  {
    ListingLength(Listing(dir.Keys), dir.Keys);
    dir - KeySet(Listing(dir.Keys)[..n])
  }

  function KeySet(ks: seq<Key>): set<Key> {
    set k | k in ks
  }

  ghost function FirstEvents(dir: Directory, n: nat): seq<Event>
    requires n <= |dir.Keys|
  {
    ListingLength(Listing(dir.Keys), dir.Keys);
    Flatten(dir, Listing(dir.Keys)[..n])
  }

  lemma RestMembers(ks: seq<Key>, n: nat, k: Key)
    requires Sorted(ks) && n <= |ks|
    ensures k in ks[n..] <==> k in ks && k !in ks[..n]
  {
    if k in ks[n..] {
      var j :| 0 <= j < |ks[n..]| && ks[n..][j] == k;
      assert ks[n + j] == k;
      forall i | 0 <= i < n ensures ks[i] != k {
        LessIsTotal(ks[i], ks[n + j]);
      }
    }
    if k in ks && k !in ks[..n] {
      assert ks == ks[..n] + ks[n..];
    }
  }

  lemma WithoutFirstListing(dir: Directory, n: nat)
    requires n <= |dir.Keys|
    ensures n <= |Listing(dir.Keys)|
    ensures Listing(WithoutFirst(dir, n).Keys) == Listing(dir.Keys)[n..]
  {
    var ks := Listing(dir.Keys);
    ListingLength(ks, dir.Keys);
    forall k ensures k in ks[n..] <==> k in WithoutFirst(dir, n).Keys {
      RestMembers(ks, n, k);
    }
    ListingIsUnique(ks[n..], WithoutFirst(dir, n).Keys);
  }

  /** Dropping files from the front drops their events from the front. */
  lemma RemovalDropsFront(dir: Directory, n: nat)
    requires n <= |dir.Keys|
    ensures Queue(dir) == FirstEvents(dir, n) + Queue(WithoutFirst(dir, n))
  {
    var rest := WithoutFirst(dir, n);
    WithoutFirstListing(dir, n);
    FlattenSplit(dir, Listing(dir.Keys), n);
    FlattenCongruent(dir, rest, Listing(rest.Keys));
  }

  lemma RemovalStaysPrefixFree(dir: Directory, n: nat)
    requires n <= |dir.Keys| && PrefixFree(dir.Keys)
    ensures PrefixFree(WithoutFirst(dir, n).Keys)
  {
  }

  // ----- splitting

  function Chunks(events: seq<Event>, size: nat): (r: seq<seq<Event>>)
    requires size > 0
    decreases |events|
  {
    if events == [] then []
    else if |events| <= size then [events]
    else [events[..size]] + Chunks(events[size..], size)
  }

  function Concat(chunks: seq<seq<Event>>): seq<Event> {
    if chunks == [] then [] else chunks[0] + Concat(chunks[1..])
  }

  function CeilDiv(n: nat, d: nat): nat
    requires d > 0
  {
    (n + d - 1) / d
  }

  lemma CeilDivStep(n: nat, d: nat)
    requires 0 < d < n
    ensures CeilDiv(n, d) == 1 + CeilDiv(n - d, d)
  {
    assert n + d - 1 == (n - d + d - 1) + d;
    DivAddsOne(n - d + d - 1, d);
  }

  lemma DivAddsOne(a: nat, d: nat)
    requires d > 0
    ensures (a + d) / d == a / d + 1
  {
    var q, r := a / d, a % d;
    assert a + d == (q + 1) * d + r;
    DivUnique(a + d, d, q + 1, r);
  }

  lemma MultiplesAreApart(x: int, d: int)
    requires d > 0
    ensures x >= 1 ==> x * d >= d
    ensures x <= -1 ==> x * d <= -d
  {
  }

  lemma DivUnique(a: nat, d: nat, q: nat, r: nat)
    requires d > 0 && r < d && a == q * d + r
    ensures a / d == q
  {
    var q', r' := a / d, a % d;
    assert a == q' * d + r';
    assert (q - q') * d == q * d - q' * d;
    MultiplesAreApart(q - q', d);
  }

  lemma {:induction false} ChunksCover(events: seq<Event>, size: nat)
    requires size > 0
    ensures Concat(Chunks(events, size)) == events
    ensures |Chunks(events, size)| == CeilDiv(|events|, size)
    ensures forall i :: 0 <= i < |Chunks(events, size)| ==> 1 <= |Chunks(events, size)[i]| <= size
    ensures forall i :: 0 <= i < |Chunks(events, size)| - 1 ==> |Chunks(events, size)[i]| == size
    decreases |events|
  {
    var chunks := Chunks(events, size);
    if events == [] {
      DivUnique(size - 1, size, 0, size - 1);
    } else if |events| <= size {
      assert Concat(chunks) == events + Concat(chunks[1..]);
      DivUnique(|events| + size - 1, size, 1, |events| - 1);
    } else {
      ChunksCover(events[size..], size);
      CeilDivStep(|events|, size);
      assert chunks[1..] == Chunks(events[size..], size);
      assert events == events[..size] + events[size..];
    }
  }

  /** `dir` with the first `n` chunks in place beside their source. */
  function WithParts(dir: Directory, k: Key, chunks: seq<seq<Event>>, n: nat): Directory
    requires n <= |chunks|
  {
    if n == 0 then dir else WithParts(dir, k, chunks, n - 1)[Child(k, n - 1) := chunks[n - 1]]
  }

  function PartKeys(k: Key, n: nat): (r: seq<Key>)
    ensures |r| == n
  {
    seq(n, i requires 0 <= i < n => Child(k, i))
  }

  function Split(dir: Directory, k: Key, chunks: seq<seq<Event>>): Directory {
    WithParts(dir, k, chunks, |chunks|) - {k}
  }

  lemma ChildIndex(k: Key, i: nat, j: nat)
    ensures Child(k, i) == Child(k, j) <==> i == j
    ensures Child(k, i) != k
  {
    var a, b := k.parts + [i + 1], k.parts + [j + 1];
    assert a[|k.parts|] == i + 1 && b[|k.parts|] == j + 1;
    assert |a| != |k.parts|;
  }

  lemma {:induction false} WithPartsContents(dir: Directory, k: Key, chunks: seq<seq<Event>>, n: nat)
    requires n <= |chunks|
    ensures WithParts(dir, k, chunks, n).Keys == dir.Keys + KeySet(PartKeys(k, n))
    ensures forall i :: 0 <= i < n ==>
              (Child(k, i) in WithParts(dir, k, chunks, n) && WithParts(dir, k, chunks, n)[Child(k, i)] == chunks[i])
    ensures forall x :: x in dir && x !in PartKeys(k, n) ==> WithParts(dir, k, chunks, n)[x] == dir[x]
  {
    if n > 0 {
      WithPartsContents(dir, k, chunks, n - 1);
      assert PartKeys(k, n) == PartKeys(k, n - 1) + [Child(k, n - 1)];
      forall i | 0 <= i < n - 1 ensures Child(k, i) != Child(k, n - 1) {
        ChildIndex(k, i, n - 1);
      }
    }
  }

  lemma PartKeysExtend(k: Key, n: nat, x: Key)
    requires x in PartKeys(k, n)
    ensures Extends(x, k) && x != k
  {
    var i :| 0 <= i < n && PartKeys(k, n)[i] == x;
    ChildTakesPlace(k, i, k);
    ChildIndex(k, i, i);
  }

  lemma SplitSorted(dir: Directory, k: Key, ks: seq<Key>, at: nat, n: nat)
    requires PrefixFree(dir.Keys) && IsListing(ks, dir.Keys) && at < |ks| && ks[at] == k
    ensures Sorted(ks[..at] + PartKeys(k, n) + ks[at + 1..])
  {
    var left, parts, right := ks[..at], PartKeys(k, n), ks[at + 1..];
    assert k in ks;
    forall i, j | 0 <= i < j < |parts| ensures Less(parts[i], parts[j]) {
      ChildrenAreOrdered(k, i, j);
    }
    forall i, x | 0 <= i < |parts| && x in left ensures Less(x, parts[i]) {
      var p :| 0 <= p < at && ks[p] == x;
      ChildTakesPlace(k, i, x);
    }
    forall i, y | 0 <= i < |parts| && y in right ensures Less(parts[i], y) {
      var p :| 0 <= p < |right| && right[p] == y;
      assert y == ks[at + 1 + p] && y in ks;
      ChildTakesPlace(k, i, y);
    }
    forall i, j | 0 <= i < j < |left + parts + right| ensures Less((left + parts + right)[i], (left + parts + right)[j]) {
      ThreeBlocks(left, parts, right, ks, i, j);
    }
  }

  /** In a prefix-free directory the parts of a file are listed in its place. */
  lemma SplitListing(dir: Directory, k: Key, chunks: seq<seq<Event>>, at: nat)
    requires PrefixFree(dir.Keys)
    requires at < |Listing(dir.Keys)| && Listing(dir.Keys)[at] == k
    ensures var ks := Listing(dir.Keys);
            Listing(Split(dir, k, chunks).Keys) == ks[..at] + PartKeys(k, |chunks|) + ks[at + 1..]
  {
    var ks := Listing(dir.Keys);
    var all := ks[..at] + PartKeys(k, |chunks|) + ks[at + 1..];
    WithPartsContents(dir, k, chunks, |chunks|);
    SplitSorted(dir, k, ks, at, |chunks|);
    forall x ensures x in all <==> x in Split(dir, k, chunks).Keys {
      SplitMembers(dir, k, ks, at, |chunks|, x);
    }
    ListingIsUnique(all, Split(dir, k, chunks).Keys);
  }

  lemma ThreeBlocks(left: seq<Key>, parts: seq<Key>, right: seq<Key>, ks: seq<Key>, i: nat, j: nat)
    requires |left| < |ks| && left == ks[..|left|] && right == ks[|left| + 1..] && Sorted(ks)
    requires forall i, j :: 0 <= i < j < |parts| ==> Less(parts[i], parts[j])
    requires forall i, x :: 0 <= i < |parts| && x in left ==> Less(x, parts[i])
    requires forall i, y :: 0 <= i < |parts| && y in right ==> Less(parts[i], y)
    requires i < j < |left + parts + right|
    ensures Less((left + parts + right)[i], (left + parts + right)[j])
  {
    var all := left + parts + right;
    var l, m := |left|, |left| + |parts|;
    if i < l {
      assert all[i] == left[i] == ks[i] && all[i] in left;
    } else if i < m {
      assert all[i] == parts[i - l];
    } else {
      assert all[i] == right[i - m] == ks[i - m + l + 1];
    }
    if j >= m {
      assert all[j] == right[j - m] == ks[j - m + l + 1] && all[j] in right;
    } else if j >= l {
      assert all[j] == parts[j - l];
    } else {
      assert all[j] == left[j] == ks[j];
    }
  }

  lemma SplitMembers(dir: Directory, k: Key, ks: seq<Key>, at: nat, n: nat, x: Key)
    requires IsListing(ks, dir.Keys) && at < |ks| && ks[at] == k
    ensures x in ks[..at] + PartKeys(k, n) + ks[at + 1..]
       <==> x in dir.Keys + KeySet(PartKeys(k, n)) - {k}
  {
    var parts := PartKeys(k, n);
    if x in parts {
      PartKeysExtend(k, n, x);
    }
    if x in ks[..at] || x in ks[at + 1..] {
      var i :| 0 <= i < |ks| && i != at && ks[i] == x;
      assert x in ks;
      if x == k {
        SortedHasNoRepeats(ks, i, at);
      }
    }
    if x in dir.Keys && x != k {
      assert x in ks;
      var i :| 0 <= i < |ks| && ks[i] == x;
      assert if i < at then ks[..at][i] == x else ks[at + 1..][i - at - 1] == x;
    }
  }

  lemma {:induction false} FlattenParts(dir: Directory, k: Key, chunks: seq<seq<Event>>, n: nat)
    requires n <= |chunks|
    requires forall i :: 0 <= i < |chunks| ==> Child(k, i) in dir && dir[Child(k, i)] == chunks[i]
    ensures forall x :: x in PartKeys(k, |chunks|)[n..] ==> x in dir
    ensures Flatten(dir, PartKeys(k, |chunks|)[n..]) == Concat(chunks[n..])
    decreases |chunks| - n
  {
    var parts := PartKeys(k, |chunks|);
    if n < |chunks| {
      FlattenParts(dir, k, chunks, n + 1);
      assert parts[n..][1..] == parts[n + 1..] && chunks[n..][1..] == chunks[n + 1..];
    }
  }

  /** The files beside the split one keep their contents. */
  lemma SplitKeepsOthers(dir: Directory, k: Key, chunks: seq<seq<Event>>, x: Key)
    requires PrefixFree(dir.Keys) && k in dir && x in dir && x != k
    ensures x in Split(dir, k, chunks) && Split(dir, k, chunks)[x] == dir[x]
  {
    WithPartsContents(dir, k, chunks, |chunks|);
    if x in PartKeys(k, |chunks|) {
      PartKeysExtend(k, |chunks|, x);
      assert false;
    }
  }

  lemma SplitHoldsChunks(dir: Directory, k: Key, chunks: seq<seq<Event>>)
    ensures forall x :: x in PartKeys(k, |chunks|) ==> x in Split(dir, k, chunks)
    ensures Flatten(Split(dir, k, chunks), PartKeys(k, |chunks|)) == Concat(chunks)
  {
    var dir', parts := Split(dir, k, chunks), PartKeys(k, |chunks|);
    WithPartsContents(dir, k, chunks, |chunks|);
    forall i | 0 <= i < |chunks| ensures Child(k, i) in dir' && dir'[Child(k, i)] == chunks[i] {
      ChildIndex(k, i, i);
    }
    FlattenParts(dir', k, chunks, 0);
    assert parts[0..] == parts && chunks[0..] == chunks;
  }

  lemma QueueAround(dir: Directory, at: nat)
    requires at < |Listing(dir.Keys)|
    ensures var ks := Listing(dir.Keys);
            && ks[at] in dir
            && (forall x :: x in ks[..at] || x in ks[at + 1..] ==> x in dir)
            && Queue(dir) == Flatten(dir, ks[..at]) + dir[ks[at]] + Flatten(dir, ks[at + 1..])
  {
    var ks := Listing(dir.Keys);
    var left, right := ks[..at], ks[at + 1..];
    assert ks == left + [ks[at]] + right;
    FlattenThree(dir, left, [ks[at]], right);
    FlattenOne(dir, ks[at]);
  }

  lemma SplitQueueAround(dir: Directory, chunks: seq<seq<Event>>, at: nat)
    requires PrefixFree(dir.Keys) && at < |Listing(dir.Keys)|
    ensures var ks := Listing(dir.Keys);
            var dir' := Split(dir, ks[at], chunks);
            && (forall x :: x in ks[..at] || x in ks[at + 1..] ==> x in dir && x in dir' && dir[x] == dir'[x])
            && Queue(dir') == Flatten(dir', ks[..at]) + Concat(chunks) + Flatten(dir', ks[at + 1..])
  {
    var ks := Listing(dir.Keys);
    var k := ks[at];
    var dir' := Split(dir, k, chunks);
    forall x | x in ks[..at] || x in ks[at + 1..] ensures x in dir && x in dir' && dir[x] == dir'[x] {
      BesideIsOther(ks, at, x);
      SplitKeepsOthers(dir, k, chunks, x);
    }
    SplitHoldsChunks(dir, k, chunks);
    SplitListing(dir, k, chunks, at);
    FlattenThree(dir', ks[..at], PartKeys(k, |chunks|), ks[at + 1..]);
  }

  /** Splitting a file, even one that is itself a part, leaves the queue alone. */
  lemma SplitKeepsQueue(dir: Directory, k: Key, size: nat)
    requires PrefixFree(dir.Keys) && k in dir && size > 0
    ensures Queue(Split(dir, k, Chunks(dir[k], size))) == Queue(dir)
  {
    var ks, chunks := Listing(dir.Keys), Chunks(dir[k], size);
    assert k in ks;
    var at :| 0 <= at < |ks| && ks[at] == k;
    QueueAround(dir, at);
    SplitQueueAround(dir, chunks, at);
    ChunksCover(dir[k], size);
    FlattenCongruent(dir, Split(dir, k, chunks), ks[..at]);
    FlattenCongruent(dir, Split(dir, k, chunks), ks[at + 1..]);
  }

  lemma BesideIsOther(ks: seq<Key>, at: nat, x: Key)
    requires Sorted(ks) && at < |ks| && (x in ks[..at] || x in ks[at + 1..])
    ensures x in ks && x != ks[at]
  {
    if x in ks[..at] {
      var i :| 0 <= i < at && ks[..at][i] == x;
      LessIsTotal(ks[i], ks[at]);
    } else {
      var i :| 0 <= i < |ks[at + 1..]| && ks[at + 1..][i] == x;
      LessIsTotal(ks[at], ks[at + 1 + i]);
    }
  }

  lemma AroundChild(k: Key, index: nat, x: Key)
    ensures Extends(x, Child(k, index)) ==> Extends(x, k)
    ensures Extends(Child(k, index), x) ==> x == k || Extends(k, x)
  {
    var c := k.parts + [index + 1];
    if Extends(Child(k, index), x) {
      assert x.parts == c[..|x.parts|];
      assert x.parts == k.parts[..|x.parts|];
    }
    if Extends(x, Child(k, index)) {
      assert k.parts == c[..|k.parts|];
    }
  }

  lemma SplitStaysPrefixFree(dir: Directory, k: Key, chunks: seq<seq<Event>>)
    requires PrefixFree(dir.Keys) && k in dir
    ensures PrefixFree(Split(dir, k, chunks).Keys)
  {
    var keys, parts := Split(dir, k, chunks).Keys, PartKeys(k, |chunks|);
    WithPartsContents(dir, k, chunks, |chunks|);
    forall a, b | a in keys && b in keys
      ensures !Extends(a, b)
    {
      if a in parts {
        var i :| 0 <= i < |parts| && parts[i] == a;
        AroundChild(k, i, b);
      }
      if b in parts {
        var j :| 0 <= j < |parts| && parts[j] == b;
        AroundChild(k, j, a);
      }
    }
  }
}
