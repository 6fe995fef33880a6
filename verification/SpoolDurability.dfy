/**
 What the spool keeps when file-system calls fail: an interrupted split leaves a file
 together with some of its parts, so events may be stored twice but never vanish.
 */
module SpoolDurability {
  import opened SpoolKeys
  import opened SpoolQueue
  import opened EventSpool

  function EventsOf(s: seq<Event>): set<Event> {
    set e | e in s
  }

  /** Every event that some spooled file holds. */
  function EventsIn(dir: Directory): set<Event> {
    set k, e | k in dir && e in dir[k] :: e
  }

  /** A file that is a part of another spooled file is a direct part of it and only
      repeats events of it: what interrupted splits leave behind. */
  ghost predicate Shadowed(dir: Directory) {
    forall a, b :: a in dir && b in dir && Extends(b, a) ==>
      |b.parts| == |a.parts| + 1 && EventsOf(dir[b]) <= EventsOf(dir[a])
  }

  lemma PrefixFreeIsShadowed(dir: Directory)
    requires PrefixFree(dir.Keys)
    ensures Shadowed(dir)
  {
    forall a, b | a in dir && b in dir ensures !Extends(b, a) {
      assert a in dir.Keys && b in dir.Keys;
    }
  }

  lemma {:induction false} FlattenHolds(dir: Directory, ks: seq<Key>, e: Event)
    requires forall k :: k in ks ==> k in dir
    ensures e in Flatten(dir, ks) <==> exists k :: k in ks && e in dir[k]
    decreases |ks|
  {
    if ks != [] {
      FlattenHolds(dir, ks[1..], e);
      if k :| k in ks && e in dir[k] {
        assert k == ks[0] || k in ks[1..];
      }
    }
  }

  lemma QueueHoldsAll(dir: Directory)
    ensures EventsOf(Queue(dir)) == EventsIn(dir)
  {
    forall e ensures e in EventsOf(Queue(dir)) <==> e in EventsIn(dir) {
      FlattenHolds(dir, Listing(dir.Keys), e);
    }
  }

  lemma EventsOfAppend(a: seq<Event>, b: seq<Event>)
    ensures EventsOf(a + b) == EventsOf(a) + EventsOf(b)
  {
  }

  /** Wherever a spill stops, its events and the old ones are spooled or evicted. */
  lemma SpillLosesNothing(dir: Directory, batch: seq<Event>, maxFiles: nat, fault: SpillFault)
    requires Shadowed(dir)
    ensures var r := SpillResult(dir, batch, maxFiles, fault);
            && Shadowed(r.files)
            && (CannotSpill(dir, fault) ==> !r.ok && r.files == dir && r.evicted == [])
            && (!CannotSpill(dir, fault) ==>
                  EventsIn(dir) + EventsOf(batch) == EventsOf(r.evicted) + EventsIn(r.files))
  {
    var r := SpillResult(dir, batch, maxFiles, fault);
    SpillIsFifo(dir, batch, maxFiles, fault);
    if !CannotSpill(dir, fault) {
      QueueHoldsAll(dir);
      QueueHoldsAll(r.files);
      EventsOfAppend(Queue(dir), batch);
      EventsOfAppend(r.evicted, Queue(r.files));
      SpilledIsShadowed(dir, batch);
    }
  }

  lemma SpilledIsShadowed(dir: Directory, batch: seq<Event>)
    requires Shadowed(dir)
    ensures Shadowed(Spilled(dir, batch))
  {
    forall x | x in dir.Keys ensures x.sequence < NewKey(dir).sequence {
      LastSequenceIsMax(dir.Keys, x);
    }
  }

  /** The oldest file is a part of no other. */
  lemma OldestHasNoSource(dir: Directory, a: Key)
    requires Listing(dir.Keys) != [] && a in dir
    ensures !Extends(Listing(dir.Keys)[0], a)
  {
    var k := Listing(dir.Keys)[0];
    assert a in Listing(dir.Keys);
    FirstIsLeast(Listing(dir.Keys), a);
    if Extends(k, a) {
      ExtensionIsLater(a.parts, k.parts[|a.parts|..]);
      assert a.parts + k.parts[|a.parts|..] == k.parts;
      LessIsTotal(a, k);
    }
  }

  lemma {:induction false} ConcatHolds(chunks: seq<seq<Event>>, i: nat, e: Event)
    requires i < |chunks| && e in chunks[i]
    ensures e in Concat(chunks)
    decreases |chunks|
  {
    if i > 0 {
      assert chunks[1..][i - 1] == chunks[i];
      ConcatHolds(chunks[1..], i - 1, e);
    }
  }

  lemma {:induction false} ConcatFinds(chunks: seq<seq<Event>>, e: Event) returns (i: nat)
    requires e in Concat(chunks)
    ensures i < |chunks| && e in chunks[i]
    decreases |chunks|
  {
    if e in chunks[0] {
      i := 0;
    } else {
      var j := ConcatFinds(chunks[1..], e);
      i := j + 1;
    }
  }

  /** Renaming `n` parts into place loses nothing and keeps parts shadowed. */
  lemma PartsLoseNothing(dir: Directory, k: Key, size: nat, n: nat)
    requires Shadowed(dir) && k in dir && size > 0 && n <= |Chunks(dir[k], size)|
    requires forall a :: a in dir ==> !Extends(k, a)
    ensures var dir' := WithParts(dir, k, Chunks(dir[k], size), n);
            Shadowed(dir') && k in dir' && dir'[k] == dir[k] && EventsIn(dir') == EventsIn(dir)
  {
    var chunks := Chunks(dir[k], size);
    var dir' := WithParts(dir, k, chunks, n);
    WithPartsContents(dir, k, chunks, n);
    ChunksCover(dir[k], size);
    if k in PartKeys(k, n) {
      PartKeysExtend(k, n, k);
    }
    forall x | x in PartKeys(k, n) ensures Extends(x, k) && |x.parts| == |k.parts| + 1 && EventsOf(dir'[x]) <= EventsOf(dir[k]) {
      var i :| 0 <= i < n && PartKeys(k, n)[i] == x;
      PartKeysExtend(k, n, x);
      forall e | e in chunks[i] ensures e in dir[k] {
        ConcatHolds(chunks, i, e);
      }
    }
    forall a, b | a in dir' && b in dir' && Extends(b, a)
      ensures |b.parts| == |a.parts| + 1 && EventsOf(dir'[b]) <= EventsOf(dir'[a])
    {
      PartsStayShadowed(dir, k, n, a, b);
    }
    forall e ensures e in EventsIn(dir') <==> e in EventsIn(dir) {
      if e in EventsIn(dir') {
        var x :| x in dir' && e in dir'[x];
        if x in PartKeys(k, n) {
          assert e in EventsOf(dir'[x]);
          assert e in dir[k];
        }
      }
      if e in EventsIn(dir) {
        var x :| x in dir && e in dir[x];
        if x in PartKeys(k, n) {
          assert e in EventsOf(dir[x]);
          assert e in dir'[k];
        } else {
          assert e in dir'[x];
        }
      }
    }
  }

  /** How extensions can arise beside new parts of `k`: only the old ones, and the
      parts themselves under `k`. */
  lemma PartsStayShadowed(dir: Directory, k: Key, n: nat, a: Key, b: Key)
    requires Shadowed(dir) && k in dir && (forall x :: x in dir ==> !Extends(k, x))
    requires a in dir || a in PartKeys(k, n)
    requires b in dir || b in PartKeys(k, n)
    requires Extends(b, a)
    ensures a !in PartKeys(k, n)
    ensures b in PartKeys(k, n) ==> a == k
    ensures b !in PartKeys(k, n) ==> a in dir && b in dir
  {
    if b in PartKeys(k, n) {
      var j :| 0 <= j < n && PartKeys(k, n)[j] == b;
      AroundChild(k, j, a);
    }
    forall i: nat ensures !Extends(b, Child(k, i)) {
      AroundChild(k, i, b);
    }
  }

  /** Wherever a split of the oldest file stops, exactly the same events are stored. */
  lemma SplitLosesNothing(dir: Directory, size: nat, fault: SplitFault)
    requires Shadowed(dir) && Listing(dir.Keys) != []
    ensures var k := Listing(dir.Keys)[0];
            && k in dir
            && var r := SplitResult(dir, k, dir[k], size, fault);
               Shadowed(r.files) && EventsIn(r.files) == EventsIn(dir)
  {
    var k := Listing(dir.Keys)[0];
    assert k in Listing(dir.Keys);
    if size > 0 && !fault.SplitWriteFails? {
      var chunks := Chunks(dir[k], size);
      forall a | a in dir ensures !Extends(k, a) {
        OldestHasNoSource(dir, a);
      }
      var n := if fault.SplitStopsAfter? then Min(fault.renamed, |chunks|) else |chunks|;
      PartsLoseNothing(dir, k, size, n);
      if !fault.SplitStopsAfter? {
        SourceIsCovered(dir, k, size);
      }
    }
  }

  /** Once every part is in place the source repeats only what the parts hold. */
  lemma SourceIsCovered(dir: Directory, k: Key, size: nat)
    requires k in dir && size > 0
    ensures var chunks := Chunks(dir[k], size);
            EventsIn(Split(dir, k, chunks)) == EventsIn(WithParts(dir, k, chunks, |chunks|))
  {
    var chunks := Chunks(dir[k], size);
    var whole, rest := WithParts(dir, k, chunks, |chunks|), Split(dir, k, chunks);
    WithPartsContents(dir, k, chunks, |chunks|);
    ChunksCover(dir[k], size);
    if k in PartKeys(k, |chunks|) {
      PartKeysExtend(k, |chunks|, k);
    }
    forall e | e in EventsIn(whole) ensures e in EventsIn(rest) {
      var x :| x in whole && e in whole[x];
      if x == k {
        var i := ConcatFinds(chunks, e);
        ChildIndex(k, i, i);
        assert Child(k, i) in rest && e in rest[Child(k, i)];
      } else {
        assert x in rest && e in rest[x];
      }
    }
  }

  lemma RemovalKeepsOthers(dir: Directory, k: Key)
    requires Shadowed(dir) && k in dir
    ensures Shadowed(dir - {k})
    ensures EventsIn(dir) == EventsOf(dir[k]) + EventsIn(dir - {k})
  {
    forall e | e in EventsIn(dir) ensures e in EventsOf(dir[k]) + EventsIn(dir - {k}) {
      var x :| x in dir && e in dir[x];
      if x != k {
        var rest := dir - {k};
        assert x in rest && e in rest[x];
      }
    }
  }
}
