/**
 The durable event spool: a directory of batches that is appended to, split, capped
 and replayed, with every file-system call able to fail. A failed call leaves behind
 whatever had reached the disk.
 */
module EventSpool {
  import opened Wrappers
  import opened Decimal
  import opened SpoolKeys
  import opened SpoolQueue

  /** Where a spill stops: before the batch is renamed into place, after it, or
      while the cap is being enforced, with `removed` files already gone. */
  datatype SpillFault = SpillSucceeds | SpillWriteFails | SpillSyncFails | SpillCapFails(removed: nat)

  /** Where a split stops: before any rename, after `renamed` of them, or at the
      final sync. */
  datatype SplitFault = SplitSucceeds | SplitWriteFails | SplitStopsAfter(renamed: nat) | SplitSyncFails

  function Min(a: nat, b: nat): nat {
    if a <= b then a else b
  }

  /** How many files the cap takes away. */
  function Excess(dir: Directory, maxFiles: nat): nat {
    if |dir.Keys| > maxFiles then |dir.Keys| - maxFiles else 0
  }

  /** The outcome of a spill; `evicted` are the events the cap took away. */
  datatype Spill = Spill(files: Directory, ok: bool, evicted: seq<Event>)

  /** How many files a spill removes before it stops. */
  function Removals(added: Directory, maxFiles: nat, fault: SpillFault): (n: nat)
    ensures n <= |added.Keys|
  {
    if fault.SpillSyncFails? then 0
    else if fault.SpillCapFails? then Min(fault.removed, Excess(added, maxFiles))
    else Excess(added, maxFiles)
  }

  ghost function Trimmed(added: Directory, n: nat, ok: bool): Spill
    requires n <= |added.Keys|
  {
    Spill(WithoutFirst(added, n), ok, FirstEvents(added, n))
  }

  ghost predicate CannotSpill(dir: Directory, fault: SpillFault) {
    LastSequence(dir.Keys) >= U64_MAX || fault.SpillWriteFails?
  }

  ghost function SpillResult(dir: Directory, batch: seq<Event>, maxFiles: nat, fault: SpillFault): Spill {
    if CannotSpill(dir, fault) then Spill(dir, false, [])
    else
      var added := Spilled(dir, batch);
      Trimmed(added, Removals(added, maxFiles, fault), fault.SpillSucceeds?)
  }

  datatype SplitOutcome = SplitOutcome(files: Directory, ok: bool)

  ghost function SplitResult(dir: Directory, k: Key, events: seq<Event>, size: nat, fault: SplitFault): SplitOutcome {
    if size == 0 || k !in dir || fault.SplitWriteFails? then SplitOutcome(dir, false)
    else
      var chunks := Chunks(events, size);
      match fault
      case SplitStopsAfter(renamed) => SplitOutcome(WithParts(dir, k, chunks, Min(renamed, |chunks|)), false)
      case SplitSyncFails => SplitOutcome(Split(dir, k, chunks), false)
      case _ => SplitOutcome(Split(dir, k, chunks), true)
  }

  class Spool {
    var files: Directory
    const maxFiles: nat

    constructor (files: Directory, maxFiles: nat)
      ensures this.files == files && this.maxFiles == maxFiles
    {
      this.files := files;
      this.maxFiles := maxFiles;
    }

    /** The sorted scan of the directory, which yields its files in any order. */
    method Entries() returns (ks: seq<Key>)
      ensures ks == Listing(files.Keys)
    {
      ks := [];
      var remaining := files.Keys;
      while remaining != {}
        invariant remaining <= files.Keys
        invariant IsListing(ks, files.Keys - remaining)
        decreases remaining
      {
        var k :| k in remaining;
        InsertKeepsSorted(ks, k);
        ks := Insert(ks, k);
        remaining := remaining - {k};
      }
      assert files.Keys - remaining == files.Keys;
      ListingIsUnique(ks, files.Keys);
    }

    method MaxSequence() returns (last: nat)
      ensures last == LastSequence(files.Keys)
    {
      var ks := Entries();
      last := 0;
      for i := 0 to |ks|
        invariant i > 0 ==> last == ks[i - 1].sequence
        invariant i == 0 ==> last == 0
      {
        assert i > 0 ==> Less(ks[i - 1], ks[i]);
        if ks[i].sequence > last {
          last := ks[i].sequence;
        }
      }
    }

    /** Removes `count` files from the front. */
    method RemoveFront(entries: seq<Key>, count: nat)
      requires entries == Listing(files.Keys) && count <= |files.Keys|
      modifies this`files
      ensures files == WithoutFirst(old(files), count)
    {
      ListingLength(entries, files.Keys);
      for i := 0 to count
        invariant files == old(files) - KeySet(entries[..i])
      {
        files := files - {entries[i]};
        OneMoreKey(entries, i);
        SubtractTwice(old(files), KeySet(entries[..i]), {entries[i]});
      }
    }

    method EnforceCap(fault: SpillFault) returns (ghost result: Spill)
      modifies this`files
      ensures result == Trimmed(old(files), Removals(old(files), maxFiles, fault), fault.SpillSucceeds?)
      ensures files == result.files
    {
      result := Trimmed(files, Removals(files, maxFiles, fault), fault.SpillSucceeds?);
      if fault.SpillSyncFails? {
        NothingRemoved(files);
        return;
      }
      var entries := Entries();
      ListingLength(entries, files.Keys);
      var toRemove := if |entries| > maxFiles then |entries| - maxFiles else 0;
      RemoveFront(entries, if fault.SpillCapFails? then Min(fault.removed, toRemove) else toRemove);
    }

    method Append(batch: seq<Event>, fault: SpillFault) returns (ok: bool, ghost evicted: seq<Event>)
      modifies this`files
      ensures Spill(files, ok, evicted) == SpillResult(old(files), batch, maxFiles, fault)
    {
      var last := MaxSequence();
      if last >= U64_MAX || fault.SpillWriteFails? {
        return false, [];
      }
      ghost var before := files;
      files := files[Key(last + 1, []) := batch];
      assert files == Spilled(before, batch) && !CannotSpill(before, fault);
      ghost var result := EnforceCap(fault);
      return fault.SpillSucceeds?, result.evicted;
    }

    method ReplaceWithChunks(k: Key, events: seq<Event>, size: nat, fault: SplitFault) returns (ok: bool)
      modifies this`files
      ensures SplitOutcome(files, ok) == SplitResult(old(files), k, events, size, fault)
    {
      if size == 0 {
        return false;
      }
      if k !in files || fault.SplitWriteFails? {
        return false;
      }
      var chunks := Chunks(events, size);
      var renames := if fault.SplitStopsAfter? then Min(fault.renamed, |chunks|) else |chunks|;
      for i := 0 to renames
        invariant files == WithParts(old(files), k, chunks, i)
      {
        files := files[Child(k, i) := chunks[i]];
      }
      if fault.SplitStopsAfter? {
        return false;
      }
      files := files - {k};
      return !fault.SplitSyncFails?;
    }

    /** Removing a replayed file; a failure to do so is ignored. */
    method RemoveFile(k: Key, removed: bool)
      modifies this`files
      ensures files == if removed then old(files) - {k} else old(files)
    {
      if removed {
        files := files - {k};
      }
    }

    method OldestBatch() returns (oldest: Option<(Key, seq<Event>)>)
      ensures oldest.None? <==> files == map[]
      ensures oldest.Some? ==>
                && Listing(files.Keys) != []
                && oldest.value.0 == Listing(files.Keys)[0]
                && oldest.value.0 in files
                && oldest.value.1 == files[oldest.value.0]
    {
      var ks := Entries();
      if ks == [] {
        assert files.Keys == {};
        return None;
      }
      assert ks[0] in ks;
      return Some((ks[0], files[ks[0]]));
    }
  }

  lemma OneMoreKey(ks: seq<Key>, i: nat)
    requires i < |ks|
    ensures KeySet(ks[..i + 1]) == KeySet(ks[..i]) + {ks[i]}
  {
    assert ks[..i + 1] == ks[..i] + [ks[i]];
  }

  lemma SubtractTwice(dir: Directory, a: set<Key>, b: set<Key>)
    ensures dir - a - b == dir - (a + b)
  {
  }

  lemma NothingRemoved(dir: Directory)
    ensures WithoutFirst(dir, 0) == dir && FirstEvents(dir, 0) == []
  {
    assert Listing(dir.Keys)[..0] == [];
    assert dir - {} == dir;
  }

  // ----- first in, first out, over whole runs

  /** One completed operation on the spool. `Spill` and `Remove` name whole
      batches; a split repairs any file. */
  datatype Op = OpSpill(batch: seq<Event>) | OpSplit(k: Key, size: nat) | OpRemoveOldest

  ghost function Applied(dir: Directory, op: Op, maxFiles: nat): Directory {
    match op
    case OpSpill(batch) => SpillResult(dir, batch, maxFiles, SpillSucceeds).files
    case OpSplit(k, size) => if k in dir then SplitResult(dir, k, dir[k], size, SplitSucceeds).files else dir
    case OpRemoveOldest => if |dir.Keys| > 0 then WithoutFirst(dir, 1) else dir
  }

  /** The events an operation adds at the end, and those it takes from the front. */
  ghost function Entering(dir: Directory, op: Op): seq<Event> {
    if op.OpSpill? && !CannotSpill(dir, SpillSucceeds) then op.batch else []
  }

  ghost function Leaving(dir: Directory, op: Op, maxFiles: nat): seq<Event> {
    match op
    case OpSpill(batch) => SpillResult(dir, batch, maxFiles, SpillSucceeds).evicted
    case OpSplit(_, _) => []
    case OpRemoveOldest => if |dir.Keys| > 0 then FirstEvents(dir, 1) else []
  }

  lemma TrimmedLeavesMax(added: Directory, n: nat)
    requires n <= |added.Keys|
    ensures |WithoutFirst(added, n).Keys| == |added.Keys| - n
  {
    WithoutFirstListing(added, n);
    ListingLength(Listing(added.Keys), added.Keys);
    ListingLength(Listing(WithoutFirst(added, n).Keys), WithoutFirst(added, n).Keys);
  }

  /** A spill appends its batch and evicts whole files from the front, wherever it
      stops; one that never reaches the disk changes nothing. */
  lemma SpillIsFifo(dir: Directory, batch: seq<Event>, maxFiles: nat, fault: SpillFault)
    ensures var r := SpillResult(dir, batch, maxFiles, fault);
            && (CannotSpill(dir, fault) ==> !r.ok && r.files == dir && r.evicted == [])
            && (!CannotSpill(dir, fault) ==> Queue(dir) + batch == r.evicted + Queue(r.files))
            && (r.ok ==> !CannotSpill(dir, fault) && |r.files.Keys| <= maxFiles)
            && (PrefixFree(dir.Keys) ==> PrefixFree(r.files.Keys))
  {
    if !CannotSpill(dir, fault) {
      var added := Spilled(dir, batch);
      var n := Removals(added, maxFiles, fault);
      SpillAppends(dir, batch);
      RemovalDropsFront(added, n);
      TrimmedLeavesMax(added, n);
      if PrefixFree(dir.Keys) {
        RemovalStaysPrefixFree(added, n);
      }
    }
  }

  /** How many files a spill that stops at `fault` evicts from `count` of them. */
  function Evictions(count: nat, maxFiles: nat, fault: SpillFault): nat {
    var excess := if count > maxFiles then count - maxFiles else 0;
    match fault
    case SpillSyncFails => 0
    case SpillCapFails(removed) => Min(removed, excess)
    case _ => excess
  }

  /** A spill succeeds if and only if no call fails and the next number has a file name;
      it then leaves exactly as many files as the cap allows. It adds one file, unless it
      never reaches the disk. */
  lemma SpillIsExact(dir: Directory, batch: seq<Event>, maxFiles: nat, fault: SpillFault)
    ensures var r, reaches := SpillResult(dir, batch, maxFiles, fault), !fault.SpillWriteFails? && InRange(NewKey(dir));
            && (r.ok <==> fault.SpillSucceeds? && InRange(NewKey(dir)))
            && (!reaches ==> r.files == dir && r.evicted == [])
            && (reaches ==> |r.files.Keys| == |dir.Keys| + 1 - Evictions(|dir.Keys| + 1, maxFiles, fault))
            && (r.ok ==> |r.files.Keys| == Min(|dir.Keys| + 1, maxFiles))
  {
    if !CannotSpill(dir, fault) {
      var added := Spilled(dir, batch);
      AddsOneFile(dir, batch);
      EvictionsAre(added, maxFiles, fault, |dir.Keys| + 1);
      TrimmedLeavesMax(added, Removals(added, maxFiles, fault));
    }
  }

  lemma AddsOneFile(dir: Directory, batch: seq<Event>)
    ensures |Spilled(dir, batch).Keys| == |dir.Keys| + 1
  {
    SpilledListing(dir, batch);
    assert Spilled(dir, batch).Keys == dir.Keys + {NewKey(dir)};
  }

  lemma EvictionsAre(added: Directory, maxFiles: nat, fault: SpillFault, count: nat)
    requires |added.Keys| == count
    ensures !fault.SpillWriteFails? ==> Removals(added, maxFiles, fault) == Evictions(count, maxFiles, fault)
  {
  }

  /** A new file's number is one more than the greatest in use, or 1. */
  lemma NewKeyIsNext(dir: Directory)
    ensures NewKey(dir).parts == [] && forall k :: k in dir ==> k.sequence < NewKey(dir).sequence
    ensures NewKey(dir).sequence == 1 || exists k :: k in dir && NewKey(dir).sequence == k.sequence + 1
  {
    forall k | k in dir ensures k.sequence < NewKey(dir).sequence {
      LastSequenceIsMax(dir.Keys, k);
    }
    var ks := Listing(dir.Keys);
    if ks != [] {
      var k := ks[|ks| - 1];
      assert k in ks && k in dir.Keys;
      assert NewKey(dir).sequence == k.sequence + 1;
    }
  }

  /** Which files a split leaves: its parts so far, each with its chunk; the source until
      all are in place; every other file as it was. */
  lemma SplitIsExact(dir: Directory, k: Key, events: seq<Event>, size: nat, fault: SplitFault)
    requires k in dir && size > 0
    ensures var r, chunks := SplitResult(dir, k, events, size, fault), Chunks(events, size);
            var n := if fault.SplitWriteFails? then 0 else if fault.SplitStopsAfter? then Min(fault.renamed, |chunks|) else |chunks|;
            && (r.ok <==> fault.SplitSucceeds?)
            && (k in r.files <==> fault.SplitWriteFails? || fault.SplitStopsAfter?)
            && (forall i: nat :: i < n ==> Child(k, i) in r.files && r.files[Child(k, i)] == chunks[i])
            && (forall x :: x != k && (forall i: nat :: i < n ==> x != Child(k, i)) ==>
                  (x in r.files <==> x in dir) && (x in dir ==> r.files[x] == dir[x]))
  {
    var chunks := Chunks(events, size);
    if !fault.SplitWriteFails? {
      var n := if fault.SplitStopsAfter? then Min(fault.renamed, |chunks|) else |chunks|;
      WithPartsContents(dir, k, chunks, n);
      forall i: nat | i < n ensures Child(k, i) != k && Child(k, i) == PartKeys(k, n)[i] {
        ChildIndex(k, i, i);
      }
      forall x | x != k && forall i: nat :: i < n ==> x != Child(k, i) ensures x !in PartKeys(k, n) {
      }
    }
  }

  /** Each operation moves the queue as a queue. */
  lemma StepIsFifo(dir: Directory, op: Op, maxFiles: nat)
    requires PrefixFree(dir.Keys)
    ensures Queue(dir) + Entering(dir, op) == Leaving(dir, op, maxFiles) + Queue(Applied(dir, op, maxFiles))
    ensures PrefixFree(Applied(dir, op, maxFiles).Keys)
  {
    Unmoved(Queue(dir));
    match op {
      case OpSpill(batch) =>
        SpillIsFifo(dir, batch, maxFiles, SpillSucceeds);
      case OpSplit(k, size) =>
        if k in dir && size > 0 {
          SplitKeepsQueue(dir, k, size);
          SplitStaysPrefixFree(dir, k, Chunks(dir[k], size));
        }
      case OpRemoveOldest =>
        if |dir.Keys| > 0 {
          RemovalDropsFront(dir, 1);
          RemovalStaysPrefixFree(dir, 1);
        }
    }
  }

  lemma Unmoved(q: seq<Event>)
    ensures q + [] == q == [] + q
  {
  }

  /** Two moves of a queue in a row are one move. */
  lemma MovesCompose(q0: seq<Event>, in0: seq<Event>, out0: seq<Event>, q1: seq<Event>,
                     in1: seq<Event>, out1: seq<Event>, q2: seq<Event>)
    requires q0 + in0 == out0 + q1 && q1 + in1 == out1 + q2
    ensures q0 + (in0 + in1) == (out0 + out1) + q2
  {
    assert q0 + (in0 + in1) == (q0 + in0) + in1;
    assert (out0 + q1) + in1 == out0 + (q1 + in1);
    assert out0 + (out1 + q2) == (out0 + out1) + q2;
  }

  ghost function RunOps(dir: Directory, ops: seq<Op>, maxFiles: nat): Directory {
    if ops == [] then dir else Applied(RunOps(dir, ops[..|ops| - 1], maxFiles), ops[|ops| - 1], maxFiles)
  }

  ghost function Entered(dir: Directory, ops: seq<Op>, maxFiles: nat): seq<Event> {
    if ops == [] then []
    else
      var front := ops[..|ops| - 1];
      Entered(dir, front, maxFiles) + Entering(RunOps(dir, front, maxFiles), ops[|ops| - 1])
  }

  ghost function Left(dir: Directory, ops: seq<Op>, maxFiles: nat): seq<Event> {
    if ops == [] then []
    else
      var front := ops[..|ops| - 1];
      Left(dir, front, maxFiles) + Leaving(RunOps(dir, front, maxFiles), ops[|ops| - 1], maxFiles)
  }

  /** Over every run from a prefix-free directory, events leave in exactly the
      order in which they entered, and the directory stays prefix-free. */
  lemma {:induction false} SpoolIsFifo(dir: Directory, ops: seq<Op>, maxFiles: nat)
    requires PrefixFree(dir.Keys)
    ensures Queue(dir) + Entered(dir, ops, maxFiles) == Left(dir, ops, maxFiles) + Queue(RunOps(dir, ops, maxFiles))
    ensures PrefixFree(RunOps(dir, ops, maxFiles).Keys)
  {
    if ops == [] {
      Unmoved(Queue(dir));
    } else {
      var front, op := ops[..|ops| - 1], ops[|ops| - 1];
      var mid := RunOps(dir, front, maxFiles);
      SpoolIsFifo(dir, front, maxFiles);
      StepIsFifo(mid, op, maxFiles);
      MovesCompose(Queue(dir), Entered(dir, front, maxFiles), Left(dir, front, maxFiles), Queue(mid),
                   Entering(mid, op), Leaving(mid, op, maxFiles), Queue(Applied(mid, op, maxFiles)));
    }
  }
}
