/**
 The event spool across crashes: a directory change is certain to survive only once the
 directory has been synced, and until then a crash may keep or undo it on its own.
 */
module SpoolCrash {
  import opened SpoolKeys
  import opened SpoolQueue
  import opened EventSpool
  import opened SpoolDurability

  /** What readers see, what every crash leaves, and what a crash may leave. */
  datatype Disk = Disk(files: Directory, firm: Directory, loose: set<(Key, seq<Event>)>)

  function FilesOf(dir: Directory): set<(Key, seq<Event>)> {
    set k | k in dir :: (k, dir[k])
  }

  /** What is firm is there, whatever is there may be left, and a source of a firm part
      is firm itself. */
  ghost predicate Sound(d: Disk) {
    && (forall k :: k in d.firm ==> k in d.files && d.files[k] == d.firm[k])
    && FilesOf(d.files) <= d.loose
    && (forall a, b :: a in d.files && b in d.firm && Extends(b, a) ==> a in d.firm)
  }

  ghost predicate MayCrashInto(d: Disk, dir: Directory) {
    FilesOf(d.firm) <= FilesOf(dir) <= d.loose
  }

  function Synced(d: Disk): Disk {
    Disk(d.files, d.files, FilesOf(d.files))
  }

  function Renamed(d: Disk, k: Key, batch: seq<Event>): Disk {
    Disk(d.files[k := batch], d.firm - {k}, d.loose + {(k, batch)})
  }

  function Unlinked(d: Disk, keys: set<Key>): Disk {
    Disk(d.files - keys, d.firm - keys, d.loose)
  }

  /** Renaming over a file leaves its name with the old or the new contents, so with the
      same contents if they do not differ. */
  ghost predicate Overwritten(d: Disk, k: Key, chunks: seq<seq<Event>>, n: nat, x: Key)
    requires n <= |chunks| && x in d.firm
  {
    exists i: nat :: i < n && Child(k, i) == x && chunks[i] != d.firm[x]
  }

  /** The firm files that stay firm when `n` parts of `k` are renamed into place. */
  ghost function StillFirm(d: Disk, k: Key, chunks: seq<seq<Event>>, n: nat): Directory
    requires n <= |chunks|
  {
    map x | x in d.firm && !Overwritten(d, k, chunks, n, x) :: d.firm[x]
  }

  /** The first `n` parts renamed into place beside their source. */
  ghost function PartsRenamed(d: Disk, k: Key, chunks: seq<seq<Event>>, n: nat): Disk
    requires n <= |chunks|
  {
    Disk(WithParts(d.files, k, chunks, n), StillFirm(d, k, chunks, n),
         d.loose + set i: nat | i < n :: (Child(k, i), chunks[i]))
  }

  /** The first `n` files removed. */
  ghost function TrimmedOnDisk(d: Disk, n: nat): (r: Disk)
    requires n <= |d.files.Keys|
    ensures r.files == WithoutFirst(d.files, n)
  {
    ListingLength(Listing(d.files.Keys), d.files.Keys);
    Unlinked(d, KeySet(Listing(d.files.Keys)[..n]))
  }

  ghost function SpillOnDisk(d: Disk, batch: seq<Event>, maxFiles: nat, fault: SpillFault): Disk {
    if CannotSpill(d.files, fault) then d
    else
      var added := Renamed(d, NewKey(d.files), batch);
      if fault.SpillSyncFails? then added
      else
        var trimmed := TrimmedOnDisk(Synced(added), Removals(added.files, maxFiles, fault));
        if fault.SpillSucceeds? then Synced(trimmed) else trimmed
  }

  ghost function SplitOnDisk(d: Disk, k: Key, events: seq<Event>, size: nat, fault: SplitFault): Disk {
    if size == 0 || k !in d.files || fault.SplitWriteFails? then d
    else
      var chunks := Chunks(events, size);
      if fault.SplitStopsAfter? then PartsRenamed(d, k, chunks, Min(fault.renamed, |chunks|))
      else
        var replaced := Unlinked(PartsRenamed(d, k, chunks, |chunks|), {k});
        if fault.SplitSyncFails? then replaced else Synced(replaced)
  }

  // ----- what survives

  /** An event survives every crash if and only if a firm file holds it. */
  lemma SurvivorsAreFirm(d: Disk, e: Event)
    requires Sound(d)
    ensures e in EventsIn(d.firm) <==> forall dir :: MayCrashInto(d, dir) ==> e in EventsIn(dir)
  {
    forall dir | e in EventsIn(d.firm) && MayCrashInto(d, dir) ensures e in EventsIn(dir) {
      var k :| k in d.firm && e in d.firm[k];
      assert (k, d.firm[k]) in FilesOf(d.firm);
      assert (k, d.firm[k]) in FilesOf(dir);
    }
    FirmMayBeLeft(d);
  }

  lemma FirmMayBeLeft(d: Disk)
    requires Sound(d)
    ensures MayCrashInto(d, d.firm)
  {
    forall f | f in FilesOf(d.firm) ensures f in d.loose {
      assert f in FilesOf(d.files);
    }
  }

  lemma SyncedIsSound(d: Disk)
    ensures Sound(Synced(d))
  {
  }

  // ----- spills

  /** Once synced, removals leave exactly the remaining files firm. */
  lemma TrimmedIsFirm(d: Disk, n: nat)
    requires n <= |d.files.Keys| && d.firm == d.files && FilesOf(d.files) <= d.loose
    ensures var r := TrimmedOnDisk(d, n); Sound(r) && r.firm == r.files
  {
    var r := TrimmedOnDisk(d, n);
    assert FilesOf(r.files) <= FilesOf(d.files);
  }

  lemma AddedIsSound(d: Disk, batch: seq<Event>)
    requires Sound(d)
    ensures var added := Renamed(d, NewKey(d.files), batch);
      Sound(added) && added.files == Spilled(d.files, batch) && added.firm == d.firm
  {
    forall x | x in d.files.Keys ensures x.sequence < NewKey(d.files).sequence {
      LastSequenceIsMax(d.files.Keys, x);
    }
    var added := Renamed(d, NewKey(d.files), batch);
    assert added.firm == d.firm;
    assert FilesOf(added.files) <= FilesOf(d.files) + {(NewKey(d.files), batch)};
  }

  /** A spill leaves the files that the spool's own account of it says. A spill that has
      synced its batch leaves them all firm; one that has not leaves firm what was. */
  lemma SpillOnDiskIs(d: Disk, batch: seq<Event>, maxFiles: nat, fault: SpillFault)
    requires Sound(d)
    ensures var d' := SpillOnDisk(d, batch, maxFiles, fault);
      && Sound(d') && d'.files == SpillResult(d.files, batch, maxFiles, fault).files
      && d'.firm == if CannotSpill(d.files, fault) || fault.SpillSyncFails? then d.firm else d'.files
  {
    if !CannotSpill(d.files, fault) {
      var added := Renamed(d, NewKey(d.files), batch);
      AddedIsSound(d, batch);
      if fault.SpillSyncFails? {
        NothingTrimmed(added.files);
      } else {
        var trimmed := TrimmedOnDisk(Synced(added), Removals(added.files, maxFiles, fault));
        TrimmedIsFirm(Synced(added), Removals(added.files, maxFiles, fault));
        SyncedIsSound(trimmed);
      }
    }
  }

  lemma NothingTrimmed(dir: Directory)
    ensures WithoutFirst(dir, 0) == dir
  {
    NothingRemoved(dir);
  }

  lemma FirmIsStored(d: Disk)
    requires Sound(d)
    ensures EventsIn(d.firm) <= EventsIn(d.files)
  {
    forall e | e in EventsIn(d.firm) ensures e in EventsIn(d.files) {
      var k :| k in d.firm && e in d.firm[k];
      assert k in d.files && e in d.files[k];
    }
  }

  /** A spill that succeeds makes its batch survive, with all that was stored, unless
      evicted; one that fails takes nothing that was safe except by evicting it. */
  lemma SpillIsDurable(d: Disk, batch: seq<Event>, maxFiles: nat, fault: SpillFault)
    requires Sound(d) && Shadowed(d.files)
    ensures var r := SpillResult(d.files, batch, maxFiles, fault);
      var d' := SpillOnDisk(d, batch, maxFiles, fault);
      && Sound(d') && d'.files == r.files
      && EventsIn(d.firm) <= EventsIn(d'.firm) + EventsOf(r.evicted)
      && (r.ok ==> EventsIn(d.files) + EventsOf(batch) == EventsOf(r.evicted) + EventsIn(d'.firm))
  {
    SpillOnDiskIs(d, batch, maxFiles, fault);
    SpillLosesNothing(d.files, batch, maxFiles, fault);
    FirmIsStored(d);
  }

  // ----- splits

  lemma PartsOnDisk(d: Disk, k: Key, chunks: seq<seq<Event>>, n: nat)
    requires Sound(d) && Shadowed(d.files) && k in d.files && n <= |chunks|
    ensures Sound(PartsRenamed(d, k, chunks, n))
  {
    var r := PartsRenamed(d, k, chunks, n);
    WithPartsContents(d.files, k, chunks, n);
    forall f | f in FilesOf(r.files) ensures f in r.loose {
      if f.0 in PartKeys(k, n) {
        var i :| 0 <= i < n && PartKeys(k, n)[i] == f.0;
        assert f == (Child(k, i), chunks[i]);
      } else {
        assert f in FilesOf(d.files);
      }
    }
    forall x | x in r.firm ensures x in r.files && r.files[x] == r.firm[x] {
      if x in PartKeys(k, n) {
        var i :| 0 <= i < n && PartKeys(k, n)[i] == x;
        assert Child(k, i) == x;
      }
    }
    forall a, b | a in r.files && b in r.firm && Extends(b, a) ensures a in r.firm {
      assert b in d.files;
      if a in PartKeys(k, n) {
        DeeperPart(d.files, k, n, a, b);
      }
    }
  }

  /** No file lies below a part that was to come. */
  lemma DeeperPart(dir: Directory, k: Key, n: nat, a: Key, b: Key)
    requires Shadowed(dir) && k in dir && b in dir && a in PartKeys(k, n)
    ensures !Extends(b, a)
  {
    var i :| 0 <= i < n && PartKeys(k, n)[i] == a;
    AroundChild(k, i, b);
  }

  lemma SplitOnDiskIs(d: Disk, k: Key, size: nat, fault: SplitFault)
    requires Sound(d) && Shadowed(d.files) && k in d.files
    ensures var d' := SplitOnDisk(d, k, d.files[k], size, fault);
      var r := SplitResult(d.files, k, d.files[k], size, fault);
      && Sound(d') && d'.files == r.files && (r.ok ==> d'.firm == r.files)
  {
    if size > 0 && !fault.SplitWriteFails? {
      var chunks := Chunks(d.files[k], size);
      if fault.SplitStopsAfter? {
        PartsOnDisk(d, k, chunks, Min(fault.renamed, |chunks|));
      } else {
        PartsOnDisk(d, k, chunks, |chunks|);
        var parts := PartsRenamed(d, k, chunks, |chunks|);
        UnlinkedIsSound(parts, k);
        SyncedIsSound(Unlinked(parts, {k}));
      }
    }
  }

  lemma UnlinkedIsSound(d: Disk, k: Key)
    requires Sound(d)
    ensures Sound(Unlinked(d, {k}))
  {
    assert FilesOf(Unlinked(d, {k}).files) <= FilesOf(d.files);
  }

  /** A firm part that is overwritten only repeats its source, which is firm too. */
  lemma OverwrittenRepeats(d: Disk, k: Key, chunks: seq<seq<Event>>, n: nat, x: Key)
    requires Sound(d) && Shadowed(d.files) && k in d.files && n <= |chunks|
    requires x in d.firm && Overwritten(d, k, chunks, n, x)
    ensures k in d.firm && EventsOf(d.firm[x]) <= EventsOf(d.files[k])
  {
    var i: nat :| i < n && Child(k, i) == x && chunks[i] != d.firm[x];
    assert PartKeys(k, n)[i] == x;
    PartKeysExtend(k, n, x);
  }

  lemma SourceIsNotOverwritten(d: Disk, k: Key, chunks: seq<seq<Event>>, n: nat)
    requires k in d.firm && n <= |chunks|
    ensures !Overwritten(d, k, chunks, n, k)
  {
    forall i: nat ensures Child(k, i) != k {
      ChildIndex(k, i, i);
    }
  }

  /** While parts are being renamed their source stays, so nothing that was safe is at
      risk: the parts only repeat it. */
  lemma PartsRiskNothing(d: Disk, k: Key, chunks: seq<seq<Event>>, n: nat)
    requires Sound(d) && Shadowed(d.files) && k in d.files && n <= |chunks|
    ensures EventsIn(d.firm) <= EventsIn(PartsRenamed(d, k, chunks, n).firm)
  {
    var r := PartsRenamed(d, k, chunks, n);
    forall e | e in EventsIn(d.firm) ensures e in EventsIn(r.firm) {
      var x :| x in d.firm && e in d.firm[x];
      if Overwritten(d, k, chunks, n, x) {
        OverwrittenRepeats(d, k, chunks, n, x);
        SourceIsNotOverwritten(d, k, chunks, n);
        assert e in EventsOf(d.firm[x]);
        assert k in r.firm && e in r.firm[k];
      } else {
        assert x in r.firm && e in r.firm[x];
      }
    }
  }

  /** A split of the oldest file that succeeds makes everything stored survive; one that
      stops before removing its source takes nothing that was safe. */
  lemma SplitIsDurable(d: Disk, size: nat, fault: SplitFault)
    requires Sound(d) && Shadowed(d.files) && Listing(d.files.Keys) != []
    ensures var k := Listing(d.files.Keys)[0];
      && k in d.files
      && var r := SplitResult(d.files, k, d.files[k], size, fault);
         var d' := SplitOnDisk(d, k, d.files[k], size, fault);
         && Sound(d') && d'.files == r.files
         && (r.ok ==> EventsIn(d'.firm) == EventsIn(d.files))
         && (!fault.SplitSyncFails? ==> EventsIn(d.firm) <= EventsIn(d'.firm))
  {
    var k := Listing(d.files.Keys)[0];
    assert k in Listing(d.files.Keys);
    SplitOnDiskIs(d, k, size, fault);
    SplitLosesNothing(d.files, size, fault);
    FirmIsStored(d);
    if size > 0 && fault.SplitStopsAfter? {
      var chunks := Chunks(d.files[k], size);
      PartsRiskNothing(d, k, chunks, Min(fault.renamed, |chunks|));
    }
  }

  /** Between the removal of the source and the sync, a split of a safe file endangers
      exactly what no other safe file holds, those that it overwrites with something else
      not counted: a crash may keep the removal and undo the renames. */
  lemma SplitEndangersItsSource(d: Disk, k: Key, size: nat)
    requires Sound(d) && Shadowed(d.files) && k in d.firm && size > 0
    ensures var d' := SplitOnDisk(d, k, d.files[k], size, SplitSyncFails);
      var chunks := Chunks(d.files[k], size);
      EventsIn(d.firm) <= EventsIn(d'.firm)
      <==> EventsOf(d.files[k]) <= EventsIn(StillFirm(d, k, chunks, |chunks|) - {k})
  {
    var chunks := Chunks(d.files[k], size);
    var rest := StillFirm(d, k, chunks, |chunks|) - {k};
    assert SplitOnDisk(d, k, d.files[k], size, SplitSyncFails).firm == rest;
    forall e | e in EventsIn(d.firm) ensures e in EventsOf(d.files[k]) || e in EventsIn(rest) {
      var x :| x in d.firm && e in d.firm[x];
      if Overwritten(d, k, chunks, |chunks|, x) {
        OverwrittenRepeats(d, k, chunks, |chunks|, x);
        assert e in EventsOf(d.firm[x]);
      } else if x != k {
        assert x in rest && e in rest[x];
      }
    }
    forall e | e in EventsOf(d.files[k]) ensures e in EventsIn(d.firm) {
      assert k in d.firm && e in d.firm[k];
    }
  }

  /** A retry endangers nothing when the parts of the attempt before have been synced. */
  lemma SyncedRetryRisksNothing(d: Disk, k: Key, size: nat)
    requires Sound(d) && Shadowed(d.files) && k in d.firm && size > 0
    requires var chunks := Chunks(d.files[k], size);
      forall i: nat :: i < |chunks| ==> Child(k, i) in d.firm && d.firm[Child(k, i)] == chunks[i]
    ensures EventsIn(d.firm) <= EventsIn(SplitOnDisk(d, k, d.files[k], size, SplitSyncFails).firm)
  {
    var chunks := Chunks(d.files[k], size);
    var rest := StillFirm(d, k, chunks, |chunks|) - {k};
    ChunksCover(d.files[k], size);
    forall e | e in EventsOf(d.files[k]) ensures e in EventsIn(rest) {
      var i := ConcatFinds(chunks, e);
      PartIsNotOverwritten(d, k, chunks, i);
      ChildIndex(k, i, i);
      assert Child(k, i) in rest && e in rest[Child(k, i)];
    }
    SplitEndangersItsSource(d, k, size);
  }

  lemma PartIsNotOverwritten(d: Disk, k: Key, chunks: seq<seq<Event>>, i: nat)
    requires i < |chunks| && Child(k, i) in d.firm && d.firm[Child(k, i)] == chunks[i]
    ensures !Overwritten(d, k, chunks, |chunks|, Child(k, i))
  {
    forall j: nat | Child(k, j) == Child(k, i) ensures j == i {
      ChildIndex(k, j, i);
    }
  }

  /** A split without parts left over endangers its source's events unless other safe
      files hold them all. */
  lemma FreshSplitEndangersItsSource(d: Disk, k: Key, size: nat)
    requires Sound(d) && PrefixFree(d.files.Keys) && k in d.firm && size > 0
    ensures EventsIn(d.firm) <= EventsIn(SplitOnDisk(d, k, d.files[k], size, SplitSyncFails).firm)
       <==> EventsOf(d.files[k]) <= EventsIn(d.firm - {k})
  {
    var chunks := Chunks(d.files[k], size);
    PrefixFreeIsShadowed(d.files);
    forall x | x in d.firm ensures !Overwritten(d, k, chunks, |chunks|, x) {
      assert x in d.files.Keys && k in d.files.Keys;
      forall i: nat ensures Child(k, i) != x {
        ChildTakesPlace(k, i, k);
        ChildIndex(k, i, i);
      }
    }
    assert StillFirm(d, k, chunks, |chunks|) == d.firm;
    SplitEndangersItsSource(d, k, size);
  }

  /** It happens: one synced file, split and unlinked, and a crash that leaves nothing. */
  lemma UnsyncedSplitMayLoseAll(k: Key, e: Event)
    ensures var d := Synced(Disk(map[k := [e]], map[], {}));
      Sound(d) && MayCrashInto(SplitOnDisk(d, k, [e], 1, SplitSyncFails), map[])
  {
    var d := Synced(Disk(map[k := [e]], map[], {}));
    SyncedIsSound(Disk(map[k := [e]], map[], {}));
    var d' := SplitOnDisk(d, k, [e], 1, SplitSyncFails);
    assert d'.firm == map[];
    assert FilesOf(map[]) == {};
  }

  // ----- whole runs

  /** An operation of the forwarder on the spool; splits and removals are of the oldest
      file. */
  datatype DiskOp =
    | Spills(batch: seq<Event>, fault: SpillFault)
    | Splits(size: nat, stop: SplitFault)
    | Removes(removed: bool)

  /** The disk with an account of its events: those promised to survive, those that have
      left by eviction or removal, and those of unsynced split sources. */
  datatype Ledger = Ledger(disk: Disk, promised: set<Event>, gone: set<Event>, atRisk: set<Event>)

  ghost function AfterSpill(l: Ledger, batch: seq<Event>, maxFiles: nat, fault: SpillFault): Ledger {
    var r := SpillResult(l.disk.files, batch, maxFiles, fault);
    var settled := !CannotSpill(l.disk.files, fault) && !fault.SpillSyncFails?;
    Ledger(SpillOnDisk(l.disk, batch, maxFiles, fault), if r.ok then l.promised + EventsOf(batch) else l.promised,
           l.gone + EventsOf(r.evicted), if settled then {} else l.atRisk)
  }

  ghost function AfterSplit(l: Ledger, size: nat, fault: SplitFault): Ledger {
    var d := l.disk;
    if Listing(d.files.Keys) == [] || size == 0 || fault.SplitWriteFails? then l
    else
      var k := Listing(d.files.Keys)[0];
      assert k in Listing(d.files.Keys);
      var d' := SplitOnDisk(d, k, d.files[k], size, fault);
      l.(disk := d',
         atRisk := if fault.SplitSyncFails? then l.atRisk + EventsOf(d.files[k])
                   else if fault.SplitSucceeds? then {}
                   else l.atRisk)
  }

  ghost function AfterRemoval(l: Ledger, removed: bool): Ledger {
    var d := l.disk;
    if Listing(d.files.Keys) == [] || !removed then l
    else
      var k := Listing(d.files.Keys)[0];
      assert k in Listing(d.files.Keys);
      l.(disk := Unlinked(d, {k}), gone := l.gone + EventsOf(d.files[k]))
  }

  ghost function Performed(l: Ledger, op: DiskOp, maxFiles: nat): Ledger {
    match op
    case Spills(batch, fault) => AfterSpill(l, batch, maxFiles, fault)
    case Splits(size, stop) => AfterSplit(l, size, stop)
    case Removes(removed) => AfterRemoval(l, removed)
  }

  ghost function PerformAll(l: Ledger, ops: seq<DiskOp>, maxFiles: nat): Ledger {
    if ops == [] then l else Performed(PerformAll(l, ops[..|ops| - 1], maxFiles), ops[|ops| - 1], maxFiles)
  }

  /** Every promised event is stored or gone; and every one is safe, at risk or gone. */
  ghost predicate Kept(l: Ledger) {
    && Sound(l.disk) && Shadowed(l.disk.files)
    && l.promised <= EventsIn(l.disk.files) + l.gone
    && l.promised <= EventsIn(l.disk.firm) + l.atRisk + l.gone
  }

  lemma SpillKeeps(l: Ledger, batch: seq<Event>, maxFiles: nat, fault: SpillFault)
    requires Kept(l)
    ensures Kept(AfterSpill(l, batch, maxFiles, fault))
  {
    SpillOnDiskIs(l.disk, batch, maxFiles, fault);
    SpillLosesNothing(l.disk.files, batch, maxFiles, fault);
  }

  lemma SplitKeeps(l: Ledger, size: nat, fault: SplitFault)
    requires Kept(l)
    ensures Kept(AfterSplit(l, size, fault))
  {
    var d := l.disk;
    if Listing(d.files.Keys) != [] && size > 0 && !fault.SplitWriteFails? {
      var k := Listing(d.files.Keys)[0];
      assert k in Listing(d.files.Keys);
      SplitIsDurable(d, size, fault);
      SplitLosesNothing(d.files, size, fault);
      SplitOnDiskIs(d, k, size, fault);
      if fault.SplitSyncFails? {
        SplitRisksItsSource(d, k, size);
      }
    }
  }

  lemma SplitRisksItsSource(d: Disk, k: Key, size: nat)
    requires Sound(d) && Shadowed(d.files) && k in d.files && size > 0
    ensures EventsIn(d.firm) <= EventsIn(SplitOnDisk(d, k, d.files[k], size, SplitSyncFails).firm) + EventsOf(d.files[k])
  {
    var chunks := Chunks(d.files[k], size);
    var rest := StillFirm(d, k, chunks, |chunks|) - {k};
    assert SplitOnDisk(d, k, d.files[k], size, SplitSyncFails).firm == rest;
    forall e | e in EventsIn(d.firm) ensures e in EventsIn(rest) + EventsOf(d.files[k]) {
      var x :| x in d.firm && e in d.firm[x];
      if Overwritten(d, k, chunks, |chunks|, x) {
        OverwrittenRepeats(d, k, chunks, |chunks|, x);
        assert e in EventsOf(d.firm[x]);
      } else if x != k {
        assert x in rest && e in rest[x];
      }
    }
  }

  lemma RemovalKeeps(l: Ledger, removed: bool)
    requires Kept(l)
    ensures Kept(AfterRemoval(l, removed))
  {
    var d := l.disk;
    if Listing(d.files.Keys) != [] && removed {
      var k := Listing(d.files.Keys)[0];
      assert k in Listing(d.files.Keys);
      UnlinkedIsSound(d, k);
      RemovalKeepsOthers(d.files, k);
      FirmWithout(d, k);
    }
  }

  lemma FirmWithout(d: Disk, k: Key)
    requires Sound(d) && k in d.files
    ensures EventsIn(d.firm) <= EventsIn(d.firm - {k}) + EventsOf(d.files[k])
  {
    var rest := d.firm - {k};
    forall e | e in EventsIn(d.firm) ensures e in EventsIn(rest) + EventsOf(d.files[k]) {
      var x :| x in d.firm && e in d.firm[x];
      if x != k {
        assert x in rest && e in rest[x];
      }
    }
  }

  lemma {:induction false} RunKeepsPromises(l: Ledger, ops: seq<DiskOp>, maxFiles: nat)
    requires Kept(l)
    ensures Kept(PerformAll(l, ops, maxFiles))
  {
    if ops != [] {
      var before, op := PerformAll(l, ops[..|ops| - 1], maxFiles), ops[|ops| - 1];
      RunKeepsPromises(l, ops[..|ops| - 1], maxFiles);
      match op {
        case Spills(batch, fault) => SpillKeeps(before, batch, maxFiles, fault);
        case Splits(size, stop) => SplitKeeps(before, size, stop);
        case Removes(removed) => RemovalKeeps(before, removed);
      }
    }
  }

  /** Over every run of spills, splits and removals, each stopping anywhere, a crash at the
      end leaves every event that was safe at the start or has been spilled successfully,
      except those evicted or removed and those of splits whose sync is outstanding. */
  lemma CrashKeepsPromises(d: Disk, ops: seq<DiskOp>, maxFiles: nat, dir: Directory)
    requires Sound(d) && Shadowed(d.files)
    requires MayCrashInto(PerformAll(Ledger(d, EventsIn(d.firm), {}, {}), ops, maxFiles).disk, dir)
    ensures var l := PerformAll(Ledger(d, EventsIn(d.firm), {}, {}), ops, maxFiles);
      l.promised - l.gone - l.atRisk <= EventsIn(dir)
  {
    var l := PerformAll(Ledger(d, EventsIn(d.firm), {}, {}), ops, maxFiles);
    FirmIsStored(d);
    RunKeepsPromises(Ledger(d, EventsIn(d.firm), {}, {}), ops, maxFiles);
    forall e | e in l.promised - l.gone - l.atRisk ensures e in EventsIn(dir) {
      SurvivorsAreFirm(l.disk, e);
    }
  }
}
