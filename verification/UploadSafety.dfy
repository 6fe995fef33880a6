/**
 What uploads may rely on: which entries they are of, exactly how a replay can come to
 be of an entry that is missing or not durable, and that a removed entry stays removed.
 */
module UploadSafety {
  import opened Wrappers
  import opened PendingUploads
  import opened UploadProtocol

  // ----- uploads are of durable entries

  /** Stored, and no crash can undo that. */
  predicate Durable(w: World, id: Id) {
    id in w.dir && id !in w.unsynced
  }

  /** A task that may send holds a durable entry, and no detached removal is of an
      entry that a task holds. */
  ghost predicate TasksHoldEntries(w: World) {
    && (forall t :: t in w.tasks && MaySend(w, t) ==> Durable(w, w.tasks[t].entry.recordingId))
    && (forall t :: t in w.tasks && AwaitsSync(w, t) ==> w.tasks[t].entry.recordingId in w.dir)
    && (forall t, u :: t in w.tasks && u in w.detached ==> w.tasks[t].entry.recordingId != w.detached[u])
  }

  predicate MaySend(w: World, t: TaskId)
    requires t in w.tasks
  {
    || w.tasks[t].stage == Sending
    || (w.tasks[t].stage == AwaitingPersist && t in w.persists && w.persists[t].progress.Synced?)
  }

  predicate AwaitsSync(w: World, t: TaskId)
    requires t in w.tasks
  {
    w.tasks[t].stage == AwaitingPersist && t in w.persists && w.persists[t].progress.InPlace?
  }

  /** Tasks at most leave or stop sending, and nothing about the disk changes. */
  lemma FewerSenders(w: World, w': World)
    requires TasksHoldEntries(w) && w'.dir == w.dir && w'.unsynced == w.unsynced && w'.detached == w.detached
    requires forall t :: t in w'.tasks ==>
               && t in w.tasks && w'.tasks[t].entry == w.tasks[t].entry
               && (MaySend(w', t) ==> MaySend(w, t)) && (AwaitsSync(w', t) ==> AwaitsSync(w, t))
    ensures TasksHoldEntries(w')
  {
  }

  lemma ForegroundHolds(w: World, t: TaskId, entry: SpoolEntry)
    requires Inv(w) && TasksHoldEntries(w)
    ensures TasksHoldEntries(ForegroundStarts(w, t, entry))
  {
  }

  lemma RenameHolds(w: World, t: TaskId, placed: bool)
    requires Inv(w) && TasksHoldEntries(w)
    ensures TasksHoldEntries(PersistRenamed(w, t, placed))
  {
  }

  lemma SyncHolds(w: World, t: TaskId, synced: bool)
    requires Inv(w) && TasksHoldEntries(w)
    ensures TasksHoldEntries(PersistSynced(w, t, synced))
  {
  }

  lemma ProceedHolds(w: World, t: TaskId, accepting: bool)
    requires TasksHoldEntries(w)
    ensures TasksHoldEntries(Proceeded(w, t, accepting))
  {
    if InStage(w, t, AwaitingPersist) && t in w.persists {
      FewerSenders(w, Proceeded(w, t, accepting));
    }
  }

  lemma AnswerHolds(w: World, t: TaskId, success: bool)
    requires TasksHoldEntries(w)
    ensures TasksHoldEntries(Answered(w, t, success))
  {
    FewerSenders(w, Answered(w, t, success));
  }

  lemma TaskRemoveHolds(w: World, t: TaskId, removable: bool)
    requires ClaimsExclusive(w) && TasksHoldEntries(w)
    ensures TasksHoldEntries(TaskRemoved(w, t, removable))
  {
  }

  lemma AbortHolds(w: World, t: TaskId)
    requires ClaimsExclusive(w) && TasksHoldEntries(w)
    ensures TasksHoldEntries(Aborted(w, t))
  {
    if w.shuttingDown && t in w.tasks {
      var finished := Finish(w, t);
      FewerSenders(w, finished);
      if w.tasks[t].stage == Removing {
        DetachHolds(finished, t, w.tasks[t].entry.recordingId);
      }
    }
  }

  lemma DetachHolds(w: World, t: TaskId, id: Id)
    requires TasksHoldEntries(w) && forall u :: u in w.tasks ==> w.tasks[u].entry.recordingId != id
    ensures TasksHoldEntries(w.(detached := w.detached[t := id]))
  {
  }

  lemma DetachedHolds(w: World, t: TaskId, removable: bool)
    requires TasksHoldEntries(w)
    ensures TasksHoldEntries(DetachedRan(w, t, removable))
  {
  }

  lemma ClearHolds(w: World, removable: bool)
    requires ClaimsExclusive(w) && TasksHoldEntries(w)
    ensures TasksHoldEntries(SweepCleared(w, removable))
  {
  }

  lemma MoveHolds(w: World, w': World)
    requires ClaimsExclusive(w) && TasksHoldEntries(w) && SweepMove(w, w')
    ensures TasksHoldEntries(w')
  {
  }

  lemma TasksHoldAfterTask(w: World, a: Action)
    requires Inv(w) && TasksHoldEntries(w) && TaskAction(a)
    ensures TasksHoldEntries(NextOfTask(w, a))
  {
    match a {
      case TaskProceeds(t, accepting) => ProceedHolds(w, t, accepting);
      case TaskAnswered(t, success) => AnswerHolds(w, t, success);
      case TaskRemoves(t, removable) => TaskRemoveHolds(w, t, removable);
      case TaskEnds(t) =>
        if InStage(w, t, Removed) {
          FewerSenders(w, Finish(w, t));
        }
      case TaskAborted(t) => AbortHolds(w, t);
    }
  }

  lemma TasksHoldAfterSweep(w: World, a: Action)
    requires Inv(w) && TasksHoldEntries(w) && SweepAction(a)
    ensures TasksHoldEntries(NextOfSweep(w, a))
  {
    if a.SweepRemoves? {
      ClearHolds(w, a.removable);
    } else {
      SweepMoves(w, a);
      MoveHolds(w, NextOfSweep(w, a));
    }
  }

  lemma TasksStillHold(w: World, a: Action)
    requires Inv(w) && TasksHoldEntries(w)
    ensures TasksHoldEntries(Next(w, a))
  {
    if TaskAction(a) {
      TasksHoldAfterTask(w, a);
    } else if SweepAction(a) {
      TasksHoldAfterSweep(w, a);
    } else if a.Foreground? {
      ForegroundHolds(w, a.t, a.entry);
    } else if a.PersistRenames? {
      RenameHolds(w, a.t, a.placed);
    } else if a.PersistSyncs? {
      SyncHolds(w, a.t, a.synced);
    } else if a.DetachedRuns? {
      DetachedHolds(w, a.t, a.removable);
    }
  }

  lemma {:induction false} RunHoldsEntries(dir: Directory, actions: seq<Action>)
    ensures TasksHoldEntries(Run(Start(dir), actions))
  {
    if actions != [] {
      var front, a := actions[..|actions| - 1], actions[|actions| - 1];
      RunKeepsInvariant(dir, front);
      RunHoldsEntries(dir, front);
      TasksStillHold(Run(Start(dir), front), a);
    }
  }

  /** A foreground upload begins, and goes on, only while its entry, written by its own
      task, is durable; a replay is of a stored entry unless a detached removal has
      since taken a confirmed one, which takes a shutdown. */
  lemma UploadsAreOfStoredEntries(dir: Directory, actions: seq<Action>, id: Id, t: TaskId)
    ensures var w := Run(Start(dir), actions);
      && (Uploads(w, t, id) ==>
            && Durable(w, id)
            && t in w.persists && w.persists[t] == Persist(w.tasks[t].entry, Synced))
      && (Replays(w, id) ==> id in w.dir || (w.shuttingDown && id in w.strayed && id in w.confirmed))
  {
    RunKeepsInvariant(dir, actions);
    RunHoldsEntries(dir, actions);
  }

  // ----- what the replayer has seen

  predicate Seen(w: World, id: Id) {
    (w.replayer.Found? || w.replayer.Replaying?) && w.replayer.id == id
  }

  /** A removal that outlived its aborted task runs, and succeeds. */
  predicate DetachedTakes(w: World, a: Action, id: Id) {
    a.DetachedRuns? && a.removable && a.t in w.detached && w.detached[a.t] == id
  }

  ghost predicate DiskUntouched(w: World, w': World) {
    w'.replayer == w.replayer && w'.unsynced == w.unsynced && w'.dir == w.dir && w'.removed == w.removed
  }

  lemma ProceedTouchesNothing(w: World, t: TaskId, accepting: bool)
    ensures DiskUntouched(w, Proceeded(w, t, accepting))
  {
  }

  lemma AnswerTouchesNothing(w: World, t: TaskId, success: bool)
    ensures DiskUntouched(w, Answered(w, t, success))
  {
  }

  lemma AbortTouchesNothing(w: World, t: TaskId)
    ensures DiskUntouched(w, Aborted(w, t))
  {
  }

  /** Of the tasks' actions only a removal touches the disk. */
  lemma TasksTouchNothing(w: World, a: Action)
    requires TaskAction(a) && !a.TaskRemoves?
    ensures DiskUntouched(w, NextOfTask(w, a))
  {
    match a {
      case TaskProceeds(t, accepting) => ProceedTouchesNothing(w, t, accepting);
      case TaskAnswered(t, success) => AnswerTouchesNothing(w, t, success);
      case TaskEnds(t) => assert DiskUntouched(w, NextOfTask(w, a));
      case TaskAborted(t) => AbortTouchesNothing(w, t);
    }
  }

  lemma TasksLeaveReplayer(w: World, a: Action)
    requires TaskAction(a)
    ensures NextOfTask(w, a).replayer == w.replayer
  {
    if !a.TaskRemoves? {
      TasksTouchNothing(w, a);
    }
  }

  lemma TasksKeepSeen(w: World, a: Action, id: Id)
    requires ClaimsExclusive(w) && Seen(w, id) && TaskAction(a)
    ensures id in NextOfTask(w, a).dir <==> id in w.dir
  {
    if a.TaskRemoves? && InStage(w, a.t, Removing) {
      assert w.tasks[a.t].entry.recordingId != id;
    }
  }

  lemma SweepKeepsSeen(w: World, a: Action, id: Id)
    requires SweepAction(a) && !(Seen(w, id) && id !in w.dir)
    ensures !(Seen(NextOfSweep(w, a), id) && id !in NextOfSweep(w, a).dir)
  {
    if !a.SweepRemoves? {
      SweepMoves(w, a);
    }
  }

  lemma SeenKeepsEntry(w: World, a: Action, id: Id)
    requires ClaimsExclusive(w) && !(Seen(w, id) && id !in w.dir)
    ensures (Seen(Next(w, a), id) && id !in Next(w, a).dir) <==> (Seen(w, id) && DetachedTakes(w, a, id))
  {
    if TaskAction(a) {
      TasksLeaveReplayer(w, a);
      if Seen(w, id) {
        TasksKeepSeen(w, a, id);
      }
    } else if SweepAction(a) {
      SweepKeepsSeen(w, a, id);
    }
  }

  /** An entry that the replayer has seen, and may be sending, goes missing under it in
      exactly one way: a detached removal takes it. */
  lemma ReplayLosesEntryOnlyToDetached(dir: Directory, actions: seq<Action>, a: Action, id: Id)
    requires var w := Run(Start(dir), actions); !(Seen(w, id) && id !in w.dir)
    ensures var w := Run(Start(dir), actions);
      (Seen(Next(w, a), id) && id !in Next(w, a).dir) <==> (Seen(w, id) && DetachedTakes(w, a, id))
  {
    RunKeepsInvariant(dir, actions);
    SeenKeepsEntry(Run(Start(dir), actions), a, id);
  }

  /** What a step of the sweep other than a removal does to a replay. */
  lemma ReplayBegins(w: World, a: Action, id: Id)
    requires SweepAction(a) && !a.SweepRemoves? && !Replays(w, id)
    ensures Replays(NextOfSweep(w, a), id) <==> w.replayer.Found? && w.replayer.id == id && a == SweepSends(true)
  {
    match a {
      case SweepBegins(_) =>
      case SweepPicks(_, _) =>
      case SweepLooks =>
      case SweepSends(_) =>
      case SweepAnswered(_) =>
      case ReplayerAborted(t) => AbortMoves(w, t);
    }
  }

  lemma OnlySendingBegins(w: World, a: Action, id: Id)
    requires !Replays(w, id)
    ensures Replays(Next(w, a), id) <==> w.replayer.Found? && w.replayer.id == id && a == SweepSends(true)
  {
    if TaskAction(a) {
      TasksLeaveReplayer(w, a);
    } else if SweepAction(a) && !a.SweepRemoves? {
      ReplayBegins(w, a, id);
    }
  }

  /** While an entry is being replayed, its durability changes with the disk alone. */
  lemma ReplayedStaysDurable(w: World, a: Action, id: Id)
    requires ClaimsExclusive(w) && Replays(w, id) && Durable(w, id) && Replays(Next(w, a), id)
    ensures Durable(Next(w, a), id) <==> !DetachedTakes(w, a, id)
  {
    if TaskAction(a) {
      TasksKeepSeen(w, a, id);
      TasksKeepSynced(w, a);
    } else if SweepAction(a) && !a.SweepRemoves? {
      SweepMoves(w, a);
    }
  }

  lemma TasksKeepSynced(w: World, a: Action)
    requires TaskAction(a)
    ensures NextOfTask(w, a).unsynced == w.unsynced
  {
    if !a.TaskRemoves? {
      TasksTouchNothing(w, a);
    }
  }

  /** A replay comes to be of an entry that is not stored in exactly two ways: a detached
      removal takes it under the replay, or one has taken it between the look and the
      sending. */
  lemma ReplayOfMissingEntry(dir: Directory, actions: seq<Action>, a: Action, id: Id)
    requires var w := Run(Start(dir), actions); !(Replays(w, id) && id !in w.dir)
    ensures var w := Run(Start(dir), actions);
      (Replays(Next(w, a), id) && id !in Next(w, a).dir)
      <==> || (Replays(w, id) && DetachedTakes(w, a, id))
           || (w.replayer.Found? && w.replayer.id == id && id !in w.dir && a == SweepSends(true))
  {
    var w := Run(Start(dir), actions);
    RunKeepsInvariant(dir, actions);
    if Replays(w, id) {
      SeenKeepsEntry(w, a, id);
    } else {
      OnlySendingBegins(w, a, id);
    }
  }

  /** And of one that is not durable in the same ways, or by being sent while the
      directory has not been synced since the entry was renamed into place. */
  lemma ReplayOfUndurableEntry(dir: Directory, actions: seq<Action>, a: Action, id: Id)
    requires var w := Run(Start(dir), actions); !(Replays(w, id) && !Durable(w, id))
    ensures var w := Run(Start(dir), actions);
      (Replays(Next(w, a), id) && !Durable(Next(w, a), id))
      <==> || (Replays(w, id) && DetachedTakes(w, a, id))
           || (w.replayer.Found? && w.replayer.id == id && !Durable(w, id) && a == SweepSends(true))
  {
    var w := Run(Start(dir), actions);
    RunKeepsInvariant(dir, actions);
    if Replays(w, id) {
      if Replays(Next(w, a), id) {
        ReplayedStaysDurable(w, a, id);
      }
    } else {
      OnlySendingBegins(w, a, id);
    }
  }

  // ----- what a crash may still undo

  /** A write renames its entry into place. */
  predicate Places(w: World, a: Action, id: Id) {
    && a.PersistRenames? && a.placed && a.t in w.persists && w.persists[a.t].progress.ToWrite?
    && w.persists[a.t].entry.recordingId == id
  }

  /** The directory is synced, or a crash settles what it holds. */
  predicate Settles(w: World, a: Action) {
    a.Crash? || (a.PersistSyncs? && a.synced && a.t in w.persists && w.persists[a.t].progress.InPlace?)
  }

  /** A missing entry is put in place. */
  predicate PlacesUnsynced(w: World, a: Action, id: Id) {
    Places(w, a, id) && id !in w.dir
  }

  /** A stored entry is removed, by its holder or by a detached removal. */
  predicate Unlinks(w: World, a: Action, id: Id) {
    id in w.dir && (Dequeues(w, a, id) || DetachedTakes(w, a, id))
  }

  lemma SweepsKeepSynced(w: World, a: Action)
    requires SweepAction(a)
    ensures NextOfSweep(w, a).unsynced == w.unsynced
  {
    if !a.SweepRemoves? {
      SweepMoves(w, a);
    }
  }

  lemma UnsyncedAfter(w: World, a: Action, id: Id)
    ensures id in Next(w, a).unsynced <==> !Settles(w, a) && (id in w.unsynced || PlacesUnsynced(w, a, id))
  {
    if TaskAction(a) {
      TasksKeepSynced(w, a);
    } else if SweepAction(a) {
      SweepsKeepSynced(w, a);
    }
  }

  lemma TasksUnlink(w: World, a: Action, id: Id)
    requires TaskAction(a)
    ensures id in NextOfTask(w, a).removed <==> id in w.removed || Unlinks(w, a, id)
  {
    if !a.TaskRemoves? {
      TasksTouchNothing(w, a);
    }
  }

  lemma SweepsUnlink(w: World, a: Action, id: Id)
    requires SweepAction(a)
    ensures id in NextOfSweep(w, a).removed <==> id in w.removed || Unlinks(w, a, id)
  {
    if !a.SweepRemoves? {
      SweepMoves(w, a);
    }
  }

  lemma RemovedAfter(w: World, a: Action, id: Id)
    ensures id in Next(w, a).removed <==> !Settles(w, a) && (id in w.removed || Unlinks(w, a, id))
  {
    if TaskAction(a) {
      TasksUnlink(w, a, id);
    } else if SweepAction(a) {
      SweepsUnlink(w, a, id);
    }
  }

  /** Nothing after the i-th action has settled the directory. */
  predicate UnsettledSince(dir: Directory, actions: seq<Action>, i: nat)
    decreases |actions|
  {
    var n := |actions| - 1;
    n > i ==> UnsettledSince(dir, actions[..n], i) && !Settles(Run(Start(dir), actions[..n]), actions[n])
  }

  ghost predicate PlacedAt(dir: Directory, actions: seq<Action>, id: Id, i: nat)
    requires i < |actions|
  {
    PlacesUnsynced(Run(Start(dir), actions[..i]), actions[i], id) && UnsettledSince(dir, actions, i)
  }

  ghost predicate UnlinkedAt(dir: Directory, actions: seq<Action>, id: Id, i: nat)
    requires i < |actions|
  {
    Unlinks(Run(Start(dir), actions[..i]), actions[i], id) && UnsettledSince(dir, actions, i)
  }

  /** Over every run, a crash may undo an entry if and only if a write put it in place and
      no write of any entry, this one included, has synced the directory since. */
  lemma {:induction false} UnsyncedExactly(dir: Directory, actions: seq<Action>, id: Id)
    ensures id in Run(Start(dir), actions).unsynced
       <==> exists i: nat :: i < |actions| && PlacedAt(dir, actions, id, i)
  {
    if actions != [] {
      var n := |actions| - 1;
      var front, a := actions[..n], actions[n];
      var w := Run(Start(dir), front);
      UnsyncedExactly(dir, front, id);
      UnsyncedAfter(w, a, id);
      if PlacesUnsynced(w, a, id) {
        assert PlacedAt(dir, actions, id, n);
      }
      forall i: nat | i < n ensures PlacedAt(dir, actions, id, i) <==> PlacedAt(dir, front, id, i) && !Settles(w, a) {
        assert front[..i] == actions[..i] && front[i] == actions[i];
      }
    }
  }

  /** And it may bring an entry back if and only if the entry was removed and no write has
      synced the directory since. */
  lemma {:induction false} RemovedExactly(dir: Directory, actions: seq<Action>, id: Id)
    ensures id in Run(Start(dir), actions).removed
       <==> exists i: nat :: i < |actions| && UnlinkedAt(dir, actions, id, i)
  {
    if actions != [] {
      var n := |actions| - 1;
      var front, a := actions[..n], actions[n];
      var w := Run(Start(dir), front);
      RemovedExactly(dir, front, id);
      RemovedAfter(w, a, id);
      if Unlinks(w, a, id) {
        assert UnlinkedAt(dir, actions, id, n);
      }
      forall i: nat | i < n ensures UnlinkedAt(dir, actions, id, i) <==> UnlinkedAt(dir, front, id, i) && !Settles(w, a) {
        assert front[..i] == actions[..i] && front[i] == actions[i];
      }
    }
  }

  predicate FailsToSync(a: Action) {
    a.PersistSyncs? && !a.synced
  }

  /** Outside a shutdown the task of an unfinished write is there, waiting for it. */
  ghost predicate WritesAwaited(w: World) {
    !w.shuttingDown ==>
      forall t :: t in w.persists && (w.persists[t].progress.ToWrite? || w.persists[t].progress.InPlace?) ==>
        InStage(w, t, AwaitingPersist)
  }

  lemma ProceedAwaited(w: World, t: TaskId, accepting: bool)
    requires WritesAwaited(w)
    ensures WritesAwaited(Proceeded(w, t, accepting))
  {
  }

  lemma AnswerAwaited(w: World, t: TaskId, success: bool)
    requires WritesAwaited(w)
    ensures WritesAwaited(Answered(w, t, success))
  {
  }

  lemma TaskRemoveAwaited(w: World, t: TaskId, removable: bool)
    requires WritesAwaited(w)
    ensures WritesAwaited(TaskRemoved(w, t, removable))
  {
  }

  lemma AbortAwaited(w: World, t: TaskId)
    requires WritesAwaited(w)
    ensures WritesAwaited(Aborted(w, t))
  {
  }

  lemma TasksStillAwait(w: World, a: Action)
    requires WritesAwaited(w) && TaskAction(a)
    ensures WritesAwaited(NextOfTask(w, a))
  {
    match a {
      case TaskProceeds(t, accepting) => ProceedAwaited(w, t, accepting);
      case TaskAnswered(t, success) => AnswerAwaited(w, t, success);
      case TaskRemoves(t, removable) => TaskRemoveAwaited(w, t, removable);
      case TaskEnds(t) => assert WritesAwaited(NextOfTask(w, a));
      case TaskAborted(t) => AbortAwaited(w, t);
    }
  }

  lemma SweepsStillAwait(w: World, a: Action)
    requires WritesAwaited(w) && SweepAction(a)
    ensures WritesAwaited(NextOfSweep(w, a))
  {
    if !a.SweepRemoves? {
      SweepMoves(w, a);
    }
  }

  lemma WritesStayAwaited(w: World, a: Action)
    requires WritesAwaited(w)
    ensures WritesAwaited(Next(w, a))
  {
    if TaskAction(a) {
      TasksStillAwait(w, a);
    } else if SweepAction(a) {
      SweepsStillAwait(w, a);
    }
  }

  lemma TasksKeepWrites(w: World, a: Action)
    requires TaskAction(a)
    ensures NextOfTask(w, a).persists == w.persists
  {
  }

  lemma {:induction false} RunAwaitsWrites(dir: Directory, actions: seq<Action>)
    ensures WritesAwaited(Run(Start(dir), actions))
  {
    if actions != [] {
      RunAwaitsWrites(dir, actions[..|actions| - 1]);
      WritesStayAwaited(Run(Start(dir), actions[..|actions| - 1]), actions[|actions| - 1]);
    }
  }

  /** A write of the entry has yet to sync. */
  ghost predicate Unfinished(w: World, id: Id) {
    exists t :: t in w.persists && w.persists[t].progress.InPlace? && w.persists[t].entry.recordingId == id
  }

  /** An unsynced entry is left to itself: the sync of its own write fails, or the process
      ends and is restarted. */
  predicate Orphans(w: World, a: Action, id: Id) {
    && id in w.unsynced
    && (a.Restart?
        || (FailsToSync(a) && a.t in w.persists && w.persists[a.t].progress.InPlace?
            && w.persists[a.t].entry.recordingId == id))
  }

  predicate OrphanedAt(dir: Directory, actions: seq<Action>, id: Id, i: nat)
    requires i < |actions|
  {
    Orphans(Run(Start(dir), actions[..i]), actions[i], id) && UnsettledSince(dir, actions, i)
  }

  lemma WriteGoesOn(w: World, a: Action, id: Id, t: TaskId)
    requires t in w.persists && w.persists[t].progress.InPlace? && w.persists[t].entry.recordingId == id
    requires !Settles(w, a) && id in w.unsynced && !Orphans(w, a, id)
    ensures t in Next(w, a).persists && Next(w, a).persists[t] == w.persists[t]
  {
    if TaskAction(a) {
      TasksKeepWrites(w, a);
    } else if SweepAction(a) && !a.SweepRemoves? {
      SweepMoves(w, a);
    }
  }

  /** Whatever is not synced is the entry of a write that has yet to sync, or has been
      left to itself. */
  lemma {:induction false} UnsyncedIsAccounted(dir: Directory, actions: seq<Action>, id: Id)
    ensures id in Run(Start(dir), actions).unsynced ==>
      Unfinished(Run(Start(dir), actions), id) || exists i: nat :: i < |actions| && OrphanedAt(dir, actions, id, i)
  {
    if actions != [] && id in Run(Start(dir), actions).unsynced {
      var n := |actions| - 1;
      var front, a := actions[..n], actions[n];
      var w := Run(Start(dir), front);
      UnsyncedIsAccounted(dir, front, id);
      UnsyncedAfter(w, a, id);
      if PlacesUnsynced(w, a, id) {
        assert Next(w, a).persists[a.t].progress.InPlace?;
      } else if Orphans(w, a, id) {
        assert OrphanedAt(dir, actions, id, n);
      } else if Unfinished(w, id) {
        var t :| t in w.persists && w.persists[t].progress.InPlace? && w.persists[t].entry.recordingId == id;
        WriteGoesOn(w, a, id, t);
      } else {
        var i: nat :| i < n && OrphanedAt(dir, front, id, i);
        assert front[..i] == actions[..i] && front[i] == actions[i];
        assert OrphanedAt(dir, actions, id, i);
      }
    }
  }

  lemma {:induction false} OrphanStaysUnsynced(dir: Directory, actions: seq<Action>, id: Id, i: nat)
    requires i < |actions| && OrphanedAt(dir, actions, id, i)
    ensures id in Run(Start(dir), actions).unsynced
    decreases |actions|
  {
    var n := |actions| - 1;
    var front, a := actions[..n], actions[n];
    if i < n {
      assert front[..i] == actions[..i] && front[i] == actions[i];
      OrphanStaysUnsynced(dir, front, id, i);
    }
    UnsyncedAfter(Run(Start(dir), front), a, id);
  }

  /** The task of an unfinished write holds the claim that a replay would need. */
  lemma ReplayedIsFinished(w: World, id: Id)
    requires Inv(w) && WritesAwaited(w) && Replays(w, id) && !w.shuttingDown
    ensures id in w.dir && !Unfinished(w, id)
  {
  }

  /** Outside a shutdown a replay is of an entry that is not durable if and only if the
      entry was left to itself unsynced, and no write has synced the directory since. */
  lemma ReplayIsUndurableExactly(dir: Directory, actions: seq<Action>, id: Id)
    ensures var w := Run(Start(dir), actions);
      Replays(w, id) && !w.shuttingDown ==>
        (!Durable(w, id) <==> exists i: nat :: i < |actions| && OrphanedAt(dir, actions, id, i))
  {
    var w := Run(Start(dir), actions);
    RunKeepsInvariant(dir, actions);
    RunAwaitsWrites(dir, actions);
    if Replays(w, id) && !w.shuttingDown {
      ReplayedIsFinished(w, id);
      UnsyncedIsAccounted(dir, actions, id);
      forall i: nat | i < |actions| && OrphanedAt(dir, actions, id, i) ensures id in w.unsynced {
        OrphanStaysUnsynced(dir, actions, id, i);
      }
    }
  }

  /** Where no sync fails and every restart finds the directory synced, every replay
      outside a shutdown is of a durable entry. */
  lemma SyncedReplaysAreDurable(dir: Directory, actions: seq<Action>, id: Id)
    requires forall i :: 0 <= i < |actions| ==> !FailsToSync(actions[i])
    requires forall i {:trigger actions[i]} :: 0 <= i < |actions| && actions[i].Restart? ==>
               Run(Start(dir), actions[..i]).unsynced == {}
    ensures var w := Run(Start(dir), actions);
      Replays(w, id) && !w.shuttingDown ==> Durable(w, id)
  {
    ReplayIsUndurableExactly(dir, actions, id);
  }

  // ----- a removed entry is not replayed

  /** The action removes a confirmed entry on behalf of the task or sweep that holds it. */
  predicate Dequeues(w: World, a: Action, id: Id) {
    || (a.TaskRemoves? && a.removable && InStage(w, a.t, Removing) && w.tasks[a.t].entry.recordingId == id)
    || (a.SweepRemoves? && a.removable && w.replayer.Clearing? && w.replayer.id == id)
  }

  /** A write puts the entry in place, or a crash undoes a removal. */
  predicate WritesBack(w: World, a: Action, id: Id) {
    Places(w, a, id) || (a.Crash? && id in a.back && id in w.removed)
  }

  lemma RemovalIsGone(w: World, a: Action, id: Id)
    requires ClaimsExclusive(w) && (Dequeues(w, a, id) || DetachedTakes(w, a, id))
    ensures id !in Next(w, a).dir
    ensures Seen(Next(w, a), id) <==> DetachedTakes(w, a, id) && Seen(w, id)
  {
    if a.TaskRemoves? {
      assert w.tasks[a.t].entry.recordingId == id;
    }
  }

  lemma TasksStoreNothing(w: World, a: Action, id: Id)
    requires TaskAction(a) && id !in w.dir
    ensures id !in NextOfTask(w, a).dir
  {
    if !a.TaskRemoves? {
      TasksTouchNothing(w, a);
    }
  }

  lemma SweepsStoreNothing(w: World, a: Action, id: Id)
    requires SweepAction(a) && id !in w.dir
    ensures id !in NextOfSweep(w, a).dir
  {
    if !a.SweepRemoves? {
      SweepMoves(w, a);
    }
  }

  /** Nothing else brings an entry back. */
  lemma AbsentUnlessWritten(w: World, a: Action, id: Id)
    requires id !in w.dir
    ensures id in Next(w, a).dir <==> WritesBack(w, a, id)
  {
    if TaskAction(a) {
      TasksStoreNothing(w, a, id);
    } else if SweepAction(a) {
      SweepsStoreNothing(w, a, id);
    }
  }

  /** The replayer takes up only what it has just seen in the directory. */
  lemma OnlyStoredIsSeen(w: World, a: Action, id: Id)
    requires id !in w.dir && !Seen(w, id)
    ensures !Seen(Next(w, a), id)
  {
    if SweepAction(a) && !a.SweepRemoves? {
      SweepMoves(w, a);
    } else if TaskAction(a) {
      TasksLeaveReplayer(w, a);
    }
  }

  /** No action of the run writes the entry back. */
  ghost predicate NeverWritesBack(w: World, actions: seq<Action>, id: Id) {
    forall i {:trigger actions[i]} :: 0 <= i < |actions| ==> !WritesBack(Run(w, actions[..i]), actions[i], id)
  }

  lemma {:induction false} GoneIsNotSeen(w: World, actions: seq<Action>, id: Id)
    requires NeverWritesBack(w, actions, id) && id !in w.dir && !Seen(w, id)
    ensures id !in Run(w, actions).dir && !Seen(Run(w, actions), id)
  {
    if actions != [] {
      var n := |actions| - 1;
      var front, a := actions[..n], actions[n];
      forall i {:trigger front[i]} | 0 <= i < n ensures !WritesBack(Run(w, front[..i]), front[i], id) {
        assert front[..i] == actions[..i] && front[i] == actions[i];
      }
      GoneIsNotSeen(w, front, id);
      assert !WritesBack(Run(w, front), a, id);
      AbsentUnlessWritten(Run(w, front), a, id);
      OnlyStoredIsSeen(Run(w, front), a, id);
    }
  }

  /** Once an entry has been removed, by its holder or by a detached removal that the
      replayer had not forestalled by looking, it is neither stored nor replayed again
      until something writes it back, whatever else happens. */
  lemma DequeuedIsNeverReplayed(dir: Directory, before: seq<Action>, a: Action, after: seq<Action>, id: Id)
    requires var w := Run(Start(dir), before); Dequeues(w, a, id) || (DetachedTakes(w, a, id) && !Seen(w, id))
    requires NeverWritesBack(Next(Run(Start(dir), before), a), after, id)
    ensures var w := Run(Next(Run(Start(dir), before), a), after); id !in w.dir && !Replays(w, id)
  {
    RunKeepsInvariant(dir, before);
    RemovalIsGone(Run(Start(dir), before), a, id);
    GoneIsNotSeen(Next(Run(Start(dir), before), a), after, id);
  }

  ghost predicate Reachable(w: World) {
    exists dir, actions :: w == Run(Start(dir), actions)
  }

  lemma NextIsReachable(w: World, a: Action)
    requires Reachable(w)
    ensures Reachable(Next(w, a))
  {
    var dir, actions :| w == Run(Start(dir), actions);
    assert (actions + [a])[..|actions|] == actions;
    assert Next(w, a) == Run(Start(dir), actions + [a]);
  }

  /** A world in which only `e` has ever been written, by task 0. */
  function Alone(e: SpoolEntry, stage: Stage, progress: Progress, shuttingDown: bool): World {
    World(if progress.ToWrite? then map[] else map[e.recordingId := e], {e.recordingId}, map[0 := Task(e, stage)],
          map[0 := Persist(e, progress)], Resting, map[], shuttingDown,
          if progress.InPlace? || progress.Failed? then {e.recordingId} else {}, map[],
          if progress.Synced? then {e.recordingId} else {}, if stage.Removing? then {e.recordingId} else {}, {})
  }

  lemma UploadBegins(e: SpoolEntry)
    ensures ForegroundStarts(Start(map[]), 0, e) == Alone(e, AwaitingPersist, ToWrite, false)
    ensures PersistRenamed(Alone(e, AwaitingPersist, ToWrite, false), 0, true) == Alone(e, AwaitingPersist, InPlace, false)
  {
    var w := ForegroundStarts(Start(map[]), 0, e);
    assert w.persists == map[0 := Persist(e, ToWrite)] && w.tasks == map[0 := Task(e, AwaitingPersist)];
    assert w.claims == {e.recordingId};
    var placed := PersistRenamed(Alone(e, AwaitingPersist, ToWrite, false), 0, true);
    assert placed.persists == map[0 := Persist(e, InPlace)] && placed.dir == map[e.recordingId := e];
    assert placed.unsynced == {e.recordingId} && placed.strayed == {};
  }

  lemma WriteEnds(e: SpoolEntry, synced: bool)
    ensures PersistSynced(Alone(e, AwaitingPersist, InPlace, false), 0, synced)
         == Alone(e, AwaitingPersist, if synced then Synced else Failed, false)
  {
    var w := PersistSynced(Alone(e, AwaitingPersist, InPlace, false), 0, synced);
    assert w.persists == map[0 := Persist(e, if synced then Synced else Failed)];
    assert synced ==> w.enqueued == {e.recordingId};
  }

  lemma UploadIsConfirmed(e: SpoolEntry)
    ensures Proceeded(Alone(e, AwaitingPersist, Synced, false), 0, true) == Alone(e, Sending, Synced, false)
    ensures Answered(Alone(e, Sending, Synced, false), 0, true) == Alone(e, Removing, Synced, false)
  {
    assert map[0 := Task(e, AwaitingPersist)][0 := Task(e, Sending)] == map[0 := Task(e, Sending)];
    assert map[0 := Task(e, Sending)][0 := Task(e, Removing)] == map[0 := Task(e, Removing)];
  }

  lemma FirstIsReachable(e: SpoolEntry)
    ensures Reachable(Alone(e, AwaitingPersist, ToWrite, false))
  {
    var w0 := Start(map[]);
    assert w0 == Run(Start(map[]), []);
    UploadBegins(e);
    NextIsReachable(w0, Foreground(0, e));
  }

  lemma WrittenIsReachable(e: SpoolEntry, synced: bool)
    ensures Reachable(Alone(e, AwaitingPersist, if synced then Synced else Failed, false))
  {
    FirstIsReachable(e);
    UploadBegins(e);
    WriteEnds(e, synced);
    NextIsReachable(Alone(e, AwaitingPersist, ToWrite, false), PersistRenames(0, true));
    NextIsReachable(Alone(e, AwaitingPersist, InPlace, false), PersistSyncs(0, synced));
  }

  /** Upload and confirmation, then shutdown, with the removal still to run. */
  lemma ConfirmedAtShutdown(e: SpoolEntry)
    ensures Reachable(Alone(e, Removing, Synced, true))
  {
    WrittenIsReachable(e, true);
    UploadIsConfirmed(e);
    NextIsReachable(Alone(e, AwaitingPersist, Synced, false), TaskProceeds(0, true));
    NextIsReachable(Alone(e, Sending, Synced, false), TaskAnswered(0, true));
    NextIsReachable(Alone(e, Removing, Synced, false), ShutdownBegins);
  }

  /** The task is aborted, and the replayer, not yet stopped, takes the entry up. */
  function Adrift(e: SpoolEntry, r: Replayer, claimed: bool): World {
    World(map[e.recordingId := e], if claimed then {e.recordingId} else {}, map[], map[0 := Persist(e, Synced)],
          r, map[0 := e.recordingId], true, {}, map[], {e.recordingId}, {e.recordingId}, {})
  }

  lemma TaskIsAborted(e: SpoolEntry)
    ensures Aborted(Alone(e, Removing, Synced, true), 0) == Adrift(e, Resting, false)
  {
    assert map[0 := Task(e, Removing)] - {0} == map[];
    assert {e.recordingId} - {e.recordingId} == {};
  }

  lemma ReplayTakesUp(e: SpoolEntry)
    ensures var id := e.recordingId;
      && NextOfSweep(Adrift(e, Resting, false), SweepBegins(true)) == Adrift(e, Sweeping({id}), false)
      && Picked(Adrift(e, Sweeping({id}), false), id, true) == Adrift(e, Holding(id, {}), true)
      && Looked(Adrift(e, Holding(id, {}), true)) == Adrift(e, Found(id, {}), true)
      && SweepSent(Adrift(e, Found(id, {}), true), true) == Adrift(e, Replaying(id, {}), true)
  {
    assert {e.recordingId} - {e.recordingId} == {};
    assert map[e.recordingId := e].Keys == {e.recordingId};
  }

  lemma SeenIsReachable(e: SpoolEntry)
    ensures Reachable(Adrift(e, Holding(e.recordingId, {}), true))
  {
    var id := e.recordingId;
    ConfirmedAtShutdown(e);
    TaskIsAborted(e);
    ReplayTakesUp(e);
    NextIsReachable(Alone(e, Removing, Synced, true), TaskAborted(0));
    NextIsReachable(Adrift(e, Resting, false), SweepBegins(true));
    NextIsReachable(Adrift(e, Sweeping({id}), false), SweepPicks(id, true));
  }

  /** It does happen: shutdown aborts a task whose removal is still to run, the replayer,
      not yet stopped, sees the entry and sends it, and then the removal runs. */
  lemma DetachedRemovalRacesReplay(e: SpoolEntry)
    ensures exists w :: Reachable(w) && Replays(w, e.recordingId) && e.recordingId !in w.dir
  {
    var id := e.recordingId;
    SeenIsReachable(e);
    ReplayTakesUp(e);
    NextIsReachable(Adrift(e, Holding(id, {}), true), SweepLooks);
    NextIsReachable(Adrift(e, Found(id, {}), true), SweepSends(true));
    NextIsReachable(Adrift(e, Replaying(id, {}), true), DetachedRuns(0, true));
    RemovalRuns(e);
  }

  lemma RemovalRuns(e: SpoolEntry)
    ensures var w := Next(Adrift(e, Replaying(e.recordingId, {}), true), DetachedRuns(0, true));
      Replays(w, e.recordingId) && e.recordingId !in w.dir
  {
  }

  /** The other way happens too: the removal runs after the replayer has looked, and only
      then does it send. */
  lemma ReplayBeginsAfterRemoval(e: SpoolEntry)
    ensures exists w ::
      && Reachable(w) && !Replays(w, e.recordingId)
      && Replays(Next(w, SweepSends(true)), e.recordingId) && e.recordingId !in Next(w, SweepSends(true)).dir
  {
    var id := e.recordingId;
    SeenIsReachable(e);
    ReplayTakesUp(e);
    NextIsReachable(Adrift(e, Holding(id, {}), true), SweepLooks);
    NextIsReachable(Adrift(e, Found(id, {}), true), DetachedRuns(0, true));
    RemovalRunsFirst(e);
  }

  lemma RemovalRunsFirst(e: SpoolEntry)
    ensures var w := Next(Adrift(e, Found(e.recordingId, {}), true), DetachedRuns(0, true));
      && !Replays(w, e.recordingId) && Replays(Next(w, SweepSends(true)), e.recordingId)
      && e.recordingId !in Next(w, SweepSends(true)).dir
  {
  }

  /** An entry that was renamed into place before its sync failed. */
  function Unsynced(e: SpoolEntry, r: Replayer, claimed: bool): World {
    World(map[e.recordingId := e], if claimed then {e.recordingId} else {}, map[], map[0 := Persist(e, Failed)],
          r, map[], false, {e.recordingId}, map[], {}, {}, {})
  }

  lemma UnsyncedIsReachable(e: SpoolEntry)
    ensures Reachable(Unsynced(e, Resting, false))
  {
    WrittenIsReachable(e, false);
    NextIsReachable(Alone(e, AwaitingPersist, Failed, false), TaskProceeds(0, true));
    TaskGivesUp(e);
  }

  lemma TaskGivesUp(e: SpoolEntry)
    ensures Proceeded(Alone(e, AwaitingPersist, Failed, false), 0, true) == Unsynced(e, Resting, false)
  {
    assert {e.recordingId} - {e.recordingId} == {};
    assert map[0 := Task(e, AwaitingPersist)] - {0} == map[];
  }

  lemma UnsyncedIsTakenUp(e: SpoolEntry)
    ensures var id := e.recordingId;
      && NextOfSweep(Unsynced(e, Resting, false), SweepBegins(true)) == Unsynced(e, Sweeping({id}), false)
      && Picked(Unsynced(e, Sweeping({id}), false), id, true) == Unsynced(e, Holding(id, {}), true)
      && Looked(Unsynced(e, Holding(id, {}), true)) == Unsynced(e, Found(id, {}), true)
      && SweepSent(Unsynced(e, Found(id, {}), true), true) == Unsynced(e, Replaying(id, {}), true)
  {
    assert {e.recordingId} - {e.recordingId} == {};
    assert map[e.recordingId := e].Keys == {e.recordingId};
  }

  /** Without any shutdown a replay may be of an entry that a crash would undo: the
      foreground task gives up when the sync fails, and the replayer finds the entry. */
  lemma UnsyncedEntryIsReplayed(e: SpoolEntry)
    ensures exists w :: Reachable(w) && !w.shuttingDown && Replays(w, e.recordingId) && !Durable(w, e.recordingId)
  {
    var id := e.recordingId;
    UnsyncedIsReachable(e);
    UnsyncedIsTakenUp(e);
    NextIsReachable(Unsynced(e, Resting, false), SweepBegins(true));
    NextIsReachable(Unsynced(e, Sweeping({id}), false), SweepPicks(id, true));
    NextIsReachable(Unsynced(e, Holding(id, {}), true), SweepLooks);
    NextIsReachable(Unsynced(e, Found(id, {}), true), SweepSends(true));
    assert !Durable(Unsynced(e, Replaying(id, {}), true), id);
  }

  /** An entry renamed into place by a process that ended before its sync. */
  function LeftBehind(e: SpoolEntry, r: Replayer, claimed: bool): World {
    Unsynced(e, r, claimed).(persists := map[])
  }

  /** Reached without any sync failing. */
  ghost predicate Synchronous(w: World) {
    exists dir, actions :: w == Run(Start(dir), actions) && forall a :: a in actions ==> !FailsToSync(a)
  }

  lemma NextIsSynchronous(w: World, a: Action)
    requires Synchronous(w) && !FailsToSync(a)
    ensures Synchronous(Next(w, a))
  {
    var dir, actions :| w == Run(Start(dir), actions) && forall b :: b in actions ==> !FailsToSync(b);
    var more := actions + [a];
    assert more[..|actions|] == actions;
    assert Next(w, a) == Run(Start(dir), more);
    forall b | b in more ensures !FailsToSync(b) {
      assert b in actions || b == a;
    }
  }

  lemma PlacedSynchronously(e: SpoolEntry)
    ensures Synchronous(Alone(e, AwaitingPersist, InPlace, false))
  {
    assert Start(map[]) == Run(Start(map[]), []);
    assert Synchronous(Start(map[]));
    UploadBegins(e);
    NextIsSynchronous(Start(map[]), Foreground(0, e));
    NextIsSynchronous(Alone(e, AwaitingPersist, ToWrite, false), PersistRenames(0, true));
  }

  lemma ProcessEnds(e: SpoolEntry)
    ensures Synchronous(LeftBehind(e, Resting, false))
  {
    PlacedSynchronously(e);
    NextIsSynchronous(Alone(e, AwaitingPersist, InPlace, false), Restart);
    assert Restarted(Alone(e, AwaitingPersist, InPlace, false)) == LeftBehind(e, Resting, false);
  }

  lemma LeftBehindIsTakenUp(e: SpoolEntry)
    ensures var id := e.recordingId;
      && NextOfSweep(LeftBehind(e, Resting, false), SweepBegins(true)) == LeftBehind(e, Sweeping({id}), false)
      && Picked(LeftBehind(e, Sweeping({id}), false), id, true) == LeftBehind(e, Holding(id, {}), true)
      && Looked(LeftBehind(e, Holding(id, {}), true)) == LeftBehind(e, Found(id, {}), true)
      && SweepSent(LeftBehind(e, Found(id, {}), true), true) == LeftBehind(e, Replaying(id, {}), true)
  {
    assert {e.recordingId} - {e.recordingId} == {};
    assert map[e.recordingId := e].Keys == {e.recordingId};
  }

  /** Without any shutdown or failing sync either: the process ends between rename and
      sync, and the one started after it finds and replays the entry. */
  lemma RestartedReplayIsUndurable(e: SpoolEntry)
    ensures exists w :: Synchronous(w) && !w.shuttingDown && Replays(w, e.recordingId) && !Durable(w, e.recordingId)
  {
    var id := e.recordingId;
    ProcessEnds(e);
    LeftBehindIsTakenUp(e);
    NextIsSynchronous(LeftBehind(e, Resting, false), SweepBegins(true));
    NextIsSynchronous(LeftBehind(e, Sweeping({id}), false), SweepPicks(id, true));
    NextIsSynchronous(LeftBehind(e, Holding(id, {}), true), SweepLooks);
    NextIsSynchronous(LeftBehind(e, Found(id, {}), true), SweepSends(true));
    assert !Durable(LeftBehind(e, Replaying(id, {}), true), id);
  }
}
