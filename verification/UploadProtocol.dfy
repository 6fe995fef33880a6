/**
 Foreground uploads, the background replayer, blocking file operations, shutdown and
 crashes, interleaved in every possible way over one pending-upload spool.
 */
module UploadProtocol {
  import opened Wrappers
  import opened PendingUploads

  type TaskId = nat

  /** A foreground upload task, from the moment its claim is taken. */
  datatype Stage = AwaitingPersist | Sending | Removing | Removed

  datatype Task = Task(entry: SpoolEntry, stage: Stage)

  /** How far a write has come: its entry is renamed into place, and then the directory
      is synced. */
  datatype Progress = ToWrite | InPlace | Synced | Failed

  /** The blocking write that makes a foreground recording durable; it runs even
      after its task is gone. */
  datatype Persist = Persist(entry: SpoolEntry, progress: Progress)

  datatype Replayer =
    | Resting
    | Sweeping(todo: set<Id>)
    | Holding(id: Id, todo: set<Id>)       // claimed, not yet looked up
    | Found(id: Id, todo: set<Id>)         // claimed and seen in the spool
    | Replaying(id: Id, todo: set<Id>)     // uploading
    | Clearing(id: Id, todo: set<Id>)      // confirmed, removal not yet run
    | Stopped

  /** `detached` are removals whose task was aborted before they ran; `unsynced` are
      entries a crash may still undo, and `removed` those it may bring back. Three
      fields exist only for the argument: `enqueued` and `confirmed` collect ids for
      ever, `strayed` those a detached removal has taken since they were last written. */
  datatype World = World(
    dir: Directory,
    claims: set<Id>,
    tasks: map<TaskId, Task>,
    persists: map<TaskId, Persist>,
    replayer: Replayer,
    detached: map<TaskId, Id>,
    shuttingDown: bool,
    unsynced: set<Id>,
    removed: Directory,
    enqueued: set<Id>,
    confirmed: set<Id>,
    strayed: set<Id>)

  function Start(dir: Directory): World {
    World(dir, {}, map[], map[], Resting, map[], false, {}, map[], dir.Keys, {}, {})
  }

  datatype Action =
    | Foreground(t: TaskId, entry: SpoolEntry)      // the upload effect is executed
    | PersistRenames(t: TaskId, placed: bool)       // everything up to the rename
    | PersistSyncs(t: TaskId, synced: bool)
    | TaskProceeds(t: TaskId, accepting: bool)      // the task learns whether it may send
    | TaskAnswered(t: TaskId, success: bool)
    | TaskRemoves(t: TaskId, removable: bool)
    | TaskEnds(t: TaskId)
    | TaskAborted(t: TaskId)
    | DetachedRuns(t: TaskId, removable: bool)
    | SweepBegins(accepting: bool)
    | SweepPicks(id: Id, accepting: bool)
    | SweepLooks
    | SweepSends(sized: bool)
    | SweepAnswered(success: bool)
    | SweepRemoves(removable: bool)
    | ReplayerAborted(t: TaskId)
    | ShutdownBegins
    | Restart                                       // the process alone ends
    | Crash(lost: set<Id>, back: set<Id>)           // the machine does

  function Release(w: World, id: Id): World {
    w.(claims := w.claims - {id})
  }

  /** The task leaves and its claim is dropped. */
  function Finish(w: World, t: TaskId): World
    requires t in w.tasks
  {
    Release(w, w.tasks[t].entry.recordingId).(tasks := w.tasks - {t})
  }

  function InStage(w: World, t: TaskId, stage: Stage): bool {
    t in w.tasks && w.tasks[t].stage == stage
  }

  function Advance(w: World, t: TaskId, stage: Stage): World
    requires t in w.tasks
  {
    w.(tasks := w.tasks[t := w.tasks[t].(stage := stage)])
  }

  /** An entry is removed; the removal reaches the disk at some later time. */
  function Remove(w: World, id: Id, removable: bool): World {
    w.(dir := Dequeued(w.dir, id, removable),
       removed := if removable && id in w.dir then w.removed[id := w.dir[id]] else w.removed)
  }

  function ForegroundStarts(w: World, t: TaskId, entry: SpoolEntry): World {
    if t in w.tasks || t in w.persists || t in w.detached || entry.recordingId in w.claims then w
    else
      var w := w.(persists := w.persists[t := Persist(entry, ToWrite)]);
      if w.shuttingDown then w
      else w.(claims := w.claims + {entry.recordingId}, tasks := w.tasks[t := Task(entry, AwaitingPersist)])
  }

  function PersistRenamed(w: World, t: TaskId, placed: bool): World {
    if t !in w.persists || !w.persists[t].progress.ToWrite? then w
    else
      var e := w.persists[t].entry;
      var id := e.recordingId;
      if !placed then w.(persists := w.persists[t := Persist(e, Failed)])
      else
        w.(dir := Enqueued(w.dir, e, EnqueueSucceeds),
           persists := w.persists[t := Persist(e, InPlace)],
           unsynced := if id in w.dir then w.unsynced else w.unsynced + {id},
           strayed := w.strayed - {id})
  }

  /** The sync is of the directory, so it settles whatever renames and removals went
      before, of this entry or of others. */
  function PersistSynced(w: World, t: TaskId, synced: bool): World {
    if t !in w.persists || !w.persists[t].progress.InPlace? then w
    else
      var e := w.persists[t].entry;
      if !synced then w.(persists := w.persists[t := Persist(e, Failed)])
      else
        w.(persists := w.persists[t := Persist(e, Synced)], unsynced := {}, removed := map[],
           enqueued := w.enqueued + {e.recordingId})
  }

  function Proceeded(w: World, t: TaskId, accepting: bool): World {
    if !InStage(w, t, AwaitingPersist) || t !in w.persists || !(w.persists[t].progress.Synced? || w.persists[t].progress.Failed?) then w
    else if w.persists[t].progress.Failed? || w.shuttingDown || !accepting then Finish(w, t)
    else Advance(w, t, Sending)
  }

  function Answered(w: World, t: TaskId, success: bool): World {
    if !InStage(w, t, Sending) then w
    else if !success then Finish(w, t)
    else Advance(w, t, Removing).(confirmed := w.confirmed + {w.tasks[t].entry.recordingId})
  }

  function TaskRemoved(w: World, t: TaskId, removable: bool): World {
    if !InStage(w, t, Removing) then w
    else Advance(Remove(w, w.tasks[t].entry.recordingId, removable), t, Removed)
  }

  /** Only shutdown aborts tasks; a removal already handed over still runs. */
  function Aborted(w: World, t: TaskId): World {
    if !w.shuttingDown || t !in w.tasks then w
    else
      var w' := Finish(w, t);
      if w.tasks[t].stage == Removing then w'.(detached := w.detached[t := w.tasks[t].entry.recordingId]) else w'
  }

  function DetachedRan(w: World, t: TaskId, removable: bool): World {
    if t !in w.detached then w
    else
      Remove(w, w.detached[t], removable).(detached := w.detached - {t},
                                           strayed := if removable then w.strayed + {w.detached[t]} else w.strayed)
  }

  function Picked(w: World, id: Id, accepting: bool): World {
    if !w.replayer.Sweeping? then w
    else if !accepting || w.replayer.todo == {} then w.(replayer := Resting)
    else if id !in w.replayer.todo then w
    else
      var todo := w.replayer.todo - {id};
      if id in w.claims then w.(replayer := Sweeping(todo))
      else w.(claims := w.claims + {id}, replayer := Holding(id, todo))
  }

  function Looked(w: World): World {
    if !w.replayer.Holding? then w
    else if w.replayer.id in w.dir then w.(replayer := Found(w.replayer.id, w.replayer.todo))
    else Release(w, w.replayer.id).(replayer := Sweeping(w.replayer.todo))
  }

  function SweepSent(w: World, sized: bool): World {
    if !w.replayer.Found? then w
    else if sized then w.(replayer := Replaying(w.replayer.id, w.replayer.todo))
    else Release(w, w.replayer.id).(replayer := Sweeping(w.replayer.todo))
  }

  /** A failed replay backs off the whole sweep. */
  function SweepHeard(w: World, success: bool): World {
    if !w.replayer.Replaying? then w
    else if success then
      w.(replayer := Clearing(w.replayer.id, w.replayer.todo), confirmed := w.confirmed + {w.replayer.id})
    else Release(w, w.replayer.id).(replayer := Resting)
  }

  function SweepCleared(w: World, removable: bool): World {
    if !w.replayer.Clearing? then w
    else
      Release(Remove(w, w.replayer.id, removable), w.replayer.id).(replayer := Sweeping(w.replayer.todo))
  }

  function ReplayAborted(w: World, t: TaskId): World {
    if !w.shuttingDown || t in w.detached || t in w.tasks || t in w.persists then w
    else
      match w.replayer
      case Holding(id, _) => Release(w, id).(replayer := Stopped)
      case Found(id, _) => Release(w, id).(replayer := Stopped)
      case Replaying(id, _) => Release(w, id).(replayer := Stopped)
      case Clearing(id, _) => Release(w, id).(replayer := Stopped, detached := w.detached[t := id])
      case _ => w.(replayer := Stopped)
  }

  /** Memory is lost, and file operations that have not run never do. The directory is as
      it was, and what was not synced is not. */
  function Restarted(w: World): World {
    Start(w.dir).(unsynced := w.unsynced, removed := w.removed, enqueued := w.enqueued, confirmed := w.confirmed)
  }

  /** Memory is lost and pending file operations never run; the directory may lose
      entries never synced and regain removed ones. */
  function Crashed(w: World, lost: set<Id>, back: set<Id>): World {
    var kept := w.dir - (lost * w.unsynced);
    var regained := map id | id in w.removed && id in back && id !in kept :: w.removed[id];
    Start(kept + regained).(enqueued := w.enqueued, confirmed := w.confirmed)
  }

  predicate TaskAction(a: Action) {
    a.TaskProceeds? || a.TaskAnswered? || a.TaskRemoves? || a.TaskEnds? || a.TaskAborted?
  }

  function NextOfTask(w: World, a: Action): World
    requires TaskAction(a)
  {
    match a
    case TaskProceeds(t, accepting) => Proceeded(w, t, accepting)
    case TaskAnswered(t, success) => Answered(w, t, success)
    case TaskRemoves(t, removable) => TaskRemoved(w, t, removable)
    case TaskEnds(t) => if InStage(w, t, Removed) then Finish(w, t) else w
    case TaskAborted(t) => Aborted(w, t)
  }

  predicate SweepAction(a: Action) {
    || a.SweepBegins? || a.SweepPicks? || a.SweepLooks? || a.SweepSends? || a.SweepAnswered?
    || a.SweepRemoves? || a.ReplayerAborted?
  }

  function NextOfSweep(w: World, a: Action): World
    requires SweepAction(a)
  {
    match a
    case SweepBegins(accepting) =>
      if w.replayer.Resting? && accepting then w.(replayer := Sweeping(w.dir.Keys)) else w
    case SweepPicks(id, accepting) => Picked(w, id, accepting)
    case SweepLooks => Looked(w)
    case SweepSends(sized) => SweepSent(w, sized)
    case SweepAnswered(success) => SweepHeard(w, success)
    case SweepRemoves(removable) => SweepCleared(w, removable)
    case ReplayerAborted(t) => ReplayAborted(w, t)
  }

  function Next(w: World, a: Action): World {
    if TaskAction(a) then NextOfTask(w, a)
    else if SweepAction(a) then NextOfSweep(w, a)
    else
      match a
      case Foreground(t, entry) => ForegroundStarts(w, t, entry)
      case PersistRenames(t, placed) => PersistRenamed(w, t, placed)
      case PersistSyncs(t, synced) => PersistSynced(w, t, synced)
      case DetachedRuns(t, removable) => DetachedRan(w, t, removable)
      case ShutdownBegins => w.(shuttingDown := true)
      case Restart => Restarted(w)
      case Crash(lost, back) => Crashed(w, lost, back)
  }

  function Run(w: World, actions: seq<Action>): World {
    if actions == [] then w else Next(Run(w, actions[..|actions| - 1]), actions[|actions| - 1])
  }

  // ----- the invariant

  function HeldByReplayer(r: Replayer): Option<Id> {
    match r
    case Holding(id, _) => Some(id)
    case Found(id, _) => Some(id)
    case Replaying(id, _) => Some(id)
    case Clearing(id, _) => Some(id)
    case _ => None
  }

  /** Every claim has exactly one holder. */
  ghost predicate ClaimsExclusive(w: World) {
    && (forall t :: t in w.tasks ==> w.tasks[t].entry.recordingId in w.claims)
    && (forall t, u :: t in w.tasks && u in w.tasks && t != u ==>
          w.tasks[t].entry.recordingId != w.tasks[u].entry.recordingId)
    && (HeldByReplayer(w.replayer).Some? ==>
          && HeldByReplayer(w.replayer).value in w.claims
          && forall t :: t in w.tasks ==> w.tasks[t].entry.recordingId != HeldByReplayer(w.replayer).value)
    && (forall id :: id in w.claims ==> Held(w, id))
  }

  ghost predicate Held(w: World, id: Id) {
    HeldByReplayer(w.replayer) == Some(id) || exists t :: t in w.tasks && w.tasks[t].entry.recordingId == id
  }

  /** Nothing once stored is missing unless the operator has confirmed it. */
  ghost predicate Stored(w: World) {
    && w.enqueued <= w.dir.Keys + w.confirmed
    && w.unsynced * w.enqueued <= w.confirmed
    && (forall t :: t in w.persists && w.persists[t].progress.InPlace? ==>
          w.persists[t].entry.recordingId in w.dir.Keys + w.confirmed)
  }

  /** Whatever is being removed, or has been by a stray removal, is confirmed. */
  ghost predicate RemovalsConfirmed(w: World) {
    && w.strayed <= w.confirmed
    && (forall t :: t in w.detached ==> w.detached[t] in w.confirmed)
    && (forall t :: t in w.tasks && (w.tasks[t].stage == Removing || w.tasks[t].stage == Removed) ==>
          w.tasks[t].entry.recordingId in w.confirmed)
    && (w.replayer.Clearing? ==> w.replayer.id in w.confirmed)
  }

  ghost predicate NothingLost(w: World) {
    Stored(w) && RemovalsConfirmed(w)
  }

  /** Whoever is about to send, or sending, holds an entry that is on disk, unless a
      removal that outlived its aborted task has hit it. */
  ghost predicate SendersDurable(w: World) {
    && (forall t :: t in w.tasks && w.tasks[t].stage == Sending ==>
          && w.tasks[t].entry.recordingId in w.dir.Keys + w.strayed
          && t in w.persists && w.persists[t] == Persist(w.tasks[t].entry, Synced))
    && (forall t :: t in w.tasks && w.tasks[t].stage == AwaitingPersist ==>
          && t in w.persists && w.persists[t].entry == w.tasks[t].entry
          && (w.persists[t].progress.InPlace? || w.persists[t].progress.Synced? ==>
                w.tasks[t].entry.recordingId in w.dir.Keys + w.strayed))
    && (w.replayer.Found? || w.replayer.Replaying? ==> w.replayer.id in w.dir.Keys + w.strayed)
    && (!w.shuttingDown ==> w.detached == map[] && w.strayed == {})
  }

  ghost predicate Inv(w: World) {
    ClaimsExclusive(w) && NothingLost(w) && SendersDurable(w)
  }

  // ----- claims

  lemma StillHeld(w: World, w': World, id: Id)
    requires Held(w, id)
    requires HeldByReplayer(w.replayer) == Some(id) ==> HeldByReplayer(w'.replayer) == Some(id)
    requires forall t :: t in w.tasks && w.tasks[t].entry.recordingId == id ==>
               t in w'.tasks && w'.tasks[t].entry.recordingId == id
    ensures Held(w', id)
  {
    if HeldByReplayer(w.replayer) != Some(id) {
      var t :| t in w.tasks && w.tasks[t].entry.recordingId == id;
      assert t in w'.tasks;
    }
  }

  /** Claims depend only on the tasks' recordings and on what the replayer holds. */
  lemma SameHolders(w: World, w': World)
    requires ClaimsExclusive(w) && w'.claims == w.claims
    requires HeldByReplayer(w'.replayer) == HeldByReplayer(w.replayer)
    requires w'.tasks.Keys == w.tasks.Keys
    requires forall t :: t in w.tasks ==> w'.tasks[t].entry == w.tasks[t].entry
    ensures ClaimsExclusive(w')
  {
    forall id | id in w'.claims ensures Held(w', id) {
      StillHeld(w, w', id);
    }
  }

  lemma FinishClaims(w: World, t: TaskId)
    requires ClaimsExclusive(w) && t in w.tasks
    ensures ClaimsExclusive(Finish(w, t))
  {
    var w' := Finish(w, t);
    forall id | id in w'.claims ensures Held(w', id) {
      StillHeld(w, w', id);
    }
  }

  lemma StartClaims(w: World, t: TaskId, task: Task)
    requires ClaimsExclusive(w) && t !in w.tasks && task.entry.recordingId !in w.claims
    ensures ClaimsExclusive(w.(claims := w.claims + {task.entry.recordingId}, tasks := w.tasks[t := task]))
  {
    var w' := w.(claims := w.claims + {task.entry.recordingId}, tasks := w.tasks[t := task]);
    assert t in w'.tasks && w'.tasks[t] == task;
    forall id | id in w'.claims ensures Held(w', id) {
      if id in w.claims {
        StillHeld(w, w', id);
      }
    }
  }

  lemma ReplayerTakes(w: World, id: Id, r: Replayer)
    requires ClaimsExclusive(w) && id !in w.claims && HeldByReplayer(w.replayer).None? && HeldByReplayer(r) == Some(id)
    ensures ClaimsExclusive(w.(claims := w.claims + {id}, replayer := r))
  {
    var w' := w.(claims := w.claims + {id}, replayer := r);
    forall x | x in w'.claims ensures Held(w', x) {
      if x != id {
        StillHeld(w, w', x);
      }
    }
  }

  lemma ReplayerReleases(w: World, r: Replayer)
    requires ClaimsExclusive(w) && HeldByReplayer(w.replayer).Some? && HeldByReplayer(r).None?
    ensures ClaimsExclusive(Release(w, HeldByReplayer(w.replayer).value).(replayer := r))
  {
    var w' := Release(w, HeldByReplayer(w.replayer).value).(replayer := r);
    forall id | id in w'.claims ensures Held(w', id) {
      StillHeld(w, w', id);
    }
  }

  lemma ReplayAbortClaims(w: World, t: TaskId)
    requires ClaimsExclusive(w)
    ensures ClaimsExclusive(ReplayAborted(w, t))
  {
    if HeldByReplayer(w.replayer).Some? {
      var released := Release(w, HeldByReplayer(w.replayer).value).(replayer := Stopped);
      ReplayerReleases(w, Stopped);
      if ReplayAborted(w, t) != w {
        SameHolders(released, ReplayAborted(w, t));
      }
    } else {
      SameHolders(w, w.(replayer := Stopped));
    }
  }

  lemma ProceedClaims(w: World, t: TaskId, accepting: bool)
    requires ClaimsExclusive(w)
    ensures ClaimsExclusive(Proceeded(w, t, accepting))
  {
    if t in w.tasks {
      FinishClaims(w, t);
      SameHolders(w, Advance(w, t, Sending));
    }
  }

  lemma AnswerClaims(w: World, t: TaskId, success: bool)
    requires ClaimsExclusive(w)
    ensures ClaimsExclusive(Answered(w, t, success))
  {
    if t in w.tasks {
      FinishClaims(w, t);
      SameHolders(w, Advance(w, t, Removing).(confirmed := w.confirmed + {w.tasks[t].entry.recordingId}));
    }
  }

  lemma TaskRemoveClaims(w: World, t: TaskId, removable: bool)
    requires ClaimsExclusive(w)
    ensures ClaimsExclusive(TaskRemoved(w, t, removable))
  {
    if InStage(w, t, Removing) {
      SameHolders(w, TaskRemoved(w, t, removable));
    }
  }

  lemma AbortClaims(w: World, t: TaskId)
    requires ClaimsExclusive(w)
    ensures ClaimsExclusive(Aborted(w, t))
  {
    if t in w.tasks {
      FinishClaims(w, t);
      SameHolders(Finish(w, t), Finish(w, t).(detached := w.detached[t := w.tasks[t].entry.recordingId]));
    }
  }

  lemma PickClaims(w: World, id: Id, accepting: bool)
    requires ClaimsExclusive(w)
    ensures ClaimsExclusive(Picked(w, id, accepting))
  {
    if w.replayer.Sweeping? {
      var todo := w.replayer.todo - {id};
      SameHolders(w, w.(replayer := Resting));
      SameHolders(w, w.(replayer := Sweeping(todo)));
      if id !in w.claims {
        ReplayerTakes(w, id, Holding(id, todo));
      }
    }
  }

  lemma LookClaims(w: World, sized: bool)
    requires ClaimsExclusive(w)
    ensures ClaimsExclusive(Looked(w)) && ClaimsExclusive(SweepSent(w, sized))
  {
    if w.replayer.Holding? || w.replayer.Found? {
      var id, todo := w.replayer.id, w.replayer.todo;
      ReplayerReleases(w, Sweeping(todo));
      SameHolders(w, w.(replayer := Found(id, todo)));
      SameHolders(w, w.(replayer := Replaying(id, todo)));
    }
  }

  lemma HearClaims(w: World, success: bool)
    requires ClaimsExclusive(w)
    ensures ClaimsExclusive(SweepHeard(w, success))
  {
    if w.replayer.Replaying? {
      ReplayerReleases(w, Resting);
      SameHolders(w, SweepHeard(w, true));
    }
  }

  lemma ClearClaims(w: World, removable: bool)
    requires ClaimsExclusive(w)
    ensures ClaimsExclusive(SweepCleared(w, removable))
  {
    if w.replayer.Clearing? {
      var released := Release(w, w.replayer.id).(replayer := Sweeping(w.replayer.todo));
      ReplayerReleases(w, Sweeping(w.replayer.todo));
      SameHolders(released, SweepCleared(w, removable));
    }
  }

  lemma TaskClaims(w: World, a: Action)
    requires ClaimsExclusive(w) && TaskAction(a)
    ensures ClaimsExclusive(NextOfTask(w, a))
  {
    match a {
      case TaskProceeds(t, accepting) => ProceedClaims(w, t, accepting);
      case TaskAnswered(t, success) => AnswerClaims(w, t, success);
      case TaskRemoves(t, removable) => TaskRemoveClaims(w, t, removable);
      case TaskEnds(t) =>
        if t in w.tasks {
          FinishClaims(w, t);
        }
      case TaskAborted(t) => AbortClaims(w, t);
    }
  }

  lemma SweepClaims(w: World, a: Action)
    requires ClaimsExclusive(w) && SweepAction(a)
    ensures ClaimsExclusive(NextOfSweep(w, a))
  {
    match a {
      case SweepBegins(_) => SameHolders(w, NextOfSweep(w, a));
      case SweepPicks(id, accepting) => PickClaims(w, id, accepting);
      case SweepLooks => LookClaims(w, true);
      case SweepSends(sized) => LookClaims(w, sized);
      case SweepAnswered(success) => HearClaims(w, success);
      case SweepRemoves(removable) => ClearClaims(w, removable);
      case ReplayerAborted(t) => ReplayAbortClaims(w, t);
    }
  }

  lemma ForegroundClaims(w: World, t: TaskId, entry: SpoolEntry)
    requires ClaimsExclusive(w)
    ensures ClaimsExclusive(ForegroundStarts(w, t, entry))
  {
    var w' := ForegroundStarts(w, t, entry);
    if w'.tasks.Keys == w.tasks.Keys {
      SameHolders(w, w');
    } else {
      var task := Task(entry, AwaitingPersist);
      StartClaims(w, t, task);
      SameHolders(w.(claims := w.claims + {entry.recordingId}, tasks := w.tasks[t := task]), w');
    }
  }

  /** No interleaving gives an id two holders, or leaks a claim. */
  lemma ClaimsStayExclusive(w: World, a: Action)
    requires ClaimsExclusive(w)
    ensures ClaimsExclusive(Next(w, a))
  {
    if TaskAction(a) {
      TaskClaims(w, a);
    } else if SweepAction(a) {
      SweepClaims(w, a);
    } else if a.Foreground? {
      ForegroundClaims(w, a.t, a.entry);
    } else if a.PersistRenames? {
      SameHolders(w, PersistRenamed(w, a.t, a.placed));
    } else if a.PersistSyncs? {
      SameHolders(w, PersistSynced(w, a.t, a.synced));
    } else if a.DetachedRuns? {
      SameHolders(w, DetachedRan(w, a.t, a.removable));
    } else if a.ShutdownBegins? {
      SameHolders(w, w.(shuttingDown := true));
    }
  }

  // ----- what a step of the sweep leaves alone

  /** Only the replayer and its claim have moved. */
  ghost predicate OnlyReplayerMoved(w: World, w': World) {
    && w'.dir == w.dir && w'.enqueued == w.enqueued && w'.unsynced == w.unsynced && w'.strayed == w.strayed
    && w'.tasks == w.tasks && w'.persists == w.persists && w'.shuttingDown == w.shuttingDown && w'.removed == w.removed
  }

  /** It holds nothing it has not seen in the directory, and clears nothing new. */
  ghost predicate QuietMove(w: World, w': World) {
    && OnlyReplayerMoved(w, w') && w'.detached == w.detached && w'.confirmed == w.confirmed
    && (w'.replayer.Clearing? ==> w.replayer == w'.replayer)
    && (w'.replayer.Found? || w'.replayer.Replaying? ==>
          w'.replayer.id in w.dir || ((w.replayer.Found? || w.replayer.Replaying?) && w'.replayer.id == w.replayer.id))
  }

  ghost predicate ConfirmingMove(w: World, w': World) {
    && OnlyReplayerMoved(w, w') && w'.detached == w.detached && w'.replayer.Clearing?
    && w'.confirmed == w.confirmed + {w'.replayer.id}
  }

  ghost predicate DetachingMove(w: World, w': World, t: TaskId) {
    && OnlyReplayerMoved(w, w') && w'.confirmed == w.confirmed && w'.replayer.Stopped? && w.replayer.Clearing?
    && w.shuttingDown && w'.detached == w.detached[t := w.replayer.id]
  }

  /** The replayer is where it may be, whatever it claims. */
  lemma RepositionIsQuiet(w: World, claims: set<Id>, r: Replayer)
    requires r.Clearing? ==> w.replayer == r
    requires r.Found? || r.Replaying? ==>
               r.id in w.dir || ((w.replayer.Found? || w.replayer.Replaying?) && r.id == w.replayer.id)
    ensures QuietMove(w, w.(claims := claims, replayer := r))
  {
  }

  lemma PickIsQuiet(w: World, id: Id, accepting: bool)
    ensures QuietMove(w, Picked(w, id, accepting))
  {
    if w.replayer.Sweeping? && accepting && id in w.replayer.todo {
      var todo := w.replayer.todo - {id};
      if id in w.claims {
        RepositionIsQuiet(w, w.claims, Sweeping(todo));
      } else {
        RepositionIsQuiet(w, w.claims + {id}, Holding(id, todo));
      }
    } else {
      RepositionIsQuiet(w, w.claims, w.replayer);
      RepositionIsQuiet(w, w.claims, Resting);
    }
  }

  lemma LookIsQuiet(w: World)
    ensures QuietMove(w, Looked(w))
  {
    if !w.replayer.Holding? {
      RepositionIsQuiet(w, w.claims, w.replayer);
    } else if w.replayer.id in w.dir {
      RepositionIsQuiet(w, w.claims, Found(w.replayer.id, w.replayer.todo));
    } else {
      RepositionIsQuiet(w, w.claims - {w.replayer.id}, Sweeping(w.replayer.todo));
    }
  }

  lemma SendIsQuiet(w: World, sized: bool)
    ensures QuietMove(w, SweepSent(w, sized))
  {
    var w' := SweepSent(w, sized);
    assert w' == w.(claims := w'.claims, replayer := w'.replayer);
    RepositionIsQuiet(w, w'.claims, w'.replayer);
  }

  lemma HearingMoves(w: World, success: bool)
    ensures QuietMove(w, SweepHeard(w, success)) || ConfirmingMove(w, SweepHeard(w, success))
  {
  }

  lemma AbortMoves(w: World, t: TaskId)
    ensures QuietMove(w, ReplayAborted(w, t)) || DetachingMove(w, ReplayAborted(w, t), t)
  {
    if !w.shuttingDown || t in w.detached || t in w.tasks || t in w.persists {
      RepositionIsQuiet(w, w.claims, w.replayer);
    } else if w.replayer.Clearing? {
      assert DetachingMove(w, ReplayAborted(w, t), t);
    } else if HeldByReplayer(w.replayer).Some? {
      RepositionIsQuiet(w, w.claims - {HeldByReplayer(w.replayer).value}, Stopped);
    } else {
      RepositionIsQuiet(w, w.claims, Stopped);
    }
  }

  /** An action of the sweep moves the replayer quietly, confirms, or detaches. */
  ghost predicate SweepMove(w: World, w': World) {
    QuietMove(w, w') || ConfirmingMove(w, w') || exists t :: DetachingMove(w, w', t)
  }

  lemma SweepMoves(w: World, a: Action)
    requires SweepAction(a) && !a.SweepRemoves?
    ensures SweepMove(w, NextOfSweep(w, a))
  {
    match a {
      case SweepBegins(_) => assert QuietMove(w, NextOfSweep(w, a));
      case SweepPicks(id, accepting) => PickIsQuiet(w, id, accepting);
      case SweepLooks => LookIsQuiet(w);
      case SweepSends(sized) => SendIsQuiet(w, sized);
      case SweepAnswered(success) => HearingMoves(w, success);
      case ReplayerAborted(t) => AbortMoves(w, t);
    }
  }

  // ----- nothing is lost

  /** A step that stores nothing, removes nothing and confirms at most more. */
  lemma StaysStored(w: World, w': World)
    requires Stored(w) && w'.dir == w.dir && w'.enqueued == w.enqueued && w'.unsynced == w.unsynced
    requires w.confirmed <= w'.confirmed
    requires forall t :: t in w'.persists && w'.persists[t].progress.InPlace? ==> t in w.persists && w'.persists[t] == w.persists[t]
    ensures Stored(w')
  {
  }

  lemma RemoveStaysStored(w: World, id: Id, removable: bool)
    requires Stored(w) && id in w.confirmed
    ensures Stored(Remove(w, id, removable))
  {
  }

  lemma RenameStaysStored(w: World, t: TaskId, placed: bool)
    requires Stored(w)
    ensures Stored(PersistRenamed(w, t, placed))
  {
  }

  lemma SyncStaysStored(w: World, t: TaskId, synced: bool)
    requires Stored(w)
    ensures Stored(PersistSynced(w, t, synced))
  {
  }

  lemma CrashStaysStored(w: World, lost: set<Id>, back: set<Id>)
    requires Stored(w)
    ensures Stored(Crashed(w, lost, back))
  {
    var w' := Crashed(w, lost, back);
    forall id | id in w'.enqueued ensures id in w'.dir.Keys + w'.confirmed {
      if id in w.dir && id !in w.confirmed {
        assert id !in w.unsynced;
      }
    }
  }

  lemma ProceedStaysStored(w: World, t: TaskId, accepting: bool)
    requires Stored(w)
    ensures Stored(Proceeded(w, t, accepting))
  {
    StaysStored(w, Proceeded(w, t, accepting));
  }

  lemma AnswerStaysStored(w: World, t: TaskId, success: bool)
    requires Stored(w)
    ensures Stored(Answered(w, t, success))
  {
    StaysStored(w, Answered(w, t, success));
  }

  lemma AbortStaysStored(w: World, t: TaskId)
    requires Stored(w)
    ensures Stored(Aborted(w, t))
  {
    StaysStored(w, Aborted(w, t));
  }

  lemma TaskRemoveStaysStored(w: World, t: TaskId, removable: bool)
    requires NothingLost(w)
    ensures Stored(TaskRemoved(w, t, removable))
  {
    if InStage(w, t, Removing) {
      RemoveStaysStored(w, w.tasks[t].entry.recordingId, removable);
    }
  }

  lemma TaskStaysStored(w: World, a: Action)
    requires NothingLost(w) && TaskAction(a)
    ensures Stored(NextOfTask(w, a))
  {
    match a {
      case TaskProceeds(t, accepting) => ProceedStaysStored(w, t, accepting);
      case TaskAnswered(t, success) => AnswerStaysStored(w, t, success);
      case TaskRemoves(t, removable) => TaskRemoveStaysStored(w, t, removable);
      case TaskEnds(_) =>
      case TaskAborted(t) => AbortStaysStored(w, t);
    }
  }

  lemma ClearStaysStored(w: World, removable: bool)
    requires NothingLost(w)
    ensures Stored(SweepCleared(w, removable))
  {
    if w.replayer.Clearing? {
      RemoveStaysStored(w, w.replayer.id, removable);
    }
  }

  lemma MoveStaysStored(w: World, w': World)
    requires Stored(w) && SweepMove(w, w')
    ensures Stored(w')
  {
    StaysStored(w, w');
  }

  lemma StepStaysStored(w: World, a: Action)
    requires NothingLost(w)
    ensures Stored(Next(w, a))
  {
    if TaskAction(a) {
      TaskStaysStored(w, a);
    } else if SweepAction(a) {
      if a.SweepRemoves? {
        ClearStaysStored(w, a.removable);
      } else {
        SweepMoves(w, a);
        MoveStaysStored(w, NextOfSweep(w, a));
      }
    } else if a.PersistRenames? {
      RenameStaysStored(w, a.t, a.placed);
    } else if a.PersistSyncs? {
      SyncStaysStored(w, a.t, a.synced);
    } else if a.Crash? {
      CrashStaysStored(w, a.lost, a.back);
    } else if a.DetachedRuns? {
      if a.t in w.detached {
        RemoveStaysStored(w, w.detached[a.t], a.removable);
      }
    } else {
      StaysStored(w, Next(w, a));
    }
  }

  /** A step that only drops tasks, or moves them without starting a removal. */
  lemma FewerRemovals(w: World, w': World)
    requires RemovalsConfirmed(w) && w.confirmed <= w'.confirmed && w'.strayed <= w.strayed && w'.detached == w.detached
    requires forall t :: t in w'.tasks && (w'.tasks[t].stage == Removing || w'.tasks[t].stage == Removed) ==>
               t in w.tasks && w'.tasks[t].entry == w.tasks[t].entry
               && (w.tasks[t].stage == Removing || w.tasks[t].stage == Removed)
    requires w'.replayer.Clearing? ==> w.replayer.Clearing? && w'.replayer.id == w.replayer.id
    ensures RemovalsConfirmed(w')
  {
  }

  lemma AnswerRemovals(w: World, t: TaskId, success: bool)
    requires RemovalsConfirmed(w)
    ensures RemovalsConfirmed(Answered(w, t, success))
  {
  }

  lemma TaskRemovals(w: World, t: TaskId, removable: bool)
    requires RemovalsConfirmed(w)
    ensures RemovalsConfirmed(TaskRemoved(w, t, removable))
  {
  }

  lemma AbortRemovals(w: World, t: TaskId)
    requires RemovalsConfirmed(w)
    ensures RemovalsConfirmed(Aborted(w, t))
  {
  }

  lemma DetachedRemovals(w: World, t: TaskId, flag: bool)
    requires RemovalsConfirmed(w)
    ensures RemovalsConfirmed(DetachedRan(w, t, flag))
  {
  }

  lemma ClearRemovals(w: World, removable: bool)
    requires RemovalsConfirmed(w)
    ensures RemovalsConfirmed(SweepCleared(w, removable))
  {
  }

  lemma MoveRemovals(w: World, w': World)
    requires RemovalsConfirmed(w) && SweepMove(w, w')
    ensures RemovalsConfirmed(w')
  {
  }

  lemma TaskRemovesConfirmed(w: World, a: Action)
    requires RemovalsConfirmed(w) && TaskAction(a)
    ensures RemovalsConfirmed(NextOfTask(w, a))
  {
    match a {
      case TaskProceeds(t, accepting) => FewerRemovals(w, Proceeded(w, t, accepting));
      case TaskAnswered(t, success) => AnswerRemovals(w, t, success);
      case TaskRemoves(t, removable) => TaskRemovals(w, t, removable);
      case TaskEnds(t) => FewerRemovals(w, NextOfTask(w, a));
      case TaskAborted(t) => AbortRemovals(w, t);
    }
  }

  lemma SweepRemovesConfirmed(w: World, a: Action)
    requires RemovalsConfirmed(w) && SweepAction(a)
    ensures RemovalsConfirmed(NextOfSweep(w, a))
  {
    if a.SweepRemoves? {
      ClearRemovals(w, a.removable);
    } else {
      SweepMoves(w, a);
      MoveRemovals(w, NextOfSweep(w, a));
    }
  }

  lemma WriteRemovals(w: World, t: TaskId, flag: bool)
    requires RemovalsConfirmed(w)
    ensures RemovalsConfirmed(PersistRenamed(w, t, flag))
    ensures RemovalsConfirmed(PersistSynced(w, t, flag))
  {
    FewerRemovals(w, PersistRenamed(w, t, flag));
    FewerRemovals(w, PersistSynced(w, t, flag));
  }

  lemma StepRemovesConfirmed(w: World, a: Action)
    requires RemovalsConfirmed(w)
    ensures RemovalsConfirmed(Next(w, a))
  {
    if TaskAction(a) {
      TaskRemovesConfirmed(w, a);
    } else if SweepAction(a) {
      SweepRemovesConfirmed(w, a);
    } else if a.DetachedRuns? {
      DetachedRemovals(w, a.t, a.removable);
    } else if a.Foreground? {
      FewerRemovals(w, ForegroundStarts(w, a.t, a.entry));
    } else if a.PersistRenames? {
      WriteRemovals(w, a.t, a.placed);
    } else if a.PersistSyncs? {
      WriteRemovals(w, a.t, a.synced);
    }
  }

  /** No interleaving, abort or crash loses a stored recording before the operator
      has confirmed it. */
  lemma NothingIsLost(w: World, a: Action)
    requires NothingLost(w)
    ensures NothingLost(Next(w, a))
  {
    StepStaysStored(w, a);
    StepRemovesConfirmed(w, a);
  }

  // ----- senders hold durable entries

  lemma ForegroundDurable(w: World, t: TaskId, entry: SpoolEntry)
    requires Inv(w)
    ensures SendersDurable(ForegroundStarts(w, t, entry))
  {
  }

  lemma RenameDurable(w: World, t: TaskId, placed: bool)
    requires Inv(w)
    ensures SendersDurable(PersistRenamed(w, t, placed))
  {
  }

  lemma SyncDurable(w: World, t: TaskId, synced: bool)
    requires Inv(w)
    ensures SendersDurable(PersistSynced(w, t, synced))
  {
  }

  lemma ProceedDurable(w: World, t: TaskId, accepting: bool)
    requires Inv(w)
    ensures SendersDurable(Proceeded(w, t, accepting))
  {
  }

  lemma AnswerDurable(w: World, t: TaskId, success: bool)
    requires Inv(w)
    ensures SendersDurable(Answered(w, t, success))
  {
  }

  lemma TaskRemoveDurable(w: World, t: TaskId, removable: bool)
    requires Inv(w)
    ensures SendersDurable(TaskRemoved(w, t, removable))
  {
  }

  lemma AbortDurable(w: World, t: TaskId)
    requires Inv(w)
    ensures SendersDurable(Aborted(w, t))
  {
    if w.shuttingDown && t in w.tasks {
      FinishDurable(w, t);
      DetachDurable(Finish(w, t), t, w.tasks[t].entry.recordingId);
    }
  }

  lemma FinishDurable(w: World, t: TaskId)
    requires SendersDurable(w) && t in w.tasks
    ensures SendersDurable(Finish(w, t))
  {
  }

  lemma DetachDurable(w: World, t: TaskId, id: Id)
    requires SendersDurable(w) && w.shuttingDown
    ensures SendersDurable(w.(detached := w.detached[t := id]))
  {
  }

  lemma DetachedDurable(w: World, t: TaskId, removable: bool)
    requires Inv(w)
    ensures SendersDurable(DetachedRan(w, t, removable))
  {
  }

  lemma ClearDurable(w: World, removable: bool)
    requires Inv(w)
    ensures SendersDurable(SweepCleared(w, removable))
  {
  }

  lemma MoveDurable(w: World, w': World)
    requires SendersDurable(w) && SweepMove(w, w')
    ensures SendersDurable(w')
  {
  }

  lemma SendersStayDurable(w: World, a: Action)
    requires Inv(w)
    ensures SendersDurable(Next(w, a))
  {
    if a.TaskProceeds? {
      ProceedDurable(w, a.t, a.accepting);
    } else if a.TaskAnswered? {
      AnswerDurable(w, a.t, a.success);
    } else if a.TaskRemoves? {
      TaskRemoveDurable(w, a.t, a.removable);
    } else if a.TaskEnds? {
    } else if a.TaskAborted? {
      AbortDurable(w, a.t);
    } else if SweepAction(a) {
      if a.SweepRemoves? {
        ClearDurable(w, a.removable);
      } else {
        SweepMoves(w, a);
        MoveDurable(w, NextOfSweep(w, a));
      }
    } else if a.Foreground? {
      ForegroundDurable(w, a.t, a.entry);
    } else if a.PersistRenames? {
      RenameDurable(w, a.t, a.placed);
    } else if a.PersistSyncs? {
      SyncDurable(w, a.t, a.synced);
    } else if a.DetachedRuns? {
      DetachedDurable(w, a.t, a.removable);
    }
  }

  // ----- whole runs

  lemma {:induction false} RunKeepsInvariant(dir: Directory, actions: seq<Action>)
    ensures Inv(Run(Start(dir), actions))
  {
    if actions != [] {
      var front, a := actions[..|actions| - 1], actions[|actions| - 1];
      var w := Run(Start(dir), front);
      RunKeepsInvariant(dir, front);
      ClaimsStayExclusive(w, a);
      NothingIsLost(w, a);
      SendersStayDurable(w, a);
    }
  }

  /** Everything ever made durable, in whichever process, is still in the spool or was
      confirmed by the operator. */
  lemma EnqueuedIsStoredOrConfirmed(dir: Directory, actions: seq<Action>)
    ensures var w := Run(Start(dir), actions); w.enqueued <= w.dir.Keys + w.confirmed
  {
    RunKeepsInvariant(dir, actions);
  }

  predicate Uploads(w: World, t: TaskId, id: Id) {
    t in w.tasks && w.tasks[t].stage == Sending && w.tasks[t].entry.recordingId == id
  }

  predicate Replays(w: World, id: Id) {
    w.replayer.Replaying? && w.replayer.id == id
  }

  /** At most one foreground task uploads a recording, and none while it is replayed. */
  lemma OneUploader(dir: Directory, actions: seq<Action>, id: Id, t: TaskId, u: TaskId)
    ensures var w := Run(Start(dir), actions);
      && (Uploads(w, t, id) && Uploads(w, u, id) ==> t == u)
      && !(Uploads(w, t, id) && Replays(w, id))
  {
    RunKeepsInvariant(dir, actions);
  }
}
