/**
 Which step makes what happen: the exact steps at which a task is started, sends, is told,
 removes and leaves, at which the replayer takes up an entry, and at which an entry is made
 durable, confirmed, removed and claimed. From any state both ways of uploading can finish.
 */
module UploadFlow {
  import opened Wrappers
  import opened PendingUploads
  import opened UploadProtocol

  // ----- foreground tasks

  predicate Starts(w: World, a: Action, t: TaskId) {
    && a.Foreground? && a.t == t && t !in w.tasks && t !in w.persists && t !in w.detached
    && a.entry.recordingId !in w.claims && !w.shuttingDown
  }

  /** The blocking write of the task's recording is over, one way or the other. */
  predicate Written(w: World, t: TaskId) {
    t in w.persists && (w.persists[t].progress.Synced? || w.persists[t].progress.Failed?)
  }

  /** A task sends only what is known to be durable, while calls are admitted and the
      booth is not shutting down. */
  predicate BeginsSending(w: World, a: Action, t: TaskId) {
    && a.TaskProceeds? && a.t == t && a.accepting && !w.shuttingDown
    && InStage(w, t, AwaitingPersist) && t in w.persists && w.persists[t].progress.Synced?
  }

  predicate GivesUp(w: World, a: Action, t: TaskId) {
    && a.TaskProceeds? && a.t == t && InStage(w, t, AwaitingPersist) && Written(w, t)
    && (w.persists[t].progress.Failed? || w.shuttingDown || !a.accepting)
  }

  predicate Dies(w: World, a: Action, t: TaskId) {
    t in w.tasks && (a.Restart? || a.Crash? || (a.TaskAborted? && a.t == t && w.shuttingDown))
  }

  predicate Leaves(w: World, a: Action, t: TaskId) {
    || GivesUp(w, a, t) || Dies(w, a, t)
    || (a.TaskAnswered? && a.t == t && !a.success && InStage(w, t, Sending))
    || (a.TaskEnds? && a.t == t && InStage(w, t, Removed))
  }

  /** What becomes of one task: it starts, leaves and moves on at exactly these steps, and
      its recording never changes. */
  ghost predicate TaskFate(w: World, w': World, a: Action, t: TaskId) {
    && (t !in w.tasks ==> (t in w'.tasks <==> Starts(w, a, t)))
    && (t in w.tasks ==> (t !in w'.tasks <==> Leaves(w, a, t)))
    && (t !in w.tasks && t in w'.tasks ==> a.Foreground? && w'.tasks[t] == Task(a.entry, AwaitingPersist))
    && (t in w.tasks && t in w'.tasks ==>
          && w'.tasks[t].entry == w.tasks[t].entry
          && w'.tasks[t].stage == NextStage(w, a, t))
  }

  function NextStage(w: World, a: Action, t: TaskId): Stage
    requires t in w.tasks
  {
    if BeginsSending(w, a, t) then Sending
    else if a.TaskAnswered? && a.t == t && w.tasks[t].stage == Sending then Removing
    else if a.TaskRemoves? && a.t == t && w.tasks[t].stage == Removing then Removed
    else w.tasks[t].stage
  }

  /** What becomes of one write: it is taken up with every upload effect, even while
      shutting down, and goes on to its end whatever happens to its task. */
  ghost predicate WriteFate(w: World, w': World, a: Action, t: TaskId) {
    && (t !in w.persists ==>
          (t in w'.persists <==> a.Foreground? && a.t == t && t !in w.tasks && t !in w.detached && a.entry.recordingId !in w.claims))
    && (t in w.persists ==> (t !in w'.persists <==> a.Restart? || a.Crash?))
    && (t !in w.persists && t in w'.persists ==> a.Foreground? && w'.persists[t] == Persist(a.entry, ToWrite))
    && (t in w.persists && t in w'.persists ==>
          && w'.persists[t].entry == w.persists[t].entry
          && w'.persists[t].progress == NextProgress(w, a, t))
  }

  function NextProgress(w: World, a: Action, t: TaskId): Progress
    requires t in w.persists
  {
    var p := w.persists[t].progress;
    if a.PersistRenames? && a.t == t && p.ToWrite? then (if a.placed then InPlace else Failed)
    else if a.PersistSyncs? && a.t == t && p.InPlace? then (if a.synced then Synced else Failed)
    else p
  }

  // ----- the replayer

  predicate Takes(w: World, a: Action, id: Id) {
    a.SweepPicks? && a.id == id && a.accepting && w.replayer.Sweeping? && id in w.replayer.todo && id !in w.claims
  }

  predicate Stops(w: World, a: Action) {
    a.ReplayerAborted? && w.shuttingDown && a.t !in w.detached && a.t !in w.tasks && a.t !in w.persists
  }

  /** Where the replayer goes. A sweep begins with all that is stored and goes on only
      while calls are admitted. It takes up an entry exactly when nobody else has claimed
      it, and replays it if it is still stored and its recording has a size. It rests
      after a failure, when calls are paused or when nothing is left. */
  ghost predicate ReplayerFate(w: World, r: Replayer, a: Action) {
    if a.Restart? || a.Crash? then r == Resting
    else if Stops(w, a) then r == Stopped
    else
      match w.replayer
      case Resting => r == if a.SweepBegins? && a.accepting then Sweeping(w.dir.Keys) else Resting
      case Sweeping(todo) =>
        r == if !a.SweepPicks? then Sweeping(todo)
             else if !a.accepting || todo == {} then Resting
             else if Takes(w, a, a.id) then Holding(a.id, todo - {a.id})
             else Sweeping(if a.id in w.claims then todo - {a.id} else todo)
      case Holding(id, todo) =>
        r == if !a.SweepLooks? then w.replayer else if id in w.dir then Found(id, todo) else Sweeping(todo)
      case Found(id, todo) =>
        r == if !a.SweepSends? then w.replayer else if a.sized then Replaying(id, todo) else Sweeping(todo)
      case Replaying(id, todo) =>
        r == if !a.SweepAnswered? then w.replayer else if a.success then Clearing(id, todo) else Resting
      case Clearing(_, todo) => r == if a.SweepRemoves? then Sweeping(todo) else w.replayer
      case Stopped => r == Stopped
  }

  // ----- entries

  /** The operator confirms a recording: an upload or a replay of it has succeeded. */
  predicate Confirms(w: World, a: Action, id: Id) {
    || (a.TaskAnswered? && a.success && Uploads(w, a.t, id))
    || (a.SweepAnswered? && a.success && Replays(w, id))
  }

  /** A recording is durable: the directory is synced after its rename. */
  predicate Secures(w: World, a: Action, id: Id) {
    && a.PersistSyncs? && a.synced && a.t in w.persists && w.persists[a.t].progress.InPlace?
    && w.persists[a.t].entry.recordingId == id
  }

  predicate TakesOut(w: World, a: Action, id: Id) {
    || (a.TaskRemoves? && a.removable && InStage(w, a.t, Removing) && w.tasks[a.t].entry.recordingId == id)
    || (a.SweepRemoves? && a.removable && w.replayer.Clearing? && w.replayer.id == id)
    || (a.DetachedRuns? && a.removable && a.t in w.detached && w.detached[a.t] == id)
    || (a.Crash? && id in a.lost && id in w.unsynced && !(id in a.back && id in w.removed))
  }

  /** A removal outlives its task, or the replayer, only when a shutdown aborts the one
      that was about to remove. */
  predicate Detaches(w: World, a: Action, t: TaskId) {
    || (a.TaskAborted? && a.t == t && w.shuttingDown && InStage(w, t, Removing))
    || (a.ReplayerAborted? && a.t == t && Stops(w, a) && w.replayer.Clearing?)
  }

  ghost predicate DetachFate(w: World, w': World, a: Action, t: TaskId) {
    t !in w.detached ==>
      && (t in w'.detached <==> Detaches(w, a, t))
      && (t in w'.detached ==> w'.detached[t] == if a.TaskAborted? then w.tasks[t].entry.recordingId else w.replayer.id)
  }

  ghost predicate EntryFate(w: World, w': World, a: Action, id: Id) {
    && (id in w'.confirmed <==> id in w.confirmed || Confirms(w, a, id))
    && (id in w'.enqueued <==> id in w.enqueued || Secures(w, a, id))
    && (id in w.dir ==> (id !in w'.dir <==> TakesOut(w, a, id)))
  }

  // ----- every step

  /** What a step does to one task, its write, the replayer and one recording. */
  ghost predicate StepFate(w: World, w': World, a: Action, t: TaskId, id: Id) {
    && TaskFate(w, w', a, t) && WriteFate(w, w', a, t) && DetachFate(w, w', a, t)
    && ReplayerFate(w, w'.replayer, a) && EntryFate(w, w', a, id)
  }

  lemma ProceedingStep(w: World, u: TaskId, accepting: bool, t: TaskId, id: Id)
    ensures StepFate(w, Proceeded(w, u, accepting), TaskProceeds(u, accepting), t, id)
  {
    ProceedingTasks(w, u, accepting, t);
  }

  lemma ProceedingTasks(w: World, u: TaskId, accepting: bool, t: TaskId)
    ensures TaskFate(w, Proceeded(w, u, accepting), TaskProceeds(u, accepting), t)
  {
  }

  lemma AnsweringStep(w: World, u: TaskId, success: bool, t: TaskId, id: Id)
    ensures StepFate(w, Answered(w, u, success), TaskAnswered(u, success), t, id)
  {
    AnsweringTasks(w, u, success, t);
  }

  lemma AnsweringTasks(w: World, u: TaskId, success: bool, t: TaskId)
    ensures TaskFate(w, Answered(w, u, success), TaskAnswered(u, success), t)
  {
  }

  lemma RemovingStep(w: World, u: TaskId, removable: bool, t: TaskId, id: Id)
    ensures StepFate(w, TaskRemoved(w, u, removable), TaskRemoves(u, removable), t, id)
  {
    RemovingTasks(w, u, removable, t);
  }

  lemma RemovingTasks(w: World, u: TaskId, removable: bool, t: TaskId)
    ensures TaskFate(w, TaskRemoved(w, u, removable), TaskRemoves(u, removable), t)
  {
  }

  lemma EndingStep(w: World, u: TaskId, t: TaskId, id: Id)
    ensures StepFate(w, NextOfTask(w, TaskEnds(u)), TaskEnds(u), t, id)
  {
  }

  lemma AbortingStep(w: World, u: TaskId, t: TaskId, id: Id)
    ensures StepFate(w, Aborted(w, u), TaskAborted(u), t, id)
  {
    AbortingTasks(w, u, t);
    AbortingDetaches(w, u, t);
  }

  lemma AbortingTasks(w: World, u: TaskId, t: TaskId)
    ensures TaskFate(w, Aborted(w, u), TaskAborted(u), t)
  {
  }

  lemma AbortingDetaches(w: World, u: TaskId, t: TaskId)
    ensures DetachFate(w, Aborted(w, u), TaskAborted(u), t)
  {
  }

  lemma StartingStep(w: World, u: TaskId, entry: SpoolEntry, t: TaskId, id: Id)
    ensures StepFate(w, ForegroundStarts(w, u, entry), Foreground(u, entry), t, id)
  {
  }

  lemma RenamingStep(w: World, u: TaskId, placed: bool, t: TaskId, id: Id)
    ensures StepFate(w, PersistRenamed(w, u, placed), PersistRenames(u, placed), t, id)
  {
    RenamingTasks(w, u, placed, t);
  }

  lemma RenamingTasks(w: World, u: TaskId, placed: bool, t: TaskId)
    ensures TaskFate(w, PersistRenamed(w, u, placed), PersistRenames(u, placed), t)
  {
  }

  lemma SyncingStep(w: World, u: TaskId, synced: bool, t: TaskId, id: Id)
    ensures StepFate(w, PersistSynced(w, u, synced), PersistSyncs(u, synced), t, id)
  {
    SyncingTasks(w, u, synced, t);
  }

  lemma SyncingTasks(w: World, u: TaskId, synced: bool, t: TaskId)
    ensures TaskFate(w, PersistSynced(w, u, synced), PersistSyncs(u, synced), t)
  {
  }

  lemma DetachedStep(w: World, u: TaskId, removable: bool, t: TaskId, id: Id)
    ensures StepFate(w, DetachedRan(w, u, removable), DetachedRuns(u, removable), t, id)
  {
    DetachedTasks(w, u, removable, t);
  }

  lemma DetachedTasks(w: World, u: TaskId, removable: bool, t: TaskId)
    ensures TaskFate(w, DetachedRan(w, u, removable), DetachedRuns(u, removable), t)
  {
  }

  lemma BeginningStep(w: World, accepting: bool, t: TaskId, id: Id)
    ensures StepFate(w, NextOfSweep(w, SweepBegins(accepting)), SweepBegins(accepting), t, id)
  {
  }

  lemma PickingStep(w: World, x: Id, accepting: bool, t: TaskId, id: Id)
    ensures StepFate(w, Picked(w, x, accepting), SweepPicks(x, accepting), t, id)
  {
    PickingTasks(w, x, accepting, t);
  }

  lemma PickingTasks(w: World, x: Id, accepting: bool, t: TaskId)
    ensures TaskFate(w, Picked(w, x, accepting), SweepPicks(x, accepting), t)
  {
  }

  lemma LookingStep(w: World, t: TaskId, id: Id)
    ensures StepFate(w, Looked(w), SweepLooks, t, id)
  {
  }

  lemma ReplayingStep(w: World, sized: bool, t: TaskId, id: Id)
    ensures StepFate(w, SweepSent(w, sized), SweepSends(sized), t, id)
  {
  }

  lemma HearingStep(w: World, success: bool, t: TaskId, id: Id)
    ensures StepFate(w, SweepHeard(w, success), SweepAnswered(success), t, id)
  {
  }

  lemma ClearingStep(w: World, removable: bool, t: TaskId, id: Id)
    ensures StepFate(w, SweepCleared(w, removable), SweepRemoves(removable), t, id)
  {
  }

  lemma StoppingStep(w: World, u: TaskId, t: TaskId, id: Id)
    ensures StepFate(w, ReplayAborted(w, u), ReplayerAborted(u), t, id)
  {
    StoppingTasks(w, u, t);
    StoppingDetaches(w, u, t);
  }

  lemma StoppingDetaches(w: World, u: TaskId, t: TaskId)
    ensures DetachFate(w, ReplayAborted(w, u), ReplayerAborted(u), t)
  {
  }

  lemma StoppingTasks(w: World, u: TaskId, t: TaskId)
    ensures TaskFate(w, ReplayAborted(w, u), ReplayerAborted(u), t)
  {
  }

  lemma ShuttingDownStep(w: World, t: TaskId, id: Id)
    ensures StepFate(w, w.(shuttingDown := true), ShutdownBegins, t, id)
  {
  }

  lemma RestartingStep(w: World, t: TaskId, id: Id)
    ensures StepFate(w, Restarted(w), Restart, t, id)
  {
  }

  lemma CrashingStep(w: World, lost: set<Id>, back: set<Id>, t: TaskId, id: Id)
    ensures StepFate(w, Crashed(w, lost, back), Crash(lost, back), t, id)
  {
  }

  lemma TaskStep(w: World, a: Action, t: TaskId, id: Id)
    requires TaskAction(a)
    ensures StepFate(w, NextOfTask(w, a), a, t, id)
  {
    match a {
      case TaskProceeds(u, accepting) => ProceedingStep(w, u, accepting, t, id);
      case TaskAnswered(u, success) => AnsweringStep(w, u, success, t, id);
      case TaskRemoves(u, removable) => RemovingStep(w, u, removable, t, id);
      case TaskEnds(u) => EndingStep(w, u, t, id);
      case TaskAborted(u) => AbortingStep(w, u, t, id);
    }
  }

  lemma SweepStep(w: World, a: Action, t: TaskId, id: Id)
    requires SweepAction(a)
    ensures StepFate(w, NextOfSweep(w, a), a, t, id)
  {
    match a {
      case SweepBegins(accepting) => BeginningStep(w, accepting, t, id);
      case SweepPicks(x, accepting) => PickingStep(w, x, accepting, t, id);
      case SweepLooks => LookingStep(w, t, id);
      case SweepSends(sized) => ReplayingStep(w, sized, t, id);
      case SweepAnswered(success) => HearingStep(w, success, t, id);
      case SweepRemoves(removable) => ClearingStep(w, removable, t, id);
      case ReplayerAborted(u) => StoppingStep(w, u, t, id);
    }
  }

  /** In every world, at every step: who starts, sends, is told, removes and leaves, what
      the replayer does next, and which recordings become durable, confirmed or are gone. */
  lemma EveryStep(w: World, a: Action, t: TaskId, id: Id)
    ensures StepFate(w, Next(w, a), a, t, id)
  {
    if TaskAction(a) {
      TaskStep(w, a, t, id);
    } else if SweepAction(a) {
      SweepStep(w, a, t, id);
    } else {
      match a {
        case Foreground(u, entry) => StartingStep(w, u, entry, t, id);
        case PersistRenames(u, placed) => RenamingStep(w, u, placed, t, id);
        case PersistSyncs(u, synced) => SyncingStep(w, u, synced, t, id);
        case DetachedRuns(u, removable) => DetachedStep(w, u, removable, t, id);
        case ShutdownBegins => ShuttingDownStep(w, t, id);
        case Restart => RestartingStep(w, t, id);
        case Crash(lost, back) => CrashingStep(w, lost, back, t, id);
      }
    }
  }

  // ----- claims

  predicate ReplayerLetsGo(w: World, a: Action, id: Id) {
    && HeldByReplayer(w.replayer) == Some(id)
    && (|| (a.SweepLooks? && w.replayer.Holding? && id !in w.dir)
        || (a.SweepSends? && !a.sized && w.replayer.Found?)
        || (a.SweepAnswered? && !a.success && w.replayer.Replaying?)
        || (a.SweepRemoves? && w.replayer.Clearing?)
        || Stops(w, a))
  }

  ghost predicate TaskLetsGo(w: World, a: Action, id: Id) {
    exists t :: t in w.tasks && w.tasks[t].entry.recordingId == id && Leaves(w, a, t)
  }

  /** A recording is claimed when a task or the replayer takes it up, and is free again
      exactly when that task leaves or the replayer lets it go. */
  ghost predicate ClaimFate(w: World, w': World, a: Action, id: Id) {
    && (id !in w.claims ==>
          (id in w'.claims <==> (a.Foreground? && Starts(w, a, a.t) && a.entry.recordingId == id) || Takes(w, a, id)))
    && (id in w.claims ==>
          (id !in w'.claims <==> TaskLetsGo(w, a, id) || ReplayerLetsGo(w, a, id) || a.Restart? || a.Crash?))
  }

  lemma ProceedingClaim(w: World, u: TaskId, accepting: bool, id: Id)
    requires ClaimsExclusive(w)
    ensures ClaimFate(w, Proceeded(w, u, accepting), TaskProceeds(u, accepting), id)
  {
  }

  lemma AnsweringClaim(w: World, u: TaskId, success: bool, id: Id)
    requires ClaimsExclusive(w)
    ensures ClaimFate(w, Answered(w, u, success), TaskAnswered(u, success), id)
  {
  }

  lemma RemovingClaim(w: World, u: TaskId, removable: bool, id: Id)
    requires ClaimsExclusive(w)
    ensures ClaimFate(w, TaskRemoved(w, u, removable), TaskRemoves(u, removable), id)
  {
  }

  lemma EndingClaim(w: World, u: TaskId, id: Id)
    requires ClaimsExclusive(w)
    ensures ClaimFate(w, NextOfTask(w, TaskEnds(u)), TaskEnds(u), id)
  {
  }

  lemma AbortingClaim(w: World, u: TaskId, id: Id)
    requires ClaimsExclusive(w)
    ensures ClaimFate(w, Aborted(w, u), TaskAborted(u), id)
  {
  }

  lemma StartingClaim(w: World, u: TaskId, entry: SpoolEntry, id: Id)
    requires ClaimsExclusive(w)
    ensures ClaimFate(w, ForegroundStarts(w, u, entry), Foreground(u, entry), id)
  {
  }

  lemma RenamingClaim(w: World, u: TaskId, placed: bool, id: Id)
    requires ClaimsExclusive(w)
    ensures ClaimFate(w, PersistRenamed(w, u, placed), PersistRenames(u, placed), id)
  {
  }

  lemma SyncingClaim(w: World, u: TaskId, synced: bool, id: Id)
    requires ClaimsExclusive(w)
    ensures ClaimFate(w, PersistSynced(w, u, synced), PersistSyncs(u, synced), id)
  {
  }

  lemma DetachedClaim(w: World, u: TaskId, removable: bool, id: Id)
    requires ClaimsExclusive(w)
    ensures ClaimFate(w, DetachedRan(w, u, removable), DetachedRuns(u, removable), id)
  {
  }

  lemma BeginningClaim(w: World, accepting: bool, id: Id)
    requires ClaimsExclusive(w)
    ensures ClaimFate(w, NextOfSweep(w, SweepBegins(accepting)), SweepBegins(accepting), id)
  {
  }

  lemma PickingClaim(w: World, x: Id, accepting: bool, id: Id)
    requires ClaimsExclusive(w)
    ensures ClaimFate(w, Picked(w, x, accepting), SweepPicks(x, accepting), id)
  {
  }

  lemma LookingClaim(w: World, id: Id)
    requires ClaimsExclusive(w)
    ensures ClaimFate(w, Looked(w), SweepLooks, id)
  {
  }

  lemma ReplayingClaim(w: World, sized: bool, id: Id)
    requires ClaimsExclusive(w)
    ensures ClaimFate(w, SweepSent(w, sized), SweepSends(sized), id)
  {
  }

  lemma HearingClaim(w: World, success: bool, id: Id)
    requires ClaimsExclusive(w)
    ensures ClaimFate(w, SweepHeard(w, success), SweepAnswered(success), id)
  {
  }

  lemma ClearingClaim(w: World, removable: bool, id: Id)
    requires ClaimsExclusive(w)
    ensures ClaimFate(w, SweepCleared(w, removable), SweepRemoves(removable), id)
  {
  }

  lemma StoppingClaim(w: World, u: TaskId, id: Id)
    requires ClaimsExclusive(w)
    ensures ClaimFate(w, ReplayAborted(w, u), ReplayerAborted(u), id)
  {
  }

  lemma ShuttingDownClaim(w: World, id: Id)
    requires ClaimsExclusive(w)
    ensures ClaimFate(w, w.(shuttingDown := true), ShutdownBegins, id)
  {
  }

  lemma RestartingClaim(w: World, id: Id)
    requires ClaimsExclusive(w)
    ensures ClaimFate(w, Restarted(w), Restart, id)
  {
  }

  lemma CrashingClaim(w: World, lost: set<Id>, back: set<Id>, id: Id)
    requires ClaimsExclusive(w)
    ensures ClaimFate(w, Crashed(w, lost, back), Crash(lost, back), id)
  {
  }

  lemma TaskClaim(w: World, a: Action, id: Id)
    requires TaskAction(a)
    requires ClaimsExclusive(w)
    ensures ClaimFate(w, NextOfTask(w, a), a, id)
  {
    match a {
      case TaskProceeds(u, accepting) => ProceedingClaim(w, u, accepting, id);
      case TaskAnswered(u, success) => AnsweringClaim(w, u, success, id);
      case TaskRemoves(u, removable) => RemovingClaim(w, u, removable, id);
      case TaskEnds(u) => EndingClaim(w, u, id);
      case TaskAborted(u) => AbortingClaim(w, u, id);
    }
  }

  lemma SweepClaim(w: World, a: Action, id: Id)
    requires SweepAction(a)
    requires ClaimsExclusive(w)
    ensures ClaimFate(w, NextOfSweep(w, a), a, id)
  {
    match a {
      case SweepBegins(accepting) => BeginningClaim(w, accepting, id);
      case SweepPicks(x, accepting) => PickingClaim(w, x, accepting, id);
      case SweepLooks => LookingClaim(w, id);
      case SweepSends(sized) => ReplayingClaim(w, sized, id);
      case SweepAnswered(success) => HearingClaim(w, success, id);
      case SweepRemoves(removable) => ClearingClaim(w, removable, id);
      case ReplayerAborted(u) => StoppingClaim(w, u, id);
    }
  }

  lemma ClaimedExactly(w: World, a: Action, id: Id)
    requires ClaimsExclusive(w)
    ensures ClaimFate(w, Next(w, a), a, id)
  {
    if TaskAction(a) {
      TaskClaim(w, a, id);
    } else if SweepAction(a) {
      SweepClaim(w, a, id);
    } else {
      match a {
        case Foreground(u, entry) => StartingClaim(w, u, entry, id);
        case PersistRenames(u, placed) => RenamingClaim(w, u, placed, id);
        case PersistSyncs(u, synced) => SyncingClaim(w, u, synced, id);
        case DetachedRuns(u, removable) => DetachedClaim(w, u, removable, id);
        case ShutdownBegins => ShuttingDownClaim(w, id);
        case Restart => RestartingClaim(w, id);
        case Crash(lost, back) => CrashingClaim(w, lost, back, id);
      }
    }
  }

  // ----- both ways of uploading can finish

  /** The upload of a new recording, when nothing fails. */
  function UploadSteps(t: TaskId, entry: SpoolEntry): seq<Action> {
    [Foreground(t, entry), PersistRenames(t, true), PersistSyncs(t, true), TaskProceeds(t, true),
     TaskAnswered(t, true), TaskRemoves(t, true), TaskEnds(t)]
  }

  /** The replay of one stored recording, when nothing fails. */
  function ReplaySteps(id: Id): seq<Action> {
    [SweepBegins(true), SweepPicks(id, true), SweepLooks, SweepSends(true), SweepAnswered(true), SweepRemoves(true)]
  }

  lemma RunStep(w: World, actions: seq<Action>, i: nat)
    requires i < |actions|
    ensures Run(w, actions[..i + 1]) == Next(Run(w, actions[..i]), actions[i])
  {
    assert actions[..i + 1][..i] == actions[..i];
  }

  /** The entry has been confirmed, and nothing of it is left in the spool or claimed. */
  predicate Settled(w: World, id: Id) {
    id in w.confirmed && id !in w.dir && id !in w.claims
  }

  /** The task waits for the write of its recording, which has come this far. */
  predicate Waits(w: World, t: TaskId, entry: SpoolEntry, progress: Progress) {
    && !w.shuttingDown && t in w.tasks && w.tasks[t] == Task(entry, AwaitingPersist)
    && t in w.persists && w.persists[t] == Persist(entry, progress)
  }

  lemma UploadStarts(w: World, t: TaskId, entry: SpoolEntry)
    requires t !in w.tasks && t !in w.persists && t !in w.detached && entry.recordingId !in w.claims && !w.shuttingDown
    ensures Waits(Next(w, Foreground(t, entry)), t, entry, ToWrite)
  {
  }

  lemma WriteGoesOn(w: World, t: TaskId, entry: SpoolEntry)
    ensures Waits(w, t, entry, ToWrite) ==> Waits(Next(w, PersistRenames(t, true)), t, entry, InPlace)
    ensures Waits(w, t, entry, InPlace) ==> Waits(Next(w, PersistSyncs(t, true)), t, entry, Synced)
  {
  }

  lemma UploadIsWritten(w: World, t: TaskId, entry: SpoolEntry, steps: seq<Action>)
    requires t !in w.tasks && t !in w.persists && t !in w.detached && entry.recordingId !in w.claims && !w.shuttingDown
    requires steps == UploadSteps(t, entry)
    ensures Waits(Run(w, steps[..3]), t, entry, Synced)
  {
    RunStep(w, steps, 0);
    UploadStarts(w, t, entry);
    RunStep(w, steps, 1);
    WriteGoesOn(Run(w, steps[..1]), t, entry);
    RunStep(w, steps, 2);
    WriteGoesOn(Run(w, steps[..2]), t, entry);
  }

  lemma UploadIsFinished(w: World, t: TaskId)
    requires InStage(w, t, AwaitingPersist) && t in w.persists && w.persists[t].progress.Synced? && !w.shuttingDown
    ensures Settled(Next(Next(Next(Next(w, TaskProceeds(t, true)), TaskAnswered(t, true)), TaskRemoves(t, true)), TaskEnds(t)),
                    w.tasks[t].entry.recordingId)
  {
    var w1 := Next(w, TaskProceeds(t, true));
    assert InStage(w1, t, Sending);
    var w2 := Next(w1, TaskAnswered(t, true));
    assert InStage(w2, t, Removing);
    var w3 := Next(w2, TaskRemoves(t, true));
    assert InStage(w3, t, Removed);
  }

  lemma UploadRunsOn(w: World, t: TaskId, entry: SpoolEntry, steps: seq<Action>, w3: World)
    requires steps == UploadSteps(t, entry) && w3 == Run(w, steps[..3])
    ensures Run(w, steps) ==
            Next(Next(Next(Next(w3, TaskProceeds(t, true)), TaskAnswered(t, true)), TaskRemoves(t, true)), TaskEnds(t))
  {
    RunStep(w, steps, 3);
    RunStep(w, steps, 4);
    RunStep(w, steps, 5);
    RunStep(w, steps, 6);
    assert steps[..7] == steps;
  }

  /** While calls are admitted, every recording that is not claimed can be uploaded. */
  lemma UploadsCanFinish(w: World, t: TaskId, entry: SpoolEntry)
    requires t !in w.tasks && t !in w.persists && t !in w.detached && entry.recordingId !in w.claims && !w.shuttingDown
    ensures Settled(Run(w, UploadSteps(t, entry)), entry.recordingId)
  {
    var steps := UploadSteps(t, entry);
    UploadIsWritten(w, t, entry, steps);
    UploadIsFinished(Run(w, steps[..3]), t);
    UploadRunsOn(w, t, entry, steps, Run(w, steps[..3]));
  }

  lemma ReplayIsTaken(w: World, id: Id, steps: seq<Action>)
    requires w.replayer.Resting? && id in w.dir && id !in w.claims && steps == ReplaySteps(id)
    ensures Run(w, steps[..3]).replayer.Found? && Run(w, steps[..3]).replayer.id == id
  {
    RunStep(w, steps, 0);
    assert Run(w, steps[..1]).replayer == Sweeping(w.dir.Keys);
    RunStep(w, steps, 1);
    assert Run(w, steps[..2]).replayer == Holding(id, w.dir.Keys - {id});
    RunStep(w, steps, 2);
  }

  lemma ReplayIsFinished(w: World)
    requires w.replayer.Found?
    ensures Settled(Next(Next(Next(w, SweepSends(true)), SweepAnswered(true)), SweepRemoves(true)), w.replayer.id)
  {
    var w1 := Next(w, SweepSends(true));
    assert w1.replayer == Replaying(w.replayer.id, w.replayer.todo);
    var w2 := Next(w1, SweepAnswered(true));
    assert w2.replayer == Clearing(w.replayer.id, w.replayer.todo);
  }

  lemma ReplayRunsOn(w: World, id: Id, steps: seq<Action>, w3: World)
    requires steps == ReplaySteps(id) && w3 == Run(w, steps[..3])
    ensures Run(w, steps) == Next(Next(Next(w3, SweepSends(true)), SweepAnswered(true)), SweepRemoves(true))
  {
    RunStep(w, steps, 3);
    RunStep(w, steps, 4);
    RunStep(w, steps, 5);
    assert steps[..6] == steps;
  }

  /** While calls are admitted, every stored recording that is not claimed can be replayed. */
  lemma ReplaysCanFinish(w: World, id: Id)
    requires w.replayer.Resting? && id in w.dir && id !in w.claims
    ensures Settled(Run(w, ReplaySteps(id)), id)
  {
    var steps := ReplaySteps(id);
    ReplayIsTaken(w, id, steps);
    ReplayIsFinished(Run(w, steps[..3]));
    ReplayRunsOn(w, id, steps, Run(w, steps[..3]));
  }
}
