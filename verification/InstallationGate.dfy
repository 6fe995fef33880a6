/**
 The admission gate: slow status probes reconciled against newer conflict replies
 by a revision number, with a lease on every positive answer.
 */
module InstallationGate {
  import opened Wrappers

  const TWO64: nat := 0x1_0000_0000_0000_0000
  const ACTIVE_LEASE_MS: nat := 15_000

  datatype Mode = Unknown | Legacy | Active | BetweenExhibitions

  datatype Observation = Observation(mode: Mode, checked: nat, revision: nat)

  datatype InstallationState = InstallationActive | InstallationBetween

  datatype OperatorError = InstallationInactive | OtherError

  /** What a probe returns; a missing state means an operator without lifecycles. */
  datatype ProbeResult = Answer(state: Option<InstallationState>) | Failure(error: OperatorError)

  datatype CheckResult = CheckOk | CheckInactive | CheckStale

  /** Admission at time `now`. */
  function Check(o: Observation, now: nat): CheckResult {
    match o.mode
    case Legacy => CheckOk
    case Active => if now < o.checked + ACTIVE_LEASE_MS then CheckOk else CheckStale
    case BetweenExhibitions => CheckInactive
    case Unknown => CheckStale
  }

  /** The gate's state together with the fetch generation it can invalidate. */
  datatype Gate = Gate(o: Observation, generation: nat)

  function Bumped(revision: nat): nat {
    (revision + 1) % TWO64
  }

  function Observed(g: Gate, inactive: bool): Gate {
    if !inactive then g
    else if g.o.mode != BetweenExhibitions then
      Gate(g.o.(mode := BetweenExhibitions, revision := Bumped(g.o.revision)), Bumped(g.generation))
    else g.(o := g.o.(revision := Bumped(g.o.revision)))
  }

  /** The mode a probe asks for; `None` when it asks for no change at all. */
  function Wanted(o: Observation, result: ProbeResult, now: nat): Option<Mode> {
    match result
    case Answer(state) =>
      (match state
       case Some(InstallationActive) => Some(Active)
       case Some(InstallationBetween) => Some(BetweenExhibitions)
       case None => Some(Legacy))
    case Failure(_) => if o.mode == Active && now >= o.checked + ACTIVE_LEASE_MS then Some(Unknown) else None
  }

  function Reconciled(g: Gate, revision: nat, result: ProbeResult, now: nat): Gate {
    if g.o.revision != revision then g
    else
      match Wanted(g.o, result, now)
      case None => g
      case Some(next) =>
        Gate(Observation(next, now, Bumped(g.o.revision)),
             if next != g.o.mode && (next == Unknown || next == BetweenExhibitions) then Bumped(g.generation)
             else g.generation)
  }

  class InstallationGate {
    var mode: Mode
    var checked: nat
    var revision: nat
    var generation: nat

    ghost function State(): Gate
      reads this
    {
      Gate(Observation(mode, checked, revision), generation)
    }

    constructor (reconcile: bool, now: nat)
      ensures State() == InitialGate(reconcile, now)
    {
      mode := if reconcile then Unknown else Legacy;
      checked := now;
      revision := 0;
      generation := 0;
    }

    method CheckAt(now: nat) returns (r: CheckResult)
      requires checked <= now
      ensures r == Check(State().o, now)
    {
      match mode {
        case Legacy => r := CheckOk;
        case Active => r := if now - checked < ACTIVE_LEASE_MS then CheckOk else CheckStale;
        case BetweenExhibitions => r := CheckInactive;
        case Unknown => r := CheckStale;
      }
    }

    /** Any operator reply passes through here; only a conflict leaves a trace. */
    method Observe(inactive: bool) returns (modified: bool)
      modifies this
      ensures State() == Observed(old(State()), inactive)
      ensures modified <==> mode != old(mode)
    {
      modified := false;
      if inactive {
        revision := (revision + 1) % TWO64;
        if mode != BetweenExhibitions {
          generation := (generation + 1) % TWO64;
          mode := BetweenExhibitions;
          modified := true;
        }
      }
    }

    method Reconcile(probed: nat, result: ProbeResult, now: nat) returns (modified: bool)
      requires checked <= now
      modifies this
      ensures State() == Reconciled(old(State()), probed, result, now)
    {
      if revision != probed {
        return false;
      }
      var next: Mode;
      match result {
        case Answer(Some(InstallationActive)) => next := Active;
        case Answer(Some(InstallationBetween)) => next := BetweenExhibitions;
        case Answer(None) => next := Legacy;
        case Failure(_) =>
          if mode == Active && now - checked >= ACTIVE_LEASE_MS {
            next := Unknown;
          } else {
            return false;
          }
      }
      if next != mode {
        if next == Unknown || next == BetweenExhibitions {
          generation := (generation + 1) % TWO64;
        }
      }
      mode := next;
      checked := now;
      revision := (revision + 1) % TWO64;
      return true;
    }
  }

  function InitialGate(reconcile: bool, now: nat): Gate {
    Gate(Observation(if reconcile then Unknown else Legacy, now, 0), 0)
  }

  // ----- single steps

  /** Failures and the passing of time neither enter nor leave the mode between
      exhibitions. */
  lemma FailuresNeverTouchBetween(g: Gate, revision: nat, error: OperatorError, now: nat)
    ensures var g' := Reconciled(g, revision, Failure(error), now);
            g'.o.mode == BetweenExhibitions <==> g.o.mode == BetweenExhibitions
  {
  }

  /** Fetches in flight are invalidated exactly when admission closes: when the
      mode changes into one that admits nothing. */
  lemma ClosingInvalidatesFetches(g: Gate, g': Gate, inactive: bool, revision: nat, result: ProbeResult, now: nat)
    requires g.generation < TWO64
    requires g' == Observed(g, inactive) || g' == Reconciled(g, revision, result, now)
    ensures g'.generation != g.generation
       <==> g'.o.mode != g.o.mode && (g'.o.mode == Unknown || g'.o.mode == BetweenExhibitions)
    ensures g'.generation < TWO64
  {
    if g.generation + 1 < TWO64 {
      assert Bumped(g.generation) == g.generation + 1;
    } else {
      assert Bumped(g.generation) == 0;
    }
  }

  // ----- interleavings

  /** A probe in flight: the revision it captured, and (for the argument only) how
      many revisions there had been, and when it began. */
  datatype Probe = Probe(revision: nat, bumps: nat, began: nat)

  datatype Happening =
    | Begin(id: nat)
    | Return(id: nat, result: ProbeResult)
    | Reply(inactive: bool)
    | Elapse(ms: nat)

  /** The last answer to be taken: when its probe began, what it says, and when it was
      taken. */
  datatype Setter = Setter(began: nat, answer: Option<InstallationState>, takenAt: nat)

  /** `step` counts happenings and `bumps` revisions; `conflict` is when the last conflict
      reply was observed, and `lapsed` whether a probe has failed since the last answer's
      lease ran out. All but the gate and the clock exist only for the argument. */
  datatype World = World(g: Gate, now: nat, step: nat, bumps: nat, probes: map<nat, Probe>,
                         setter: Option<Setter>, conflict: Option<nat>, lapsed: bool)

  function Initial(reconcile: bool, now: nat): World {
    World(InitialGate(reconcile, now), now, 0, 0, map[], None, None, false)
  }

  predicate Before(conflict: Option<nat>, moment: nat) {
    conflict.Some? ==> conflict.value < moment
  }

  /** The last answer says that there is an active installation, and nothing has
      contradicted it. */
  predicate SaysActive(w: World) {
    && w.setter.Some? && w.setter.value.answer == Some(InstallationActive)
    && Before(w.conflict, w.setter.value.began)
  }

  /** The lease of that answer has run out without this having been acted on. */
  predicate Expired(w: World) {
    SaysActive(w) && !w.lapsed && w.now >= w.setter.value.takenAt + ACTIVE_LEASE_MS
  }

  /** An answer is taken, and an expiry noticed, exactly if nothing has changed since the
      probe began; what the gate makes of it is not consulted here. */
  function Returned(w: World, p: Probe, result: ProbeResult): World {
    if p.bumps != w.bumps then w
    else
      match result
      case Answer(answer) =>
        w.(bumps := w.bumps + 1, setter := Some(Setter(p.began, answer, w.now)), lapsed := false)
      case Failure(_) => if Expired(w) then w.(bumps := w.bumps + 1, lapsed := true) else w
  }

  function Next(w: World, h: Happening): World {
    var w := w.(step := w.step + 1);
    match h
    case Begin(id) => w.(probes := w.probes[id := Probe(w.g.o.revision, w.bumps, w.step)])
    case Elapse(ms) => w.(now := w.now + ms)
    case Reply(inactive) =>
      if inactive then w.(g := Observed(w.g, true), bumps := w.bumps + 1, conflict := Some(w.step))
      else w.(g := Observed(w.g, false))
    case Return(id, result) =>
      if id !in w.probes then w
      else
        var p := w.probes[id];
        Returned(w, p, result).(g := Reconciled(w.g, p.revision, result, w.now), probes := w.probes - {id})
  }

  function After(w: World, hs: seq<Happening>): World {
    if hs == [] then w else Next(After(w, hs[..|hs| - 1]), hs[|hs| - 1])
  }

  /** Fewer than 2^64 revisions go by while a probe is in flight. */
  ghost predicate ShortProbes(w: World) {
    forall id :: id in w.probes ==> w.bumps - w.probes[id].bumps < TWO64
  }

  predicate Accepting(w: World) {
    Check(w.g.o, w.now).CheckOk?
  }

  /** The mode that the answers, conflicts and failures so far call for. */
  function ModeCalledFor(w: World, reconcile: bool): Mode {
    if w.conflict.Some? && (w.setter.None? || w.setter.value.began <= w.conflict.value) then BetweenExhibitions
    else if w.setter.None? then (if reconcile then Unknown else Legacy)
    else
      match w.setter.value.answer
      case None => Legacy
      case Some(InstallationActive) => if w.lapsed then Unknown else Active
      case Some(InstallationBetween) => BetweenExhibitions
  }

  ghost predicate Inv(w: World, reconcile: bool) {
    && w.g.o.revision == w.bumps % TWO64
    && w.g.generation < TWO64
    && w.g.o.checked <= w.now
    && (w.conflict.Some? ==> w.conflict.value <= w.step)
    && (w.setter.Some? ==> w.setter.value.began <= w.step && w.setter.value.takenAt <= w.now)
    && (w.lapsed && SaysActive(w) ==> w.now >= w.setter.value.takenAt + ACTIVE_LEASE_MS)
    && (forall id :: id in w.probes ==> InFlight(w, w.probes[id]))
    && w.g.o.mode == ModeCalledFor(w, reconcile)
    && (w.g.o.mode == Active ==> w.g.o.checked == w.setter.value.takenAt)
  }

  /** What is known of a probe in flight: if no revision has gone by since it
      began, then no conflict has been observed since either. */
  predicate InFlight(w: World, p: Probe) {
    && p.bumps <= w.bumps && p.revision == p.bumps % TWO64 && p.began <= w.step
    && (p.bumps == w.bumps ==> Before(w.conflict, p.began))
  }

  lemma SameRevision(a: nat, b: nat)
    requires a <= b && b - a < TWO64
    ensures a % TWO64 == b % TWO64 <==> a == b
  {
    var d := b - a;
    assert b == a + d;
    if a % TWO64 + d < TWO64 {
      assert b % TWO64 == a % TWO64 + d;
    } else {
      assert b % TWO64 == a % TWO64 + d - TWO64;
    }
  }

  lemma BumpCounts(n: nat)
    ensures Bumped(n % TWO64) == (n + 1) % TWO64
  {
  }

  lemma ReturnKeepsInv(w: World, id: nat, result: ProbeResult, reconcile: bool)
    requires Inv(w, reconcile) && ShortProbes(w) && id in w.probes
    ensures Inv(Next(w, Return(id, result)), reconcile)
  {
    BumpCounts(w.bumps);
    SameRevision(w.probes[id].bumps, w.bumps);
  }

  lemma NextKeepsInv(w: World, h: Happening, reconcile: bool)
    requires Inv(w, reconcile) && ShortProbes(w)
    ensures Inv(Next(w, h), reconcile)
  {
    BumpCounts(w.bumps);
    match h {
      case Begin(id) =>
      case Elapse(_) =>
      case Reply(inactive) =>
      case Return(id, result) =>
        if id in w.probes {
          ReturnKeepsInv(w, id, result, reconcile);
        }
    }
  }

  ghost predicate ShortThroughout(w: World, hs: seq<Happening>) {
    forall n {:trigger hs[..n]} :: 0 <= n < |hs| ==> ShortProbes(After(w, hs[..n]))
  }

  lemma {:induction false} RunKeepsInv(reconcile: bool, start: nat, hs: seq<Happening>)
    requires ShortThroughout(Initial(reconcile, start), hs)
    ensures Inv(After(Initial(reconcile, start), hs), reconcile)
  {
    if hs != [] {
      var n := |hs| - 1;
      var front := hs[..n];
      forall m {:trigger front[..m]} | 0 <= m < n ensures ShortProbes(After(Initial(reconcile, start), front[..m])) {
        assert front[..m] == hs[..m];
      }
      RunKeepsInv(reconcile, start, front);
      NextKeepsInv(After(Initial(reconcile, start), front), hs[n], reconcile);
    }
  }

  /** In every interleaving the gate is in exactly the mode that the answers taken, the
      conflicts observed and the expiries noticed call for. */
  lemma ModeIsExact(reconcile: bool, start: nat, hs: seq<Happening>)
    requires ShortThroughout(Initial(reconcile, start), hs)
    ensures var w := After(Initial(reconcile, start), hs); w.g.o.mode == ModeCalledFor(w, reconcile)
  {
    RunKeepsInv(reconcile, start, hs);
  }

  /** What accepting calls rests on: the answer that there are no lifecycles, or an active
      one taken less than the lease ago, from a probe since whose beginning no conflict
      reply has been observed. */
  predicate Backed(s: Setter, conflict: Option<nat>, now: nat) {
    && Before(conflict, s.began)
    && (s.answer == None || (s.answer == Some(InstallationActive) && now < s.takenAt + ACTIVE_LEASE_MS))
  }

  /** Calls are accepted if and only if the last answer taken backs it or, before the first
      one, there is nothing to reconcile with and no conflict has been observed. */
  lemma AdmissionIsBacked(reconcile: bool, start: nat, hs: seq<Happening>)
    requires ShortThroughout(Initial(reconcile, start), hs)
    ensures var w := After(Initial(reconcile, start), hs);
      Accepting(w) <==>
        if w.setter.Some? then Backed(w.setter.value, w.conflict, w.now) else !reconcile && w.conflict.None?
  {
    RunKeepsInv(reconcile, start, hs);
  }

  /** A refusal says that exhibitions are between if and only if the gate's last word on it
      does; any other refusal says that the operator's state is not known. */
  lemma RefusalsTell(reconcile: bool, start: nat, hs: seq<Happening>)
    requires ShortThroughout(Initial(reconcile, start), hs)
    ensures var w := After(Initial(reconcile, start), hs);
      && (Check(w.g.o, w.now) == CheckInactive <==> ModeCalledFor(w, reconcile) == BetweenExhibitions)
      && (Check(w.g.o, w.now) == CheckStale <==> !Accepting(w) && ModeCalledFor(w, reconcile) != BetweenExhibitions)
  {
    RunKeepsInv(reconcile, start, hs);
  }

  /** The revision guard lets a probe through exactly when the revisions since it
      began are a multiple of 2^64, so within fewer than 2^64 exactly when there
      have been none. */
  lemma GuardIsExact(w: World, id: nat, reconcile: bool)
    requires Inv(w, reconcile) && id in w.probes
    ensures w.g.o.revision == w.probes[id].revision <==> (w.bumps - w.probes[id].bumps) % TWO64 == 0
    ensures ShortProbes(w) ==> (w.g.o.revision == w.probes[id].revision <==> w.bumps == w.probes[id].bumps)
  {
    var a, b := w.probes[id].bumps, w.bumps;
    var d := b - a;
    var r := d % TWO64;
    assert (a + d) % TWO64 == (a + r) % TWO64 by {
      assert d == (d / TWO64) * TWO64 + r;
      AddMultiple(a + r, d / TWO64);
    }
    SameRevision(a, a + r);
  }

  lemma AddMultiple(n: nat, k: nat)
    ensures (n + k * TWO64) % TWO64 == n % TWO64
  {
    if k > 0 {
      AddMultiple(n, k - 1);
      assert n + k * TWO64 == (n + (k - 1) * TWO64) + TWO64;
    }
  }
}
