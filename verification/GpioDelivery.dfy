/**
 What the consumer of the GPIO queue gets to see of each input: over every run, exactly
 the confirmed edges of the input's own samples, except those that found the queue full.
 */
module GpioDelivery {
  import opened Wrappers
  import opened GpioSampler

  // ----- subsequences

  ghost predicate Subsequence(a: seq<Sample>, b: seq<Sample>)
    decreases |b|
  {
    if a == [] then true
    else
      && b != []
      && var m, n := |a| - 1, |b| - 1;
         (a[m] == b[n] && Subsequence(a[..m], b[..n])) || Subsequence(a, b[..n])
  }

  lemma SkipsOne(a: seq<Sample>, b: seq<Sample>, x: Sample)
    requires Subsequence(a, b)
    ensures Subsequence(a, b + [x])
  {
    assert (b + [x])[..|b|] == b;
  }

  lemma KeepsOne(a: seq<Sample>, b: seq<Sample>, x: Sample)
    requires Subsequence(a, b)
    ensures Subsequence(a + [x], b + [x])
  {
    assert (a + [x])[..|a|] == a && (b + [x])[..|b|] == b;
  }

  /** A subsequence is no longer, and a subsequence of equal length is everything. */
  lemma {:induction false} NothingMissing(a: seq<Sample>, b: seq<Sample>)
    requires Subsequence(a, b)
    ensures |a| <= |b| && (|a| == |b| ==> a == b)
    decreases |b|
  {
    if a != [] {
      var m, n := |a| - 1, |b| - 1;
      if a[m] == b[n] && Subsequence(a[..m], b[..n]) {
        NothingMissing(a[..m], b[..n]);
        assert a == a[..m] + [a[m]] && b == b[..n] + [b[n]];
      } else {
        NothingMissing(a, b[..n]);
      }
    }
  }

  // ----- one tick

  /** The edges of one role among the queued ones: their levels and times. */
  function EdgesOf(es: seq<Edge>, role: nat): seq<Sample> {
    if es == [] then []
    else
      var front, last := EdgesOf(es[..|es| - 1], role), es[|es| - 1];
      if last.role == role then front + [Sample(last.level, last.at)] else front
  }

  lemma EdgesOfSnoc(es: seq<Edge>, e: Edge, role: nat)
    ensures EdgesOf(es + [e], role) == EdgesOf(es, role) + (if e.role == role then [Sample(e.level, e.at)] else [])
  {
    assert (es + [e])[..|es|] == es;
  }

  /** The tick confirms an edge of this role. */
  predicate Confirms(s: Loop, raws: seq<bool>, now: nat, c: Config, role: nat)
    requires |s.pins| == |raws| == ROLES && role < ROLES
  {
    (role != POWER || c.powerEnabled) && SamplePin(s.pins[role], raws[role], now, c.debounce).emits
  }

  /** It confirms one at a moment at which the queue is full. */
  predicate Misses(s: Loop, raws: seq<bool>, now: nat, c: Config, role: nat)
    requires |s.pins| == |raws| == ROLES && role < ROLES
  {
    Confirms(s, raws, now, c, role) && Full(PolledUpTo(Retried(s, c), raws, now, c, role), c)
  }

  /** From `s` to `t` the edge `x` of a role is queued, if it is confirmed and finds room,
      and counted as dropped if it is confirmed and finds the queue full. */
  ghost predicate Delivers(s: Loop, t: Loop, role: nat, x: Sample, confirms: bool, full: bool) {
    && EdgesOf(t.sent, role) == (if confirms && !full then EdgesOf(s.sent, role) + [x] else EdgesOf(s.sent, role))
    && t.dropped[role] == (if confirms && full then s.dropped[role] + 1 else s.dropped[role])
  }

  lemma PollDelivers(s: Loop, polled: nat, raw: bool, now: nat, c: Config, role: nat, x: Sample)
    requires |s.pins| == ROLES && polled < ROLES && role < POWER && (polled == role ==> x == Sample(raw, now))
    ensures Delivers(s, Polled(s, polled, raw, now, c), role, x,
                     polled == role && SamplePin(s.pins[role], raw, now, c.debounce).emits, Full(s, c))
  {
    EdgesOfSnoc(s.sent, Edge(polled, raw, now, |s.presses|), role);
  }

  lemma FourPolls(p0: Loop, p1: Loop, p2: Loop, p3: Loop, p4: Loop, role: nat, x: Sample, emits: bool, full: bool)
    requires role < POWER
    requires Delivers(p0, p1, role, x, role == 0 && emits, full) && Delivers(p1, p2, role, x, role == 1 && emits, full)
    requires Delivers(p2, p3, role, x, role == 2 && emits, full) && Delivers(p3, p4, role, x, false, full)
    ensures Delivers(p0, p4, role, x, emits, full)
  {
  }

  lemma OnePoll(s: Loop, raws: seq<bool>, now: nat, c: Config, n: nat, role: nat, emits: bool, full: bool)
    requires |s.pins| == |raws| == ROLES && n < ROLES && role < POWER
    requires n == role ==> full == Full(PolledUpTo(s, raws, now, c, n), c)
    requires n == role ==> emits == SamplePin(PolledUpTo(s, raws, now, c, n).pins[role], raws[role], now, c.debounce).emits
    ensures Delivers(PolledUpTo(s, raws, now, c, n), PolledUpTo(s, raws, now, c, n + 1), role, Sample(raws[role], now),
                     role == n && emits, full)
  {
    PollDelivers(PolledUpTo(s, raws, now, c, n), n, raws[n], now, c, role, Sample(raws[role], now));
  }

  lemma PollsDeliver(s: Loop, raws: seq<bool>, now: nat, c: Config, role: nat, emits: bool, full: bool)
    requires |s.pins| == |raws| == ROLES && role < POWER
    requires emits == SamplePin(s.pins[role], raws[role], now, c.debounce).emits
    requires full == Full(PolledUpTo(s, raws, now, c, role), c)
    ensures Delivers(s, PolledUpTo(s, raws, now, c, ROLES), role, Sample(raws[role], now), emits, full)
  {
    PollsSamplePins(s, raws, now, c, role, role);
    OnePoll(s, raws, now, c, 0, role, emits, full);
    OnePoll(s, raws, now, c, 1, role, emits, full);
    OnePoll(s, raws, now, c, 2, role, emits, full);
    OnePoll(s, raws, now, c, 3, role, emits, full);
    FourPolls(s, PolledUpTo(s, raws, now, c, 1), PolledUpTo(s, raws, now, c, 2), PolledUpTo(s, raws, now, c, 3),
              PolledUpTo(s, raws, now, c, 4), role, Sample(raws[role], now), emits, full);
  }

  /** A tick queues the edge it confirms, or counts it as dropped. */
  lemma TickDelivers(s: Loop, raws: seq<bool>, now: nat, c: Config, role: nat)
    requires |s.pins| == |raws| == ROLES && role < POWER
    requires s.slot.Some? ==> s.slot.value.role == POWER
    ensures Delivers(s, Ticked(s, raws, now, c), role, Sample(raws[role], now),
                     Confirms(s, raws, now, c, role), Misses(s, raws, now, c, role))
  {
    RetryDelivers(s, c, role);
    PollsDeliver(Retried(s, c), raws, now, c, role, Confirms(s, raws, now, c, role),
                 Full(PolledUpTo(Retried(s, c), raws, now, c, role), c));
  }

  lemma RetryDelivers(s: Loop, c: Config, role: nat)
    requires role < POWER && (s.slot.Some? ==> s.slot.value.role == POWER)
    ensures EdgesOf(Retried(s, c).sent, role) == EdgesOf(s.sent, role)
    ensures Retried(s, c).dropped == s.dropped && Retried(s, c).pins == s.pins
  {
    if s.slot.Some? {
      EdgesOfSnoc(s.sent, s.slot.value, role);
    }
  }

  // ----- runs

  /** How many edges of the role were confirmed while the queue was full. */
  function Missed(levels: seq<bool>, turns: seq<Turn>, c: Config, role: nat): nat
    requires |levels| == ROLES && WellFormed(turns) && role < ROLES
    decreases |turns|
  {
    if turns == [] then 0
    else
      var n := |turns| - 1;
      Missed(levels, turns[..n], c, role) +
      if turns[n].TickTurn? && Misses(LoopAfter(levels, turns[..n], c), turns[n].raws, turns[n].now, c, role) then 1 else 0
  }

  lemma EmittedAfterTick(levels: seq<bool>, turns: seq<Turn>, c: Config, role: nat)
    requires |levels| == ROLES && WellFormed(turns) && role < ROLES && turns != []
    ensures var n := |turns| - 1;
            var s, before := LoopAfter(levels, turns[..n], c), Emitted(levels[role], SamplesOf(turns[..n], role, c), c.debounce);
            Emitted(levels[role], SamplesOf(turns, role, c), c.debounce) ==
            if turns[n].TickTurn? && Confirms(s, turns[n].raws, turns[n].now, c, role)
            then before + [Sample(turns[n].raws[role], turns[n].now)] else before
  {
    var n := |turns| - 1;
    PinsAreIndependent(levels, turns[..n], c, role);
    if turns[n].TickTurn? && (role != POWER || c.powerEnabled) {
      var all, front := SamplesOf(turns, role, c), SamplesOf(turns[..n], role, c);
      assert all[..|all| - 1] == front;
      EmittedStep(levels[role], all, front, c.debounce);
    }
  }

  /** The queue has carried some of `all` in order, and `missed` are missing. */
  ghost predicate Accounted(s: Loop, role: nat, all: seq<Sample>, missed: nat) {
    && Subsequence(EdgesOf(s.sent, role), all)
    && |EdgesOf(s.sent, role)| + s.dropped[role] == |all|
    && s.dropped[role] == missed
  }

  lemma AccountedStep(s: Loop, t: Loop, role: nat, all: seq<Sample>, missed: nat, x: Sample, confirms: bool, full: bool)
    requires Accounted(s, role, all, missed) && Delivers(s, t, role, x, confirms, full)
    ensures Accounted(t, role, if confirms then all + [x] else all, if confirms && full then missed + 1 else missed)
  {
    SkipsOne(EdgesOf(s.sent, role), all, x);
    KeepsOne(EdgesOf(s.sent, role), all, x);
  }

  /** Over every run the queue carries, of hook and rotary inputs, the confirmed levels
      with the times of their confirmation, in order; `dropped` counts those missing,
      which are exactly the ones confirmed while the queue was full. */
  lemma {:induction false} EdgesAreDelivered(levels: seq<bool>, turns: seq<Turn>, c: Config, role: nat)
    requires |levels| == ROLES && WellFormed(turns) && role < POWER
    ensures Accounted(LoopAfter(levels, turns, c), role, Emitted(levels[role], SamplesOf(turns, role, c), c.debounce),
                      Missed(levels, turns, c, role))
    decreases |turns|
  {
    if turns != [] {
      var n := |turns| - 1;
      EdgesAreDelivered(levels, turns[..n], c, role);
      EmittedAfterTick(levels, turns, c, role);
      OneMoreTurn(levels, turns, c, role, LoopAfter(levels, turns[..n], c), LoopAfter(levels, turns, c),
                  Emitted(levels[role], SamplesOf(turns[..n], role, c), c.debounce));
    }
  }

  lemma OneMoreTurn(levels: seq<bool>, turns: seq<Turn>, c: Config, role: nat, s: Loop, t: Loop, all: seq<Sample>)
    requires |levels| == ROLES && WellFormed(turns) && role < POWER && turns != []
    requires var n := |turns| - 1;
             && s == LoopAfter(levels, turns[..n], c) && t == LoopAfter(levels, turns, c)
             && Accounted(s, role, all, Missed(levels, turns[..n], c, role))
    ensures var n := |turns| - 1;
            Accounted(t, role, if turns[n].TickTurn? && Confirms(s, turns[n].raws, turns[n].now, c, role)
                               then all + [Sample(turns[n].raws[role], turns[n].now)] else all,
                      Missed(levels, turns, c, role))
  {
    var n := |turns| - 1;
    if turns[n].TickTurn? {
      var raws, now := turns[n].raws, turns[n].now;
      ButtonIsFaithful(levels, turns[..n], c);
      TickDelivers(s, raws, now, c, role);
      AccountedStep(s, t, role, all, Missed(levels, turns[..n], c, role), Sample(raws[role], now),
                    Confirms(s, raws, now, c, role), Misses(s, raws, now, c, role));
    }
  }

  /** An input whose edges always find room is delivered in full. */
  lemma RoomDeliversAll(levels: seq<bool>, turns: seq<Turn>, c: Config, role: nat)
    requires |levels| == ROLES && WellFormed(turns) && role < POWER
    ensures EdgesOf(LoopAfter(levels, turns, c).sent, role) == Emitted(levels[role], SamplesOf(turns, role, c), c.debounce)
       <==> Missed(levels, turns, c, role) == 0
  {
    EdgesAreDelivered(levels, turns, c, role);
    NothingMissing(EdgesOf(LoopAfter(levels, turns, c).sent, role), Emitted(levels[role], SamplesOf(turns, role, c), c.debounce));
  }

  // ----- the power button, when there is room

  /** Every confirmed button edge has been queued, and nothing waits. */
  ghost predicate ButtonToldAll(s: Loop) {
    s.slot.None? && EdgesOf(s.sent, POWER) == s.presses
  }

  lemma OtherPollKeepsTold(s: Loop, polled: nat, raw: bool, now: nat, c: Config)
    requires |s.pins| == ROLES && polled < POWER && ButtonToldAll(s)
    ensures ButtonToldAll(Polled(s, polled, raw, now, c))
  {
    EdgesOfSnoc(s.sent, Edge(polled, raw, now, |s.presses|), POWER);
  }

  lemma ButtonPollKeepsTold(s: Loop, raw: bool, now: nat, c: Config)
    requires |s.pins| == ROLES && ButtonToldAll(s)
    requires c.powerEnabled && SamplePin(s.pins[POWER], raw, now, c.debounce).emits ==> !Full(s, c)
    ensures ButtonToldAll(Polled(s, POWER, raw, now, c))
  {
    EdgesOfSnoc(s.sent, Edge(POWER, raw, now, |s.presses|), POWER);
  }

  lemma TickKeepsTold(s: Loop, raws: seq<bool>, now: nat, c: Config)
    requires |s.pins| == |raws| == ROLES && ButtonToldAll(s) && !Misses(s, raws, now, c, POWER)
    ensures ButtonToldAll(Ticked(s, raws, now, c))
  {
    PollsSamplePins(s, raws, now, c, POWER, POWER);
    OtherPollKeepsTold(PolledUpTo(s, raws, now, c, 0), 0, raws[0], now, c);
    OtherPollKeepsTold(PolledUpTo(s, raws, now, c, 1), 1, raws[1], now, c);
    OtherPollKeepsTold(PolledUpTo(s, raws, now, c, 2), 2, raws[2], now, c);
    ButtonPollKeepsTold(PolledUpTo(s, raws, now, c, 3), raws[3], now, c);
  }

  /** If the button's edges always find room, every one of them is queued, in order and
      with its time, and nothing waits. */
  lemma {:induction false} RoomDeliversButton(levels: seq<bool>, turns: seq<Turn>, c: Config)
    requires |levels| == ROLES && WellFormed(turns)
    ensures var s := LoopAfter(levels, turns, c);
            Missed(levels, turns, c, POWER) == 0 ==>
              s.slot.None? && EdgesOf(s.sent, POWER) == Emitted(levels[POWER], SamplesOf(turns, POWER, c), c.debounce)
    decreases |turns|
  {
    PressesAreEmitted(levels, turns, c);
    if turns != [] && Missed(levels, turns, c, POWER) == 0 {
      var n := |turns| - 1;
      var s := LoopAfter(levels, turns[..n], c);
      RoomDeliversButton(levels, turns[..n], c);
      PressesAreEmitted(levels, turns[..n], c);
      if turns[n].TickTurn? {
        TickKeepsTold(s, turns[n].raws, turns[n].now, c);
      }
    }
  }

  // ----- the power button, when there is none

  /** The newest button edge that has been queued or waits to be. */
  function Newest(s: Loop): Option<Edge> {
    var told := PowerEdges(s.sent);
    if s.slot.Some? then s.slot else if told == [] then None else Some(told[|told| - 1])
  }

  /** That is the newest confirmed one, or the release before a press. */
  ghost predicate CaughtUp(s: Loop) {
    && |s.pins| == ROLES && s.dropped[POWER] == 0
    && (s.slot.Some? ==> s.slot.value.role == POWER)
    && (s.presses == [] ==> Newest(s) == None)
    && (s.presses != [] ==>
          && Newest(s).Some?
          && (Newest(s).value.serial == |s.presses| - 1 ||
              (Newest(s).value.serial == |s.presses| - 2 && !Newest(s).value.level && s.pins[POWER].confirmed)))
  }

  lemma RetryKeepsUp(s: Loop, c: Config)
    requires CaughtUp(s)
    ensures CaughtUp(Retried(s, c))
  {
    if s.slot.Some? {
      PowerEdgesSnoc(s.sent, s.slot.value);
    }
  }

  lemma OtherPollKeepsUp(s: Loop, polled: nat, raw: bool, now: nat, c: Config)
    requires CaughtUp(s) && polled < POWER
    ensures CaughtUp(Polled(s, polled, raw, now, c))
  {
    PowerEdgesSnoc(s.sent, Edge(polled, raw, now, |s.presses|));
  }

  lemma ButtonPollKeepsUp(s: Loop, raw: bool, now: nat, c: Config)
    requires CaughtUp(s)
    ensures CaughtUp(Polled(s, POWER, raw, now, c))
  {
    PowerEdgesSnoc(s.sent, Edge(POWER, raw, now, |s.presses|));
  }

  lemma TickKeepsUp(s: Loop, raws: seq<bool>, now: nat, c: Config)
    requires CaughtUp(s) && |raws| == ROLES
    ensures CaughtUp(Ticked(s, raws, now, c))
  {
    var s0 := Retried(s, c);
    RetryKeepsUp(s, c);
    OtherPollKeepsUp(PolledUpTo(s0, raws, now, c, 0), 0, raws[0], now, c);
    OtherPollKeepsUp(PolledUpTo(s0, raws, now, c, 1), 1, raws[1], now, c);
    OtherPollKeepsUp(PolledUpTo(s0, raws, now, c, 2), 2, raws[2], now, c);
    ButtonPollKeepsUp(PolledUpTo(s0, raws, now, c, 3), raws[3], now, c);
  }

  /** However full the queue, what the consumer knows or will be told next is at most one
      press behind; no button edge is ever counted as dropped. */
  lemma {:induction false} ButtonLagsByOnePress(levels: seq<bool>, turns: seq<Turn>, c: Config)
    requires |levels| == ROLES && WellFormed(turns)
    ensures CaughtUp(LoopAfter(levels, turns, c))
    decreases |turns|
  {
    if turns != [] {
      var n := |turns| - 1;
      ButtonLagsByOnePress(levels, turns[..n], c);
      if turns[n].TickTurn? {
        TickKeepsUp(LoopAfter(levels, turns[..n], c), turns[n].raws, turns[n].now, c);
      }
    }
  }

  // ----- the queue

  /** What is queued from `s` to `t` goes to the back, within the capacity. */
  ghost predicate Appends(s: Loop, t: Loop, c: Config) {
    && s.sent <= t.sent && t.queue == s.queue + t.sent[|s.sent|..]
    && (|t.queue| <= |s.queue| || |t.queue| <= c.capacity)
  }

  lemma AppendsBoth(s: Loop, m: Loop, t: Loop, c: Config)
    requires Appends(s, m, c) && Appends(m, t, c)
    ensures Appends(s, t, c)
  {
    assert t.sent[|s.sent|..] == m.sent[|s.sent|..] + t.sent[|m.sent|..];
  }

  lemma PollAppends(s: Loop, polled: nat, raw: bool, now: nat, c: Config)
    requires |s.pins| == ROLES && polled < ROLES
    ensures Appends(s, Polled(s, polled, raw, now, c), c)
  {
  }

  lemma {:induction false} PollsAppend(s: Loop, raws: seq<bool>, now: nat, c: Config, n: nat)
    requires |s.pins| == |raws| == ROLES && n <= ROLES
    ensures Appends(s, PolledUpTo(s, raws, now, c, n), c)
  {
    if n > 0 {
      PollsAppend(s, raws, now, c, n - 1);
      PollAppends(PolledUpTo(s, raws, now, c, n - 1), n - 1, raws[n - 1], now, c);
      AppendsBoth(s, PolledUpTo(s, raws, now, c, n - 1), PolledUpTo(s, raws, now, c, n), c);
    }
  }

  /** A waiting button edge is queued at the next tick that finds room, before any edge
      which that tick confirms. */
  lemma TickRetriesFirst(s: Loop, raws: seq<bool>, now: nat, c: Config)
    requires |s.pins| == |raws| == ROLES
    ensures s.slot.Some? && !Full(s, c) ==> s.sent + [s.slot.value] <= Ticked(s, raws, now, c).sent
    ensures Appends(s, Ticked(s, raws, now, c), c)
  {
    PollsAppend(Retried(s, c), raws, now, c, ROLES);
    AppendsBoth(s, Retried(s, c), Ticked(s, raws, now, c), c);
  }

  /** The edges that the consumer has taken. */
  function Taken(levels: seq<bool>, turns: seq<Turn>, c: Config): seq<Edge>
    requires |levels| == ROLES && WellFormed(turns)
    decreases |turns|
  {
    if turns == [] then []
    else
      var n := |turns| - 1;
      var front, s := Taken(levels, turns[..n], c), LoopAfter(levels, turns[..n], c);
      if turns[n].TakeTurn? && s.queue != [] then front + [s.queue[0]] else front
  }

  /** The consumer takes what was queued, in the order in which it was queued, and the
      queue never outgrows its capacity. */
  lemma {:induction false} QueueIsFifo(levels: seq<bool>, turns: seq<Turn>, c: Config)
    requires |levels| == ROLES && WellFormed(turns)
    ensures var s := LoopAfter(levels, turns, c);
            s.sent == Taken(levels, turns, c) + s.queue && |s.queue| <= c.capacity
    decreases |turns|
  {
    if turns != [] {
      var n := |turns| - 1;
      var s := LoopAfter(levels, turns[..n], c);
      QueueIsFifo(levels, turns[..n], c);
      match turns[n] {
        case TickTurn(raws, now) =>
          TickRetriesFirst(s, raws, now, c);
          AppendedToBack(s, Ticked(s, raws, now, c), Taken(levels, turns[..n], c), c);
        case TakeTurn =>
          if s.queue != [] {
            assert s.queue == [s.queue[0]] + s.queue[1..];
          }
      }
    }
  }

  lemma AppendedToBack(s: Loop, t: Loop, taken: seq<Edge>, c: Config)
    requires Appends(s, t, c) && s.sent == taken + s.queue
    ensures t.sent == taken + t.queue
  {
    assert t.sent == s.sent + t.sent[|s.sent|..];
  }
}
