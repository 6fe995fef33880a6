/**
 The GPIO poll loop: four debounced inputs feeding one bounded queue that must never
 block the sampling, with a one-slot retry for the power button.
 */
module GpioSampler {
  import opened Wrappers

  // Roles by index: hook, rotary pulse, rotary read, power button.
  const ROLES: nat := 4
  const POWER: nat := 3

  /** A level that differs from the confirmed one, and when it first appeared. */
  datatype Candidate = Candidate(level: bool, since: nat)

  datatype Pin = Pin(confirmed: bool, pending: Option<Candidate>)

  /** `serial` numbers the confirmed power-button edges in order. */
  datatype Edge = Edge(role: nat, level: bool, at: nat, serial: nat)

  // ----- one pin

  datatype PinStep = PinStep(pin: Pin, emits: bool)

  function SamplePin(p: Pin, raw: bool, now: nat, debounce: nat): PinStep {
    if raw == p.confirmed then PinStep(Pin(p.confirmed, None), false)
    else if p.pending.Some? && p.pending.value.level == raw then
      if now - p.pending.value.since >= debounce then PinStep(Pin(raw, None), true)
      else PinStep(p, false)
    else PinStep(Pin(p.confirmed, Some(Candidate(raw, now))), false)
  }

  datatype Sample = Sample(raw: bool, now: nat)

  function PinAfter(initial: bool, samples: seq<Sample>, debounce: nat): Pin {
    if samples == [] then Pin(initial, None)
    else
      var n := |samples| - 1;
      SamplePin(PinAfter(initial, samples[..n], debounce), samples[n].raw, samples[n].now, debounce).pin
  }

  /** Whether the last of the samples makes the loop emit an edge. */
  predicate Emits(initial: bool, samples: seq<Sample>, debounce: nat)
    requires samples != []
  {
    var n := |samples| - 1;
    SamplePin(PinAfter(initial, samples[..n], debounce), samples[n].raw, samples[n].now, debounce).emits
  }

  /** How many samples at the end differ, without a break, from the level confirmed
      by all the samples before them. */
  function Streak(initial: bool, samples: seq<Sample>, debounce: nat): (k: nat)
    ensures k <= |samples|
  {
    if samples == [] then 0
    else
      var n := |samples| - 1;
      if samples[n].raw == PinAfter(initial, samples[..n], debounce).confirmed || Emits(initial, samples, debounce) then 0
      else Streak(initial, samples[..n], debounce) + 1
  }

  lemma {:induction false} StreakIsPending(initial: bool, samples: seq<Sample>, debounce: nat)
    ensures var p, k := PinAfter(initial, samples, debounce), Streak(initial, samples, debounce);
            var first := |samples| - k;
            && (p.pending.Some? <==> k > 0)
            && (k > 0 ==> p.pending == Some(Candidate(!p.confirmed, samples[first].now)))
            && (forall i :: first <= i < |samples| ==> samples[i].raw != p.confirmed)
  {
    if samples != [] {
      StreakIsPending(initial, samples[..|samples| - 1], debounce);
    }
  }

  lemma RunEmits(p: Pin, samples: seq<Sample>, k: nat, debounce: nat)
    requires k < |samples| && (p.pending.Some? <==> k > 0)
    requires k > 0 ==> p.pending == Some(Candidate(!p.confirmed, samples[|samples| - 1 - k].now))
    requires forall i :: |samples| - 1 - k <= i < |samples| - 1 ==> samples[i].raw != p.confirmed
    ensures var n, first := |samples| - 1, |samples| - 1 - k;
            var step := SamplePin(p, samples[n].raw, samples[n].now, debounce);
            && (step.emits <==>
                  samples[n].raw != p.confirmed && k > 0 && samples[n].now - samples[first].now >= debounce)
            && (step.emits ==>
                  step.pin.confirmed == samples[n].raw
                  && forall i :: first <= i <= n ==> samples[i].raw == samples[n].raw)
  {
  }

  /** An edge is emitted exactly when the samples have differed from the confirmed
      level without a break for at least the debounce window. */
  lemma EmitsAfterUnbrokenRun(initial: bool, samples: seq<Sample>, debounce: nat)
    requires samples != []
    ensures var n := |samples| - 1;
            var before := PinAfter(initial, samples[..n], debounce);
            var first := n - Streak(initial, samples[..n], debounce);
            && (Emits(initial, samples, debounce) <==>
                  samples[n].raw != before.confirmed && first < n && samples[n].now - samples[first].now >= debounce)
            && (Emits(initial, samples, debounce) ==>
                  && PinAfter(initial, samples, debounce).confirmed == samples[n].raw
                  && forall i :: first <= i <= n ==> samples[i].raw == samples[n].raw)
  {
    var front := samples[..|samples| - 1];
    StreakIsPending(initial, front, debounce);
    var p, k := PinAfter(initial, front, debounce), Streak(initial, front, debounce);
    assert forall i :: |front| - k <= i < |front| ==> front[i] == samples[i];
    RunEmits(p, samples, k, debounce);
  }

  /** The samples that have made the loop emit an edge. */
  function Emitted(initial: bool, samples: seq<Sample>, debounce: nat): seq<Sample> {
    if samples == [] then []
    else
      var n := |samples| - 1;
      Emitted(initial, samples[..n], debounce) + (if Emits(initial, samples, debounce) then [samples[n]] else [])
  }

  predicate Alternates(initial: bool, edges: seq<Sample>) {
    forall i :: 0 <= i < |edges| ==> edges[i].raw == (if i % 2 == 0 then !initial else initial)
  }

  /** Edges of one pin alternate, starting away from the initial level. */
  lemma {:induction false} EdgesAlternate(initial: bool, samples: seq<Sample>, debounce: nat)
    ensures Alternates(initial, Emitted(initial, samples, debounce))
    ensures PinAfter(initial, samples, debounce).confirmed
         == (if |Emitted(initial, samples, debounce)| % 2 == 0 then initial else !initial)
  {
    if samples != [] {
      EdgesAlternate(initial, samples[..|samples| - 1], debounce);
    }
  }

  // ----- the whole loop

  datatype Config = Config(debounce: nat, capacity: nat, powerEnabled: bool)

  /** The loop's variables, its queue, how many edges of each role it has dropped, and
      (for the argument only) every edge ever queued and every confirmed power-button edge. */
  datatype Loop = Loop(pins: seq<Pin>, slot: Option<Edge>, queue: seq<Edge>, dropped: multiset<nat>,
                       sent: seq<Edge>, presses: seq<Sample>)

  predicate Full(s: Loop, c: Config) {
    |s.queue| >= c.capacity
  }

  function Send(s: Loop, e: Edge): Loop {
    s.(queue := s.queue + [e], sent := s.sent + [e])
  }

  /** The retry at the start of a tick. */
  function Retried(s: Loop, c: Config): Loop {
    if s.slot.None? || Full(s, c) then s else Send(s.(slot := None), s.slot.value)
  }

  /** What becomes of a freshly confirmed edge. */
  function Forwarded(s: Loop, role: nat, level: bool, now: nat, c: Config): Loop {
    var e := Edge(role, level, now, |s.presses|);
    var s := if role == POWER then s.(presses := s.presses + [Sample(level, now)]) else s;
    if role == POWER && s.slot.Some? then
      if s.slot.value.level || !level then s.(slot := Some(e)) else s
    else if !Full(s, c) then Send(s, e)
    else if role == POWER then s.(slot := Some(e))
    else s.(dropped := s.dropped + multiset{role})
  }

  function Polled(s: Loop, role: nat, raw: bool, now: nat, c: Config): Loop
    requires role < |s.pins|
  {
    if role == POWER && !c.powerEnabled then s
    else
      var step := SamplePin(s.pins[role], raw, now, c.debounce);
      var s := s.(pins := s.pins[role := step.pin]);
      if step.emits then Forwarded(s, role, raw, now, c) else s
  }

  function PolledUpTo(s: Loop, raws: seq<bool>, now: nat, c: Config, n: nat): (r: Loop)
    requires |s.pins| == |raws| == ROLES && n <= ROLES
    ensures |r.pins| == ROLES
  {
    if n == 0 then s else Polled(PolledUpTo(s, raws, now, c, n - 1), n - 1, raws[n - 1], now, c)
  }

  function Ticked(s: Loop, raws: seq<bool>, now: nat, c: Config): (r: Loop)
    requires |s.pins| == |raws| == ROLES
    ensures |r.pins| == ROLES
  {
    PolledUpTo(Retried(s, c), raws, now, c, ROLES)
  }

  class Sampler {
    const config: Config
    const confirmed: array<bool>
    const pending: array<Option<Candidate>>
    var pendingPower: Option<Edge>
    var queue: seq<Edge>
    var dropped: multiset<nat>
    ghost var sent: seq<Edge>
    var presses: seq<Sample>  // numbers the edges; not in the program

    ghost predicate Valid() {
      confirmed.Length == pending.Length == ROLES
    }

    ghost function PinAt(i: nat): Pin
      requires Valid() && i < ROLES
      reads confirmed, pending
    {
      Pin(confirmed[i], pending[i])
    }

    ghost function State(): Loop
      requires Valid()
      reads this, confirmed, pending
    {
      Loop([PinAt(0), PinAt(1), PinAt(2), PinAt(3)], pendingPower, queue, dropped, sent, presses)
    }

    constructor (config: Config, levels: seq<bool>)
      requires |levels| == ROLES
      ensures Valid() && fresh(confirmed) && fresh(pending) && this.config == config
      ensures State() == Loop(seq(ROLES, i requires 0 <= i < ROLES => Pin(levels[i], None)), None, [], multiset{}, [], [])
    {
      this.config := config;
      confirmed := new bool[ROLES](i requires 0 <= i < ROLES => levels[i]);
      pending := new Option<Candidate>[ROLES](_ => None);
      pendingPower := None;
      queue, dropped, sent, presses := [], multiset{}, [], [];
    }

    /** Non-blocking delivery: the edge comes back when the queue is full. */
    method TrySend(e: Edge) returns (undelivered: Option<Edge>)
      modifies this`queue, this`sent
      ensures if |old(queue)| >= config.capacity
              then undelivered == Some(e) && queue == old(queue) && sent == old(sent)
              else undelivered == None && queue == old(queue) + [e] && sent == old(sent) + [e]
    {
      if |queue| >= config.capacity {
        return Some(e);
      }
      queue := queue + [e];
      sent := sent + [e];
      return None;
    }

    /** The consumer takes the oldest queued edge. */
    method Receive() returns (e: Option<Edge>)
      requires Valid()
      modifies this`queue
      ensures old(queue) == [] ==> e == None && State() == old(State())
      ensures old(queue) != [] ==> e == Some(old(queue)[0]) && State() == old(State()).(queue := old(queue)[1..])
    {
      if queue == [] {
        return None;
      }
      e := Some(queue[0]);
      queue := queue[1..];
    }

    method Forward(role: nat, level: bool, now: nat)
      requires Valid() && role < ROLES
      modifies this`queue, this`sent, this`presses, this`pendingPower, this`dropped
      ensures State() == Forwarded(old(State()), role, level, now, config)
    {
      var e := Edge(role, level, now, |presses|);
      if role == POWER {
        presses := presses + [Sample(level, now)];
        if pendingPower.Some? {
          if pendingPower.value.level || !level {
            pendingPower := Some(e);
          }
          return;
        }
      }
      var undelivered := TrySend(e);
      if undelivered.Some? {
        if role == POWER {
          pendingPower := undelivered;
        } else {
          dropped := dropped + multiset{role};
        }
      }
    }

    /** Debounces one sample; tells whether its level is now confirmed. */
    method SampleRole(role: nat, raw: bool, now: nat) returns (emits: bool)
      requires Valid() && role < ROLES
      modifies confirmed, pending
      ensures PinStep(PinAt(role), emits) == SamplePin(old(PinAt(role)), raw, now, config.debounce)
      ensures forall i :: 0 <= i < ROLES && i != role ==> PinAt(i) == old(PinAt(i))
    {
      if raw == confirmed[role] {
        pending[role] := None;
        return false;
      }
      match pending[role] {
        case Some(candidate) =>
          if candidate.level == raw {
            if now - candidate.since >= config.debounce {
              confirmed[role] := raw;
              pending[role] := None;
              return true;
            }
            return false;
          }
        case None =>
      }
      pending[role] := Some(Candidate(raw, now));
      return false;
    }

    method PollRole(role: nat, raw: bool, now: nat)
      requires Valid() && role < ROLES
      modifies this`queue, this`sent, this`presses, this`pendingPower, this`dropped, confirmed, pending
      ensures State() == Polled(old(State()), role, raw, now, config)
    {
      if role == POWER && !config.powerEnabled {
        return;
      }
      ghost var before := State();
      var emits := SampleRole(role, raw, now);
      assert State() == before.(pins := before.pins[role := PinAt(role)]);
      if emits {
        Forward(role, raw, now);
      }
    }

    /** One turn of the loop. */
    method Tick(raws: seq<bool>, now: nat)
      requires Valid() && |raws| == ROLES
      modifies this`queue, this`sent, this`presses, this`pendingPower, this`dropped, confirmed, pending
      ensures State() == Ticked(old(State()), raws, now, config)
    {
      if pendingPower.Some? {
        var e := pendingPower.value;
        pendingPower := None;
        pendingPower := TrySend(e);
      }
      ghost var s := State();
      assert s == Retried(old(State()), config);
      for role := 0 to ROLES
        invariant State() == PolledUpTo(s, raws, now, config, role)
      {
        PollRole(role, raws[role], now);
      }
    }
  }

  // ----- the power button

  /** The power-button edges among the queued ones. */
  function PowerEdges(es: seq<Edge>): seq<Edge> {
    if es == [] then []
    else
      var front, last := PowerEdges(es[..|es| - 1]), es[|es| - 1];
      if last.role == POWER then front + [last] else front
  }

  lemma PowerEdgesSnoc(es: seq<Edge>, e: Edge)
    ensures PowerEdges(es + [e]) == if e.role == POWER then PowerEdges(es) + [e] else PowerEdges(es)
  {
    assert (es + [e])[..|es|] == es;
  }

  /** The edge with serial `i` carries the `i`-th confirmed level and its time. */
  predicate Genuine(e: Edge, presses: seq<Sample>) {
    e.role == POWER && e.serial < |presses| && Sample(e.level, e.at) == presses[e.serial]
  }

  /** What the consumer may see of the button: confirmed levels only, in order,
      each at most once, and never a press right after a press. */
  predicate FaithfulButton(sent: seq<Edge>, presses: seq<Sample>) {
    && (forall i :: 0 <= i < |sent| ==> Genuine(sent[i], presses))
    && (forall i, j :: 0 <= i < j < |sent| ==> sent[i].serial < sent[j].serial)
    && (forall i :: 0 < i < |sent| ==> !(sent[i - 1].level && sent[i].level))
  }

  /** The last thing the consumer was told is a press. */
  predicate LastIsPress(sent: seq<Edge>) {
    sent != [] && sent[|sent| - 1].level
  }

  predicate ButtonInv(s: Loop) {
    var d := PowerEdges(s.sent);
    && |s.pins| == ROLES
    && FaithfulButton(d, s.presses)
    && (s.slot.Some? ==>
          && Genuine(s.slot.value, s.presses)
          && (d != [] ==> d[|d| - 1].serial < s.slot.value.serial)
          && (s.slot.value.level ==> !LastIsPress(d) && s.pins[POWER].confirmed))
    && (LastIsPress(d) ==> if s.slot.Some? then !s.slot.value.level else s.pins[POWER].confirmed)
  }

  lemma SendingKeepsFaith(sent: seq<Edge>, presses: seq<Sample>, e: Edge)
    requires FaithfulButton(sent, presses) && Genuine(e, presses)
    requires sent != [] ==> sent[|sent| - 1].serial < e.serial
    requires !(LastIsPress(sent) && e.level)
    ensures FaithfulButton(sent + [e], presses)
  {
    var all := sent + [e];
    forall i | 0 <= i < |sent| ensures all[i].serial < e.serial {
      if i < |sent| - 1 {
        assert sent[i].serial < sent[|sent| - 1].serial;
      }
    }
  }

  lemma RetryKeepsButton(s: Loop, c: Config)
    requires ButtonInv(s)
    ensures ButtonInv(Retried(s, c))
    ensures Retried(s, c).pins == s.pins && Retried(s, c).presses == s.presses
  {
    if s.slot.Some? && !Full(s, c) {
      PowerEdgesSnoc(s.sent, s.slot.value);
      SendingKeepsFaith(PowerEdges(s.sent), s.presses, s.slot.value);
    }
  }

  lemma MorePresses(sent: seq<Edge>, presses: seq<Sample>, press: Sample)
    requires FaithfulButton(sent, presses)
    ensures FaithfulButton(sent, presses + [press])
  {
  }

  /** The invariant reads only the button's pin, edges, slot and presses. */
  lemma SameButton(s: Loop, t: Loop)
    requires ButtonInv(s) && |t.pins| == ROLES && t.pins[POWER] == s.pins[POWER]
    requires PowerEdges(t.sent) == PowerEdges(s.sent) && t.slot == s.slot && t.presses == s.presses
    ensures ButtonInv(t)
  {
  }

  lemma OtherPinKeepsButton(s: Loop, role: nat, raw: bool, now: nat, c: Config)
    requires ButtonInv(s) && role < POWER
    ensures ButtonInv(Polled(s, role, raw, now, c))
    ensures Polled(s, role, raw, now, c).pins[POWER] == s.pins[POWER]
    ensures Polled(s, role, raw, now, c).presses == s.presses
  {
    PowerEdgesSnoc(s.sent, Edge(role, raw, now, |s.presses|));
    SameButton(s, Polled(s, role, raw, now, c));
  }

  /** A confirmed button edge that is queued at once. */
  lemma SentEdgeKeepsButton(s: Loop, e: Edge, pins: seq<Pin>)
    requires ButtonInv(s) && s.slot.None? && e.role == POWER && e.serial == |s.presses|
    requires |pins| == ROLES && pins[POWER].confirmed == e.level != s.pins[POWER].confirmed
    ensures ButtonInv(Send(s.(pins := pins, presses := s.presses + [Sample(e.level, e.at)]), e))
  {
    PowerEdgesSnoc(s.sent, e);
    MorePresses(PowerEdges(s.sent), s.presses, Sample(e.level, e.at));
    SendingKeepsFaith(PowerEdges(s.sent), s.presses + [Sample(e.level, e.at)], e);
  }

  /** One that has to wait, taking the slot unless a release already waits there. */
  lemma WaitingEdgeKeepsButton(s: Loop, e: Edge, pins: seq<Pin>)
    requires ButtonInv(s) && e.role == POWER && e.serial == |s.presses|
    requires |pins| == ROLES && pins[POWER].confirmed == e.level != s.pins[POWER].confirmed
    requires s.slot.Some? ==> s.slot.value.level || !e.level
    ensures ButtonInv(s.(pins := pins, presses := s.presses + [Sample(e.level, e.at)], slot := Some(e)))
  {
    MorePresses(PowerEdges(s.sent), s.presses, Sample(e.level, e.at));
  }

  /** One that is forgotten: a press behind a waiting release. */
  lemma ForgottenEdgeKeepsButton(s: Loop, pins: seq<Pin>, now: nat)
    requires ButtonInv(s) && s.slot.Some? && !s.slot.value.level && |pins| == ROLES
    ensures ButtonInv(s.(pins := pins, presses := s.presses + [Sample(true, now)]))
  {
    MorePresses(PowerEdges(s.sent), s.presses, Sample(true, now));
  }

  lemma ButtonKeepsButton(s: Loop, raw: bool, now: nat, c: Config)
    requires ButtonInv(s)
    ensures ButtonInv(Polled(s, POWER, raw, now, c))
  {
    var step := SamplePin(s.pins[POWER], raw, now, c.debounce);
    var pins := s.pins[POWER := step.pin];
    var e := Edge(POWER, raw, now, |s.presses|);
    if c.powerEnabled && step.emits {
      if s.slot.Some? {
        if s.slot.value.level || !raw {
          WaitingEdgeKeepsButton(s, e, pins);
        } else {
          ForgottenEdgeKeepsButton(s, pins, now);
        }
      } else if Full(s, c) {
        WaitingEdgeKeepsButton(s, e, pins);
      } else {
        SentEdgeKeepsButton(s, e, pins);
      }
    }
  }

  lemma TickKeepsButton(s: Loop, raws: seq<bool>, now: nat, c: Config)
    requires ButtonInv(s) && |raws| == ROLES
    ensures ButtonInv(Ticked(s, raws, now, c))
  {
    RetryKeepsButton(s, c);
    var s0 := Retried(s, c);
    OtherPinKeepsButton(PolledUpTo(s0, raws, now, c, 0), 0, raws[0], now, c);
    OtherPinKeepsButton(PolledUpTo(s0, raws, now, c, 1), 1, raws[1], now, c);
    OtherPinKeepsButton(PolledUpTo(s0, raws, now, c, 2), 2, raws[2], now, c);
    ButtonKeepsButton(PolledUpTo(s0, raws, now, c, 3), raws[3], now, c);
  }

  // ----- runs

  /** A tick of the loop, or the consumer taking an edge. */
  datatype Turn = TickTurn(raws: seq<bool>, now: nat) | TakeTurn

  predicate WellFormed(turns: seq<Turn>) {
    forall i :: 0 <= i < |turns| && turns[i].TickTurn? ==> |turns[i].raws| == ROLES
  }

  function LoopAfter(levels: seq<bool>, turns: seq<Turn>, c: Config): (s: Loop)
    requires |levels| == ROLES && WellFormed(turns)
    ensures |s.pins| == ROLES
    decreases |turns|
  {
    if turns == [] then Loop(seq(ROLES, i requires 0 <= i < ROLES => Pin(levels[i], None)), None, [], multiset{}, [], [])
    else
      var n := |turns| - 1;
      var s := LoopAfter(levels, turns[..n], c);
      match turns[n]
      case TickTurn(raws, now) => Ticked(s, raws, now, c)
      case TakeTurn => if s.queue == [] then s else s.(queue := s.queue[1..])
  }

  /** The loop with its consumer, turn by turn: the object follows `LoopAfter`. */
  method RunLoop(config: Config, levels: seq<bool>, turns: seq<Turn>) returns (s: Sampler)
    requires |levels| == ROLES && WellFormed(turns)
    ensures fresh(s) && s.Valid() && s.config == config && s.State() == LoopAfter(levels, turns, config)
  {
    s := new Sampler(config, levels);
    for i := 0 to |turns|
      invariant fresh(s) && fresh(s.confirmed) && fresh(s.pending)
      invariant s.Valid() && s.config == config && s.State() == LoopAfter(levels, turns[..i], config)
    {
      assert turns[..i + 1][..i] == turns[..i];
      match turns[i] {
        case TickTurn(raws, now) => s.Tick(raws, now);
        case TakeTurn => var _ := s.Receive();
      }
    }
    assert turns[..|turns|] == turns;
  }

  /** Under every pattern of samples and of queue pressure, the consumer sees only
      confirmed button levels, in order, with a release between any two presses;
      and a button confirmed released is not left looking pressed once nothing
      waits for delivery. */
  lemma {:induction false} ButtonIsFaithful(levels: seq<bool>, turns: seq<Turn>, c: Config)
    requires |levels| == ROLES && WellFormed(turns)
    ensures var s := LoopAfter(levels, turns, c);
            && ButtonInv(s)
            && FaithfulButton(PowerEdges(s.sent), s.presses)
            && (s.slot.None? && !s.pins[POWER].confirmed ==> !LastIsPress(PowerEdges(s.sent)))
    decreases |turns|
  {
    if turns != [] {
      var n := |turns| - 1;
      ButtonIsFaithful(levels, turns[..n], c);
      if turns[n].TickTurn? {
        TickKeepsButton(LoopAfter(levels, turns[..n], c), turns[n].raws, turns[n].now, c);
      }
    }
  }

  /** The samples one role has seen. */
  function SamplesOf(turns: seq<Turn>, role: nat, c: Config): seq<Sample>
    requires role < ROLES && WellFormed(turns)
    decreases |turns|
  {
    if turns == [] then []
    else
      var n := |turns| - 1;
      var front := SamplesOf(turns[..n], role, c);
      if turns[n].TickTurn? && (role != POWER || c.powerEnabled) then
        front + [Sample(turns[n].raws[role], turns[n].now)]
      else front
  }

  lemma ForwardKeepsPins(s: Loop, role: nat, level: bool, now: nat, c: Config)
    ensures Forwarded(s, role, level, now, c).pins == s.pins
  {
  }

  lemma PollSamplesOnePin(s: Loop, role: nat, raw: bool, now: nat, c: Config, other: nat)
    requires |s.pins| == ROLES && role < ROLES && other < ROLES
    ensures Polled(s, role, raw, now, c).pins[other]
         == if other == role && (role != POWER || c.powerEnabled) then SamplePin(s.pins[role], raw, now, c.debounce).pin
            else s.pins[other]
  {
    var step := SamplePin(s.pins[role], raw, now, c.debounce);
    ForwardKeepsPins(s.(pins := s.pins[role := step.pin]), role, raw, now, c);
  }

  lemma {:induction false} PollsSamplePins(s: Loop, raws: seq<bool>, now: nat, c: Config, n: nat, role: nat)
    requires |s.pins| == |raws| == ROLES && n <= ROLES && role < ROLES
    ensures PolledUpTo(s, raws, now, c, n).pins[role]
         == if role < n && (role != POWER || c.powerEnabled)
            then SamplePin(s.pins[role], raws[role], now, c.debounce).pin else s.pins[role]
  {
    if n > 0 {
      PollsSamplePins(s, raws, now, c, n - 1, role);
      PollSamplesOnePin(PolledUpTo(s, raws, now, c, n - 1), n - 1, raws[n - 1], now, c, role);
    }
  }

  /** Inside the loop, whatever the other pins and the queue do, each pin is
      debounced by its own samples alone. */
  lemma {:induction false} PinsAreIndependent(levels: seq<bool>, turns: seq<Turn>, c: Config, role: nat)
    requires |levels| == ROLES && WellFormed(turns) && role < ROLES
    ensures LoopAfter(levels, turns, c).pins[role]
         == PinAfter(levels[role], SamplesOf(turns, role, c), c.debounce)
    decreases |turns|
  {
    if turns != [] {
      var n := |turns| - 1;
      PinsAreIndependent(levels, turns[..n], c, role);
      if turns[n].TickTurn? {
        var s := LoopAfter(levels, turns[..n], c);
        PollsSamplePins(Retried(s, c), turns[n].raws, turns[n].now, c, ROLES, role);
        if role != POWER || c.powerEnabled {
          var all := SamplesOf(turns, role, c);
          assert all[..|all| - 1] == SamplesOf(turns[..n], role, c);
        }
      }
    }
  }

  lemma OthersConfirmNoPress(s: Loop, raws: seq<bool>, now: nat, c: Config, n: nat)
    requires |s.pins| == |raws| == ROLES && n <= POWER
    ensures PolledUpTo(s, raws, now, c, n).presses == s.presses
  {
    if n > 0 {
      OthersConfirmNoPress(s, raws, now, c, n - 1);
    }
  }

  lemma TickPresses(s: Loop, raws: seq<bool>, now: nat, c: Config)
    requires |s.pins| == |raws| == ROLES
    ensures Ticked(s, raws, now, c).presses
         == if c.powerEnabled && SamplePin(s.pins[POWER], raws[POWER], now, c.debounce).emits
            then s.presses + [Sample(raws[POWER], now)] else s.presses
  {
    var s0 := Retried(s, c);
    OthersConfirmNoPress(s0, raws, now, c, POWER);
    PollsSamplePins(s0, raws, now, c, POWER, POWER);
    PollPresses(PolledUpTo(s0, raws, now, c, POWER), raws[POWER], now, c);
  }

  lemma PollPresses(s: Loop, raw: bool, now: nat, c: Config)
    requires |s.pins| == ROLES
    ensures Polled(s, POWER, raw, now, c).presses
         == if c.powerEnabled && SamplePin(s.pins[POWER], raw, now, c.debounce).emits
            then s.presses + [Sample(raw, now)] else s.presses
  {
  }

  lemma EmittedStep(initial: bool, all: seq<Sample>, front: seq<Sample>, debounce: nat)
    requires all != [] && front == all[..|all| - 1]
    ensures var last := all[|all| - 1];
      Emitted(initial, all, debounce)
      == if SamplePin(PinAfter(initial, front, debounce), last.raw, last.now, debounce).emits
         then Emitted(initial, front, debounce) + [last] else Emitted(initial, front, debounce)
  {
  }

  /** The confirmed button edges are those of the button's own samples. */
  lemma {:induction false} PressesAreEmitted(levels: seq<bool>, turns: seq<Turn>, c: Config)
    requires |levels| == ROLES && WellFormed(turns)
    ensures LoopAfter(levels, turns, c).presses
         == Emitted(levels[POWER], SamplesOf(turns, POWER, c), c.debounce)
    decreases |turns|
  {
    if turns != [] {
      var n := |turns| - 1;
      var s := LoopAfter(levels, turns[..n], c);
      PressesAreEmitted(levels, turns[..n], c);
      PinsAreIndependent(levels, turns[..n], c, POWER);
      if turns[n].TickTurn? {
        TickPresses(s, turns[n].raws, turns[n].now, c);
        if c.powerEnabled {
          var all, front := SamplesOf(turns, POWER, c), SamplesOf(turns[..n], POWER, c);
          assert all[..|all| - 1] == front;
          EmittedStep(levels[POWER], all, front, c.debounce);
        }
      }
    }
  }
}
