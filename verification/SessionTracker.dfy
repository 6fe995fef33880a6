/**
 Call sessions derived from the telemetry that the runtime publishes around each
 step of the call state machine.
 */
module SessionTracker {
  import opened Wrappers
  import opened Decimal
  import opened CallCore
  import CallRuns

  // ----- telemetry

  datatype Telemetry =
    | StateTransition(from: string, to: string)
    | DialedDigit(digit: nat, pulses: nat)
    | UploadCompleted
    | UploadFailedAt(message: string)
    | OtherTelemetry

  function Tag(state: State): string {
    match state
    case Idle => "idle"
    case CallsPaused(_) => "calls_paused"
    case DialTone => "dial_tone"
    case Dialing(_) => "dialing"
    case RingingQuestion(_) => "ringing_question"
    case PlayingQuestion(_) => "playing_question"
    case Beep(_) => "beep"
    case Recording(_) => "recording"
    case FinishingRecording(_, _) => "finishing_recording"
    case FinishingTimedOutRecording(_, _) => "finishing_timeout_recording"
    case Uploading(_, _, _) => "uploading"
    case UploadingTimedOut(_, _, _) => "uploading_timeout"
    case RecordingEndedBeep => "recording_end_beep"
    case PlayingMessage => "playing_message"
    case PlayingInstructions => "playing_instructions"
    case CallUnavailable => "call_unavailable"
    case Error(_) => "error"
  }

  /** The digit the runtime announces for an event it is about to handle. */
  function DialedDigitForTelemetry(state: State, event: Event): Option<(nat, nat)> {
    match event
    case Tick =>
      if state.Dialing? && 1 <= state.pulses <= 10 then
        Some((if state.pulses == 10 then 0 else state.pulses, state.pulses))
      else None
    case DigitDialed(digit) =>
      if (state.DialTone? || state.Dialing? || state == CallsPaused(false)) && digit <= 9 then
        Some((digit, if digit == 0 then 10 else digit))
      else None
    case _ => None
  }

  /** Everything published for one event, in order: a resumed call opens before
      its first digit, any other digit precedes the transition. */
  function Published(from: State, event: Event, accepting: bool): seq<Telemetry> {
    var to := Handle(from, event, accepting).next;
    var transition := [StateTransition(Tag(from), Tag(to))];
    var dialed := if accepting then DialedDigitForTelemetry(from, event) else None;
    var digit := if dialed.Some? then [DialedDigit(dialed.value.0, dialed.value.1)] else [];
    if from.CallsPaused? && !to.Idle? && !to.CallsPaused? then transition + digit else digit + transition
  }

  // ----- the tracker

  datatype Phase = Prompt | RecordingPhase | UploadingPhase | RecordingDone | RecordingFailedPhase | OperatorErrorPhase

  datatype LiveSession = LiveSession(id: nat, phase: Phase, digits: string)

  datatype CallOutcome =
    | Aborted | HungUpBeforeDial | HungUpDuringPrompt | HungUpDuringRecording | HungUpDuringUpload
    | RecordingCompleted | UploadFailedOutcome | OperatorError

  datatype Synthetic =
    | CallStarted(id: nat)
    | CallEnded(id: nat, outcome: CallOutcome, digits: string)

  predicate IdleTag(tag: string) {
    tag == "idle" || tag == "calls_paused"
  }

  function PhaseAfter(phase: Phase, to: string): Phase {
    if to == "recording" then RecordingPhase
    else if to == "uploading" || to == "uploading_timeout" then UploadingPhase
    else if to == "error" then OperatorErrorPhase
    else phase
  }

  function OutcomeOf(session: LiveSession, to: string): CallOutcome {
    match session.phase
    case Prompt =>
      if to == "calls_paused" then Aborted
      else if session.digits == "" then HungUpBeforeDial
      else HungUpDuringPrompt
    case RecordingPhase => if to == "calls_paused" then Aborted else HungUpDuringRecording
    case UploadingPhase => if to == "calls_paused" then Aborted else HungUpDuringUpload
    case RecordingDone => RecordingCompleted
    case RecordingFailedPhase => UploadFailedOutcome
    case OperatorErrorPhase => OperatorError
  }

  datatype Observed = Observed(session: Option<LiveSession>, out: seq<Synthetic>)

  /** What observing one event does; `freshId` names the session if one opens. */
  function ObserveTransition(current: Option<LiveSession>, from: string, to: string, freshId: nat): Observed {
    var opens := IdleTag(from) && !IdleTag(to) && current.None?;
    var live := if opens then Some(LiveSession(freshId, Prompt, "")) else current;
    var started := if opens then [CallStarted(freshId)] else [];
    if live.None? then Observed(None, started)
    else
      var session := live.value.(phase := PhaseAfter(live.value.phase, to));
      if !IdleTag(from) && IdleTag(to) then
        Observed(None, started + [CallEnded(session.id, OutcomeOf(session, to), session.digits)])
      else Observed(Some(session), started)
  }

  function ObserveOne(current: Option<LiveSession>, event: Telemetry, freshId: nat): Observed {
    match event
    case StateTransition(from, to) => ObserveTransition(current, from, to, freshId)
    case DialedDigit(digit, _) =>
      Observed(if current.Some? then Some(current.value.(digits := current.value.digits + Print(digit))) else None, [])
    case UploadCompleted =>
      Observed(if current.Some? then Some(current.value.(phase := RecordingDone)) else None, [])
    case UploadFailedAt(_) =>
      Observed(if current.Some? then Some(current.value.(phase := RecordingFailedPhase)) else None, [])
    case OtherTelemetry => Observed(current, [])
  }

  class Tracker {
    var current: Option<LiveSession>

    constructor ()
      ensures current == None
    {
      current := None;
    }

    method Observe(event: Telemetry, freshId: nat) returns (out: seq<Synthetic>)
      modifies this
      ensures Observed(current, out) == ObserveOne(old(current), event, freshId)
    {
      out := [];
      match event {
        case StateTransition(from, to) =>
          var wasIdle, nowIdle := IdleTag(from), IdleTag(to);
          if wasIdle && !nowIdle && current.None? {
            current := Some(LiveSession(freshId, Prompt, ""));
            out := out + [CallStarted(freshId)];
          }
          if current.Some? {
            if to == "recording" {
              current := Some(current.value.(phase := RecordingPhase));
            } else if to == "uploading" || to == "uploading_timeout" {
              current := Some(current.value.(phase := UploadingPhase));
            } else if to == "error" {
              current := Some(current.value.(phase := OperatorErrorPhase));
            }
          }
          if !wasIdle && nowIdle && current.Some? {
            var session := current.value;
            current := None;
            out := out + [CallEnded(session.id, OutcomeOf(session, to), session.digits)];
          }
        case DialedDigit(digit, _) =>
          if current.Some? {
            current := Some(current.value.(digits := current.value.digits + Print(digit)));
          }
        case UploadCompleted =>
          if current.Some? {
            current := Some(current.value.(phase := RecordingDone));
          }
        case UploadFailedAt(_) =>
          if current.Some? {
            current := Some(current.value.(phase := RecordingFailedPhase));
          }
        case OtherTelemetry =>
      }
    }
  }

  // ----- what the core itself decodes

  /** The digit a step of the core decodes, if any. */
  function DecodedDigit(state: State, event: Event, accepting: bool): Option<nat> {
    if !accepting then None
    else
      var live := if state.CallsPaused? && !OnHookAfter(state, event) then DialTone else state;
      match event
      case Tick => if state.Dialing? then Some(if state.pulses == 10 then 0 else state.pulses) else None
      case DigitDialed(digit) => if (live.DialTone? || live.Dialing?) && digit <= 9 then Some(digit) else None
      case _ => None
  }

  function DigitLog(digit: nat): Effect {
    Log("dialed digit " + Print(digit) + ": " + DigitAction(digit))
  }

  predicate IsDigitLog(e: Effect) {
    e.Log? && "dialed digit" <= e.message
  }

  /** The digits a list of effects reports as decoded. */
  function DigitLogs(es: seq<Effect>): seq<Effect> {
    if es == [] then []
    else if IsDigitLog(es[0]) then [es[0]] + DigitLogs(es[1..])
    else DigitLogs(es[1..])
  }

  lemma {:induction false} DigitLogsAppend(a: seq<Effect>, b: seq<Effect>)
    ensures DigitLogs(a + b) == DigitLogs(a) + DigitLogs(b)
    decreases |a|
  {
    if a == [] {
      assert a + b == b;
    } else {
      assert (a + b)[1..] == a[1..] + b;
      DigitLogsAppend(a[1..], b);
    }
  }

  predicate Quiet(es: seq<Effect>) {
    forall e :: e in es ==> !IsDigitLog(e)
  }

  lemma {:induction false} QuietIsEmpty(es: seq<Effect>)
    requires Quiet(es)
    ensures DigitLogs(es) == []
    decreases |es|
  {
    if es != [] {
      QuietIsEmpty(es[1..]);
    }
  }

  lemma ShortLogs(prefix: string, rest: string)
    requires |prefix| > 0 && prefix[0] != 'd'
    ensures !IsDigitLog(Log(prefix + rest))
  {
    var m := prefix + rest;
    assert m[0] == prefix[0];
    assert "dialed digit"[0] == 'd';
  }

  lemma DecodeLogs(digit: nat)
    ensures DigitLogs(DecodeDigit(digit).effects) == if digit <= 9 then [DigitLog(digit)] else []
  {
    var es := DecodeDigit(digit).effects;
    if digit <= 9 {
      var m := DigitLog(digit).message;
      assert m == "dialed digit " + (Print(digit) + (": " + DigitAction(digit)));
      assert IsDigitLog(es[0]);
      QuietIsEmpty(es[1..]);
      assert es[0] == DigitLog(digit);
    } else {
      QuietIsEmpty(es);
    }
  }

  lemma QuietUploadFailed(state: State, reason: string)
    ensures Quiet(HandleUploadFailed(state, reason).effects)
  {
    ShortLogs("upload failed after hangup: ", reason);
    ShortLogs("upload failed: ", reason);
    ShortLogs("timed-out recording upload failed: ", reason);
  }

  lemma QuietFetch(state: State, event: Event)
    requires CallRuns.FetchResult(event)
    ensures Quiet(HandleFetchResult(state, event).effects)
  {
    match event {
      case QuestionReady(q) => ShortLogs("question ready: ", q);
      case QuestionFailed(reason) => ShortLogs("question fetch failed: ", reason);
      case MessageFailed(reason) => ShortLogs("message fetch failed: ", reason);
      case InstructionsFailed(reason) => ShortLogs("instructions fetch failed: ", reason);
      case _ =>
    }
  }

  lemma QuietHook(state: State, event: Event)
    requires event.HookOn? || event.HookOff?
    ensures Quiet(HandleInner(state, event).effects)
  {
  }

  lemma QuietAudio(state: State, event: Event)
    requires event.PlaybackEnded? || event.RecordingTimedOut? || event.RecordingFinished?
    ensures Quiet(HandleInner(state, event).effects)
  {
  }

  lemma QuietUploadDone(state: State)
    ensures Quiet(HandleUploadComplete(state).effects)
  {
  }

  lemma QuietHandlers(state: State, event: Event)
    requires !event.Tick? && !event.DigitDialed? && !event.RotaryPulse?
    ensures Quiet(HandleInner(state, event).effects)
  {
    if event.HookOn? || event.HookOff? {
      QuietHook(state, event);
    } else if event.PlaybackEnded? || event.RecordingTimedOut? || event.RecordingFinished? {
      QuietAudio(state, event);
    } else if event.RecordingFailed? {
      QuietRecordingFailed(state, event.reason);
    } else if event.UploadComplete? || event.UploadDeferred? {
      QuietUploadDone(state);
    } else if event.UploadFailed? {
      QuietUploadFailed(state, event.reason);
    } else if CallRuns.FetchResult(event) {
      QuietFetch(state, event);
    }
  }

  lemma QuietRecordingFailed(state: State, reason: string)
    ensures Quiet(HandleRecordingFailed(state, reason).effects)
  {
    ShortLogs("recording failed: ", reason);
    ShortLogs("recording failed after hangup: ", reason);
    ShortLogs("timed-out recording failed: ", reason);
    ShortLogs("timed-out recording failed after hangup: ", reason);
  }

  function LogOf(digit: Option<nat>): seq<Effect> {
    if digit.Some? then [DigitLog(digit.value)] else []
  }

  lemma PulseLogs(state: State)
    ensures DigitLogs(HandlePulse(state).effects) == []
  {
    var m := "rotary pulses exceeded maximum";
    ShortLogs(m, "");
    assert m + "" == m;
    QuietIsEmpty(HandlePulse(state).effects);
  }

  lemma OtherLogs(state: State, event: Event)
    requires !event.Tick? && !event.DigitDialed? && !event.RotaryPulse?
    ensures DigitLogs(HandleInner(state, event).effects) == []
  {
    QuietHandlers(state, event);
    QuietIsEmpty(HandleInner(state, event).effects);
  }

  lemma InnerLogs(state: State, event: Event)
    requires !state.CallsPaused? && (state.Dialing? ==> state.pulses <= 10)
    ensures DigitLogs(HandleInner(state, event).effects) == LogOf(DecodedDigit(state, event, true))
  {
    match event {
      case Tick =>
        if state.Dialing? {
          DecodeLogs(if state.pulses == 10 then 0 else state.pulses);
        }
      case DigitDialed(digit) => DecodeLogs(digit);
      case RotaryPulse => PulseLogs(state);
      case _ => OtherLogs(state, event);
    }
  }

  lemma {:induction false} MutingKeepsDigitLogs(es: seq<Effect>)
    ensures DigitLogs(Muted(es)) == DigitLogs(es)
    decreases |es|
  {
    if es != [] {
      MutingKeepsDigitLogs(es[1..]);
      if !es[0].PutStatus? && !es[0].Play? {
        assert Muted(es)[1..] == Muted(es[1..]);
      }
    }
  }

  lemma SilencedLogs(state: State, inner: Step, onHook: bool)
    requires DigitLogs(inner.effects) == []
    ensures DigitLogs(Silenced(state, inner, onHook).effects) == []
  {
    var muted := Muted(inner.effects);
    MutingKeepsDigitLogs(inner.effects);
    DigitLogsAppend([StopAudio], muted);
    QuietIsEmpty([StopAudio]);
    QuietIsEmpty([StopAudio, CancelPulseTimeout]);
    DigitLogsAppend(muted, [StopAudio, CancelPulseTimeout]);
    DigitLogsAppend([StopAudio] + muted, [StopAudio, CancelPulseTimeout]);
  }

  lemma ResumeLogs(state: State, event: Event)
    requires state.CallsPaused?
    ensures DigitLogs(Resume(state, event, OnHookAfter(state, event)).effects) == LogOf(DecodedDigit(state, event, true))
  {
    var onHook := OnHookAfter(state, event);
    var resumed := if onHook then Step(Idle, [PutStatus(StatusIdle)]) else HandleInner(Idle, HookOff);
    QuietIsEmpty(resumed.effects);
    if event.RotaryPulse? || event.DigitDialed? {
      InnerLogs(resumed.next, event);
      DigitLogsAppend(resumed.effects, HandleInner(resumed.next, event).effects);
    }
  }

  lemma PausedLogs(state: State, event: Event)
    requires state.Dialing? ==> state.pulses <= 10
    requires !event.UploadFinished?
    ensures DigitLogs(HandlePaused(state, event, OnHookAfter(state, event)).effects) == []
  {
    if Protected(state) {
      InnerLogs(SuppressBeep(state), event);
      SilencedLogs(state, HandleInner(SuppressBeep(state), event), OnHookAfter(state, event));
    } else {
      QuietIsEmpty([StopAudio, CancelPulseTimeout]);
    }
  }

  lemma AdmittedLogs(state: State, event: Event, accepting: bool)
    requires !event.UploadFinished? && (state.Dialing? ==> state.pulses <= 10)
    ensures DigitLogs(HandleAdmitted(state, event, accepting).effects) == LogOf(DecodedDigit(state, event, accepting))
  {
    if event.PowerButtonPressed? || event.PowerButtonHeld? {
      QuietIsEmpty(HandleInner(state, event).effects);
    } else if !accepting {
      PausedLogs(state, event);
    } else if state.CallsPaused? {
      ResumeLogs(state, event);
    } else {
      InnerLogs(state, event);
    }
  }

  /** `DecodedDigit` is what the core decodes: a step's log names exactly it. */
  lemma DecodedDigitIsLogged(state: State, event: Event, accepting: bool)
    requires state.Dialing? ==> state.pulses <= 10
    ensures DigitLogs(Handle(state, event, accepting).effects) == LogOf(DecodedDigit(state, event, accepting))
  {
    var step := HandleAvailable(state, event, accepting);
    if event.UploadFinished? {
      if AwaitedUpload(state) == Some(event.recordingId) {
        AdmittedLogs(state, Outcome(event), accepting);
      }
    } else {
      AdmittedLogs(state, event, accepting);
    }
    var led := SetStatusLed(StatusLedFor(step.next));
    assert ([led] + step.effects)[1..] == step.effects;
  }

  /** The runtime announces exactly the digits the core decodes. */
  lemma TelemetryAnnouncesDecodedDigits(state: State, event: Event, accepting: bool)
    requires state.Dialing? ==> 1 <= state.pulses <= 10
    ensures var announced := if accepting then DialedDigitForTelemetry(state, event) else None;
            var decoded := DecodedDigit(state, event, accepting);
            && (announced.Some? <==> decoded.Some?)
            && (announced.Some? ==>
                  announced.value.0 == decoded.value <= 9 && announced.value.1 == if decoded.value == 0 then 10 else decoded.value)
  {
  }

  // ----- sessions over whole runs

  /** A call is in progress. */
  predicate Live(state: State) {
    !state.Idle? && !state.CallsPaused?
  }

  lemma TagsTellLiveness(state: State)
    ensures IdleTag(Tag(state)) <==> !Live(state)
  {
    match state {
      case Idle =>
      case CallsPaused(_) =>
      case DialTone => assert Tag(state)[0] == 'd';
      case Dialing(_) => assert Tag(state)[0] == 'd';
      case RingingQuestion(_) => assert Tag(state)[0] == 'r';
      case PlayingQuestion(_) => assert Tag(state)[0] == 'p';
      case Beep(_) => assert Tag(state)[0] == 'b';
      case Recording(_) => assert Tag(state)[0] == 'r';
      case FinishingRecording(_, _) => assert Tag(state)[0] == 'f';
      case FinishingTimedOutRecording(_, _) => assert Tag(state)[0] == 'f';
      case Uploading(_, _, _) => assert Tag(state)[0] == 'u';
      case UploadingTimedOut(_, _, _) => assert Tag(state)[0] == 'u';
      case RecordingEndedBeep => assert Tag(state)[0] == 'r';
      case PlayingMessage => assert Tag(state)[0] == 'p';
      case PlayingInstructions => assert Tag(state)[0] == 'p';
      case CallUnavailable => assert Tag(state)[..6] == "call_u"; assert "calls_paused"[..6] == "calls_";
      case Error(_) => assert Tag(state)[0] == 'e';
    }
  }

  /** What happens to the runtime: an event is handled, or the upload of some recording
      reports its result on the bus. */
  datatype Happening = Deliver(event: Event, accepting: bool) | UploadReport(recordingId: RecordingId, succeeded: bool)

  datatype Track = Track(current: Option<LiveSession>, out: seq<Synthetic>, nextId: nat)

  function ObserveInto(t: Track, e: Telemetry): Track {
    var o := ObserveOne(t.current, e, t.nextId);
    Track(o.session, t.out + o.out, if o.out != [] && o.out[0].CallStarted? then t.nextId + 1 else t.nextId)
  }

  function ObserveAll(t: Track, es: seq<Telemetry>): Track
    decreases |es|
  {
    if es == [] then t else ObserveAll(ObserveInto(t, es[0]), es[1..])
  }

  function CoreAfter(run: seq<Happening>): State {
    if run == [] then Idle
    else
      var before, last := CoreAfter(run[..|run| - 1]), run[|run| - 1];
      if last.Deliver? then Handle(before, last.event, last.accepting).next else before
  }

  function ReportOf(succeeded: bool): Telemetry {
    if succeeded then UploadCompleted else UploadFailedAt("")
  }

  function TrackAfter(run: seq<Happening>): Track {
    if run == [] then Track(None, [], 0)
    else
      var front, last := run[..|run| - 1], run[|run| - 1];
      match last
      case Deliver(event, accepting) => ObserveAll(TrackAfter(front), Published(CoreAfter(front), event, accepting))
      case UploadReport(_, succeeded) => ObserveAll(TrackAfter(front), [ReportOf(succeeded)])
  }

  /** A call as the core lives it: the digits decoded in it, the last thing in it that
      bears on its outcome, the same leaving aside reports on recordings that the core
      does not await, and what such a stray report said if one came last. */
  datatype CallLife = CallLife(digits: string, phase: Phase, own: Phase, stray: Option<bool>)

  datatype EndedCall = EndedCall(digits: string, outcome: CallOutcome, own: CallOutcome, stray: Option<bool>)

  datatype Calls = Calls(finished: seq<EndedCall>, live: Option<CallLife>)

  /** What a state says about the outcome, if anything. */
  function Bearing(state: State): Option<Phase> {
    match state
    case Recording(_) => Some(RecordingPhase)
    case Uploading(_, _, _) => Some(UploadingPhase)
    case UploadingTimedOut(_, _, _) => Some(UploadingPhase)
    case Error(_) => Some(OperatorErrorPhase)
    case _ => None
  }

  function Entered(life: CallLife, to: State): CallLife {
    var phase := Bearing(to);
    if phase.Some? then life.(phase := phase.value, own := phase.value, stray := None) else life
  }

  function ReportPhase(succeeded: bool): Phase {
    if succeeded then RecordingDone else RecordingFailedPhase
  }

  /** The outcome that tells how an upload went. */
  function ReportOutcome(succeeded: bool): CallOutcome {
    if succeeded then RecordingCompleted else UploadFailedOutcome
  }

  function Reported(life: CallLife, succeeded: bool, awaited: bool): CallLife {
    var phase := ReportPhase(succeeded);
    if awaited then life.(phase := phase, own := phase, stray := None)
    else life.(phase := phase, stray := Some(succeeded))
  }

  function CallOutcomeOf(phase: Phase, digits: string, paused: bool): CallOutcome {
    match phase
    case Prompt => if paused then Aborted else if digits == "" then HungUpBeforeDial else HungUpDuringPrompt
    case RecordingPhase => if paused then Aborted else HungUpDuringRecording
    case UploadingPhase => if paused then Aborted else HungUpDuringUpload
    case RecordingDone => RecordingCompleted
    case RecordingFailedPhase => UploadFailedOutcome
    case OperatorErrorPhase => OperatorError
  }

  function Closed(life: CallLife, paused: bool): EndedCall {
    EndedCall(life.digits, CallOutcomeOf(life.phase, life.digits, paused), CallOutcomeOf(life.own, life.digits, paused),
              life.stray)
  }

  function WithDigit(c: Calls, digit: Option<nat>): Calls {
    if c.live.Some? && digit.Some? then c.(live := Some(c.live.value.(digits := c.live.value.digits + Print(digit.value))))
    else c
  }

  function Switched(c: Calls, from: State, to: State): Calls {
    if Live(to) then
      var life := if Live(from) && c.live.Some? then c.live.value else CallLife("", Prompt, Prompt, None);
      c.(live := Some(Entered(life, to)))
    else if Live(from) && c.live.Some? then Calls(c.finished + [Closed(c.live.value, to.CallsPaused?)], None)
    else c
  }

  /** A digit belongs to the call in progress, or to the one it resumes. */
  function CallsNext(c: Calls, from: State, to: State, digit: Option<nat>): Calls {
    if Live(from) then Switched(WithDigit(c, digit), from, to) else WithDigit(Switched(c, from, to), digit)
  }

  function WithReport(c: Calls, core: State, r: RecordingId, succeeded: bool): Calls {
    if c.live.None? then c else c.(live := Some(Reported(c.live.value, succeeded, AwaitedUpload(core) == Some(r))))
  }

  function CallsAfter(run: seq<Happening>): Calls {
    if run == [] then Calls([], None)
    else
      var front, last := run[..|run| - 1], run[|run| - 1];
      var from := CoreAfter(front);
      match last
      case Deliver(event, accepting) =>
        CallsNext(CallsAfter(front), from, Handle(from, event, accepting).next, DecodedDigit(from, event, accepting))
      case UploadReport(r, succeeded) => WithReport(CallsAfter(front), from, r, succeeded)
  }

  /** Started and ended in strict alternation, each call under its own id. */
  function SyntheticsOfFinished(finished: seq<EndedCall>): seq<Synthetic> {
    if finished == [] then []
    else
      var k := |finished| - 1;
      SyntheticsOfFinished(finished[..k]) + [CallStarted(k), CallEnded(k, finished[k].outcome, finished[k].digits)]
  }

  function SyntheticsOf(c: Calls): seq<Synthetic> {
    SyntheticsOfFinished(c.finished) + (if c.live.Some? then [CallStarted(|c.finished|)] else [])
  }

  predicate Follows(t: Track, c: Calls) {
    && t.out == SyntheticsOf(c)
    && t.nextId == |c.finished| + (if c.live.Some? then 1 else 0)
    && (t.current.Some? <==> c.live.Some?)
    && (t.current.Some? ==> t.current.value == LiveSession(|c.finished|, c.live.value.phase, c.live.value.digits))
  }

  lemma BearingTags(phase: Phase, to: State)
    requires Bearing(to).Some?
    ensures PhaseAfter(phase, Tag(to)) == Bearing(to).value
  {
    assert "uploading"[0] == 'u' && "uploading_timeout"[0] == 'u' && "recording"[0] == 'r' && "error"[0] == 'e';
  }

  /** Only the recording's end tone shares its tag's first letters with a tag that bears. */
  lemma OtherTags(phase: Phase, to: State)
    requires Bearing(to).None?
    ensures PhaseAfter(phase, Tag(to)) == phase
  {
    var tag := Tag(to);
    assert "uploading"[0] == 'u' && "uploading_timeout"[0] == 'u' && "recording"[..2] == "re" && "error"[0] == 'e';
    if to.RecordingEndedBeep? {
      assert |tag| != |"recording"|;
    } else {
      assert tag[0] != 'u' && tag[0] != 'e' && (tag[0] == 'r' ==> tag[1] == 'i');
    }
  }

  lemma TagsTellPhase(phase: Phase, to: State)
    ensures PhaseAfter(phase, Tag(to)) == if Bearing(to).Some? then Bearing(to).value else phase
  {
    if Bearing(to).Some? {
      BearingTags(phase, to);
    } else {
      OtherTags(phase, to);
    }
  }

  lemma TagsTellPausing(state: State)
    requires !Live(state)
    ensures Tag(state) == "calls_paused" <==> state.CallsPaused?
  {
    assert "idle"[0] == 'i' && "calls_paused"[0] == 'c';
  }

  lemma OpeningFollows(t: Track, c: Calls, from: State, to: State)
    requires Follows(t, c) && c.live.None? && !Live(from) && Live(to)
    ensures Follows(ObserveInto(t, StateTransition(Tag(from), Tag(to))), Switched(c, from, to))
  {
    TagsTellLiveness(from);
    TagsTellLiveness(to);
    TagsTellPhase(Prompt, to);
    assert ObserveOne(t.current, StateTransition(Tag(from), Tag(to)), t.nextId).out == [CallStarted(t.nextId)];
  }

  lemma ClosingFollows(t: Track, c: Calls, from: State, to: State)
    requires Follows(t, c) && c.live.Some? && Live(from) && !Live(to)
    ensures Follows(ObserveInto(t, StateTransition(Tag(from), Tag(to))), Switched(c, from, to))
  {
    TagsTellLiveness(from);
    TagsTellLiveness(to);
    TagsTellPhase(c.live.value.phase, to);
    TagsTellPausing(to);
    var n, call := |c.finished|, Closed(c.live.value, to.CallsPaused?);
    var finished := c.finished + [call];
    assert ObserveOne(t.current, StateTransition(Tag(from), Tag(to)), t.nextId).out == [CallEnded(n, call.outcome, call.digits)];
    assert finished[..n] == c.finished;
    assert SyntheticsOfFinished(finished)
        == SyntheticsOfFinished(c.finished) + ([CallStarted(n)] + [CallEnded(n, call.outcome, call.digits)]);
  }

  lemma StayingFollows(t: Track, c: Calls, from: State, to: State)
    requires Follows(t, c) && (c.live.Some? <==> Live(from)) && (Live(from) <==> Live(to))
    ensures Follows(ObserveInto(t, StateTransition(Tag(from), Tag(to))), Switched(c, from, to))
  {
    TagsTellLiveness(from);
    TagsTellLiveness(to);
    if c.live.Some? {
      TagsTellPhase(c.live.value.phase, to);
    }
    assert ObserveOne(t.current, StateTransition(Tag(from), Tag(to)), t.nextId).out == [];
    assert t.out + [] == t.out;
  }

  lemma TransitionFollows(t: Track, c: Calls, from: State, to: State)
    requires Follows(t, c) && (c.live.Some? <==> Live(from))
    ensures Follows(ObserveInto(t, StateTransition(Tag(from), Tag(to))), Switched(c, from, to))
    ensures Switched(c, from, to).live.Some? <==> Live(to)
  {
    if Live(from) <==> Live(to) {
      StayingFollows(t, c, from, to);
    } else if Live(to) {
      OpeningFollows(t, c, from, to);
    } else {
      ClosingFollows(t, c, from, to);
    }
  }

  lemma DigitFollows(t: Track, c: Calls, digit: nat, pulses: nat)
    requires Follows(t, c) && c.live.Some?
    ensures Follows(ObserveInto(t, DialedDigit(digit, pulses)), WithDigit(c, Some(digit)))
    ensures t.current.Some?
  {
    assert t.out + [] == t.out;
  }

  /** A decoded digit belongs to a call that the same step leaves in progress. */
  lemma DecodedInsideCall(state: State, event: Event, accepting: bool)
    requires DecodedDigit(state, event, accepting).Some? && (state.Dialing? ==> state.pulses <= 10)
    ensures Live(Handle(state, event, accepting).next)
    ensures Live(state) || state.CallsPaused?
  {
  }

  lemma ObserveOneByOne(t: Track, a: Telemetry, b: Telemetry)
    ensures ObserveAll(t, [a]) == ObserveInto(t, a)
    ensures ObserveAll(t, [a] + [b]) == ObserveInto(ObserveInto(t, a), b)
  {
    assert ObserveAll(ObserveInto(t, a), []) == ObserveInto(t, a);
    assert ([a] + [b])[1..] == [b];
    assert ObserveAll(ObserveInto(t, a), [b]) == ObserveInto(ObserveInto(t, a), b);
  }

  /** The telemetry of one event: the transition, and at most one digit, which falls
      inside a call on whichever side of the transition it is. */
  lemma PublishedFollows(t: Track, c: Calls, from: State, event: Event, accepting: bool)
    requires Follows(t, c) && (c.live.Some? <==> Live(from))
    requires from.Dialing? ==> 1 <= from.pulses <= 10
    ensures var to := Handle(from, event, accepting).next;
            var c' := CallsNext(c, from, to, DecodedDigit(from, event, accepting));
            Follows(ObserveAll(t, Published(from, event, accepting)), c') && (c'.live.Some? <==> Live(to))
    ensures var es := Published(from, event, accepting);
            forall i :: 0 <= i < |es| && es[i].DialedDigit? ==> ObserveAll(t, es[..i]).current.Some?
  {
    var to := Handle(from, event, accepting).next;
    var transition := StateTransition(Tag(from), Tag(to));
    var announced := if accepting then DialedDigitForTelemetry(from, event) else None;
    var digit := DecodedDigit(from, event, accepting);
    var es := Published(from, event, accepting);
    TelemetryAnnouncesDecodedDigits(from, event, accepting);
    if digit.None? {
      assert es == [transition];
      ObserveOneByOne(t, transition, transition);
      TransitionFollows(t, c, from, to);
    } else {
      DecodedInsideCall(from, event, accepting);
      var dialed := DialedDigit(announced.value.0, announced.value.1);
      if Live(from) {
        assert es == [dialed] + [transition];
        assert es[..0] == [];
        ObserveOneByOne(t, dialed, transition);
        DigitFollows(t, c, announced.value.0, announced.value.1);
        TransitionFollows(ObserveInto(t, dialed), WithDigit(c, digit), from, to);
      } else {
        assert es == [transition] + [dialed];
        assert es[..1] == [transition];
        ObserveOneByOne(t, transition, dialed);
        TransitionFollows(t, c, from, to);
        DigitFollows(ObserveInto(t, transition), Switched(c, from, to), announced.value.0, announced.value.1);
      }
    }
  }

  lemma ReportFollows(t: Track, c: Calls, core: State, r: RecordingId, succeeded: bool)
    requires Follows(t, c)
    ensures Follows(ObserveAll(t, [ReportOf(succeeded)]), WithReport(c, core, r, succeeded))
  {
    var e := ReportOf(succeeded);
    ObserveOneByOne(t, e, e);
    assert t.out + [] == t.out;
  }

  /** The inputs of the call machine within a run. */
  function Delivered(run: seq<Happening>): seq<CallRuns.Input> {
    if run == [] then []
    else
      var front, last := Delivered(run[..|run| - 1]), run[|run| - 1];
      if last.Deliver? then front + [CallRuns.Input(last.event, last.accepting)] else front
  }

  lemma {:induction false} CoreIsRun(run: seq<Happening>)
    ensures CoreAfter(run) == CallRuns.RunState(Delivered(run))
  {
    if run != [] {
      var front, last := run[..|run| - 1], run[|run| - 1];
      CoreIsRun(front);
      if last.Deliver? {
        var inputs := Delivered(run);
        assert inputs[..|inputs| - 1] == Delivered(front);
      }
    }
  }

  /** Over every run, with upload reports arriving at any time: a session is open
      exactly during a call, starts and ends alternate under matching ids, and each end
      carries exactly the digits the core decoded in that call and the outcome of it. */
  lemma {:induction false} SessionsFollowCalls(run: seq<Happening>)
    ensures Follows(TrackAfter(run), CallsAfter(run))
    ensures TrackAfter(run).current.Some? <==> Live(CoreAfter(run))
    ensures CallsAfter(run).live.Some? <==> Live(CoreAfter(run))
  {
    if run != [] {
      var front, last := run[..|run| - 1], run[|run| - 1];
      SessionsFollowCalls(front);
      match last {
        case Deliver(event, accepting) =>
          CoreIsRun(front);
          CallRuns.RunKeepsInvariant(Delivered(front));
          PublishedFollows(TrackAfter(front), CallsAfter(front), CoreAfter(front), event, accepting);
        case UploadReport(r, succeeded) =>
          ReportFollows(TrackAfter(front), CallsAfter(front), CoreAfter(front), r, succeeded);
      }
    }
  }

  /** After every run, each digit announced for the next event is observed while a
      session is open. */
  lemma DigitsFallInsideCalls(run: seq<Happening>, event: Event, accepting: bool, i: nat)
    requires i < |Published(CoreAfter(run), event, accepting)|
    ensures var es := Published(CoreAfter(run), event, accepting);
            es[i].DialedDigit? ==> ObserveAll(TrackAfter(run), es[..i]).current.Some?
  {
    SessionsFollowCalls(run);
    CoreIsRun(run);
    CallRuns.RunKeepsInvariant(Delivered(run));
    PublishedFollows(TrackAfter(run), CallsAfter(run), CoreAfter(run), event, accepting);
  }

  // ----- digits

  /** The digits decoded so far in the call in progress. */
  function DialedIn(run: seq<Happening>): seq<nat> {
    if run == [] then []
    else
      var front, last := run[..|run| - 1], run[|run| - 1];
      if last.UploadReport? then DialedIn(front)
      else
        var from := CoreAfter(front);
        var digit := DecodedDigit(from, last.event, last.accepting);
        var earlier := if Live(from) then DialedIn(front) else [];
        if !Live(Handle(from, last.event, last.accepting).next) then []
        else if digit.Some? then earlier + [digit.value]
        else earlier
  }

  /** One character per digit, in the order in which they were dialled. */
  predicate Spells(text: string, digits: seq<nat>) {
    |text| == |digits| && forall i :: 0 <= i < |text| ==> digits[i] <= 9 && text[i] as int == '0' as int + digits[i]
  }

  lemma OneMoreDigit(text: string, digits: seq<nat>, digit: nat)
    requires Spells(text, digits) && digit <= 9
    ensures Spells(text + Print(digit), digits + [digit])
  {
    assert Print(digit) == [DigitChar(digit)];
  }

  lemma DecodedIsDigit(state: State, event: Event, accepting: bool)
    requires state.Dialing? ==> state.pulses <= 10
    ensures var digit := DecodedDigit(state, event, accepting); digit.Some? ==> digit.value <= 9
  {
  }

  /** Over every run the call in progress has collected exactly the digits decoded in it,
      in order, and a call that ends hands over those. */
  lemma {:induction false} DigitsAreThoseDialed(run: seq<Happening>)
    ensures CallsAfter(run).live.Some? <==> Live(CoreAfter(run))
    ensures Live(CoreAfter(run)) ==> Spells(CallsAfter(run).live.value.digits, DialedIn(run))
  {
    SessionsFollowCalls(run);
    if run != [] {
      var front, last := run[..|run| - 1], run[|run| - 1];
      DigitsAreThoseDialed(front);
      if last.Deliver? {
        CoreIsRun(front);
        CallRuns.RunKeepsInvariant(Delivered(front));
        DigitsGoOn(front, last, CallsAfter(front), CoreAfter(front));
      }
    }
  }

  lemma DigitsGoOn(front: seq<Happening>, h: Happening, c: Calls, from: State)
    requires h.Deliver? && (c.live.Some? <==> Live(from)) && (from.Dialing? ==> from.pulses <= 10)
    requires Live(from) ==> Spells(c.live.value.digits, DialedIn(front))
    ensures var to, digit := Handle(from, h.event, h.accepting).next, DecodedDigit(from, h.event, h.accepting);
            var c', earlier := CallsNext(c, from, to, digit), if Live(from) then DialedIn(front) else [];
            Live(to) ==> c'.live.Some? && Spells(c'.live.value.digits, if digit.Some? then earlier + [digit.value] else earlier)
  {
    var to, digit := Handle(from, h.event, h.accepting).next, DecodedDigit(from, h.event, h.accepting);
    DecodedIsDigit(from, h.event, h.accepting);
    if digit.Some? {
      if Live(from) {
        OneMoreDigit(c.live.value.digits, DialedIn(front), digit.value);
      } else {
        OneMoreDigit("", [], digit.value);
      }
    }
  }

  /** The digits of a call that ends are those dialled in it. */
  lemma EndCarriesDigits(run: seq<Happening>, end: Happening)
    requires end.Deliver?
    ensures Live(CoreAfter(run)) && !Live(CoreAfter(run + [end])) ==>
              var finished := CallsAfter(run + [end]).finished;
              finished != [] && Spells(finished[|finished| - 1].digits, DialedIn(run))
  {
    if Live(CoreAfter(run)) && !Live(CoreAfter(run + [end])) {
      AfterOne(run, end);
      DigitsAreThoseDialed(run);
      CoreIsRun(run);
      CallRuns.RunKeepsInvariant(Delivered(run));
      if DecodedDigit(CoreAfter(run), end.event, end.accepting).Some? {
        DecodedInsideCall(CoreAfter(run), end.event, end.accepting);
        assert false;
      }
    }
  }

  // ----- outcomes

  /** What each outcome says of the call: whether calls were paused under it, what it was
      last known to be doing or how its last upload went, and whether a digit was dialled. */
  lemma OutcomesMean(phase: Phase, digits: string, paused: bool)
    ensures var outcome := CallOutcomeOf(phase, digits, paused);
            && (outcome == Aborted <==> paused && (phase == Prompt || phase == RecordingPhase || phase == UploadingPhase))
            && (outcome == HungUpBeforeDial <==> !paused && phase == Prompt && digits == "")
            && (outcome == HungUpDuringPrompt <==> !paused && phase == Prompt && digits != "")
            && (outcome == HungUpDuringRecording <==> !paused && phase == RecordingPhase)
            && (outcome == HungUpDuringUpload <==> !paused && phase == UploadingPhase)
            && (outcome == RecordingCompleted <==> phase == RecordingDone)
            && (outcome == UploadFailedOutcome <==> phase == RecordingFailedPhase)
            && (outcome == OperatorError <==> phase == OperatorErrorPhase)
  {
  }

  /** A state bears on the outcome when it records, uploads or is in error. */
  lemma StatesBear(state: State)
    ensures Bearing(state) == Some(RecordingPhase) <==> state.Recording?
    ensures Bearing(state) == Some(UploadingPhase) <==> state.Uploading? || state.UploadingTimedOut?
    ensures Bearing(state) == Some(OperatorErrorPhase) <==> state.Error?
    ensures Bearing(state).Some? ==> Bearing(state).value in {RecordingPhase, UploadingPhase, OperatorErrorPhase}
  {
  }

  /** A report on a recording that the core does not await when it arrives. */
  predicate Stray(run: seq<Happening>, i: nat)
    requires i < |run|
  {
    run[i].UploadReport? && AwaitedUpload(CoreAfter(run[..i])) != Some(run[i].recordingId)
  }

  predicate OutcomeIsOwn(call: EndedCall) {
    && call.outcome == (if call.stray.Some? then ReportOutcome(call.stray.value) else call.own)
    && (call.outcome == call.own <==> call.stray.None? || call.own == ReportOutcome(call.stray.value))
  }

  predicate LifeIsOwn(life: CallLife) {
    life.phase == if life.stray.Some? then ReportPhase(life.stray.value) else life.own
  }

  ghost predicate OutcomesOwn(c: Calls) {
    && (forall k :: 0 <= k < |c.finished| ==> OutcomeIsOwn(c.finished[k]))
    && (c.live.Some? ==> LifeIsOwn(c.live.value))
  }

  lemma DigitIsOwn(c: Calls, digit: Option<nat>)
    requires OutcomesOwn(c)
    ensures OutcomesOwn(WithDigit(c, digit))
  {
  }

  lemma SwitchedIsOwn(c: Calls, from: State, to: State)
    requires OutcomesOwn(c)
    ensures OutcomesOwn(Switched(c, from, to))
  {
  }

  lemma NextIsOwn(c: Calls, from: State, to: State, digit: Option<nat>)
    requires OutcomesOwn(c)
    ensures OutcomesOwn(CallsNext(c, from, to, digit))
  {
    DigitIsOwn(c, digit);
    SwitchedIsOwn(c, from, to);
    SwitchedIsOwn(WithDigit(c, digit), from, to);
    DigitIsOwn(Switched(c, from, to), digit);
  }

  /** Every ended call reports its own outcome, unless a stray report came last, whose
      result it then reports: it differs from the call's own if and only if that does. */
  lemma {:induction false} OutcomesAreOwn(run: seq<Happening>)
    ensures OutcomesOwn(CallsAfter(run))
  {
    if run != [] {
      var front, last := run[..|run| - 1], run[|run| - 1];
      OutcomesAreOwn(front);
      if last.Deliver? {
        var from := CoreAfter(front);
        NextIsOwn(CallsAfter(front), from, Handle(from, last.event, last.accepting).next,
                  DecodedDigit(from, last.event, last.accepting));
      }
    }
  }

  ghost predicate NothingStray(c: Calls) {
    && (forall k :: 0 <= k < |c.finished| ==> c.finished[k].outcome == c.finished[k].own)
    && (c.live.Some? ==> c.live.value.stray.None? && c.live.value.phase == c.live.value.own)
  }

  lemma DigitIsNotStray(c: Calls, digit: Option<nat>)
    requires NothingStray(c)
    ensures NothingStray(WithDigit(c, digit))
  {
  }

  lemma SwitchedIsNotStray(c: Calls, from: State, to: State)
    requires NothingStray(c)
    ensures NothingStray(Switched(c, from, to))
  {
  }

  lemma NextIsNotStray(c: Calls, from: State, to: State, digit: Option<nat>)
    requires NothingStray(c)
    ensures NothingStray(CallsNext(c, from, to, digit))
  {
    DigitIsNotStray(c, digit);
    SwitchedIsNotStray(c, from, to);
    SwitchedIsNotStray(WithDigit(c, digit), from, to);
    DigitIsNotStray(Switched(c, from, to), digit);
  }

  /** Without stray reports no outcome but the call's own is ever reported. */
  lemma {:induction false} NoStrayDecides(run: seq<Happening>)
    requires forall i :: 0 <= i < |run| ==> !Stray(run, i)
    ensures NothingStray(CallsAfter(run))
  {
    if run != [] {
      var front, last := run[..|run| - 1], run[|run| - 1];
      forall i | 0 <= i < |front| ensures !Stray(front, i) {
        assert front[..i] == run[..i];
        assert !Stray(run, i);
      }
      NoStrayDecides(front);
      assert !Stray(run, |run| - 1);
      if last.Deliver? {
        var from := CoreAfter(front);
        NextIsNotStray(CallsAfter(front), from, Handle(from, last.event, last.accepting).next,
                       DecodedDigit(from, last.event, last.accepting));
      }
    }
  }

  lemma AfterOne(run: seq<Happening>, h: Happening)
    ensures (run + [h])[..|run + [h]| - 1] == run && (run + [h])[|run + [h]| - 1] == h
  {
  }

  /** The call in progress at a report goes on through the events that follow it. */
  predicate GoesOn(reported: seq<Happening>, middle: seq<Happening>)
    decreases |middle|
  {
    && Live(CoreAfter(reported + middle))
    && (middle != [] ==> middle[|middle| - 1].Deliver? && GoesOn(reported, middle[..|middle| - 1]))
  }

  /** None of those events has left the core recording, uploading or in error. */
  predicate NothingBears(reported: seq<Happening>, middle: seq<Happening>)
    decreases |middle|
  {
    middle != [] ==> Bearing(CoreAfter(reported + middle)).None? && NothingBears(reported, middle[..|middle| - 1])
  }

  predicate EndsAfterReport(front: seq<Happening>, reported: seq<Happening>, middle: seq<Happening>, end: Happening) {
    && Live(CoreAfter(front)) && GoesOn(reported, middle) && end.Deliver? && !Live(CoreAfter(reported + middle + [end]))
  }

  predicate FromState(phase: Phase) {
    phase == RecordingPhase || phase == UploadingPhase || phase == OperatorErrorPhase
  }

  lemma PhaseAfterReport(front: seq<Happening>, r: RecordingId, succeeded: bool)
    requires Live(CoreAfter(front))
    ensures PhaseIs(front + [UploadReport(r, succeeded)], ReportPhase(succeeded), true)
    ensures CoreAfter(front + [UploadReport(r, succeeded)]) == CoreAfter(front)
  {
    AfterOne(front, UploadReport(r, succeeded));
    SessionsFollowCalls(front);
  }

  /** An event inside a call sets its phase exactly when the state it leads to bears. */
  lemma PhaseAfterEvent(run: seq<Happening>, h: Happening)
    requires h.Deliver?
    ensures Live(CoreAfter(run)) && Live(CoreAfter(run + [h])) && CallsAfter(run).live.Some? ==>
      var to := CoreAfter(run + [h]);
      && CallsAfter(run + [h]).live.Some?
      && CallsAfter(run + [h]).live.value.phase
         == if Bearing(to).Some? then Bearing(to).value else CallsAfter(run).live.value.phase
  {
    AfterOne(run, h);
  }

  ghost predicate PhaseIs(run: seq<Happening>, told: Phase, quiet: bool) {
    var c := CallsAfter(run);
    c.live.Some? && if quiet then c.live.value.phase == told else FromState(c.live.value.phase)
  }

  lemma PhaseStep(before: seq<Happening>, h: Happening, told: Phase, wasQuiet: bool, quiet: bool)
    requires h.Deliver?
    ensures && Live(CoreAfter(before)) && Live(CoreAfter(before + [h])) && PhaseIs(before, told, wasQuiet)
            && (quiet <==> wasQuiet && Bearing(CoreAfter(before + [h])).None?)
            ==> PhaseIs(before + [h], told, quiet)
  {
    PhaseAfterEvent(before, h);
  }

  lemma {:induction false} PhaseThroughCall(reported: seq<Happening>, middle: seq<Happening>, told: Phase)
    requires GoesOn(reported, middle) && PhaseIs(reported, told, true)
    ensures PhaseIs(reported + middle, told, NothingBears(reported, middle))
    decreases |middle|
  {
    if middle == [] {
      assert reported + middle == reported;
    } else {
      var n := |middle| - 1;
      var front, h := middle[..n], middle[n];
      var before := reported + front;
      PhaseThroughCall(reported, front, told);
      assert reported + middle == before + [h];
      PhaseStep(before, h, told, NothingBears(reported, front), NothingBears(reported, middle));
    }
  }

  lemma EndTells(before: seq<Happening>, end: Happening)
    requires end.Deliver? && Live(CoreAfter(before)) && !Live(CoreAfter(before + [end])) && CallsAfter(before).live.Some?
    ensures var c, phase := CallsAfter(before + [end]), CallsAfter(before).live.value.phase;
      && c.finished != []
      && exists digits :: c.finished[|c.finished| - 1].outcome
                          == CallOutcomeOf(phase, digits, CoreAfter(before + [end]).CallsPaused?)
  {
    AfterOne(before, end);
    var from := CoreAfter(before);
    var c := WithDigit(CallsAfter(before), DecodedDigit(from, end.event, end.accepting));
    assert CallsAfter(before + [end]).finished == c.finished + [Closed(c.live.value, CoreAfter(before + [end]).CallsPaused?)];
  }

  /** However long a call goes on after the last report in it, it reports how that upload
      went if and only if no event in between left the core recording, uploading or in
      error: in particular none that left the upload awaited. */
  lemma CompletionIsTold(front: seq<Happening>, r: RecordingId, succeeded: bool, reported: seq<Happening>,
                         middle: seq<Happening>, end: Happening)
    requires reported == front + [UploadReport(r, succeeded)]
    ensures EndsAfterReport(front, reported, middle, end) ==>
      var finished := CallsAfter(reported + middle + [end]).finished;
      && finished != []
      && (finished[|finished| - 1].outcome == ReportOutcome(succeeded) <==> NothingBears(reported, middle))
  {
    if EndsAfterReport(front, reported, middle, end) {
      PhaseAfterReport(front, r, succeeded);
      PhaseThroughCall(reported, middle, ReportPhase(succeeded));
      EndTells(reported + middle, end);
    }
  }

  lemma CoreTakes(run: seq<Happening>, event: Event, from: State, to: State)
    requires CoreAfter(run) == from && Handle(from, event, true).next == to
    ensures CoreAfter(run + [Deliver(event, true)]) == to
  {
    AfterOne(run, Deliver(event, true));
  }

  lemma AnswerSteps(q: QuestionId)
    ensures Handle(Idle, HookOff, true).next == DialTone
    ensures Handle(DialTone, QuestionReady(q), true).next == RingingQuestion(q)
    ensures Handle(RingingQuestion(q), PlaybackEnded, true).next == PlayingQuestion(q)
    ensures Handle(PlayingQuestion(q), PlaybackEnded, true).next == Beep(q)
    ensures Handle(Beep(q), PlaybackEnded, true).next == Recording(q)
  {
  }

  lemma RecordedSteps(q: QuestionId, r: RecordingId)
    ensures Handle(Recording(q), HookOn, true).next == FinishingRecording(q, true)
    ensures Handle(FinishingRecording(q, true), RecordingFinished(r), true).next == Uploading(r, q, true)
  {
  }

  lemma HungUpSteps(q: QuestionId, r: RecordingId)
    ensures Handle(Uploading(r, q, true), RotaryPulse, true).next == Uploading(r, q, true)
    ensures Handle(Uploading(r, q, true), UploadFinished(r, Complete), true).next == Idle
    ensures Handle(Uploading(r, q, true), HookOn, true).next == Idle
    ensures Handle(DialTone, HookOn, true).next == Idle
  {
  }

  /** A caller answering a question. */
  lemma AnswerUnderWay(q: QuestionId) returns (run: seq<Happening>)
    ensures CoreAfter(run) == Recording(q)
  {
    AnswerSteps(q);
    run := [];
    CoreTakes(run, HookOff, Idle, DialTone);
    run := run + [Deliver(HookOff, true)];
    CoreTakes(run, QuestionReady(q), DialTone, RingingQuestion(q));
    run := run + [Deliver(QuestionReady(q), true)];
    CoreTakes(run, PlaybackEnded, RingingQuestion(q), PlayingQuestion(q));
    run := run + [Deliver(PlaybackEnded, true)];
    CoreTakes(run, PlaybackEnded, PlayingQuestion(q), Beep(q));
    run := run + [Deliver(PlaybackEnded, true)];
    CoreTakes(run, PlaybackEnded, Beep(q), Recording(q));
    run := run + [Deliver(PlaybackEnded, true)];
  }

  /** One who has hung up while recording, and whose upload is awaited. */
  lemma UploadAfterHangUp(q: QuestionId, r: RecordingId) returns (run: seq<Happening>)
    ensures CoreAfter(run) == Uploading(r, q, true)
  {
    run := AnswerUnderWay(q);
    RecordedSteps(q, r);
    CoreTakes(run, HookOn, Recording(q), FinishingRecording(q, true));
    run := run + [Deliver(HookOn, true)];
    CoreTakes(run, RecordingFinished(r), FinishingRecording(q, true), Uploading(r, q, true));
    run := run + [Deliver(RecordingFinished(r), true)];
  }

  /** A stray pulse between a completed upload's report and its delivery: the call does
      not count as completed. */
  lemma PulseHidesCompletion(q: QuestionId, r: RecordingId) returns (front: seq<Happening>)
    ensures AwaitedUpload(CoreAfter(front)) == Some(r)
    ensures var reported := front + [UploadReport(r, true)];
      var finished := CallsAfter(reported + [Deliver(RotaryPulse, true)] + [Deliver(UploadFinished(r, Complete), true)]).finished;
      finished != [] && finished[|finished| - 1].outcome != RecordingCompleted
  {
    front := UploadAfterHangUp(q, r);
    HungUpSteps(q, r);
    var reported, middle := front + [UploadReport(r, true)], [Deliver(RotaryPulse, true)];
    AfterOne(front, UploadReport(r, true));
    CoreTakes(reported, RotaryPulse, Uploading(r, q, true), Uploading(r, q, true));
    CoreTakes(reported + middle, UploadFinished(r, Complete), Uploading(r, q, true), Idle);
    assert middle[..0] == [] && reported + [] == reported;
    assert !NothingBears(reported, middle);
    CompletionIsTold(front, r, true, reported, middle, Deliver(UploadFinished(r, Complete), true));
  }

  lemma TimedOutSteps(q: QuestionId, r: RecordingId)
    ensures Handle(Recording(q), RecordingTimedOut, true).next == FinishingTimedOutRecording(q, false)
    ensures Handle(FinishingTimedOutRecording(q, false), RecordingFinished(r), true).next == UploadingTimedOut(r, q, true)
  {
  }

  lemma BeepSteps(q: QuestionId, r: RecordingId)
    ensures Handle(UploadingTimedOut(r, q, true), PlaybackEnded, true).next == UploadingTimedOut(r, q, false)
    ensures Handle(UploadingTimedOut(r, q, false), UploadFinished(r, Complete), true).next == DialTone
    ensures Handle(DialTone, HookOn, true).next == Idle
  {
  }

  /** The same happens without anything stray: the end beep of a timed-out recording is
      over between the report and its delivery, and the call goes on in the dial tone
      until the caller hangs up. */
  lemma BeepHidesCompletion(q: QuestionId, r: RecordingId) returns (front: seq<Happening>)
    ensures AwaitedUpload(CoreAfter(front)) == Some(r)
    ensures var reported := front + [UploadReport(r, true)];
      var middle := [Deliver(PlaybackEnded, true), Deliver(UploadFinished(r, Complete), true)];
      var finished := CallsAfter(reported + middle + [Deliver(HookOn, true)]).finished;
      finished != [] && finished[|finished| - 1].outcome != RecordingCompleted
  {
    var recording := AnswerUnderWay(q);
    TimedOutSteps(q, r);
    BeepSteps(q, r);
    CoreTakes(recording, RecordingTimedOut, Recording(q), FinishingTimedOutRecording(q, false));
    var stopped := recording + [Deliver(RecordingTimedOut, true)];
    CoreTakes(stopped, RecordingFinished(r), FinishingTimedOutRecording(q, false), UploadingTimedOut(r, q, true));
    front := stopped + [Deliver(RecordingFinished(r), true)];
    var reported := front + [UploadReport(r, true)];
    AfterOne(front, UploadReport(r, true));
    BeepThenDelivery(q, r, front, reported);
  }

  lemma BeepThenDelivery(q: QuestionId, r: RecordingId, front: seq<Happening>, reported: seq<Happening>)
    requires reported == front + [UploadReport(r, true)]
    requires CoreAfter(front) == CoreAfter(reported) == UploadingTimedOut(r, q, true)
    ensures var middle := [Deliver(PlaybackEnded, true), Deliver(UploadFinished(r, Complete), true)];
      var finished := CallsAfter(reported + middle + [Deliver(HookOn, true)]).finished;
      finished != [] && finished[|finished| - 1].outcome != RecordingCompleted
  {
    BeepSteps(q, r);
    var beep, done := Deliver(PlaybackEnded, true), Deliver(UploadFinished(r, Complete), true);
    var middle := [beep, done];
    CoreTakes(reported, PlaybackEnded, UploadingTimedOut(r, q, true), UploadingTimedOut(r, q, false));
    CoreTakes(reported + [beep], UploadFinished(r, Complete), UploadingTimedOut(r, q, false), DialTone);
    assert reported + [beep] + [done] == reported + middle;
    CoreTakes(reported + middle, HookOn, DialTone, Idle);
    assert middle[..1] == [beep] && [beep][..0] == [] && reported + [] == reported;
    assert GoesOn(reported, [beep]) && !NothingBears(reported, [beep]);
    CompletionIsTold(front, r, true, reported, middle, Deliver(HookOn, true));
  }

  lemma CallsTake(run: seq<Happening>, event: Event)
    ensures CallsAfter(run + [Deliver(event, true)])
         == CallsNext(CallsAfter(run), CoreAfter(run), Handle(CoreAfter(run), event, true).next,
                      DecodedDigit(CoreAfter(run), event, true))
  {
    AfterOne(run, Deliver(event, true));
  }

  /** A call in the dial tone that has done nothing yet. */
  lemma PickedUpAgain(q: QuestionId, r: RecordingId) returns (run: seq<Happening>)
    ensures CoreAfter(run) == DialTone && CallsAfter(run).finished != []
    ensures CallsAfter(run).live == Some(CallLife("", Prompt, Prompt, None))
  {
    var answered := UploadAfterHangUp(q, r);
    AnswerSteps(q);
    HungUpSteps(q, r);
    SessionsFollowCalls(answered);
    var ended := answered + [Deliver(HookOn, true)];
    CoreTakes(answered, HookOn, Uploading(r, q, true), Idle);
    CallsTake(answered, HookOn);
    HookDecodesNothing(Uploading(r, q, true), HookOn);
    run := ended + [Deliver(HookOff, true)];
    CoreTakes(ended, HookOff, Idle, DialTone);
    CallsTake(ended, HookOff);
    HookDecodesNothing(Idle, HookOff);
  }

  lemma HookDecodesNothing(state: State, event: Event)
    requires event.HookOn? || event.HookOff?
    ensures DecodedDigit(state, event, true) == None
  {
  }

  /** A second hang-up ends a call whose upload is still under way; the report then falls
      into the next call, which did nothing, and counts as completed. */
  lemma LateReportDecides(q: QuestionId, r: RecordingId) returns (run: seq<Happening>)
    ensures var c := CallsAfter(run);
      |c.finished| >= 2 && c.finished[|c.finished| - 1] == EndedCall("", RecordingCompleted, HungUpBeforeDial, Some(true))
  {
    var again := PickedUpAgain(q, r);
    HungUpSteps(q, r);
    var reported := again + [UploadReport(r, true)];
    AfterOne(again, UploadReport(r, true));
    assert CallsAfter(reported) == WithReport(CallsAfter(again), DialTone, r, true);
    run := reported + [Deliver(HookOn, true)];
    CallsTake(reported, HookOn);
    HookDecodesNothing(DialTone, HookOn);
  }
}
