/**
 Whole runs of the call state machine against the world its effects act on: the
 handset, the speaker, the recorder, the two timers, outstanding uploads and the
 status light. Events are unconstrained: any event may arrive in any state, with
 any admission decision.
 */
module CallRuns {
  import opened Wrappers
  import opened Decimal
  import opened CallCore

  /** `Tone` repeats until stopped; a `Clip` ends by itself. */
  datatype Audio = Silent | Tone | Clip

  datatype World = World(
    onHook: bool,                        // the last hook event
    audio: Audio,
    recordingTimer: bool,
    pulseTimer: bool,
    stopsPending: nat,                   // StopRecording effects not yet answered
    uploads: multiset<RecordingId>,      // UploadRecording effects not yet answered
    question: Option<QuestionId>,        // the last question the machine accepted
    starts: nat,                         // recordings started so far
    sent: nat,                           // uploads requested so far
    led: Led)

  const INITIAL_WORLD := World(true, Silent, false, false, 0, multiset{}, None, 0, 0, StatusLedFor(Idle))

  /** What an effect does to the world. */
  function Do(w: World, e: Effect): World {
    match e
    case Play(source) =>
      w.(audio := if source == Builtin(DialToneSound) || source == Builtin(LineBusy) then Tone else Clip)
    case StopAudio => w.(audio := Silent)
    case StartRecording => w.(starts := w.starts + 1)
    case ArmRecordingTimeout => w.(recordingTimer := true)
    case CancelRecordingTimeout => w.(recordingTimer := false)
    case StopRecording => w.(stopsPending := w.stopsPending + 1)
    case UploadRecording(r, _) => w.(uploads := w.uploads + multiset{r}, sent := w.sent + 1)
    case ArmPulseTimeout => w.(pulseTimer := true)
    case CancelPulseTimeout => w.(pulseTimer := false)
    case SetStatusLed(led) => w.(led := led)
    case _ => w
  }

  function DoAll(w: World, effects: seq<Effect>): World
    decreases |effects|
  {
    if effects == [] then w else DoAll(Do(w, effects[0]), effects[1..])
  }

  /** What has just happened in the world when the event is delivered. */
  function Happened(w: World, event: Event): World {
    match event
    case HookOn => w.(onHook := true)
    case HookOff => w.(onHook := false)
    case PlaybackEnded => w.(audio := if w.audio.Clip? then Silent else w.audio)
    case RecordingTimedOut => w.(recordingTimer := false)
    case Tick => w.(pulseTimer := false)
    case RecordingFinished(_) => w.(stopsPending := if w.stopsPending > 0 then w.stopsPending - 1 else 0)
    case RecordingFailed(_) => w.(stopsPending := if w.stopsPending > 0 then w.stopsPending - 1 else 0)
    case UploadFinished(r, _) => w.(uploads := w.uploads - multiset{r})
    case _ => w
  }

  /** A fetched question is accepted when it starts to ring. */
  function Accepted(w: World, event: Event, next: State): World {
    if event.QuestionReady? && next == RingingQuestion(event.questionId) then w.(question := Some(event.questionId))
    else w
  }

  // ----- the invariant

  /** States that leave when the clip now playing ends. */
  predicate AwaitsClip(state: State) {
    || state.RingingQuestion? || state.PlayingQuestion? || state.Beep? || state.RecordingEndedBeep?
    || state.PlayingMessage? || state.PlayingInstructions? || state.CallUnavailable? || BeepPending(state)
  }

  predicate AudioFits(state: State, audio: Audio) {
    if AwaitsClip(state) then audio.Clip?
    else if state.DialTone? || state.Error? then !audio.Clip?
    else audio.Silent?
  }

  predicate Finishing(state: State) {
    state.FinishingRecording? || state.FinishingTimedOutRecording?
  }

  predicate HoldsAnswer(state: State) {
    state.Recording? || Finishing(state)
  }

  function QuestionOf(state: State): Option<QuestionId> {
    match state
    case RingingQuestion(q) => Some(q)
    case PlayingQuestion(q) => Some(q)
    case Beep(q) => Some(q)
    case Recording(q) => Some(q)
    case FinishingRecording(q, _) => Some(q)
    case FinishingTimedOutRecording(q, _) => Some(q)
    case Uploading(_, q, _) => Some(q)
    case UploadingTimedOut(_, q, _) => Some(q)
    case _ => None
  }

  /** Everything but the outstanding uploads and the light. */
  predicate Consistent(state: State, w: World) {
    && HandsetDown(state) == w.onHook
    && AudioFits(state, w.audio)
    && (w.recordingTimer <==> state.Recording?)
    && (state.Dialing? ==> w.pulseTimer && 1 <= state.pulses <= MAX_PULSES_PER_DIGIT)
    && w.stopsPending == (if Finishing(state) then 1 else 0)
    && (QuestionOf(state).Some? ==> QuestionOf(state) == w.question)
    && w.sent + (if HoldsAnswer(state) then 1 else 0) <= w.starts
  }

  predicate UploadOutstanding(state: State, w: World) {
    AwaitedUpload(state).Some? ==> AwaitedUpload(state).value in w.uploads
  }

  predicate Inv(state: State, w: World) {
    Consistent(state, w) && UploadOutstanding(state, w) && w.led == StatusLedFor(state)
  }

  /** The pulse timer runs exactly while a digit is being dialled. */
  predicate PulseTimerExact(state: State, w: World) {
    w.pulseTimer <==> state.Dialing?
  }

  // ----- effect lists

  lemma DoCons(w: World, es: seq<Effect>)
    requires es != []
    ensures DoAll(w, es) == DoAll(Do(w, es[0]), es[1..])
  {
  }

  lemma Do1(w: World, a: Effect)
    ensures DoAll(w, [a]) == Do(w, a)
  {
  }

  lemma Do2(w: World, a: Effect, b: Effect)
    ensures DoAll(w, [a, b]) == Do(Do(w, a), b)
  {
    DoCons(w, [a, b]);
    assert [a, b][1..] == [b];
    Do1(Do(w, a), b);
  }

  lemma Do3(w: World, a: Effect, b: Effect, c: Effect)
    ensures DoAll(w, [a, b, c]) == Do(Do(Do(w, a), b), c)
  {
    DoCons(w, [a, b, c]);
    assert [a, b, c][1..] == [b, c];
    Do2(Do(w, a), b, c);
  }

  lemma Do4(w: World, a: Effect, b: Effect, c: Effect, d: Effect)
    ensures DoAll(w, [a, b, c, d]) == Do(Do(Do(Do(w, a), b), c), d)
  {
    DoCons(w, [a, b, c, d]);
    assert [a, b, c, d][1..] == [b, c, d];
    Do3(Do(w, a), b, c, d);
  }

  lemma Do5(w: World, a: Effect, b: Effect, c: Effect, d: Effect, e: Effect)
    ensures DoAll(w, [a, b, c, d, e]) == Do(Do(Do(Do(Do(w, a), b), c), d), e)
  {
    DoCons(w, [a, b, c, d, e]);
    assert [a, b, c, d, e][1..] == [b, c, d, e];
    Do4(Do(w, a), b, c, d, e);
  }

  lemma {:induction false} DoAllAppend(w: World, a: seq<Effect>, b: seq<Effect>)
    ensures DoAll(w, a + b) == DoAll(DoAll(w, a), b)
    decreases |a|
  {
    if a == [] {
      assert a + b == b;
    } else {
      assert (a + b)[1..] == a[1..] + b;
      DoAllAppend(Do(w, a[0]), a[1..], b);
    }
  }

  // ----- one step of the inner machine

  /** The world after the effects of a step, unrolled to at most five effects. */
  function After(w: World, es: seq<Effect>): World
    requires |es| <= 5
  {
    if |es| == 0 then w
    else if |es| == 1 then Do(w, es[0])
    else if |es| == 2 then Do(Do(w, es[0]), es[1])
    else if |es| == 3 then Do(Do(Do(w, es[0]), es[1]), es[2])
    else if |es| == 4 then Do(Do(Do(Do(w, es[0]), es[1]), es[2]), es[3])
    else Do(Do(Do(Do(Do(w, es[0]), es[1]), es[2]), es[3]), es[4])
  }

  lemma AfterIsDoAll(w: World, es: seq<Effect>)
    requires |es| <= 5
    ensures After(w, es) == DoAll(w, es)
  {
    if |es| == 1 {
      assert es == [es[0]];
      Do1(w, es[0]);
    } else if |es| == 2 {
      assert es == [es[0], es[1]];
      Do2(w, es[0], es[1]);
    } else if |es| == 3 {
      assert es == [es[0], es[1], es[2]];
      Do3(w, es[0], es[1], es[2]);
    } else if |es| == 4 {
      assert es == [es[0], es[1], es[2], es[3]];
      Do4(w, es[0], es[1], es[2], es[3]);
    } else if |es| == 5 {
      assert es == [es[0], es[1], es[2], es[3], es[4]];
      Do5(w, es[0], es[1], es[2], es[3], es[4]);
    }
  }

  /** The claim for one inner step. */
  predicate GoodStep(state: State, event: Event, w: World) {
    var step := HandleInner(state, event);
    && |step.effects| <= 5
    && var w' := Accepted(After(Happened(w, event), step.effects), event, step.next);
       Consistent(step.next, w') && w'.led == w.led
  }

  lemma HangUpStep(state: State, w: World)
    requires Consistent(state, w) && !HoldsAnswer(state)
    ensures GoodStep(state, HookOn, w)
  {
    assert HandleInner(state, HookOn)
        == Step(Idle, [StopAudio, CancelPulseTimeout, CancelRecordingTimeout, PutStatus(StatusIdle)]);
    assert After(Happened(w, HookOn), HandleInner(state, HookOn).effects)
        == w.(onHook := true, audio := Silent, pulseTimer := false, recordingTimer := false);
  }

  lemma HangUpAnswerStep(state: State, w: World)
    requires Consistent(state, w) && HoldsAnswer(state)
    ensures GoodStep(state, HookOn, w)
  {
    if state.Recording? {
      assert After(Happened(w, HookOn), HandleInner(state, HookOn).effects)
          == w.(onHook := true, audio := Silent, pulseTimer := false, recordingTimer := false, stopsPending := 1);
    } else {
      assert After(Happened(w, HookOn), HandleInner(state, HookOn).effects)
          == w.(onHook := true, audio := Silent, pulseTimer := false);
    }
  }

  lemma HookOnStep(state: State, w: World)
    requires Consistent(state, w)
    ensures GoodStep(state, HookOn, w)
  {
    if HoldsAnswer(state) {
      HangUpAnswerStep(state, w);
    } else {
      HangUpStep(state, w);
    }
  }

  lemma HookOffStep(state: State, w: World)
    requires Consistent(state, w) && !state.CallsPaused?
    ensures GoodStep(state, HookOff, w)
  {
  }

  lemma PulseStep(state: State, w: World)
    requires Consistent(state, w)
    ensures GoodStep(state, RotaryPulse, w)
  {
    if state.DialTone? {
      assert After(w, HandleInner(state, RotaryPulse).effects) == w.(audio := Silent, pulseTimer := true);
    } else if state.Dialing? {
      if state.pulses < MAX_PULSES_PER_DIGIT {
        assert After(w, HandleInner(state, RotaryPulse).effects) == w.(pulseTimer := true);
      } else {
        assert After(w, HandleInner(state, RotaryPulse).effects) == w.(audio := Tone, pulseTimer := false);
      }
    } else {
      StayingStep(state, RotaryPulse, w);
    }
  }

  /** An event the state ignores, and which changes nothing that matters to it. */
  lemma StayingStep(state: State, event: Event, w: World)
    requires Consistent(state, w) && Consistent(state, Happened(w, event))
    requires HandleInner(state, event) == Step(state, [])
    requires !event.QuestionReady? && Happened(w, event).led == w.led
    ensures GoodStep(state, event, w)
  {
  }

  lemma DecodeStep(digit: nat, w: World)
    requires Consistent(DialTone, w)
    ensures |DecodeDigit(digit).effects| <= 5
    ensures Consistent(DecodeDigit(digit).next, After(w, DecodeDigit(digit).effects))
    ensures After(w, DecodeDigit(digit).effects).led == w.led
  {
    if digit > 9 {
      assert After(w, DecodeDigit(digit).effects) == w.(audio := Tone);
    } else if digit <= 2 {
      QuietDigitStep(digit, w);
    } else {
      UnavailableDigitStep(digit, w);
    }
  }

  lemma UnavailableDigitStep(digit: nat, w: World)
    requires Consistent(DialTone, w) && 2 < digit <= 9
    ensures DecodeDigit(digit).next == CallUnavailable && |DecodeDigit(digit).effects| == 4
    ensures After(w, DecodeDigit(digit).effects) == w.(pulseTimer := false, audio := Clip)
  {
  }

  lemma QuietDigitStep(digit: nat, w: World)
    requires Consistent(DialTone, w) && digit <= 2
    ensures DecodeDigit(digit).next == DialTone && |DecodeDigit(digit).effects| == 3
    ensures After(w, DecodeDigit(digit).effects) == w.(pulseTimer := false)
  {
  }

  lemma TickStep(state: State, w: World)
    requires Consistent(state, w)
    ensures GoodStep(state, Tick, w)
  {
    if state.Dialing? {
      DecodeStep(if state.pulses == 10 then 0 else state.pulses, Happened(w, Tick));
    }
  }

  lemma DigitStep(state: State, digit: nat, w: World)
    requires Consistent(state, w)
    ensures GoodStep(state, DigitDialed(digit), w)
  {
    if state.DialTone? || state.Dialing? {
      DecodeStep(digit, w);
    }
  }

  lemma QuestionPlaybackStep(state: State, w: World)
    requires Consistent(state, w) && (state.RingingQuestion? || state.PlayingQuestion? || state.Beep?)
    ensures GoodStep(state, PlaybackEnded, w)
  {
    if state.Beep? {
      assert After(Happened(w, PlaybackEnded), HandleInner(state, PlaybackEnded).effects)
          == w.(audio := Silent, recordingTimer := true, starts := w.starts + 1);
    } else {
      assert After(Happened(w, PlaybackEnded), HandleInner(state, PlaybackEnded).effects) == w;
    }
  }

  lemma PromptPlaybackStep(state: State, w: World)
    requires Consistent(state, w)
    requires state.RecordingEndedBeep? || state.PlayingMessage? || state.PlayingInstructions? || state.CallUnavailable?
    ensures GoodStep(state, PlaybackEnded, w)
  {
    assert HandleInner(state, PlaybackEnded) == ToDialTone();
  }

  lemma PlaybackStep(state: State, w: World)
    requires Consistent(state, w)
    ensures GoodStep(state, PlaybackEnded, w)
  {
    if state.RingingQuestion? || state.PlayingQuestion? || state.Beep? {
      QuestionPlaybackStep(state, w);
    } else if state.RecordingEndedBeep? || state.PlayingMessage? || state.PlayingInstructions? || state.CallUnavailable? {
      PromptPlaybackStep(state, w);
    } else if state.UploadingTimedOut? {
    } else {
      StayingStep(state, PlaybackEnded, w);
    }
  }

  lemma TimeoutStep(state: State, w: World)
    requires Consistent(state, w)
    ensures GoodStep(state, RecordingTimedOut, w)
  {
  }

  lemma FinishedRecordingStep(q: QuestionId, r: RecordingId, w: World)
    requires Consistent(Recording(q), w)
    ensures GoodStep(Recording(q), RecordingFinished(r), w)
  {
  }

  lemma FinishedTimedOutStep(q: QuestionId, onHook: bool, r: RecordingId, w: World)
    requires Consistent(FinishingTimedOutRecording(q, onHook), w)
    ensures GoodStep(FinishingTimedOutRecording(q, onHook), RecordingFinished(r), w)
  {
  }

  lemma FinishedHungUpStep(q: QuestionId, onHook: bool, r: RecordingId, w: World)
    requires Consistent(FinishingRecording(q, onHook), w)
    ensures GoodStep(FinishingRecording(q, onHook), RecordingFinished(r), w)
  {
  }

  lemma FinishedStep(state: State, r: RecordingId, w: World)
    requires Consistent(state, w)
    ensures GoodStep(state, RecordingFinished(r), w)
  {
    match state {
      case Recording(q) => FinishedRecordingStep(q, r, w);
      case FinishingTimedOutRecording(q, onHook) => FinishedTimedOutStep(q, onHook, r, w);
      case FinishingRecording(q, onHook) => FinishedHungUpStep(q, onHook, r, w);
      case _ =>
    }
  }

  lemma FailedRecordingStep(q: QuestionId, reason: string, w: World)
    requires Consistent(Recording(q), w)
    ensures GoodStep(Recording(q), RecordingFailed(reason), w)
  {
  }

  lemma FailedFinishingStep(state: State, reason: string, w: World)
    requires Consistent(state, w) && Finishing(state)
    ensures GoodStep(state, RecordingFailed(reason), w)
  {
    var es := HandleInner(state, RecordingFailed(reason)).effects;
    if state.onHook {
      assert After(Happened(w, RecordingFailed(reason)), es) == w.(audio := Silent, stopsPending := 0);
    } else {
      assert After(Happened(w, RecordingFailed(reason)), es) == w.(audio := Tone, stopsPending := 0);
    }
  }

  lemma FailedStep(state: State, reason: string, w: World)
    requires Consistent(state, w)
    ensures GoodStep(state, RecordingFailed(reason), w)
  {
    if state.Recording? {
      FailedRecordingStep(state.questionId, reason, w);
    } else if Finishing(state) {
      FailedFinishingStep(state, reason, w);
    }
  }

  lemma UploadDoneStep(state: State, event: Event, w: World)
    requires Consistent(state, w) && (event.UploadComplete? || event.UploadDeferred?)
    ensures GoodStep(state, event, w)
  {
    if state.Uploading? {
      assert After(w, HandleInner(state, event).effects) == if state.onHook then w else w.(audio := Tone);
    } else if state.UploadingTimedOut? {
      assert After(w, HandleInner(state, event).effects) == if state.beepPending then w else w.(audio := Tone);
    } else {
      StayingStep(state, event, w);
    }
  }

  lemma UploadFailedStep(state: State, reason: string, w: World)
    requires Consistent(state, w)
    ensures GoodStep(state, UploadFailed(reason), w)
  {
    var es := HandleInner(state, UploadFailed(reason)).effects;
    if state.Uploading? {
      assert After(w, es) == if state.onHook then w else w.(audio := Tone);
    } else if state.UploadingTimedOut? {
      assert After(w, es) == w.(audio := Tone);
    } else {
      StayingStep(state, UploadFailed(reason), w);
    }
  }

  lemma FetchFailedStep(event: Event, w: World)
    requires Consistent(DialTone, w)
    requires event.QuestionFailed? || event.MessageFailed? || event.InstructionsFailed?
    ensures GoodStep(DialTone, event, w)
  {
    assert After(Happened(w, event), HandleInner(DialTone, event).effects) == w.(audio := Tone);
  }

  lemma FetchReadyStep(event: Event, w: World)
    requires Consistent(DialTone, w)
    requires event.QuestionReady? || event.MessageReady? || event.InstructionsReady?
    ensures GoodStep(DialTone, event, w)
  {
    assert After(Happened(w, event), HandleInner(DialTone, event).effects) == w.(audio := Clip);
  }

  predicate FetchResult(event: Event) {
    || event.QuestionReady? || event.QuestionFailed? || event.MessageReady? || event.MessageFailed?
    || event.InstructionsReady? || event.InstructionsFailed?
  }

  lemma FetchStep(state: State, event: Event, w: World)
    requires Consistent(state, w) && FetchResult(event)
    ensures GoodStep(state, event, w)
  {
    if !state.DialTone? {
      assert HandleInner(state, event) == Step(state, []);
      assert Consistent(state, Accepted(w, event, state));
    } else if event.QuestionReady? || event.MessageReady? || event.InstructionsReady? {
      FetchReadyStep(event, w);
    } else {
      FetchFailedStep(event, w);
    }
  }

  lemma InnerGoodStep(state: State, event: Event, w: World)
    requires Consistent(state, w)
    requires !event.UploadFinished? && (event.HookOff? ==> !state.CallsPaused?)
    ensures GoodStep(state, event, w)
  {
    match event {
      case HookOn => HookOnStep(state, w);
      case HookOff => HookOffStep(state, w);
      case RotaryPulse => PulseStep(state, w);
      case Tick => TickStep(state, w);
      case DigitDialed(digit) => DigitStep(state, digit, w);
      case PlaybackEnded => PlaybackStep(state, w);
      case RecordingTimedOut => TimeoutStep(state, w);
      case RecordingFinished(r) => FinishedStep(state, r, w);
      case RecordingFailed(reason) => FailedStep(state, reason, w);
      case UploadComplete => UploadDoneStep(state, event, w);
      case UploadDeferred => UploadDoneStep(state, event, w);
      case UploadFailed(reason) => UploadFailedStep(state, reason, w);
      case PowerButtonPressed =>
      case PowerButtonHeld =>
      case _ => FetchStep(state, event, w);
    }
  }

  /** Every event, in every state, keeps the invariant of the inner machine. */
  lemma InnerStep(state: State, event: Event, w: World)
    requires Consistent(state, w)
    requires !event.UploadFinished? && (event.HookOff? ==> !state.CallsPaused?)
    ensures var step := HandleInner(state, event);
            var w' := Accepted(DoAll(Happened(w, event), step.effects), event, step.next);
            Consistent(step.next, w') && w'.led == w.led
  {
    InnerGoodStep(state, event, w);
    AfterIsDoAll(Happened(w, event), HandleInner(state, event).effects);
  }

  /** The inner machine on its own keeps the invariant on exactly all inputs but one: it
      does not hear a pickup while calls are paused. The wrapper never asks it to. */
  lemma InnerStepExactly(state: State, event: Event, w: World)
    requires Consistent(state, w)
    ensures var step := HandleInner(state, event);
            var w' := Accepted(DoAll(Happened(w, event), step.effects), event, step.next);
            (Consistent(step.next, w') && w'.led == w.led) <==> !(event.HookOff? && state == CallsPaused(true))
  {
    if event.UploadFinished? || (event.HookOff? && state.CallsPaused?) {
      assert HandleInner(state, event) == Step(state, []);
    } else {
      InnerStep(state, event, w);
    }
  }

  // ----- outstanding uploads

  predicate UploadResult(event: Event) {
    event.UploadComplete? || event.UploadDeferred? || event.UploadFailed?
  }

  lemma {:induction false} UploadsGrow(w: World, es: seq<Effect>)
    ensures w.uploads <= DoAll(w, es).uploads
    ensures forall r, q :: UploadRecording(r, q) in es ==> r in DoAll(w, es).uploads
    decreases |es|
  {
    if es != [] {
      UploadsGrow(Do(w, es[0]), es[1..]);
      forall r, q | UploadRecording(r, q) in es
        ensures r in DoAll(w, es).uploads
      {
        if es[0] == UploadRecording(r, q) {
          assert r in Do(w, es[0]).uploads;
        } else {
          assert UploadRecording(r, q) in es[1..];
        }
      }
    }
  }

  /** A state starts awaiting an upload only by requesting it, and stops awaiting
      it on any result. */
  ghost predicate Awaits(state: State, event: Event, step: Step) {
    AwaitedUpload(step.next).Some? ==>
      || (AwaitedUpload(step.next) == AwaitedUpload(state) && !UploadResult(event))
      || exists q :: UploadRecording(AwaitedUpload(step.next).value, q) in step.effects
  }

  lemma FinishedAwaits(state: State, r: RecordingId)
    requires HoldsAnswer(state)
    ensures Awaits(state, RecordingFinished(r), HandleRecordingFinished(state, r))
  {
    assert UploadRecording(r, state.questionId) in HandleRecordingFinished(state, r).effects;
  }

  lemma OthersAwaitNothingNew(state: State, event: Event)
    requires !(event.RecordingFinished? && HoldsAnswer(state))
    ensures var next := HandleInner(state, event).next;
            AwaitedUpload(next).Some? ==> AwaitedUpload(next) == AwaitedUpload(state) && !UploadResult(event)
  {
  }

  lemma InnerAwaits(state: State, event: Event)
    ensures Awaits(state, event, HandleInner(state, event))
  {
    if event.RecordingFinished? && HoldsAnswer(state) {
      FinishedAwaits(state, event.recordingId);
    } else {
      OthersAwaitNothingNew(state, event);
    }
  }

  lemma {:induction false} MutedKeepsOthers(es: seq<Effect>)
    ensures forall e :: e in es && !e.Play? && !e.PutStatus? ==> e in Muted(es)
    ensures forall e :: e in Muted(es) ==> e in es && !e.Play? && !e.PutStatus?
    decreases |es|
  {
    if es != [] {
      MutedKeepsOthers(es[1..]);
    }
  }

  lemma SilencedAwaits(state: State, event: Event, inner: Step, onHook: bool)
    requires Awaits(SuppressBeep(state), event, inner)
    ensures Awaits(state, event, Silenced(state, inner, onHook))
  {
    var step := Silenced(state, inner, onHook);
    MutedKeepsOthers(inner.effects);
    if AwaitedUpload(step.next).Some? {
      var r := AwaitedUpload(step.next).value;
      if q :| UploadRecording(r, q) in inner.effects {
        assert UploadRecording(r, q) in Muted(inner.effects);
        assert UploadRecording(r, q) in step.effects;
      }
    }
  }

  lemma ResumeAwaits(state: State, event: Event, onHook: bool)
    ensures AwaitedUpload(Resume(state, event, onHook).next) == None
  {
  }

  lemma AdmittedAwaits(state: State, event: Event, accepting: bool)
    requires !event.UploadFinished?
    ensures Awaits(state, event, HandleAdmitted(state, event, accepting))
  {
    InnerAwaits(state, event);
    ResumeAwaits(state, event, OnHookAfter(state, event));
    InnerAwaits(SuppressBeep(state), event);
    SilencedAwaits(state, event, HandleInner(SuppressBeep(state), event), OnHookAfter(state, event));
  }

  // ----- pausing only mutes

  predicate SameButAudio(a: World, b: World) {
    a == b.(audio := a.audio)
  }

  lemma DoSameButAudio(a: World, b: World, e: Effect)
    requires SameButAudio(a, b)
    ensures SameButAudio(Do(a, e), Do(b, e))
    ensures e.Play? || e.PutStatus? ==> SameButAudio(Do(a, e), b)
    ensures !e.Play? && b.audio.Silent? ==> Do(b, e).audio.Silent?
  {
  }

  /** Muting a list of effects changes what is heard and nothing else. */
  lemma {:induction false} MutedDiffersInAudio(a: World, b: World, es: seq<Effect>)
    requires SameButAudio(a, b) && b.audio.Silent?
    ensures SameButAudio(DoAll(a, es), DoAll(b, Muted(es)))
    ensures DoAll(b, Muted(es)).audio.Silent?
    decreases |es|
  {
    if es != [] {
      DoSameButAudio(a, b, es[0]);
      if es[0].PutStatus? || es[0].Play? {
        MutedDiffersInAudio(Do(a, es[0]), b, es[1..]);
      } else {
        MutedDiffersInAudio(Do(a, es[0]), Do(b, es[0]), es[1..]);
        assert Muted(es)[1..] == Muted(es[1..]);
      }
    }
  }

  /** The claim for one admitted step, the uploads apart. */
  predicate GoodAdmitted(event: Event, w: World, step: Step) {
    var w' := Accepted(DoAll(Happened(w, event), step.effects), event, step.next);
    Consistent(step.next, w') && w'.led == w.led
  }

  lemma SilencedIsConsistent(state: State, w: World)
    requires Consistent(state, w) && Protected(state)
    ensures Consistent(SuppressBeep(state), w.(audio := Silent))
    ensures !BeepPending(state) ==> w.audio.Silent?
  {
  }

  lemma StopFirst(now: World, effects: seq<Effect>)
    ensures DoAll(now, [StopAudio] + effects) == DoAll(now.(audio := Silent), effects)
  {
    DoCons(now, [StopAudio] + effects);
    assert ([StopAudio] + effects)[1..] == effects;
  }

  lemma StopsFirst(now: World, effects: seq<Effect>, stops: bool)
    requires stops || now.audio.Silent?
    ensures DoAll(now, if stops then [StopAudio] + effects else effects) == DoAll(now.(audio := Silent), effects)
  {
    if stops {
      StopFirst(now, effects);
    } else {
      assert now == now.(audio := Silent);
    }
  }

  lemma StopLast(now: World, effects: seq<Effect>)
    requires DoAll(now, effects).audio.Silent?
    ensures DoAll(now, effects + [StopAudio, CancelPulseTimeout]) == DoAll(now, effects).(pulseTimer := false)
  {
    DoAllAppend(now, effects, [StopAudio, CancelPulseTimeout]);
    Do2(DoAll(now, effects), StopAudio, CancelPulseTimeout);
  }

  lemma SilencedEffects(state: State, inner: Step, onHook: bool, now: World, base: World)
    requires base == now.(audio := Silent) && (BeepPending(state) || now.audio.Silent?)
    requires DoAll(base, Muted(inner.effects)).audio.Silent?
    ensures var out := DoAll(base, Muted(inner.effects));
            DoAll(now, Silenced(state, inner, onHook).effects)
            == if Protected(inner.next) then out else out.(pulseTimer := false)
  {
    var muted := Muted(inner.effects);
    var stops := BeepPending(state) || BeepPending(inner.next);
    var effects := if stops then [StopAudio] + muted else muted;
    StopsFirst(now, muted, stops);
    StopLast(now, effects);
    assert Silenced(state, inner, onHook).effects
        == if Protected(inner.next) then effects else effects + [StopAudio, CancelPulseTimeout];
  }

  lemma SilencedStep(state: State, inner: Step, event: Event, onHook: bool, now: World, base: World)
    requires Protected(state) && base == now.(audio := Silent) && (BeepPending(state) || now.audio.Silent?)
    requires Consistent(inner.next, DoAll(base, inner.effects)) && DoAll(base, inner.effects).led == now.led
    requires now.onHook == onHook && !inner.next.RingingQuestion?
    ensures var step := Silenced(state, inner, onHook);
            var w' := DoAll(now, step.effects);
            Consistent(step.next, w') && w'.led == now.led && !step.next.RingingQuestion?
  {
    var heard, out := DoAll(base, inner.effects), DoAll(base, Muted(inner.effects));
    MutedDiffersInAudio(base, base, inner.effects);
    SilencedEffects(state, inner, onHook, now, base);
    if Protected(inner.next) {
      SilencedFits(inner.next, heard, out);
    } else {
      HookUnchanged(base, Muted(inner.effects));
      PausedFits(inner.next, onHook, heard, out);
    }
  }

  lemma {:induction false} HookUnchanged(w: World, es: seq<Effect>)
    ensures DoAll(w, es).onHook == w.onHook
    decreases |es|
  {
    if es != [] {
      HookUnchanged(Do(w, es[0]), es[1..]);
    }
  }

  lemma QuietlyHappened(state: State, event: Event, w: World)
    requires BeepPending(state) || w.audio.Silent?
    ensures Happened(w.(audio := Silent), event) == Happened(w, event).(audio := Silent)
    ensures BeepPending(state) || Happened(w, event).audio.Silent?
    ensures Happened(w, event).led == w.led
  {
  }

  lemma PausedProtectedStep(state: State, event: Event, w: World)
    requires Consistent(state, w) && Protected(state) && !event.UploadFinished?
    ensures GoodAdmitted(event, w, HandlePaused(state, event, OnHookAfter(state, event)))
  {
    SilencedIsConsistent(state, w);
    NoQuestionWhileProtected(SuppressBeep(state), event);
    InnerStep(SuppressBeep(state), event, w.(audio := Silent));
    SilencedFrom(state, event, w, HandleInner(SuppressBeep(state), event));
  }

  lemma SilencedFrom(state: State, event: Event, w: World, inner: Step)
    requires Consistent(state, w) && Protected(state) && !event.UploadFinished?
    requires !inner.next.RingingQuestion? && GoodAdmitted(event, w.(audio := Silent), inner)
    ensures GoodAdmitted(event, w, Silenced(state, inner, OnHookAfter(state, event)))
  {
    SilencedIsConsistent(state, w);
    QuietlyHappened(state, event, w);
    HandsetIsTracked(state, event, w);
    SilencedStep(state, inner, event, OnHookAfter(state, event), Happened(w, event), Happened(w.(audio := Silent), event));
  }

  lemma HandsetIsTracked(state: State, event: Event, w: World)
    requires HandsetDown(state) == w.onHook
    ensures Happened(w, event).onHook == OnHookAfter(state, event)
  {
  }

  lemma NoQuestionWhileProtected(state: State, event: Event)
    requires Protected(state)
    ensures !HandleInner(state, event).next.RingingQuestion?
  {
  }

  lemma SilencedFits(next: State, heard: World, silent: World)
    requires Consistent(next, heard) && SameButAudio(heard, silent) && silent.audio.Silent? && Protected(next)
    ensures Consistent(SuppressBeep(next), silent)
  {
  }

  lemma PausedFits(next: State, onHook: bool, heard: World, silent: World)
    requires Consistent(next, heard) && SameButAudio(heard, silent) && silent.audio.Silent? && !Protected(next)
    requires silent.onHook == onHook
    ensures Consistent(CallsPaused(onHook), silent.(pulseTimer := false))
  {
  }

  lemma PausedOpenStep(state: State, event: Event, w: World)
    requires Consistent(state, w) && !Protected(state) && !event.UploadFinished?
    ensures GoodAdmitted(event, w, HandlePaused(state, event, OnHookAfter(state, event)))
  {
    Do2(Happened(w, event), StopAudio, CancelPulseTimeout);
  }

  lemma ResumedStep(w: World)
    requires Consistent(CallsPaused(w.onHook), w)
    ensures Consistent(Idle, w.(onHook := true))
    ensures w.onHook ==> Consistent(Idle, DoAll(w, [PutStatus(StatusIdle)])) && DoAll(w, [PutStatus(StatusIdle)]) == w
    ensures var step := HandleInner(Idle, HookOff);
            !w.onHook ==> Consistent(step.next, DoAll(w, step.effects)) && DoAll(w, step.effects).led == w.led
  {
    Do1(w, PutStatus(StatusIdle));
    InnerStep(Idle, HookOff, w.(onHook := true));
  }

  lemma ResumeStep(state: State, event: Event, w: World)
    requires Consistent(state, w) && state.CallsPaused? && !event.UploadFinished?
    ensures GoodAdmitted(event, w, Resume(state, event, OnHookAfter(state, event)))
  {
    var onHook := OnHookAfter(state, event);
    var w1 := Happened(w, event);
    assert Consistent(CallsPaused(w1.onHook), w1);
    ResumedStep(w1);
    var resumed := if onHook then Step(Idle, [PutStatus(StatusIdle)]) else HandleInner(Idle, HookOff);
    var w2 := DoAll(w1, resumed.effects);
    assert Consistent(resumed.next, w2) && w2.led == w.led;
    if event.RotaryPulse? || event.DigitDialed? {
      InnerStep(resumed.next, event, w2);
      DoAllAppend(w1, resumed.effects, HandleInner(resumed.next, event).effects);
    }
  }

  lemma PausedStep(state: State, event: Event, w: World)
    requires Consistent(state, w) && !event.UploadFinished?
    ensures GoodAdmitted(event, w, HandlePaused(state, event, OnHookAfter(state, event)))
  {
    if Protected(state) {
      PausedProtectedStep(state, event, w);
    } else {
      PausedOpenStep(state, event, w);
    }
  }

  lemma AdmittedInnerStep(state: State, event: Event, accepting: bool, w: World)
    requires Consistent(state, w) && !event.UploadFinished?
    requires event.PowerButtonPressed? || event.PowerButtonHeld? || (accepting && !state.CallsPaused?)
    ensures HandleAdmitted(state, event, accepting) == HandleInner(state, event)
    ensures GoodAdmitted(event, w, HandleAdmitted(state, event, accepting))
  {
    InnerStep(state, event, w);
  }

  lemma AdmittedWorld(state: State, event: Event, accepting: bool, w: World)
    requires Consistent(state, w) && !event.UploadFinished?
    ensures GoodAdmitted(event, w, HandleAdmitted(state, event, accepting))
  {
    if event.PowerButtonPressed? || event.PowerButtonHeld? || (accepting && !state.CallsPaused?) {
      AdmittedInnerStep(state, event, accepting, w);
    } else if accepting {
      ResumeStep(state, event, w);
    } else {
      PausedStep(state, event, w);
    }
  }

  lemma AwaitedIsOutstanding(state: State, event: Event, step: Step, w: World)
    requires Awaits(state, event, step)
    requires UploadOutstanding(state, w) || UploadResult(event)
    ensures UploadOutstanding(step.next, DoAll(w, step.effects))
  {
    UploadsGrow(w, step.effects);
  }

  /** The claim for one step, uploads included. */
  predicate GoodWholeStep(event: Event, w: World, step: Step) {
    GoodAdmitted(event, w, step) && UploadOutstanding(step.next, DoAll(Happened(w, event), step.effects))
  }

  lemma AdmittedStep(state: State, event: Event, accepting: bool, w: World)
    requires Consistent(state, w) && !event.UploadFinished?
    requires UploadOutstanding(state, w) || UploadResult(event)
    ensures GoodWholeStep(event, w, HandleAdmitted(state, event, accepting))
  {
    AdmittedWorld(state, event, accepting, w);
    AdmittedAwaits(state, event, accepting);
    AwaitedIsOutstanding(state, event, HandleAdmitted(state, event, accepting), Happened(w, event));
  }

  // ----- one step of the whole machine

  function Advance(state: State, w: World, event: Event, accepting: bool): World {
    var step := Handle(state, event, accepting);
    Accepted(DoAll(Happened(w, event), step.effects), event, step.next)
  }

  /** The answer to an upload, delivered as its bare outcome. */
  lemma AnsweredStep(state: State, event: Event, accepting: bool, w: World)
    requires Consistent(state, w) && event.UploadFinished? && AwaitedUpload(state) == Some(event.recordingId)
    ensures GoodWholeStep(event, w, HandleAdmitted(state, Outcome(event), accepting))
  {
    var w1 := Happened(w, event);
    assert Consistent(state, w1) && Happened(w1, Outcome(event)) == w1;
    AdmittedStep(state, Outcome(event), accepting, w1);
  }

  lemma AvailableStep(state: State, event: Event, accepting: bool, w: World)
    requires Consistent(state, w) && UploadOutstanding(state, w)
    ensures GoodWholeStep(event, w, HandleAvailable(state, event, accepting))
  {
    if !event.UploadFinished? {
      AdmittedStep(state, event, accepting, w);
    } else if AwaitedUpload(state) == Some(event.recordingId) {
      AnsweredStep(state, event, accepting, w);
    } else {
      assert Consistent(state, Happened(w, event));
    }
  }

  lemma LightIsApart(event: Event, w: World, led: Led)
    ensures Do(Happened(w, event), SetStatusLed(led)) == Happened(w.(led := led), event)
  {
  }

  lemma LedFirst(event: Event, w: World, led: Led, effects: seq<Effect>)
    ensures DoAll(Happened(w, event), [SetStatusLed(led)] + effects)
         == DoAll(Happened(w.(led := led), event), effects)
  {
    DoCons(Happened(w, event), [SetStatusLed(led)] + effects);
    LightIsApart(event, w, led);
    assert ([SetStatusLed(led)] + effects)[1..] == effects;
  }

  /** Every event, in every state and under every admission decision, keeps the
      whole invariant; the light is the first effect when it changes at all. */
  lemma StepKeepsInvariant(state: State, event: Event, accepting: bool, w: World)
    requires Inv(state, w)
    ensures Inv(Handle(state, event, accepting).next, Advance(state, w, event, accepting))
  {
    var step := HandleAvailable(state, event, accepting);
    var led := StatusLedFor(step.next);
    AvailableStep(state, event, accepting, w.(led := led));
    if led != StatusLedFor(state) {
      LedFirst(event, w, led, step.effects);
    } else {
      assert w == w.(led := led);
    }
  }

  // ----- whole runs

  datatype Input = Input(event: Event, accepting: bool)

  function RunState(inputs: seq<Input>): State {
    if inputs == [] then Idle
    else
      var last := inputs[|inputs| - 1];
      Handle(RunState(inputs[..|inputs| - 1]), last.event, last.accepting).next
  }

  function RunWorld(inputs: seq<Input>): World {
    if inputs == [] then INITIAL_WORLD
    else
      var front, last := inputs[..|inputs| - 1], inputs[|inputs| - 1];
      Advance(RunState(front), RunWorld(front), last.event, last.accepting)
  }

  lemma {:induction false} RunKeepsInvariant(inputs: seq<Input>)
    ensures Inv(RunState(inputs), RunWorld(inputs))
  {
    if inputs != [] {
      var front, last := inputs[..|inputs| - 1], inputs[|inputs| - 1];
      RunKeepsInvariant(front);
      StepKeepsInvariant(RunState(front), last.event, last.accepting, RunWorld(front));
    }
  }

  /** No reachable state waits for something that is not coming. */
  lemma NothingWaitsInVain(inputs: seq<Input>)
    ensures var state, w := RunState(inputs), RunWorld(inputs);
            && (AwaitsClip(state) ==> w.audio.Clip?)
            && (Finishing(state) <==> w.stopsPending == 1) && w.stopsPending <= 1
            && (AwaitedUpload(state).Some? ==> AwaitedUpload(state).value in w.uploads)
            && (state.Recording? <==> w.recordingTimer)
            && (state.Dialing? ==> w.pulseTimer)
  {
    RunKeepsInvariant(inputs);
  }

  /** The state's handset position is the last hook event, and a handset on its
      cradle is silent. */
  lemma HandsetIsTruthful(inputs: seq<Input>)
    ensures HandsetDown(RunState(inputs)) == RunWorld(inputs).onHook
    ensures RunWorld(inputs).onHook ==> RunWorld(inputs).audio.Silent?
    ensures RunState(inputs).CallsPaused? ==> RunWorld(inputs).audio.Silent?
  {
    RunKeepsInvariant(inputs);
  }

  /** The light always shows the state, and uploads never outnumber recordings. */
  lemma LightAndCounts(inputs: seq<Input>)
    ensures RunWorld(inputs).led == StatusLedFor(RunState(inputs))
    ensures RunWorld(inputs).sent <= RunWorld(inputs).starts
    ensures HoldsAnswer(RunState(inputs)) ==> RunWorld(inputs).sent < RunWorld(inputs).starts
  {
    RunKeepsInvariant(inputs);
  }

  // ----- the pulse timer

  /** The one way to leave the pulse timer running outside `Dialing`: an injected
      digit above nine while a digit is being dialled. */
  predicate LeavesTimerRunning(state: State, event: Event, accepting: bool) {
    accepting && state.Dialing? && event.DigitDialed? && event.digit > 9
  }

  lemma {:induction false} TimerStaysOff(w: World, es: seq<Effect>)
    requires ArmPulseTimeout !in es
    ensures !w.pulseTimer || CancelPulseTimeout in es ==> !DoAll(w, es).pulseTimer
    ensures w.pulseTimer && CancelPulseTimeout !in es ==> DoAll(w, es).pulseTimer
    decreases |es|
  {
    if es != [] {
      TimerStaysOff(Do(w, es[0]), es[1..]);
    }
  }

  /** A step arms the pulse timer only into `Dialing`, and plays only into a
      state with the handset off its cradle. */
  predicate Audible(step: Step) {
    && (ArmPulseTimeout in step.effects ==> step.next.Dialing?)
    && (step.next.Dialing? || !HandsetDown(step.next) || forall e :: e in step.effects ==> !e.Play?)
  }

  lemma HookAudible(state: State, event: Event)
    requires event.HookOn? || event.HookOff?
    ensures Audible(HandleInner(state, event))
  {
  }

  lemma DecodeAudible(digit: nat)
    ensures Audible(DecodeDigit(digit))
  {
  }

  lemma PulseAudible(state: State)
    ensures Audible(HandlePulse(state))
  {
  }

  lemma DialAudible(state: State, event: Event)
    requires event.RotaryPulse? || event.Tick? || event.DigitDialed?
    ensures Audible(HandleInner(state, event))
  {
    if event.RotaryPulse? {
      PulseAudible(state);
    } else if event.DigitDialed? {
      DecodeAudible(event.digit);
    } else if state.Dialing? {
      DecodeAudible(if state.pulses == 10 then 0 else state.pulses);
    }
  }

  lemma AudioAudible(state: State, event: Event)
    requires event.PlaybackEnded? || event.RecordingTimedOut? || event.RecordingFinished?
    ensures Audible(HandleInner(state, event))
  {
  }

  lemma RecordingFailedAudible(state: State, reason: string)
    ensures Audible(HandleInner(state, RecordingFailed(reason)))
  {
  }

  lemma UploadAudible(state: State, event: Event)
    requires UploadResult(event)
    ensures Audible(HandleInner(state, event))
  {
  }

  lemma FetchAudible(state: State, event: Event)
    requires FetchResult(event)
    ensures Audible(HandleInner(state, event))
  {
  }

  lemma InnerAudible(state: State, event: Event)
    ensures Audible(HandleInner(state, event))
  {
    if event.HookOn? || event.HookOff? {
      HookAudible(state, event);
    } else if event.RotaryPulse? || event.Tick? || event.DigitDialed? {
      DialAudible(state, event);
    } else if event.PlaybackEnded? || event.RecordingTimedOut? || event.RecordingFinished? {
      AudioAudible(state, event);
    } else if event.RecordingFailed? {
      RecordingFailedAudible(state, event.reason);
    } else if UploadResult(event) {
      UploadAudible(state, event);
    } else if FetchResult(event) {
      FetchAudible(state, event);
    }
  }

  /** `Dialing` is entered only from the dial tone. */
  lemma DialingEntry(state: State, event: Event)
    requires HandleInner(state, event).next.Dialing?
    ensures state.DialTone? || state.Dialing?
  {
  }

  lemma DialingEnds(state: State, event: Event)
    requires state.Dialing? && !HandleInner(state, event).next.Dialing?
    ensures event.Tick? || CancelPulseTimeout in HandleInner(state, event).effects
       <==> !LeavesTimerRunning(state, event, true)
  {
    var effects := HandleInner(state, event).effects;
    if event.HookOn? {
      assert effects[1] == CancelPulseTimeout;
    } else if event.RotaryPulse? {
      assert effects[1] == CancelPulseTimeout;
    } else if event.DigitDialed? && event.digit <= 9 {
      assert effects[2] == CancelPulseTimeout;
    }
  }

  lemma ProtectedNeverDials(state: State, event: Event)
    requires Protected(state)
    ensures ArmPulseTimeout !in HandleInner(state, event).effects
  {
    InnerAudible(state, event);
    if HandleInner(state, event).next.Dialing? {
      DialingEntry(state, event);
    }
  }

  lemma ResumeAudible(state: State, event: Event, onHook: bool)
    ensures Audible(Resume(state, event, onHook))
  {
    var resumed := if onHook then Step(Idle, [PutStatus(StatusIdle)]) else HandleInner(Idle, HookOff);
    InnerAudible(resumed.next, event);
  }

  lemma PausedAudible(state: State, event: Event, onHook: bool)
    ensures Audible(HandlePaused(state, event, onHook))
  {
    var inner := HandleInner(SuppressBeep(state), event);
    if Protected(state) {
      ProtectedNeverDials(SuppressBeep(state), event);
      MutedKeepsOthers(inner.effects);
    }
  }

  lemma AdmittedAudible(state: State, event: Event, accepting: bool)
    ensures Audible(HandleAdmitted(state, event, accepting))
  {
    InnerAudible(state, event);
    PausedAudible(state, event, OnHookAfter(state, event));
    ResumeAudible(state, event, OnHookAfter(state, event));
  }

  lemma AdmittedCancels(state: State, event: Event, accepting: bool)
    requires state.Dialing? && !HandleAdmitted(state, event, accepting).next.Dialing?
    ensures event.Tick? || CancelPulseTimeout in HandleAdmitted(state, event, accepting).effects
       <==> !LeavesTimerRunning(state, event, accepting)
  {
    if accepting {
      DialingEnds(state, event);
    } else if !event.PowerButtonPressed? && !event.PowerButtonHeld? {
      assert [StopAudio, CancelPulseTimeout][1] == CancelPulseTimeout;
    }
  }

  /** The timer stays exact at a step precisely when no oversized digit is
      injected while dialling. */
  lemma PulseTimerStep(state: State, event: Event, accepting: bool, w: World)
    requires Inv(state, w) && PulseTimerExact(state, w)
    ensures PulseTimerExact(Handle(state, event, accepting).next, Advance(state, w, event, accepting))
       <==> !LeavesTimerRunning(state, event, accepting)
  {
    var step := Handle(state, event, accepting);
    var w1 := Happened(w, event);
    var w2 := DoAll(w1, step.effects);
    assert Advance(state, w, event, accepting).pulseTimer == w2.pulseTimer;
    if step.next.Dialing? {
      StepKeepsInvariant(state, event, accepting, w);
      OversizedLeavesDialing(state, event, accepting);
    } else {
      assert w1.pulseTimer <==> state.Dialing? && !event.Tick?;
      TimerAfterDialing(state, event, accepting);
      TimerStaysOff(w1, step.effects);
    }
  }

  lemma OversizedLeavesDialing(state: State, event: Event, accepting: bool)
    ensures LeavesTimerRunning(state, event, accepting) ==> !Handle(state, event, accepting).next.Dialing?
  {
  }

  /** What a step that does not end in `Dialing` does to the pulse timer. */
  lemma TimerAfterDialing(state: State, event: Event, accepting: bool)
    requires !Handle(state, event, accepting).next.Dialing?
    ensures var effects := Handle(state, event, accepting).effects;
            && ArmPulseTimeout !in effects
            && (state.Dialing? ==> (event.Tick? || CancelPulseTimeout in effects
                                    <==> !LeavesTimerRunning(state, event, accepting)))
  {
    if event.UploadFinished? {
      if AwaitedUpload(state) == Some(event.recordingId) {
        AdmittedAudible(state, Outcome(event), accepting);
      }
    } else {
      AdmittedAudible(state, event, accepting);
      if state.Dialing? {
        AdmittedCancels(state, event, accepting);
      }
    }
  }

  /** Over any run without such an injection the timer runs exactly in `Dialing`. */
  lemma {:induction false} PulseTimerOverRun(inputs: seq<Input>)
    requires forall i :: 0 <= i < |inputs| && inputs[i].event.DigitDialed? ==> inputs[i].event.digit <= 9
    ensures PulseTimerExact(RunState(inputs), RunWorld(inputs))
  {
    if inputs != [] {
      var front, last := inputs[..|inputs| - 1], inputs[|inputs| - 1];
      PulseTimerOverRun(front);
      RunKeepsInvariant(front);
      PulseTimerStep(RunState(front), last.event, last.accepting, RunWorld(front));
    }
  }

  /** The injection exists: eleven dialled after one pulse. */
  lemma OversizedDigitLeavesTimerRunning()
    ensures var run := [Input(HookOff, true), Input(RotaryPulse, true), Input(DigitDialed(11), true)];
            RunState(run).Error? && RunWorld(run).pulseTimer
  {
    var one, two := [Input(HookOff, true)], [Input(HookOff, true), Input(RotaryPulse, true)];
    var run := two + [Input(DigitDialed(11), true)];
    assert run == [Input(HookOff, true), Input(RotaryPulse, true), Input(DigitDialed(11), true)];
    DialingSteps();
    RunTakes([], HookOff, Idle, DialTone);
    assert [] + one == one;
    RunTakes(one, RotaryPulse, DialTone, Dialing(1));
    assert one + [Input(RotaryPulse, true)] == two;
    RunTakes(two, DigitDialed(11), Dialing(1), Error("invalid digit " + Print(11)));
    TimerIsLeft(two, run);
  }

  lemma TimerIsLeft(two: seq<Input>, run: seq<Input>)
    requires two == [Input(HookOff, true), Input(RotaryPulse, true)] && run == two + [Input(DigitDialed(11), true)]
    requires RunState(two) == Dialing(1) && RunState(run).Error?
    ensures RunWorld(run).pulseTimer
  {
    assert run[..2] == two;
    PulseTimerOverRun(two);
    RunKeepsInvariant(two);
    PulseTimerStep(Dialing(1), DigitDialed(11), true, RunWorld(two));
  }

  lemma RunTakes(inputs: seq<Input>, event: Event, from: State, to: State)
    requires RunState(inputs) == from && Handle(from, event, true).next == to
    ensures RunState(inputs + [Input(event, true)]) == to
  {
    var run := inputs + [Input(event, true)];
    assert run[..|run| - 1] == inputs;
  }

  lemma DialingSteps()
    ensures Handle(Idle, HookOff, true).next == DialTone
    ensures Handle(DialTone, RotaryPulse, true).next == Dialing(1)
    ensures Handle(Dialing(1), DigitDialed(11), true).next == Error("invalid digit " + Print(11))
  {
  }

  // ----- nothing plays to a handset on its cradle

  /** No step of any run starts a sound while the handset is on its cradle. */
  lemma NothingPlaysOnHook(inputs: seq<Input>, event: Event, accepting: bool, a: AudioRef)
    ensures Play(a) in Handle(RunState(inputs), event, accepting).effects ==>
              !RunWorld(inputs + [Input(event, accepting)]).onHook
  {
    var run := inputs + [Input(event, accepting)];
    assert run[..|run| - 1] == inputs;
    RunKeepsInvariant(run);
    if event.UploadFinished? {
      AdmittedAudible(RunState(inputs), Outcome(event), accepting);
    } else {
      AdmittedAudible(RunState(inputs), event, accepting);
    }
  }
}
