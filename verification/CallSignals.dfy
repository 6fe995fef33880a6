/**
 What the call machine shows of itself: the sounds it starts, the fetches it asks for,
 the status it pushes, its light and the power switch, each as a decision of the states
 and events alone; and which step enters which state.
 */
module CallSignals {
  import opened Wrappers
  import opened CallCore
  import opened CallRuns
  import opened Decimal
  import SessionTracker

  // ----- what effects show

  /** A built-in tone, the clip last fetched, or some other clip. */
  datatype Sound = BuiltinSound(tone: BuiltinTone) | Fetched | OtherClip

  function HeardAs(source: AudioRef): Sound {
    match source
    case Builtin(tone) => BuiltinSound(tone)
    case _ => if source == PLAY_FETCHED.source then Fetched else OtherClip
  }

  /** The last sound and status of a list of effects, and how often each kind occurs;
      `prompts` are the sounds that say a number is not in service. */
  datatype Shown = Shown(sound: Option<Sound>, sounds: nat, status: Option<BoothStatus>, statuses: nat,
                         prompts: nat, questions: nat, messages: nat, instructions: nat, reboots: nat, powerOffs: nat)

  const NOTHING: Shown := Shown(None, 0, None, 0, 0, 0, 0, 0, 0, 0)

  function Note(s: Shown, e: Effect): Shown {
    match e
    case Play(source) =>
      s.(sound := Some(HeardAs(source)), sounds := s.sounds + 1,
         prompts := s.prompts + if source == Builtin(CallUnavailablePrompt) then 1 else 0)
    case PutStatus(status) => s.(status := Some(status), statuses := s.statuses + 1)
    case FetchRandomQuestion => s.(questions := s.questions + 1)
    case FetchRandomMessage => s.(messages := s.messages + 1)
    case FetchInstructions => s.(instructions := s.instructions + 1)
    case Reboot => s.(reboots := s.reboots + 1)
    case PowerOff => s.(powerOffs := s.powerOffs + 1)
    case _ => s
  }

  function NoteAll(s: Shown, es: seq<Effect>): Shown
    decreases |es|
  {
    if es == [] then s else NoteAll(Note(s, es[0]), es[1..])
  }

  /** The same for at most five effects, unrolled. */
  function Notes(s: Shown, es: seq<Effect>): Shown
    requires |es| <= 5
  {
    var s1 := if |es| > 0 then Note(s, es[0]) else s;
    var s2 := if |es| > 1 then Note(s1, es[1]) else s1;
    var s3 := if |es| > 2 then Note(s2, es[2]) else s2;
    var s4 := if |es| > 3 then Note(s3, es[3]) else s3;
    if |es| > 4 then Note(s4, es[4]) else s4
  }

  lemma {:induction false} NoteAllAppend(s: Shown, a: seq<Effect>, b: seq<Effect>)
    ensures NoteAll(s, a + b) == NoteAll(NoteAll(s, a), b)
    decreases |a|
  {
    if a == [] {
      assert a + b == b;
    } else {
      assert (a + b)[1..] == a[1..] + b;
      NoteAllAppend(Note(s, a[0]), a[1..], b);
    }
  }

  lemma {:induction false} NotesFewer(s: Shown, es: seq<Effect>)
    requires 0 < |es| <= 5
    ensures Notes(s, es) == Notes(Note(s, es[0]), es[1..])
  {
  }

  lemma {:induction false} NotesIsNoteAll(s: Shown, es: seq<Effect>)
    requires |es| <= 5
    ensures Notes(s, es) == NoteAll(s, es)
    decreases |es|
  {
    if es != [] {
      NotesFewer(s, es);
      NotesIsNoteAll(Note(s, es[0]), es[1..]);
    }
  }

  // ----- the decisions

  /** What plays in a state that sounds. */
  function SoundOf(state: State): Option<Sound> {
    match state
    case DialTone => Some(BuiltinSound(DialToneSound))
    case RingingQuestion(_) => Some(BuiltinSound(Ringback))
    case PlayingQuestion(_) => Some(Fetched)
    case PlayingMessage => Some(Fetched)
    case PlayingInstructions => Some(Fetched)
    case Beep(_) => Some(BuiltinSound(BeepSound))
    case UploadingTimedOut(_, _, beepPending) => if beepPending then Some(BuiltinSound(BeepSound)) else None
    case CallUnavailable => Some(BuiltinSound(CallUnavailablePrompt))
    case Error(_) => Some(BuiltinSound(LineBusy))
    case _ => None
  }

  /** The status that stands for a state. */
  function StatusOf(state: State): BoothStatus {
    match state
    case Idle | CallsPaused(_) | Error(_) => StatusIdle
    case DialTone | Dialing(_) => StatusDialTone
    case RingingQuestion(_) | PlayingQuestion(_) | Beep(_) => StatusPlayingQuestion
    case Recording(_) => StatusRecording
    case FinishingRecording(_, _) | FinishingTimedOutRecording(_, _) | Uploading(_, _, _) | UploadingTimedOut(_, _, _)
         | RecordingEndedBeep => StatusUploading
    case PlayingMessage => StatusPlayingMessage
    case PlayingInstructions => StatusPlayingInstructions
    case CallUnavailable => StatusCallUnavailable
  }

  /** The digit an admitted step of the inner machine decodes. */
  function Dialled(state: State, event: Event): Option<nat> {
    if event.Tick? && state.Dialing? then Some(state.pulses % 10)
    else if event.DigitDialed? && (state.DialTone? || state.Dialing?) && event.digit <= 9 then Some(event.digit)
    else None
  }

  /** A step sounds exactly when it enters a state that does, except that a fetch is
      awaited in silence. */
  function ExpectedSound(state: State, event: Event, next: State): Option<Sound> {
    if next == state || (Dialled(state, event).Some? && next.DialTone?) then None else SoundOf(next)
  }

  /** A step pushes a status exactly when it changes or one of a few steps repeats it, but
      none for an error other than the recorder's: that of the state it leads to. */
  function ExpectedStatus(state: State, event: Event, next: State): Option<BoothStatus> {
    if (StatusOf(next) == StatusOf(state) && !Repeats(state, event)) || (next.Error? && !event.RecordingFailed?) then None
    else Some(StatusOf(next))
  }

  /** Hanging up when idle or in error, and going on within the same status. */
  predicate Repeats(state: State, event: Event) {
    || (event.HookOn? && (state.Idle? || state.Error? || state.CallsPaused?))
    || (event.PlaybackEnded? && (state.RingingQuestion? || state.PlayingQuestion?))
    || (event.RecordingFinished? && Finishing(state))
  }

  function Count(b: bool): nat {
    if b then 1 else 0
  }

  /** What a step of the inner machine is to show: one fetches a question, two a message,
      zero the instructions, and nothing else fetches; the button alone touches power. */
  function Expected(state: State, event: Event, next: State): Shown {
    var digit := Dialled(state, event);
    var sound, status := ExpectedSound(state, event, next), ExpectedStatus(state, event, next);
    Shown(sound, Count(sound.Some?), status, Count(status.Some?), Count(digit.Some? && 2 < digit.value),
          Count(digit == Some(1)), Count(digit == Some(2)), Count(digit == Some(0)),
          Count(event.PowerButtonPressed?), Count(event.PowerButtonHeld?))
  }

  predicate StepShows(state: State, event: Event, step: Step) {
    |step.effects| <= 5 && Notes(NOTHING, step.effects) == Expected(state, event, step.next)
  }

  predicate Shows(state: State, event: Event) {
    StepShows(state, event, HandleInner(state, event))
  }

  lemma ShowsPickUp(state: State)
    ensures Shows(state, HookOff)
  {
  }

  lemma ShowsHangUpAnswer(state: State)
    requires HoldsAnswer(state)
    ensures Shows(state, HookOn)
  {
  }

  lemma ShowsHangUp(state: State)
    requires !HoldsAnswer(state)
    ensures Shows(state, HookOn)
  {
  }

  lemma ShowsHook(state: State, event: Event)
    requires event.HookOn? || event.HookOff?
    ensures Shows(state, event)
  {
    if event.HookOff? {
      ShowsPickUp(state);
    } else if HoldsAnswer(state) {
      ShowsHangUpAnswer(state);
    } else {
      ShowsHangUp(state);
    }
  }

  lemma ShowsPulse(state: State)
    ensures Shows(state, RotaryPulse)
  {
  }

  /** What decoding a digit comes to. */
  predicate Decodes(digit: nat, step: Step) {
    && |step.effects| <= 5
    && (step.next == DialTone <==> digit <= 2) && (step.next == CallUnavailable <==> 2 < digit <= 9)
    && (step.next.Error? <==> digit > 9)
    && Notes(NOTHING, step.effects)
       == Shown(if digit <= 2 then None else SoundOf(step.next), Count(digit > 2),
                if 2 < digit <= 9 then Some(StatusCallUnavailable) else None, Count(2 < digit <= 9), Count(2 < digit <= 9),
                Count(digit == 1), Count(digit == 2), Count(digit == 0), 0, 0)
  }

  lemma ShowsLogged(digit: nat, log: Effect)
    requires log.Log? && digit <= 9
    ensures Decodes(digit, LoggedDigit(digit, log))
  {
  }

  lemma ShowsInvalid(reason: string)
    ensures Notes(NOTHING, [PlayTone(LineBusy)]) == Shown(Some(BuiltinSound(LineBusy)), 1, None, 0, 0, 0, 0, 0, 0, 0)
    ensures SoundOf(Error(reason)) == Some(BuiltinSound(LineBusy))
  {
  }

  lemma ShowsDecoded(digit: nat)
    ensures Decodes(digit, DecodeDigit(digit))
  {
    if digit > 9 {
      ShowsInvalid("invalid digit " + Print(digit));
    } else {
      ShowsLogged(digit, Log("dialed digit " + Print(digit) + ": " + DigitAction(digit)));
    }
  }

  lemma DecodedShows(state: State, event: Event, digit: nat, step: Step)
    requires state.DialTone? || state.Dialing?
    requires event.Tick? || event.DigitDialed?
    requires Decodes(digit, step) && Dialled(state, event) == if digit <= 9 then Some(digit) else None
    ensures StepShows(state, event, step)
  {
  }

  lemma TickDecodes(pulses: nat, digit: nat)
    requires pulses <= 10 && digit == pulses % 10
    ensures HandleInner(Dialing(pulses), Tick) == DecodeDigit(digit) && Dialled(Dialing(pulses), Tick) == Some(digit)
  {
  }

  lemma ShowsStep(state: State, event: Event, step: Step)
    requires HandleInner(state, event) == step && StepShows(state, event, step)
    ensures Shows(state, event)
  {
  }

  lemma ShowsLastPulse(pulses: nat, digit: nat, step: Step)
    requires pulses <= 10 && digit == pulses % 10 && step == DecodeDigit(digit)
    ensures Shows(Dialing(pulses), Tick)
  {
    TickDecodes(pulses, digit);
    ShowsDecoded(digit);
    DecodedShows(Dialing(pulses), Tick, digit, step);
    ShowsStep(Dialing(pulses), Tick, step);
  }

  lemma ShowsIgnored(state: State, event: Event)
    requires HandleInner(state, event) == Step(state, []) && Dialled(state, event).None?
    requires !Repeats(state, event) && !event.RecordingFailed? && ExpectedStatus(state, event, state).None?
    requires !event.PowerButtonPressed? && !event.PowerButtonHeld?
    ensures Shows(state, event)
  {
  }

  lemma ShowsTick(state: State)
    requires state.Dialing? ==> state.pulses <= 10
    ensures Shows(state, Tick)
  {
    if state.Dialing? {
      ShowsLastPulse(state.pulses, state.pulses % 10, DecodeDigit(state.pulses % 10));
    } else {
      ShowsIgnored(state, Tick);
    }
  }

  lemma ShowsDigit(state: State, digit: nat)
    ensures Shows(state, DigitDialed(digit))
  {
    if state.DialTone? || state.Dialing? {
      ShowsDecoded(digit);
      DecodedShows(state, DigitDialed(digit), digit, DecodeDigit(digit));
    }
  }

  lemma ShowsPlayback(state: State)
    ensures Shows(state, PlaybackEnded)
  {
  }

  lemma ShowsRecorder(state: State, event: Event)
    requires event.RecordingTimedOut? || event.RecordingFinished?
    ensures Shows(state, event)
  {
  }

  lemma ShowsRecorderFailure(state: State, reason: string)
    ensures Shows(state, RecordingFailed(reason))
  {
  }

  lemma ShowsUploadOver(state: State, event: Event)
    requires event.UploadComplete? || event.UploadDeferred?
    ensures Shows(state, event)
  {
    if !state.Uploading? && !state.UploadingTimedOut? {
      ShowsIgnored(state, event);
    }
  }

  lemma ShowsUploadFailure(state: State, reason: string)
    ensures Shows(state, UploadFailed(reason))
  {
  }

  lemma ShowsUpload(state: State, event: Event)
    requires UploadResult(event)
    ensures Shows(state, event)
  {
    if event.UploadFailed? {
      ShowsUploadFailure(state, event.reason);
    } else {
      ShowsUploadOver(state, event);
    }
  }

  lemma ShowsFetched(event: Event)
    requires event.QuestionReady? || event.MessageReady? || event.InstructionsReady?
    ensures Shows(DialTone, event)
  {
  }

  lemma ShowsNotFetched(event: Event)
    requires event.QuestionFailed? || event.MessageFailed? || event.InstructionsFailed?
    ensures Shows(DialTone, event)
  {
  }

  lemma ShowsFetchResult(state: State, event: Event)
    requires FetchResult(event)
    ensures Shows(state, event)
  {
    if state != DialTone {
      assert HandleFetchResult(state, event) == Step(state, []);
    } else if event.QuestionReady? || event.MessageReady? || event.InstructionsReady? {
      ShowsFetched(event);
    } else {
      ShowsNotFetched(event);
    }
  }

  lemma ShowsDialling(state: State, event: Event)
    requires event.HookOn? || event.HookOff? || event.RotaryPulse? || event.Tick? || event.DigitDialed?
    requires state.Dialing? ==> state.pulses <= 10
    ensures Shows(state, event)
  {
    match event {
      case RotaryPulse => ShowsPulse(state);
      case Tick => ShowsTick(state);
      case DigitDialed(digit) => ShowsDigit(state, digit);
      case _ => ShowsHook(state, event);
    }
  }

  lemma ShowsOther(state: State, event: Event)
    requires event.UploadFinished? || event.PowerButtonPressed? || event.PowerButtonHeld?
    ensures Shows(state, event)
  {
  }

  /** The inner machine shows exactly what is called for. */
  lemma InnerShows(state: State, event: Event)
    requires state.Dialing? ==> state.pulses <= 10
    ensures Shows(state, event)
  {
    match event {
      case PlaybackEnded => ShowsPlayback(state);
      case RecordingTimedOut => ShowsRecorder(state, event);
      case RecordingFinished(_) => ShowsRecorder(state, event);
      case RecordingFailed(reason) => ShowsRecorderFailure(state, reason);
      case UploadComplete => ShowsUpload(state, event);
      case UploadDeferred => ShowsUpload(state, event);
      case UploadFailed(_) => ShowsUpload(state, event);
      case UploadFinished(_, _) => ShowsOther(state, event);
      case PowerButtonPressed => ShowsOther(state, event);
      case PowerButtonHeld => ShowsOther(state, event);
      case _ =>
        if FetchResult(event) {
          ShowsFetchResult(state, event);
        } else {
          ShowsDialling(state, event);
        }
    }
  }

  // ----- the whole machine

  /** One list of effects after another. */
  function Added(a: Shown, b: Shown): Shown {
    Shown(if b.sound.Some? then b.sound else a.sound, a.sounds + b.sounds,
          if b.status.Some? then b.status else a.status, a.statuses + b.statuses,
          a.prompts + b.prompts, a.questions + b.questions, a.messages + b.messages, a.instructions + b.instructions,
          a.reboots + b.reboots, a.powerOffs + b.powerOffs)
  }

  lemma {:induction false} NoteAllAdds(s: Shown, es: seq<Effect>)
    ensures NoteAll(s, es) == Added(s, NoteAll(NOTHING, es))
    decreases |es|
  {
    if es != [] {
      NoteAllAdds(Note(s, es[0]), es[1..]);
      NoteAllAdds(Note(NOTHING, es[0]), es[1..]);
      NoteAdds(s, es[0]);
      AddedThrice(s, Note(NOTHING, es[0]), NoteAll(NOTHING, es[1..]));
    }
  }

  lemma NoteAdds(s: Shown, e: Effect)
    ensures Note(s, e) == Added(s, Note(NOTHING, e))
  {
  }

  lemma AddedThrice(a: Shown, b: Shown, c: Shown)
    ensures Added(Added(a, b), c) == Added(a, Added(b, c))
  {
  }

  /** Muting silences sounds and statuses and leaves the rest. */
  lemma {:induction false} MutedShows(s: Shown, es: seq<Effect>)
    requires s.sound.None? && s.sounds == 0 && s.status.None? && s.statuses == 0 && s.prompts == 0
    ensures NoteAll(s, Muted(es)) == NoteAll(s, es).(sound := None, sounds := 0, status := None, statuses := 0, prompts := 0)
    decreases |es|
  {
    if es != [] {
      var e, rest := es[0], es[1..];
      NoteAllAdds(Note(s, e), rest);
      NoteAllAdds(s, rest);
      if e.PutStatus? || e.Play? {
        MutedShows(s, rest);
      } else {
        MutedShows(Note(s, e), rest);
        assert Muted(es)[1..] == Muted(rest);
      }
    }
  }

  predicate Foreign(state: State, event: Event) {
    event.UploadFinished? && AwaitedUpload(state) != Some(event.recordingId)
  }

  predicate PowerEvent(event: Event) {
    event.PowerButtonPressed? || event.PowerButtonHeld?
  }

  const DIAL_TONE_SHOWN: Shown := NOTHING.(sound := Some(BuiltinSound(DialToneSound)), sounds := 1,
                                           status := Some(StatusDialTone), statuses := 1)

  /** What a step of the whole machine is to show: nothing for another's upload or while
      calls are paused, the dial tone first when a call resumes, and otherwise what the
      inner machine is to show. */
  function ExpectedOf(state: State, event: Event, accepting: bool, next: State): Shown {
    if Foreign(state, event) then NOTHING
    else if event.UploadFinished? then ExpectedIn(state, Outcome(event), accepting, next)
    else ExpectedIn(state, event, accepting, next)
  }

  function ExpectedIn(state: State, event: Event, accepting: bool, next: State): Shown {
    if PowerEvent(event) then Expected(state, event, next)
    else if !accepting then NOTHING
    else if !state.CallsPaused? then Expected(state, event, next)
    else if OnHookAfter(state, event) then NOTHING.(status := Some(StatusIdle), statuses := 1)
    else if event.RotaryPulse? || event.DigitDialed? then Added(DIAL_TONE_SHOWN, Expected(DialTone, event, next))
    else DIAL_TONE_SHOWN
  }

  predicate ShowsAs(step: Step, expected: Shown) {
    NoteAll(NOTHING, step.effects) == expected
  }

  lemma InnerShowsAs(state: State, event: Event)
    requires state.Dialing? ==> state.pulses <= 10
    ensures ShowsAs(HandleInner(state, event), Expected(state, event, HandleInner(state, event).next))
  {
    InnerShows(state, event);
    NotesIsNoteAll(NOTHING, HandleInner(state, event).effects);
  }

  lemma PickUpShows()
    ensures NoteAll(NOTHING, HandleInner(Idle, HookOff).effects) == DIAL_TONE_SHOWN
    ensures HandleInner(Idle, HookOff).next == DialTone
    ensures NoteAll(NOTHING, [PutStatus(StatusIdle)]) == NOTHING.(status := Some(StatusIdle), statuses := 1)
  {
    NotesIsNoteAll(NOTHING, HandleInner(Idle, HookOff).effects);
    NotesIsNoteAll(NOTHING, [PutStatus(StatusIdle)]);
  }

  lemma ResumeOnHookShows(state: State, event: Event)
    requires !event.UploadFinished?
    ensures ShowsAs(Resume(state, event, true), NOTHING.(status := Some(StatusIdle), statuses := 1))
  {
    PickUpShows();
    if event.RotaryPulse? || event.DigitDialed? {
      assert HandleInner(Idle, event) == Step(Idle, []);
      assert [PutStatus(StatusIdle)] + [] == [PutStatus(StatusIdle)];
    }
  }

  lemma ResumeOffHookShows(state: State, event: Event)
    requires !event.UploadFinished?
    ensures var step := Resume(state, event, false);
      ShowsAs(step, if event.RotaryPulse? || event.DigitDialed? then Added(DIAL_TONE_SHOWN, Expected(DialTone, event, step.next))
                    else DIAL_TONE_SHOWN)
  {
    PickUpShows();
    if event.RotaryPulse? || event.DigitDialed? {
      var resumed, input := HandleInner(Idle, HookOff), HandleInner(DialTone, event);
      InnerShowsAs(DialTone, event);
      NoteAllAppend(NOTHING, resumed.effects, input.effects);
      NoteAllAdds(DIAL_TONE_SHOWN, input.effects);
    }
  }

  lemma ResumeShows(state: State, event: Event)
    requires state.CallsPaused? && !PowerEvent(event) && !event.UploadFinished?
    ensures var step := Resume(state, event, OnHookAfter(state, event));
      ShowsAs(step, ExpectedIn(state, event, true, step.next))
  {
    if OnHookAfter(state, event) {
      ResumeOnHookShows(state, event);
    } else {
      ResumeOffHookShows(state, event);
    }
  }

  lemma SilencedShows(state: State, inner: Step, onHook: bool)
    requires ShowsAs(inner, NOTHING.(sound := NoteAll(NOTHING, inner.effects).sound,
                                     sounds := NoteAll(NOTHING, inner.effects).sounds,
                                     status := NoteAll(NOTHING, inner.effects).status,
                                     statuses := NoteAll(NOTHING, inner.effects).statuses))
    ensures ShowsAs(Silenced(state, inner, onHook), NOTHING)
  {
    var muted := Muted(inner.effects);
    var effects := if BeepPending(state) || BeepPending(inner.next) then [StopAudio] + muted else muted;
    MutedShows(NOTHING, inner.effects);
    NoteAllAppend(NOTHING, [StopAudio], muted);
    NotesIsNoteAll(NOTHING, [StopAudio]);
    NoteAllAppend(NOTHING, effects, [StopAudio, CancelPulseTimeout]);
    NotesIsNoteAll(NOTHING, [StopAudio, CancelPulseTimeout]);
  }

  lemma PausedShows(state: State, event: Event)
    requires !PowerEvent(event) && !event.UploadFinished?
    ensures ShowsAs(HandlePaused(state, event, OnHookAfter(state, event)), NOTHING)
  {
    if Protected(state) {
      InnerShowsAs(SuppressBeep(state), event);
      SilencedShows(state, HandleInner(SuppressBeep(state), event), OnHookAfter(state, event));
    } else {
      NotesIsNoteAll(NOTHING, [StopAudio, CancelPulseTimeout]);
    }
  }

  lemma AdmittedShows(state: State, event: Event, accepting: bool)
    requires !event.UploadFinished? && (state.Dialing? ==> state.pulses <= 10)
    ensures var step := HandleAdmitted(state, event, accepting);
      ShowsAs(step, ExpectedIn(state, event, accepting, step.next))
  {
    if PowerEvent(event) || (accepting && !state.CallsPaused?) {
      InnerShowsAs(state, event);
    } else if accepting {
      ResumeShows(state, event);
    } else {
      PausedShows(state, event);
    }
  }

  lemma LightShowsNothing(led: Led, es: seq<Effect>)
    ensures NoteAll(NOTHING, [SetStatusLed(led)] + es) == NoteAll(NOTHING, es)
  {
    assert ([SetStatusLed(led)] + es)[1..] == es;
  }

  /** Every step shows exactly what its state, event and admission call for: which sound it
      starts, which status it pushes, what it fetches, and whether it touches power. */
  lemma StepShowsExactly(state: State, event: Event, accepting: bool)
    requires state.Dialing? ==> state.pulses <= 10
    ensures var step := Handle(state, event, accepting);
      ShowsAs(step, ExpectedOf(state, event, accepting, step.next))
  {
    var step := HandleAvailable(state, event, accepting);
    LightShowsNothing(StatusLedFor(step.next), step.effects);
    if !Foreign(state, event) {
      AdmittedShows(state, if event.UploadFinished? then Outcome(event) else event, accepting);
    }
  }

  // ----- digits, power, status

  lemma {:induction false} CountsTell(s: Shown, es: seq<Effect>)
    ensures var n := NoteAll(s, es);
      && n.questions >= s.questions && n.messages >= s.messages && n.instructions >= s.instructions
      && n.prompts >= s.prompts && n.reboots >= s.reboots && n.powerOffs >= s.powerOffs
      && (FetchRandomQuestion in es <==> n.questions > s.questions)
      && (FetchRandomMessage in es <==> n.messages > s.messages)
      && (FetchInstructions in es <==> n.instructions > s.instructions)
      && (PlayTone(CallUnavailablePrompt) in es <==> n.prompts > s.prompts)
      && (Reboot in es <==> n.reboots > s.reboots)
      && (PowerOff in es <==> n.powerOffs > s.powerOffs)
    decreases |es|
  {
    if es != [] {
      CountsTell(Note(s, es[0]), es[1..]);
    }
  }

  /** The counts that a digit and the button call for. */
  predicate CountsFor(digit: Option<nat>, event: Event, shown: Shown) {
    && shown.questions == Count(digit == Some(1)) && shown.messages == Count(digit == Some(2))
    && shown.instructions == Count(digit == Some(0)) && shown.prompts == Count(digit.Some? && 2 < digit.value)
    && shown.reboots == Count(event.PowerButtonPressed?) && shown.powerOffs == Count(event.PowerButtonHeld?)
  }

  lemma InnerDigits(state: State, event: Event, next: State)
    ensures CountsFor(Dialled(state, event), event, Expected(state, event, next))
  {
  }

  lemma DialledIsDecoded(state: State, event: Event)
    requires !state.CallsPaused? && (state.Dialing? ==> state.pulses <= 10)
    ensures Dialled(state, event) == SessionTracker.DecodedDigit(state, event, true)
  {
  }

  lemma NothingDialled(event: Event)
    requires !PowerEvent(event)
    ensures CountsFor(None, event, NOTHING) && CountsFor(None, event, DIAL_TONE_SHOWN)
    ensures CountsFor(None, event, NOTHING.(status := Some(StatusIdle), statuses := 1))
  {
  }

  lemma ResumedCounts(state: State, event: Event, next: State, digit: Option<nat>)
    requires state.CallsPaused? && !OnHookAfter(state, event) && (event.RotaryPulse? || event.DigitDialed?)
    requires CountsFor(digit, event, Expected(DialTone, event, next))
    ensures CountsFor(digit, event, ExpectedIn(state, event, true, next))
  {
  }

  lemma ResumedIsDialled(state: State, event: Event)
    requires state.CallsPaused? && !OnHookAfter(state, event) && (event.RotaryPulse? || event.DigitDialed?)
    ensures SessionTracker.DecodedDigit(state, event, true) == Dialled(DialTone, event)
  {
  }

  lemma ResumedIsTone(state: State, event: Event, next: State)
    requires state.CallsPaused? && !PowerEvent(event) && !event.UploadFinished?
    requires OnHookAfter(state, event) || !(event.RotaryPulse? || event.DigitDialed?)
    ensures ExpectedIn(state, event, true, next) == DIAL_TONE_SHOWN
         || ExpectedIn(state, event, true, next) == NOTHING.(status := Some(StatusIdle), statuses := 1)
    ensures SessionTracker.DecodedDigit(state, event, true) == None
  {
  }

  lemma ResumedDigits(state: State, event: Event, next: State)
    requires state.CallsPaused? && !PowerEvent(event) && !event.UploadFinished?
    ensures CountsFor(SessionTracker.DecodedDigit(state, event, true), event, ExpectedIn(state, event, true, next))
  {
    if !OnHookAfter(state, event) && (event.RotaryPulse? || event.DigitDialed?) {
      ResumedIsDialled(state, event);
      InnerDigits(DialTone, event, next);
      ResumedCounts(state, event, next, Dialled(DialTone, event));
    } else {
      NothingDialled(event);
      ResumedIsTone(state, event, next);
    }
  }

  lemma ExpectedInner(state: State, event: Event, accepting: bool, next: State)
    requires !event.UploadFinished? && (PowerEvent(event) || (accepting && !state.CallsPaused?))
    ensures ExpectedIn(state, event, accepting, next) == Expected(state, event, next)
  {
  }

  lemma ExpectedPaused(state: State, event: Event, next: State)
    requires !PowerEvent(event)
    ensures ExpectedIn(state, event, false, next) == NOTHING
  {
  }

  lemma UploadDigits(state: State, event: Event, accepting: bool, next: State)
    requires event.UploadFinished?
    ensures CountsFor(None, event, ExpectedOf(state, event, accepting, next))
  {
    InnerDigits(state, Outcome(event), next);
    assert Dialled(state, Outcome(event)).None?;
  }

  lemma PowerDigits(state: State, event: Event, accepting: bool, next: State)
    requires PowerEvent(event)
    ensures CountsFor(SessionTracker.DecodedDigit(state, event, accepting), event, ExpectedIn(state, event, accepting, next))
  {
    InnerDigits(state, event, next);
    assert SessionTracker.DecodedDigit(state, event, accepting) == None && Dialled(state, event) == None;
  }

  lemma AcceptedDigits(state: State, event: Event, next: State)
    requires !PowerEvent(event) && !event.UploadFinished? && (state.Dialing? ==> state.pulses <= 10)
    ensures CountsFor(SessionTracker.DecodedDigit(state, event, true), event, ExpectedIn(state, event, true, next))
  {
    if state.CallsPaused? {
      ResumedDigits(state, event, next);
    } else {
      ExpectedInner(state, event, true, next);
      InnerDigits(state, event, next);
      DialledIsDecoded(state, event);
    }
  }

  lemma OwnDigits(state: State, event: Event, accepting: bool, next: State, digit: Option<nat>)
    requires !event.UploadFinished? && CountsFor(digit, event, ExpectedIn(state, event, accepting, next))
    ensures CountsFor(digit, event, ExpectedOf(state, event, accepting, next))
  {
  }

  lemma ExpectedDigits(state: State, event: Event, accepting: bool, next: State, digit: Option<nat>)
    requires state.Dialing? ==> state.pulses <= 10
    requires digit == SessionTracker.DecodedDigit(state, event, accepting)
    ensures CountsFor(digit, event, ExpectedOf(state, event, accepting, next))
  {
    if event.UploadFinished? {
      UploadDigits(state, event, accepting, next);
    } else {
      if PowerEvent(event) {
        PowerDigits(state, event, accepting, next);
      } else if accepting {
        AcceptedDigits(state, event, next);
      } else {
        ExpectedPaused(state, event, next);
        NothingDialled(event);
      }
      OwnDigits(state, event, accepting, next, digit);
    }
  }

  /** A step fetches a question, a message or the instructions, or says that a number is
      not in service, if and only if it decodes a one, a two, a zero, or another digit. */
  lemma DigitsFetch(state: State, event: Event, accepting: bool)
    requires state.Dialing? ==> state.pulses <= 10
    ensures var digit, es := SessionTracker.DecodedDigit(state, event, accepting), Handle(state, event, accepting).effects;
      && (FetchRandomQuestion in es <==> digit == Some(1))
      && (FetchRandomMessage in es <==> digit == Some(2))
      && (FetchInstructions in es <==> digit == Some(0))
      && (PlayTone(CallUnavailablePrompt) in es <==> digit.Some? && 2 < digit.value)
  {
    StepShowsExactly(state, event, accepting);
    DigitsTell(state, event, accepting, Handle(state, event, accepting));
  }

  lemma DigitsTell(state: State, event: Event, accepting: bool, step: Step)
    requires ShowsAs(step, ExpectedOf(state, event, accepting, step.next)) && (state.Dialing? ==> state.pulses <= 10)
    ensures var digit, es := SessionTracker.DecodedDigit(state, event, accepting), step.effects;
      && (FetchRandomQuestion in es <==> digit == Some(1))
      && (FetchRandomMessage in es <==> digit == Some(2))
      && (FetchInstructions in es <==> digit == Some(0))
      && (PlayTone(CallUnavailablePrompt) in es <==> digit.Some? && 2 < digit.value)
      && (Reboot in es <==> event.PowerButtonPressed?) && (PowerOff in es <==> event.PowerButtonHeld?)
  {
    ExpectedDigits(state, event, accepting, step.next, SessionTracker.DecodedDigit(state, event, accepting));
    CountsTell(NOTHING, step.effects);
  }

  /** The booth restarts or powers off if and only if the button says so, in any state. */
  lemma ButtonAlonePowers(state: State, event: Event, accepting: bool)
    requires state.Dialing? ==> state.pulses <= 10
    ensures var es := Handle(state, event, accepting).effects;
      (Reboot in es <==> event.PowerButtonPressed?) && (PowerOff in es <==> event.PowerButtonHeld?)
  {
    StepShowsExactly(state, event, accepting);
    DigitsTell(state, event, accepting, Handle(state, event, accepting));
  }

  function Pulses(k: nat): seq<Input> {
    seq(k, i => Input(RotaryPulse, true))
  }

  lemma RunSnoc(inputs: seq<Input>, event: Event)
    ensures RunState(inputs + [Input(event, true)]) == Handle(RunState(inputs), event, true).next
  {
    var run := inputs + [Input(event, true)];
    assert run[..|run| - 1] == inputs;
  }

  lemma PulseAdds(k: nat)
    ensures Handle(DialTone, RotaryPulse, true).next == Dialing(1)
    ensures k < 10 ==> Handle(Dialing(k), RotaryPulse, true).next == Dialing(k + 1)
  {
  }

  lemma {:induction false} PulsesCount(inputs: seq<Input>, k: nat)
    requires RunState(inputs) == DialTone && 1 <= k <= 10
    ensures RunState(inputs + Pulses(k)) == Dialing(k)
  {
    PulseAdds(k - 1);
    if k == 1 {
      assert inputs + Pulses(1) == inputs + [Input(RotaryPulse, true)];
      RunSnoc(inputs, RotaryPulse);
    } else {
      PulsesCount(inputs, k - 1);
      assert inputs + Pulses(k) == (inputs + Pulses(k - 1)) + [Input(RotaryPulse, true)];
      RunSnoc(inputs + Pulses(k - 1), RotaryPulse);
    }
  }

  /** After the dial tone, `k` pulses and a pause ask for what `k` modulo ten stands for. */
  lemma PulsesFetch(inputs: seq<Input>, k: nat)
    requires RunState(inputs) == DialTone && 1 <= k <= 10
    ensures var es := Handle(RunState(inputs + Pulses(k)), Tick, true).effects;
      && (FetchRandomQuestion in es <==> k == 1)
      && (FetchRandomMessage in es <==> k == 2)
      && (FetchInstructions in es <==> k == 10)
      && (PlayTone(CallUnavailablePrompt) in es <==> 3 <= k <= 9)
  {
    PulsesCount(inputs, k);
    DigitsFetch(Dialing(k), Tick, true);
  }

  /** The steps after which the status last pushed is not that of the state: into an error
      other than the recorder's and, while calls are paused, any that change it. */
  predicate LeavesStale(state: State, event: Event, accepting: bool, next: State) {
    next != state && if accepting then next.Error? && !event.RecordingFailed? else StatusOf(next) != StatusOf(state)
  }

  /** The status that stands after a step's effects. */
  function StatusAfter(before: BoothStatus, es: seq<Effect>): BoothStatus {
    var shown := NoteAll(NOTHING, es);
    if shown.status.Some? then shown.status.value else before
  }

  /** Whether the status is up to date after a step that shows `shown`. */
  predicate Fresh(state: State, next: State, shown: Shown) {
    StatusOf(next) == if shown.status.Some? then shown.status.value else StatusOf(state)
  }

  lemma InnerErrors(state: State, event: Event)
    ensures var next := HandleInner(state, event).next;
      && (next.Error? && next != state ==> StatusOf(state) != StatusIdle)
      && (PowerEvent(event) ==> next == state)
  {
  }

  lemma InnerFresh(state: State, event: Event, next: State)
    requires next.Error? && next != state ==> StatusOf(state) != StatusIdle
    ensures Fresh(state, next, Expected(state, event, next)) <==> !(next != state && next.Error? && !event.RecordingFailed?)
  {
  }

  /** After the dial tone's status, a further step's decides. */
  lemma AddedFresh(state: State, next: State, shown: Shown)
    ensures Fresh(state, next, Added(DIAL_TONE_SHOWN, shown)) <==> Fresh(DialTone, next, shown)
  {
  }

  lemma ResumedFresh(state: State, event: Event)
    requires state.CallsPaused? && !PowerEvent(event) && !event.UploadFinished?
    ensures var next := Resume(state, event, OnHookAfter(state, event)).next;
      Fresh(state, next, ExpectedIn(state, event, true, next)) <==> !(next.Error? && !event.RecordingFailed?)
  {
    PickUpShows();
    if OnHookAfter(state, event) {
      assert HandleInner(Idle, event) == Step(Idle, []) || !(event.RotaryPulse? || event.DigitDialed?);
    } else if event.RotaryPulse? || event.DigitDialed? {
      var next := HandleInner(DialTone, event).next;
      InnerErrors(DialTone, event);
      InnerFresh(DialTone, event, next);
      AddedFresh(state, next, Expected(DialTone, event, next));
    }
  }

  lemma ResumesElsewhere(state: State, event: Event)
    requires state.CallsPaused?
    ensures !Resume(state, event, OnHookAfter(state, event)).next.CallsPaused?
  {
  }

  lemma AdmittedFresh(state: State, event: Event, accepting: bool, step: Step)
    requires !event.UploadFinished? && step == HandleAdmitted(state, event, accepting)
    ensures Fresh(state, step.next, ExpectedIn(state, event, accepting, step.next)) <==> !LeavesStale(state, event, accepting, step.next)
  {
    if PowerEvent(event) || (accepting && !state.CallsPaused?) {
      ExpectedInner(state, event, accepting, step.next);
      InnerErrors(state, event);
      InnerFresh(state, event, step.next);
    } else if accepting {
      ResumedFresh(state, event);
      ResumesElsewhere(state, event);
    } else {
      ExpectedPaused(state, event, step.next);
    }
  }

  /** A status that was up to date stays so at exactly the other steps. */
  lemma StatusStaysExactly(state: State, event: Event, accepting: bool)
    requires state.Dialing? ==> state.pulses <= 10
    ensures var step := Handle(state, event, accepting);
      StatusAfter(StatusOf(state), step.effects) == StatusOf(step.next) <==> !LeavesStale(state, event, accepting, step.next)
  {
    var step := Handle(state, event, accepting);
    StepShowsExactly(state, event, accepting);
    FreshTells(state, step, ExpectedOf(state, event, accepting, step.next));
    WholeFresh(state, event, accepting);
  }

  lemma FreshTells(state: State, step: Step, shown: Shown)
    requires ShowsAs(step, shown)
    ensures StatusAfter(StatusOf(state), step.effects) == StatusOf(step.next) <==> Fresh(state, step.next, shown)
  {
  }

  lemma WholeFresh(state: State, event: Event, accepting: bool)
    ensures var next := Handle(state, event, accepting).next;
      Fresh(state, next, ExpectedOf(state, event, accepting, next)) <==> !LeavesStale(state, event, accepting, next)
  {
    if Foreign(state, event) {
      ForeignFresh(state, event, accepting);
    } else {
      var e := if event.UploadFinished? then Outcome(event) else event;
      OwnFresh(state, event, e, accepting, HandleAdmitted(state, e, accepting));
    }
  }

  lemma ForeignFresh(state: State, event: Event, accepting: bool)
    requires Foreign(state, event)
    ensures var next := Handle(state, event, accepting).next;
      next == state && Fresh(state, next, NOTHING)
  {
  }

  lemma OwnFresh(state: State, event: Event, e: Event, accepting: bool, step: Step)
    requires !Foreign(state, event) && e == (if event.UploadFinished? then Outcome(event) else event)
    requires step == HandleAdmitted(state, e, accepting)
    ensures Fresh(state, step.next, ExpectedOf(state, event, accepting, step.next))
       <==> !LeavesStale(state, event, accepting, step.next)
  {
    AdmittedFresh(state, e, accepting, step);
  }

  /** The status last pushed in a run. */
  function RunStatus(inputs: seq<Input>): BoothStatus {
    if inputs == [] then StatusIdle
    else
      var front, last := inputs[..|inputs| - 1], inputs[|inputs| - 1];
      StatusAfter(RunStatus(front), Handle(RunState(front), last.event, last.accepting).effects)
  }

  /** No step of the run leaves the status stale. */
  predicate NeverStale(inputs: seq<Input>) {
    inputs != [] ==>
      var front, last := inputs[..|inputs| - 1], inputs[|inputs| - 1];
      && NeverStale(front)
      && !LeavesStale(RunState(front), last.event, last.accepting, Handle(RunState(front), last.event, last.accepting).next)
  }

  /** Over every such run the status last pushed is that of the state. */
  lemma {:induction false} StatusOverRun(inputs: seq<Input>)
    requires NeverStale(inputs)
    ensures RunStatus(inputs) == StatusOf(RunState(inputs))
  {
    if inputs != [] {
      var front, last := inputs[..|inputs| - 1], inputs[|inputs| - 1];
      StatusOverRun(front);
      RunKeepsInvariant(front);
      StatusStaysExactly(RunState(front), last.event, last.accepting);
    }
  }

  // ----- the light

  /** What each light means, over every run. */
  lemma LightTells(inputs: seq<Input>)
    ensures var state, led := RunState(inputs), RunWorld(inputs).led;
      && (led == Led(Green, Steady(LED_BRIGHTNESS_DIM)) <==> state.Idle?)
      && (led == Led(Green, Steady(LED_BRIGHTNESS_FULL)) <==> state.DialTone? || state.Dialing?)
      && (led == Led(Blue, Steady(LED_BRIGHTNESS_DIM)) <==> state.CallsPaused?)
      && (led == Led(Blue, Steady(LED_BRIGHTNESS_FULL)) <==>
            state.RingingQuestion? || state.PlayingQuestion? || state.PlayingMessage? || state.PlayingInstructions?
            || state.CallUnavailable?)
      && (led == Led(Red, Steady(LED_BRIGHTNESS_FULL)) <==>
            state.Beep? || state.Recording? || state.RecordingEndedBeep? || BeepPending(state))
      && (led == Led(Blue, Blink(LED_FAST_BLINK_MS)) <==>
            Finishing(state) || state.Uploading? || (state.UploadingTimedOut? && !state.beepPending))
      && (led == Led(Red, Blink(LED_FAST_BLINK_MS)) <==> state.Error?)
  {
    RunKeepsInvariant(inputs);
  }
}
