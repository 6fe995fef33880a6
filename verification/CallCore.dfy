/**
 The phone's call state machine: the next state and the effects of every event,
 for a given admission decision. Nothing here reads a clock or performs I/O.
 */
module CallCore {
  import opened Wrappers
  import opened Decimal

  type RecordingId = string
  type QuestionId = string

  const MAX_PULSES_PER_DIGIT: nat := 10
  const LED_BRIGHTNESS_DIM: nat := 40
  const LED_BRIGHTNESS_FULL: nat := 255
  const LED_FAST_BLINK_MS: nat := 300

  datatype BuiltinTone = DialToneSound | Ringback | BeepSound | LineBusy | CallUnavailablePrompt

  datatype AudioRef = Builtin(tone: BuiltinTone) | LocalFile(path: string) | RemoteUrl(url: string, sha256: Option<string>)

  datatype BoothStatus =
    | StatusIdle | StatusDialTone | StatusPlayingQuestion | StatusRecording | StatusUploading
    | StatusPlayingMessage | StatusPlayingInstructions | StatusCallUnavailable

  datatype LedColour = Red | Green | Blue
  datatype LedPattern = Steady(brightness: nat) | Blink(periodMs: nat)
  datatype Led = Led(colour: LedColour, pattern: LedPattern)

  datatype State =
    | CallsPaused(onHook: bool)
    | Idle
    | DialTone
    | Dialing(pulses: nat)
    | RingingQuestion(questionId: QuestionId)
    | PlayingQuestion(questionId: QuestionId)
    | Beep(questionId: QuestionId)
    | Recording(questionId: QuestionId)
    | FinishingTimedOutRecording(questionId: QuestionId, onHook: bool)
    | FinishingRecording(questionId: QuestionId, onHook: bool)
    | Uploading(recordingId: RecordingId, questionId: QuestionId, onHook: bool)
    | UploadingTimedOut(recordingId: RecordingId, questionId: QuestionId, beepPending: bool)
    | RecordingEndedBeep
    | PlayingMessage
    | PlayingInstructions
    | CallUnavailable
    | Error(reason: string)

  datatype UploadOutcome = Complete | Deferred | Failed(reason: string)

  datatype Event =
    | UploadFinished(recordingId: RecordingId, outcome: UploadOutcome)
    | HookOn
    | HookOff
    | RotaryPulse
    | DigitDialed(digit: nat)
    | PlaybackEnded
    | RecordingTimedOut
    | RecordingFinished(recordingId: RecordingId)
    | RecordingFailed(reason: string)
    | UploadComplete
    | UploadDeferred
    | UploadFailed(reason: string)
    | QuestionReady(questionId: QuestionId)
    | QuestionFailed(reason: string)
    | MessageReady
    | MessageFailed(reason: string)
    | InstructionsReady
    | InstructionsFailed(reason: string)
    | Tick
    | PowerButtonPressed
    | PowerButtonHeld

  datatype Effect =
    | Play(source: AudioRef)
    | StopAudio
    | StartRecording
    | ArmRecordingTimeout
    | CancelRecordingTimeout
    | StopRecording
    | UploadRecording(recordingId: RecordingId, questionId: QuestionId)
    | FetchRandomQuestion
    | FetchRandomMessage
    | FetchInstructions
    | PutStatus(status: BoothStatus)
    | ArmPulseTimeout
    | CancelPulseTimeout
    | Log(message: string)
    | SetStatusLed(led: Led)
    | Reboot
    | PowerOff

  datatype Step = Step(next: State, effects: seq<Effect>)

  function StatusLedFor(state: State): Led {
    match state
    case CallsPaused(_) => Led(Blue, Steady(LED_BRIGHTNESS_DIM))
    case Idle => Led(Green, Steady(LED_BRIGHTNESS_DIM))
    case DialTone | Dialing(_) => Led(Green, Steady(LED_BRIGHTNESS_FULL))
    case RingingQuestion(_) | PlayingQuestion(_) | PlayingMessage | PlayingInstructions | CallUnavailable =>
      Led(Blue, Steady(LED_BRIGHTNESS_FULL))
    case Beep(_) | Recording(_) | RecordingEndedBeep => Led(Red, Steady(LED_BRIGHTNESS_FULL))
    case UploadingTimedOut(_, _, beepPending) =>
      if beepPending then Led(Red, Steady(LED_BRIGHTNESS_FULL)) else Led(Blue, Blink(LED_FAST_BLINK_MS))
    case FinishingRecording(_, _) | FinishingTimedOutRecording(_, _) | Uploading(_, _, _) =>
      Led(Blue, Blink(LED_FAST_BLINK_MS))
    case Error(_) => Led(Red, Blink(LED_FAST_BLINK_MS))
  }

  function PlayTone(tone: BuiltinTone): Effect {
    Play(Builtin(tone))
  }

  /** A clip whose address the runtime fills in from the last fetch. */
  const PLAY_FETCHED: Effect := Play(RemoteUrl("", None))

  function ToDialTone(): Step {
    Step(DialTone, [PlayTone(DialToneSound), PutStatus(StatusDialTone)])
  }

  function ToError(reason: string, message: string): Step {
    Step(Error(reason), [PlayTone(LineBusy), Log(message + reason)])
  }

  function DigitAction(digit: nat): string {
    if digit == 1 then "fetching a random question"
    else if digit == 2 then "fetching a random message"
    else if digit == 0 then "fetching a random operator instructions clip"
    else "playing the call-cannot-be-completed prompt"
  }

  /** Decodes a digit into the transition out of `Dialing`. */
  function DecodeDigit(digit: nat): Step {
    if digit > 9 then Step(Error("invalid digit " + Print(digit)), [PlayTone(LineBusy)])
    else LoggedDigit(digit, Log("dialed digit " + Print(digit) + ": " + DigitAction(digit)))
  }

  function LoggedDigit(digit: nat, log: Effect): Step {
    if digit == 1 then Step(DialTone, [log, FetchRandomQuestion, CancelPulseTimeout])
    else if digit == 2 then Step(DialTone, [log, FetchRandomMessage, CancelPulseTimeout])
    else if digit == 0 then Step(DialTone, [log, FetchInstructions, CancelPulseTimeout])
    else Step(CallUnavailable,
              [log, PlayTone(CallUnavailablePrompt), CancelPulseTimeout, PutStatus(StatusCallUnavailable)])
  }

  function HandleHookOn(state: State): Step {
    match state
    case Recording(q) =>
      Step(FinishingRecording(q, true),
           [StopAudio, CancelRecordingTimeout, StopRecording, CancelPulseTimeout, PutStatus(StatusUploading)])
    case FinishingRecording(q, _) =>
      Step(FinishingRecording(q, true), [StopAudio, CancelPulseTimeout])
    case FinishingTimedOutRecording(q, _) =>
      Step(FinishingTimedOutRecording(q, true), [StopAudio, CancelRecordingTimeout, CancelPulseTimeout])
    case _ =>
      Step(Idle, [StopAudio, CancelPulseTimeout, CancelRecordingTimeout, PutStatus(StatusIdle)])
  }

  function HandleHookOff(state: State): Step {
    match state
    case Idle => ToDialTone()
    case FinishingRecording(q, _) => Step(FinishingRecording(q, false), [])
    case FinishingTimedOutRecording(q, _) => Step(FinishingTimedOutRecording(q, false), [])
    case Uploading(r, q, _) => Step(Uploading(r, q, false), [])
    case _ => Step(state, [])
  }

  function HandlePulse(state: State): Step {
    match state
    case DialTone => Step(Dialing(1), [StopAudio, ArmPulseTimeout])
    case Dialing(pulses) =>
      var next := if pulses < 255 then pulses + 1 else 255;  // saturating `u8` addition
      if next > MAX_PULSES_PER_DIGIT then
        Step(DialTone, [PlayTone(DialToneSound), CancelPulseTimeout, Log("rotary pulses exceeded maximum")])
      else
        Step(Dialing(next), [ArmPulseTimeout])
    case _ => Step(state, [])
  }

  function HandlePlaybackEnded(state: State): Step {
    match state
    case RingingQuestion(q) => Step(PlayingQuestion(q), [PLAY_FETCHED, PutStatus(StatusPlayingQuestion)])
    case PlayingQuestion(q) => Step(Beep(q), [PlayTone(BeepSound), PutStatus(StatusPlayingQuestion)])
    case Beep(q) => Step(Recording(q), [StartRecording, ArmRecordingTimeout, PutStatus(StatusRecording)])
    case UploadingTimedOut(r, q, beepPending) =>
      if beepPending then Step(UploadingTimedOut(r, q, false), []) else Step(state, [])
    case RecordingEndedBeep | PlayingMessage | PlayingInstructions | CallUnavailable => ToDialTone()
    case _ => Step(state, [])
  }

  function HandleRecordingFinished(state: State, r: RecordingId): Step {
    match state
    case Recording(q) =>
      Step(UploadingTimedOut(r, q, true),
           [CancelRecordingTimeout, PlayTone(BeepSound), UploadRecording(r, q), PutStatus(StatusUploading)])
    case FinishingTimedOutRecording(q, onHook) =>
      if onHook then Step(Uploading(r, q, true), [UploadRecording(r, q), PutStatus(StatusUploading)])
      else Step(UploadingTimedOut(r, q, true),
                [PlayTone(BeepSound), UploadRecording(r, q), PutStatus(StatusUploading)])
    case FinishingRecording(q, onHook) =>
      Step(Uploading(r, q, onHook), [UploadRecording(r, q), PutStatus(StatusUploading)])
    case _ => Step(state, [])
  }

  function HandleRecordingFailed(state: State, reason: string): Step {
    match state
    case Recording(_) =>
      Step(Error(reason), [PlayTone(LineBusy), Log("recording failed: " + reason), CancelRecordingTimeout,
                           PutStatus(StatusIdle)])
    case FinishingTimedOutRecording(_, onHook) =>
      if onHook then
        Step(Idle, [StopAudio, Log("timed-out recording failed after hangup: " + reason), PutStatus(StatusIdle)])
      else
        Step(DialTone, [PlayTone(DialToneSound), Log("timed-out recording failed: " + reason),
                        PutStatus(StatusDialTone)])
    case FinishingRecording(_, onHook) =>
      if onHook then
        Step(Idle, [StopAudio, Log("recording failed after hangup: " + reason), PutStatus(StatusIdle)])
      else
        Step(DialTone, [PlayTone(DialToneSound), Log("recording failed: " + reason), PutStatus(StatusDialTone)])
    case _ => Step(state, [])
  }

  function HandleUploadComplete(state: State): Step {
    match state
    case Uploading(_, _, onHook) => if onHook then Step(Idle, [PutStatus(StatusIdle)]) else ToDialTone()
    case UploadingTimedOut(_, _, beepPending) => if beepPending then Step(RecordingEndedBeep, []) else ToDialTone()
    case _ => Step(state, [])
  }

  function HandleUploadFailed(state: State, reason: string): Step {
    match state
    case Uploading(_, _, onHook) =>
      if onHook then Step(Idle, [Log("upload failed after hangup: " + reason), PutStatus(StatusIdle)])
      else ToError(reason, "upload failed: ")
    case UploadingTimedOut(_, _, _) => ToError(reason, "timed-out recording upload failed: ")
    case _ => Step(state, [])
  }

  /** What the operator's answers to a fetch do; only a dial tone awaits them. */
  function HandleFetchResult(state: State, event: Event): Step {
    if state != DialTone then Step(state, [])
    else
      match event
      case QuestionReady(q) =>
        Step(RingingQuestion(q), [PlayTone(Ringback), PutStatus(StatusPlayingQuestion), Log("question ready: " + q)])
      case QuestionFailed(reason) => ToError(reason, "question fetch failed: ")
      case MessageReady => Step(PlayingMessage, [PLAY_FETCHED, PutStatus(StatusPlayingMessage)])
      case MessageFailed(reason) => ToError(reason, "message fetch failed: ")
      case InstructionsReady => Step(PlayingInstructions, [PLAY_FETCHED, PutStatus(StatusPlayingInstructions)])
      case InstructionsFailed(reason) => ToError(reason, "instructions fetch failed: ")
      case _ => Step(state, [])
  }

  function HandleInner(state: State, event: Event): Step {
    match event
    case HookOn => HandleHookOn(state)
    case HookOff => HandleHookOff(state)
    case RotaryPulse => HandlePulse(state)
    case Tick =>
      if state.Dialing? then DecodeDigit(if state.pulses == 10 then 0 else state.pulses) else Step(state, [])
    case DigitDialed(digit) =>
      if state.DialTone? || state.Dialing? then DecodeDigit(digit) else Step(state, [])
    case PlaybackEnded => HandlePlaybackEnded(state)
    case RecordingTimedOut =>
      if state.Recording? then
        Step(FinishingTimedOutRecording(state.questionId, false),
             [CancelRecordingTimeout, StopRecording, PutStatus(StatusUploading)])
      else Step(state, [])
    case RecordingFinished(r) => HandleRecordingFinished(state, r)
    case RecordingFailed(reason) => HandleRecordingFailed(state, reason)
    case UploadComplete => HandleUploadComplete(state)
    // A deferred upload resets a live call as a fresh off-hook would.
    case UploadDeferred => HandleUploadComplete(state)
    case UploadFailed(reason) => HandleUploadFailed(state, reason)
    case UploadFinished(_, _) => Step(state, [])
    case PowerButtonPressed => Step(state, [Reboot])
    case PowerButtonHeld => Step(state, [PowerOff])
    case _ => HandleFetchResult(state, event)
  }

  /** States that still own a caller's answer; pausing must not cut them short. */
  predicate Protected(state: State) {
    || state.Recording? || state.FinishingRecording? || state.FinishingTimedOutRecording?
    || state.Uploading? || state.UploadingTimedOut?
  }

  predicate BeepPending(state: State) {
    state.UploadingTimedOut? && state.beepPending
  }

  function SuppressBeep(state: State): State {
    if BeepPending(state) then state.(beepPending := false) else state
  }

  /** Drops the effects a paused booth must not have. */
  function Muted(effects: seq<Effect>): seq<Effect> {
    if effects == [] then []
    else if effects[0].PutStatus? || effects[0].Play? then Muted(effects[1..])
    else [effects[0]] + Muted(effects[1..])
  }

  /** Where the state believes the handset to be. */
  predicate HandsetDown(state: State) {
    match state
    case Idle => true
    case CallsPaused(onHook) => onHook
    case FinishingRecording(_, onHook) => onHook
    case FinishingTimedOutRecording(_, onHook) => onHook
    case Uploading(_, _, onHook) => onHook
    case _ => false
  }

  predicate OnHookAfter(state: State, event: Event) {
    match event
    case HookOn => true
    case HookOff => false
    case _ => HandsetDown(state)
  }

  /** The recording an upload state is waiting for. */
  function AwaitedUpload(state: State): Option<RecordingId> {
    match state
    case Uploading(r, _, _) => Some(r)
    case UploadingTimedOut(r, _, _) => Some(r)
    case _ => None
  }

  function Outcome(event: Event): Event
    requires event.UploadFinished?
  {
    match event.outcome
    case Complete => UploadComplete
    case Deferred => UploadDeferred
    case Failed(reason) => UploadFailed(reason)
  }

  function Resume(state: State, event: Event, onHook: bool): Step {
    var resumed := if onHook then Step(Idle, [PutStatus(StatusIdle)]) else HandleInner(Idle, HookOff);
    if event.RotaryPulse? || event.DigitDialed? then
      var input := HandleInner(resumed.next, event);
      Step(input.next, resumed.effects + input.effects)
    else resumed
  }

  /** What is left of an inner step while calls are paused. */
  function Silenced(state: State, inner: Step, onHook: bool): Step {
    var muted := Muted(inner.effects);
    var effects := if BeepPending(state) || BeepPending(inner.next) then [StopAudio] + muted else muted;
    if Protected(inner.next) then Step(SuppressBeep(inner.next), effects)
    else Step(CallsPaused(onHook), effects + [StopAudio, CancelPulseTimeout])
  }

  function HandlePaused(state: State, event: Event, onHook: bool): Step {
    if Protected(state) then Silenced(state, HandleInner(SuppressBeep(state), event), onHook)
    else Step(CallsPaused(onHook), if state.CallsPaused? then [] else [StopAudio, CancelPulseTimeout])
  }

  function HandleAdmitted(state: State, event: Event, accepting: bool): Step {
    if event.PowerButtonPressed? || event.PowerButtonHeld? then HandleInner(state, event)
    else
      var onHook := OnHookAfter(state, event);
      if !accepting then HandlePaused(state, event, onHook)
      else if state.CallsPaused? then Resume(state, event, onHook)
      else HandleInner(state, event)
  }

  function HandleAvailable(state: State, event: Event, accepting: bool): Step {
    if event.UploadFinished? then
      if AwaitedUpload(state) != Some(event.recordingId) then Step(state, [])
      else HandleAdmitted(state, Outcome(event), accepting)
    else HandleAdmitted(state, event, accepting)
  }

  /** The transition function, led indication first. */
  function Handle(state: State, event: Event, accepting: bool): Step {
    var step := HandleAvailable(state, event, accepting);
    if StatusLedFor(step.next) != StatusLedFor(state) then
      step.(effects := [SetStatusLed(StatusLedFor(step.next))] + step.effects)
    else step
  }
}
