/**
 Which step of a call enters which state: for each state, the events and states that lead
 to it and no others.
 */
module CallFlow {
  import opened Wrappers
  import opened Decimal
  import opened CallCore
  import opened CallRuns
  import opened CallSignals

  function NextOf(state: State, event: Event): State {
    HandleInner(state, event).next
  }

  /** The upload is over, its recording sent or safe on disk. */
  predicate UploadOver(event: Event) {
    event.UploadComplete? || event.UploadDeferred?
  }

  predicate Enters(state: State, event: Event, next: State) {
    NextOf(state, event) == next && next != state
  }

  /** A call ends by hanging up, an answer apart, or when what is left of it is over. */
  predicate EndsCall(state: State, event: Event) {
    || (event.HookOn? && !state.Idle? && !HoldsAnswer(state))
    || (event.RecordingFailed? && Finishing(state) && state.onHook)
    || ((UploadOver(event) || event.UploadFailed?) && state.Uploading? && state.onHook)
  }

  /** Hanging up ends a recording; the handset is followed until it is finished. */
  predicate Finishes(state: State, event: Event, q: QuestionId, onHook: bool) {
    || (state == Recording(q) && event.HookOn? && onHook)
    || (state == FinishingRecording(q, !onHook) && (if onHook then event.HookOn? else event.HookOff?))
  }

  /** The time limit stops it, and the same goes from there. */
  predicate FinishesTimedOut(state: State, event: Event, q: QuestionId, onHook: bool) {
    || (state == Recording(q) && event.RecordingTimedOut? && !onHook)
    || (state == FinishingTimedOutRecording(q, !onHook) && (if onHook then event.HookOn? else event.HookOff?))
  }

  /** A finished recording is uploaded, with a beep first if the caller is still there and
      has not hung up. */
  predicate BeginsUpload(state: State, event: Event, r: RecordingId, q: QuestionId, onHook: bool) {
    || (event == RecordingFinished(r)
        && (state == FinishingRecording(q, onHook) || (state == FinishingTimedOutRecording(q, true) && onHook)))
    || (state == Uploading(r, q, true) && event.HookOff? && !onHook)
  }

  predicate BeginsTimedOutUpload(state: State, event: Event, r: RecordingId, q: QuestionId, beepPending: bool) {
    || (event == RecordingFinished(r) && beepPending
        && (state == Recording(q) || state == FinishingTimedOutRecording(q, false)))
    || (state == UploadingTimedOut(r, q, true) && event.PlaybackEnded? && !beepPending)
  }

  lemma HangingUpEnds(state: State)
    ensures Enters(state, HookOn, Idle) <==> !state.Idle? && !HoldsAnswer(state)
  {
  }

  lemma IdleEntered(state: State, event: Event)
    ensures Enters(state, event, Idle) <==> EndsCall(state, event)
  {
    if event.HookOn? {
      HangingUpEnds(state);
    } else if event.RecordingFailed? {
      FailureEnds(state, event.reason);
    } else if UploadOver(event) || event.UploadFailed? {
      UploadEnds(state, event);
    } else {
      OthersDoNotEnd(state, event);
    }
  }

  lemma FailureEnds(state: State, reason: string)
    ensures Enters(state, RecordingFailed(reason), Idle) <==> Finishing(state) && state.onHook
  {
  }

  lemma UploadEnds(state: State, event: Event)
    requires UploadOver(event) || event.UploadFailed?
    ensures Enters(state, event, Idle) <==> state.Uploading? && state.onHook
  {
  }

  lemma OthersDoNotEnd(state: State, event: Event)
    requires !event.HookOn? && !event.RecordingFailed? && !UploadOver(event) && !event.UploadFailed?
    ensures !Enters(state, event, Idle)
  {
  }

  /** Where decoding a digit leads. */
  lemma DecodedLeads(digit: nat)
    ensures var next := DecodeDigit(digit).next;
      && (next == DialTone <==> digit <= 2) && (next == CallUnavailable <==> 2 < digit <= 9)
      && (next.Error? <==> digit > 9)
      && (next == DialTone || next == CallUnavailable || next.Error?)
  {
  }

  predicate Dials(event: Event) {
    event.Tick? || event.DigitDialed?
  }

  lemma DiallingLeads(state: State, event: Event)
    requires Dials(event) && (state.Dialing? ==> state.pulses <= 10)
    ensures var next := NextOf(state, event);
      && (next == DialTone <==> (state == DialTone && Dialled(state, event).None? && !event.DigitDialed?)
                                || (Dialled(state, event).Some? && Dialled(state, event).value <= 2))
      && (next == CallUnavailable <==> state == CallUnavailable
                                       || (Dialled(state, event).Some? && Dialled(state, event).value > 2))
      && (next.Error? <==> state.Error? || (event.DigitDialed? && event.digit > 9 && (state.DialTone? || state.Dialing?)))
  {
    if state.Dialing? && event.Tick? {
      DecodedLeads(if state.pulses == 10 then 0 else state.pulses);
    } else if event.DigitDialed? {
      DecodedLeads(event.digit);
    }
  }

  predicate ReturnsToTone(state: State, event: Event) {
    || (event.HookOff? && state.Idle?)
    || (event.RotaryPulse? && state.Dialing? && state.pulses == 10)
    || (event.PlaybackEnded? && (state.RecordingEndedBeep? || state.PlayingMessage? || state.PlayingInstructions?
                                 || state.CallUnavailable?))
    || (event.RecordingFailed? && Finishing(state) && !state.onHook)
    || (UploadOver(event) && ((state.Uploading? && !state.onHook) || (state.UploadingTimedOut? && !state.beepPending)))
  }

  lemma ToneWithoutDigit(state: State, event: Event)
    requires !Dials(event) && (state.Dialing? ==> state.pulses <= 10)
    ensures Enters(state, event, DialTone) <==> ReturnsToTone(state, event)
  {
  }

  lemma DialToneEntered(state: State, event: Event)
    requires state.Dialing? ==> state.pulses <= 10
    ensures Enters(state, event, DialTone) <==>
      || (state.Dialing? && Dialled(state, event).Some? && Dialled(state, event).value <= 2)
      || ReturnsToTone(state, event)
  {
    if Dials(event) {
      DiallingLeads(state, event);
    } else {
      ToneWithoutDigit(state, event);
    }
  }

  lemma DialingEntered(state: State, event: Event, pulses: nat)
    requires state.Dialing? ==> state.pulses <= 10
    ensures Enters(state, event, Dialing(pulses)) <==>
      event.RotaryPulse? && ((state.DialTone? && pulses == 1) || (state.Dialing? && pulses == state.pulses + 1 <= 10))
  {
  }

  lemma OnlyReadinessRings(state: State, event: Event, q: QuestionId)
    requires !FetchResult(event)
    ensures !Enters(state, event, RingingQuestion(q))
  {
  }

  lemma RingingEntered(state: State, event: Event, q: QuestionId)
    ensures Enters(state, event, RingingQuestion(q)) <==> state.DialTone? && event == QuestionReady(q)
  {
    if FetchResult(event) {
      assert NextOf(state, event) == HandleFetchResult(state, event).next;
    } else {
      OnlyReadinessRings(state, event, q);
    }
  }

  lemma QuestionEntered(state: State, event: Event, q: QuestionId)
    ensures Enters(state, event, PlayingQuestion(q)) <==> state == RingingQuestion(q) && event.PlaybackEnded?
  {
  }

  lemma BeepEntered(state: State, event: Event, q: QuestionId)
    ensures Enters(state, event, Beep(q)) <==> state == PlayingQuestion(q) && event.PlaybackEnded?
  {
  }

  lemma RecordingEntered(state: State, event: Event, q: QuestionId)
    ensures Enters(state, event, Recording(q)) <==> state == Beep(q) && event.PlaybackEnded?
  {
  }

  lemma MessageEntered(state: State, event: Event)
    ensures Enters(state, event, PlayingMessage) <==> state.DialTone? && event.MessageReady?
  {
  }

  lemma InstructionsEntered(state: State, event: Event)
    ensures Enters(state, event, PlayingInstructions) <==> state.DialTone? && event.InstructionsReady?
  {
  }

  lemma EndBeepEntered(state: State, event: Event)
    ensures Enters(state, event, RecordingEndedBeep) <==> UploadOver(event) && BeepPending(state)
  {
  }

  lemma NoPromptWithoutDigit(state: State, event: Event)
    requires !Dials(event)
    ensures !Enters(state, event, CallUnavailable)
  {
  }

  lemma UnavailableEntered(state: State, event: Event)
    requires state.Dialing? ==> state.pulses <= 10
    ensures Enters(state, event, CallUnavailable) <==> Dialled(state, event).Some? && 2 < Dialled(state, event).value
  {
    if Dials(event) {
      DiallingLeads(state, event);
    } else {
      NoPromptWithoutDigit(state, event);
    }
  }

  lemma FinishingEntered(state: State, event: Event, q: QuestionId, onHook: bool)
    ensures Enters(state, event, FinishingRecording(q, onHook)) <==> Finishes(state, event, q, onHook)
  {
  }

  lemma FinishingTimedOutEntered(state: State, event: Event, q: QuestionId, onHook: bool)
    ensures Enters(state, event, FinishingTimedOutRecording(q, onHook)) <==> FinishesTimedOut(state, event, q, onHook)
  {
  }

  lemma UploadingEntered(state: State, event: Event, r: RecordingId, q: QuestionId, onHook: bool)
    ensures Enters(state, event, Uploading(r, q, onHook)) <==> BeginsUpload(state, event, r, q, onHook)
  {
  }

  lemma UploadingTimedOutEntered(state: State, event: Event, r: RecordingId, q: QuestionId, beepPending: bool)
    ensures Enters(state, event, UploadingTimedOut(r, q, beepPending)) <==> BeginsTimedOutUpload(state, event, r, q, beepPending)
  {
  }

  lemma ErrorEntered(state: State, event: Event)
    requires state.Dialing? ==> state.pulses <= 10
    ensures (NextOf(state, event).Error? && NextOf(state, event) != state) <==> Fails(state, event)
    ensures NextOf(state, event).CallsPaused? ==> NextOf(state, event) == state
  {
  }

  predicate TellsReason(event: Event) {
    || event.QuestionFailed? || event.MessageFailed? || event.InstructionsFailed?
    || event.RecordingFailed? || event.UploadFailed?
  }

  /** An error names what went wrong, in the words of the event that told it. */
  lemma ErrorNamesReason(state: State, event: Event)
    requires !state.Error? && NextOf(state, event).Error?
    ensures TellsReason(event) ==> NextOf(state, event).reason == event.reason
    ensures event.DigitDialed? ==> NextOf(state, event).reason == "invalid digit " + Print(event.digit)
  {
  }

  /** What leads from one state to another, seen from where it leads. */
  predicate LeadsTo(state: State, event: Event, next: State) {
    match next
    case Idle => EndsCall(state, event)
    case CallsPaused(_) => false
    case DialTone =>
      (state.Dialing? && Dialled(state, event).Some? && Dialled(state, event).value <= 2) || ReturnsToTone(state, event)
    case Dialing(pulses) =>
      event.RotaryPulse? && ((state.DialTone? && pulses == 1) || (state.Dialing? && pulses == state.pulses + 1 <= 10))
    case RingingQuestion(q) => state.DialTone? && event == QuestionReady(q)
    case PlayingQuestion(q) => state == RingingQuestion(q) && event.PlaybackEnded?
    case Beep(q) => state == PlayingQuestion(q) && event.PlaybackEnded?
    case Recording(q) => state == Beep(q) && event.PlaybackEnded?
    case FinishingRecording(q, onHook) => Finishes(state, event, q, onHook)
    case FinishingTimedOutRecording(q, onHook) => FinishesTimedOut(state, event, q, onHook)
    case Uploading(r, q, onHook) => BeginsUpload(state, event, r, q, onHook)
    case UploadingTimedOut(r, q, beepPending) => BeginsTimedOutUpload(state, event, r, q, beepPending)
    case RecordingEndedBeep => UploadOver(event) && BeepPending(state)
    case PlayingMessage => state.DialTone? && event.MessageReady?
    case PlayingInstructions => state.DialTone? && event.InstructionsReady?
    case CallUnavailable => Dialled(state, event).Some? && 2 < Dialled(state, event).value
    case Error(reason) => Fails(state, event) && reason == Blame(event)
  }

  predicate Fails(state: State, event: Event) {
    || (event.DigitDialed? && event.digit > 9 && (state.DialTone? || state.Dialing?))
    || (state.DialTone? && (event.QuestionFailed? || event.MessageFailed? || event.InstructionsFailed?))
    || (event.RecordingFailed? && state.Recording?)
    || (event.UploadFailed? && (state.UploadingTimedOut? || (state.Uploading? && !state.onHook)))
  }

  /** The words of the event that tells of a failure. */
  function Blame(event: Event): string {
    if event.DigitDialed? then "invalid digit " + Print(event.digit)
    else if TellsReason(event) then event.reason
    else ""
  }

  predicate AnswersQuestion(next: State) {
    next.PlayingQuestion? || next.Beep? || Protected(next) || next.RecordingEndedBeep?
  }

  lemma AnswerEntered(state: State, event: Event, next: State)
    requires AnswersQuestion(next)
    ensures Enters(state, event, next) <==> LeadsTo(state, event, next)
  {
    match next {
      case PlayingQuestion(q) => QuestionEntered(state, event, q);
      case Beep(q) => BeepEntered(state, event, q);
      case Recording(q) => RecordingEntered(state, event, q);
      case FinishingRecording(q, onHook) => FinishingEntered(state, event, q, onHook);
      case FinishingTimedOutRecording(q, onHook) => FinishingTimedOutEntered(state, event, q, onHook);
      case Uploading(r, q, onHook) => UploadingEntered(state, event, r, q, onHook);
      case UploadingTimedOut(r, q, beepPending) => UploadingTimedOutEntered(state, event, r, q, beepPending);
      case RecordingEndedBeep => EndBeepEntered(state, event);
    }
  }

  lemma OtherEntered(state: State, event: Event, next: State)
    requires !AnswersQuestion(next) && (state.Dialing? ==> state.pulses <= 10)
    ensures Enters(state, event, next) <==> LeadsTo(state, event, next)
  {
    match next {
      case Idle => IdleEntered(state, event);
      case CallsPaused(_) => ErrorEntered(state, event);
      case DialTone => DialToneEntered(state, event);
      case Dialing(pulses) => DialingEntered(state, event, pulses);
      case RingingQuestion(q) => RingingEntered(state, event, q);
      case PlayingMessage => MessageEntered(state, event);
      case PlayingInstructions => InstructionsEntered(state, event);
      case CallUnavailable => UnavailableEntered(state, event);
      case Error(reason) => ErrorEnteredFor(state, event, reason);
    }
  }

  /** The inner machine enters a state if and only if something leads there. */
  lemma EntersExactly(state: State, event: Event, next: State)
    requires state.Dialing? ==> state.pulses <= 10
    ensures Enters(state, event, next) <==> LeadsTo(state, event, next)
  {
    if AnswersQuestion(next) {
      AnswerEntered(state, event, next);
    } else {
      OtherEntered(state, event, next);
    }
  }

  lemma ErrorEnteredFor(state: State, event: Event, reason: string)
    requires state.Dialing? ==> state.pulses <= 10
    ensures Enters(state, event, Error(reason)) <==> LeadsTo(state, event, Error(reason))
  {
    ErrorEntered(state, event);
    if !state.Error? && NextOf(state, event).Error? {
      ErrorNamesReason(state, event);
    }
  }

  /** The whole machine goes where the inner one does, unless it is another's upload, calls
      are paused, or they resume; a pause keeps an answer under way and nothing else. */
  lemma WholeFlow(state: State, event: Event, accepting: bool)
    ensures var next := Handle(state, event, accepting).next;
      var e := if event.UploadFinished? && !Foreign(state, event) then Outcome(event) else event;
      && (Foreign(state, event) || PowerEvent(event) ==> next == state)
      && (!Foreign(state, event) && !PowerEvent(e) ==>
            if accepting then
              next == (if !state.CallsPaused? then NextOf(state, e)
                       else if OnHookAfter(state, e) then Idle
                       else if e.RotaryPulse? || e.DigitDialed? then NextOf(DialTone, e)
                       else DialTone)
            else if Protected(state) && Protected(NextOf(SuppressBeep(state), e)) then
              next == SuppressBeep(NextOf(SuppressBeep(state), e))
            else next == CallsPaused(OnHookAfter(state, e)))
  {
  }
}
