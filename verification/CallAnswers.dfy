/**
 A caller's answer, from the start of its recording to the request to upload it:
 which steps touch it, and that pausing calls never cuts or loses one.
 */
module CallAnswers {
  import opened Wrappers
  import opened CallCore
  import opened CallRuns

  /** The effects that finalize or upload an answer, in order. */
  function AnswerEffects(es: seq<Effect>): seq<Effect> {
    if es == [] then []
    else if es[0].StopRecording? || es[0].UploadRecording? then [es[0]] + AnswerEffects(es[1..])
    else AnswerEffects(es[1..])
  }

  lemma {:induction false} AnswerEffectsAppend(a: seq<Effect>, b: seq<Effect>)
    ensures AnswerEffects(a + b) == AnswerEffects(a) + AnswerEffects(b)
    decreases |a|
  {
    if a == [] {
      assert a + b == b;
    } else {
      assert (a + b)[1..] == a[1..] + b;
      AnswerEffectsAppend(a[1..], b);
    }
  }

  lemma {:induction false} MutingKeepsAnswers(es: seq<Effect>)
    ensures AnswerEffects(Muted(es)) == AnswerEffects(es)
    decreases |es|
  {
    if es != [] {
      MutingKeepsAnswers(es[1..]);
      if !es[0].PutStatus? && !es[0].Play? {
        assert Muted(es)[1..] == Muted(es[1..]);
      }
    }
  }

  lemma {:induction false} AnswerEffectsContain(es: seq<Effect>, e: Effect)
    requires e.StopRecording? || e.UploadRecording?
    ensures e in es <==> e in AnswerEffects(es)
    decreases |es|
  {
    if es != [] {
      AnswerEffectsContain(es[1..], e);
    }
  }

  /** What a step owes the answer in progress: a decision of the state and the
      event alone, whatever the admission gate says. */
  function Owed(state: State, event: Event): seq<Effect> {
    if state.Recording? && (event.HookOn? || event.RecordingTimedOut?) then [StopRecording]
    else if HoldsAnswer(state) && event.RecordingFinished? then [UploadRecording(event.recordingId, state.questionId)]
    else []
  }

  predicate NoAnswers(es: seq<Effect>) {
    forall e :: e in es ==> !e.StopRecording? && !e.UploadRecording?
  }

  lemma {:induction false} NoAnswersAreOwed(es: seq<Effect>)
    requires NoAnswers(es)
    ensures AnswerEffects(es) == []
    decreases |es|
  {
    if es != [] {
      NoAnswersAreOwed(es[1..]);
    }
  }

  lemma {:induction false} OneAnswer(before: seq<Effect>, e: Effect, rest: seq<Effect>)
    requires NoAnswers(before) && NoAnswers(rest) && (e.StopRecording? || e.UploadRecording?)
    ensures AnswerEffects(before + [e] + rest) == [e]
  {
    AnswerEffectsAppend(before + [e], rest);
    AnswerEffectsAppend(before, [e]);
    NoAnswersAreOwed(before);
    NoAnswersAreOwed(rest);
    assert [e][1..] == [];
  }

  lemma QuietHook(state: State, event: Event)
    requires (event.HookOn? || event.HookOff?) && Owed(state, event) == []
    ensures NoAnswers(HandleInner(state, event).effects)
  {
  }

  lemma QuietDecode(digit: nat)
    ensures NoAnswers(DecodeDigit(digit).effects)
  {
  }

  lemma QuietPulse(state: State)
    ensures NoAnswers(HandlePulse(state).effects)
  {
  }

  lemma QuietDial(state: State, event: Event)
    requires event.RotaryPulse? || event.Tick? || event.DigitDialed?
    ensures NoAnswers(HandleInner(state, event).effects)
  {
    if event.RotaryPulse? {
      QuietPulse(state);
    } else if event.DigitDialed? {
      QuietDecode(event.digit);
    } else if state.Dialing? {
      QuietDecode(if state.pulses == 10 then 0 else state.pulses);
    }
  }

  lemma QuietAudio(state: State, event: Event)
    requires event.PlaybackEnded? || event.RecordingTimedOut? || event.RecordingFinished? || event.RecordingFailed?
    requires Owed(state, event) == []
    ensures NoAnswers(HandleInner(state, event).effects)
  {
  }

  lemma QuietUpload(state: State, event: Event)
    requires UploadResult(event)
    ensures NoAnswers(HandleInner(state, event).effects)
  {
  }

  lemma QuietFetch(state: State, event: Event)
    requires FetchResult(event)
    ensures NoAnswers(HandleInner(state, event).effects)
  {
  }

  lemma QuietStep(state: State, event: Event)
    requires Owed(state, event) == []
    ensures NoAnswers(HandleInner(state, event).effects)
  {
    if event.HookOn? || event.HookOff? {
      QuietHook(state, event);
    } else if event.RotaryPulse? || event.Tick? || event.DigitDialed? {
      QuietDial(state, event);
    } else if event.PlaybackEnded? || event.RecordingTimedOut? || event.RecordingFinished? || event.RecordingFailed? {
      QuietAudio(state, event);
    } else if UploadResult(event) {
      QuietUpload(state, event);
    } else if FetchResult(event) {
      QuietFetch(state, event);
    }
  }

  lemma InnerOwes(state: State, event: Event)
    ensures AnswerEffects(HandleInner(state, event).effects) == Owed(state, event)
  {
    var es := HandleInner(state, event).effects;
    if Owed(state, event) == [] {
      QuietStep(state, event);
      NoAnswersAreOwed(es);
    } else if event.HookOn? {
      OneAnswer([StopAudio, CancelRecordingTimeout], StopRecording, [CancelPulseTimeout, PutStatus(StatusUploading)]);
      assert es == [StopAudio, CancelRecordingTimeout] + [StopRecording] + [CancelPulseTimeout, PutStatus(StatusUploading)];
    } else if event.RecordingTimedOut? {
      OneAnswer([CancelRecordingTimeout], StopRecording, [PutStatus(StatusUploading)]);
      assert es == [CancelRecordingTimeout] + [StopRecording] + [PutStatus(StatusUploading)];
    } else {
      UploadIsOwed(state, event.recordingId);
    }
  }

  lemma UploadIsOwed(state: State, r: RecordingId)
    requires HoldsAnswer(state)
    ensures AnswerEffects(HandleRecordingFinished(state, r).effects) == [UploadRecording(r, state.questionId)]
  {
    var es := HandleRecordingFinished(state, r).effects;
    var n := |es| - 2;
    assert es[n] == UploadRecording(r, state.questionId);
    assert es == es[..n] + [es[n]] + es[n + 1..];
    OneAnswer(es[..n], es[n], es[n + 1..]);
  }

  lemma SilencedOwes(state: State, inner: Step, onHook: bool)
    ensures AnswerEffects(Silenced(state, inner, onHook).effects) == AnswerEffects(inner.effects)
  {
    var muted := Muted(inner.effects);
    MutingKeepsAnswers(inner.effects);
    AnswerEffectsAppend([StopAudio], muted);
    NoAnswersAreOwed([StopAudio]);
    NoAnswersAreOwed([StopAudio, CancelPulseTimeout]);
    AnswerEffectsAppend(muted, [StopAudio, CancelPulseTimeout]);
    AnswerEffectsAppend([StopAudio] + muted, [StopAudio, CancelPulseTimeout]);
  }

  lemma ResumeOwes(state: State, event: Event, onHook: bool)
    ensures AnswerEffects(Resume(state, event, onHook).effects) == []
  {
    var resumed := if onHook then Step(Idle, [PutStatus(StatusIdle)]) else HandleInner(Idle, HookOff);
    NoAnswersAreOwed(resumed.effects);
    if event.RotaryPulse? || event.DigitDialed? {
      InnerOwes(resumed.next, event);
      AnswerEffectsAppend(resumed.effects, HandleInner(resumed.next, event).effects);
    }
  }

  lemma PausedOwes(state: State, event: Event, onHook: bool)
    ensures AnswerEffects(HandlePaused(state, event, onHook).effects) == Owed(state, event)
  {
    if Protected(state) {
      InnerOwes(SuppressBeep(state), event);
      SilencedOwes(state, HandleInner(SuppressBeep(state), event), onHook);
    } else {
      NoAnswersAreOwed([StopAudio, CancelPulseTimeout]);
    }
  }

  lemma AdmittedOwes(state: State, event: Event, accepting: bool)
    requires !event.UploadFinished?
    ensures AnswerEffects(HandleAdmitted(state, event, accepting).effects) == Owed(state, event)
  {
    if event.PowerButtonPressed? || event.PowerButtonHeld? || (accepting && !state.CallsPaused?) {
      InnerOwes(state, event);
    } else if accepting {
      ResumeOwes(state, event, OnHookAfter(state, event));
    } else {
      PausedOwes(state, event, OnHookAfter(state, event));
    }
  }

  /** A step finalizes or uploads an answer exactly when its state and event say
      so: never because of, and never in spite of, the admission decision. */
  lemma StepOwes(state: State, event: Event, accepting: bool)
    ensures AnswerEffects(Handle(state, event, accepting).effects) == Owed(state, event)
  {
    var step := HandleAvailable(state, event, accepting);
    if event.UploadFinished? {
      if AwaitedUpload(state) == Some(event.recordingId) {
        AdmittedOwes(state, Outcome(event), accepting);
      }
    } else {
      AdmittedOwes(state, event, accepting);
    }
    var led := SetStatusLed(StatusLedFor(step.next));
    assert ([led] + step.effects)[1..] == step.effects;
  }

  lemma InnerLeaves(state: State, event: Event)
    requires HoldsAnswer(state)
    ensures HoldsAnswer(HandleInner(state, event).next) <==> !event.RecordingFinished? && !event.RecordingFailed?
  {
  }

  /** An answer in progress is given up only when the recorder has finished, and
      then it is uploaded once, or when the recorder has failed. */
  lemma AnswerEndsOnlyWithRecorder(state: State, event: Event, accepting: bool)
    requires HoldsAnswer(state)
    ensures HoldsAnswer(Handle(state, event, accepting).next)
       <==> !event.RecordingFinished? && !event.RecordingFailed?
    ensures event.RecordingFinished? ==>
              AnswerEffects(Handle(state, event, accepting).effects)
              == [UploadRecording(event.recordingId, state.questionId)]
  {
    InnerLeaves(state, event);
    StepOwes(state, event, accepting);
  }

  /** Every upload a run asks for answers the last question the machine accepted
      and carries the recording that has just been finalized. */
  lemma UploadsAnswerTheLastQuestion(inputs: seq<Input>, event: Event, accepting: bool, r: RecordingId, q: QuestionId)
    ensures UploadRecording(r, q) in Handle(RunState(inputs), event, accepting).effects ==>
              && RunWorld(inputs).question == Some(q)
              && event == RecordingFinished(r)
              && HoldsAnswer(RunState(inputs))
  {
    var state := RunState(inputs);
    RunKeepsInvariant(inputs);
    StepOwes(state, event, accepting);
    AnswerEffectsContain(Handle(state, event, accepting).effects, UploadRecording(r, q));
  }

  // ----- pausing never cuts or loses an answer

  /** Two states that differ at most in the end-of-recording beep. */
  predicate SameAnswer(s: State, t: State) {
    SuppressBeep(s) == SuppressBeep(t)
  }

  lemma InnerIgnoresBeep(s: State, event: Event)
    requires Protected(s)
    ensures var a, b := HandleInner(s, event).next, HandleInner(SuppressBeep(s), event).next;
            && (Protected(a) <==> Protected(b))
            && (Protected(a) ==> SameAnswer(a, b))
  {
  }

  /** The protected state a step leads to, the beep aside. */
  lemma NextAnswer(s: State, event: Event, accepting: bool)
    requires Protected(s) && !event.UploadFinished?
    ensures var a, b := HandleAdmitted(s, event, accepting).next, HandleInner(SuppressBeep(s), event).next;
            && (Protected(a) <==> Protected(b))
            && (Protected(a) ==> SameAnswer(a, b))
  {
    InnerIgnoresBeep(s, event);
  }

  lemma StepsAgree(s: State, t: State, event: Event, a: bool, b: bool)
    requires Protected(s) && Protected(t) && SameAnswer(s, t)
    ensures AnswerEffects(Handle(s, event, a).effects) == AnswerEffects(Handle(t, event, b).effects)
    ensures Protected(Handle(s, event, a).next) <==> Protected(Handle(t, event, b).next)
    ensures Protected(Handle(s, event, a).next) ==> SameAnswer(Handle(s, event, a).next, Handle(t, event, b).next)
  {
    StepOwes(s, event, a);
    StepOwes(t, event, b);
    if event.UploadFinished? {
      if AwaitedUpload(s) == Some(event.recordingId) {
        NextAnswer(s, Outcome(event), a);
        NextAnswer(t, Outcome(event), b);
      }
    } else {
      NextAnswer(s, event, a);
      NextAnswer(t, event, b);
    }
  }

  /** What becomes of an answer: the effects that concern it and the number of
      events until the machine lets go of it (or the events run out). */
  function Fate(s: State, events: seq<Event>, schedule: seq<bool>): (f: (seq<Effect>, nat))
    requires |schedule| == |events|
    decreases |events|, 0
  {
    if events == [] || !Protected(s) then ([], 0)
    else
      FateAfter(Handle(s, events[0], schedule[0]), events[1..], schedule[1..])
  }

  function FateAfter(step: Step, events: seq<Event>, schedule: seq<bool>): (seq<Effect>, nat)
    requires |schedule| == |events|
    decreases |events|, 1
  {
    var rest := Fate(step.next, events, schedule);
    (AnswerEffects(step.effects) + rest.0, 1 + rest.1)
  }

  /** Whatever the admission gate does meanwhile, an answer meets the same fate. */
  lemma {:induction false} PausingNeverChangesFate(s: State, t: State, events: seq<Event>, a: seq<bool>, b: seq<bool>)
    requires |a| == |b| == |events|
    requires Protected(s) && Protected(t) && SameAnswer(s, t)
    ensures Fate(s, events, a) == Fate(t, events, b)
    decreases |events|, 0
  {
    if events != [] {
      StepsAgree(s, t, events[0], a[0], b[0]);
      FatesAgree(Handle(s, events[0], a[0]), Handle(t, events[0], b[0]), events[1..], a[1..], b[1..]);
    }
  }

  lemma {:induction false} FatesAgree(s: Step, t: Step, events: seq<Event>, a: seq<bool>, b: seq<bool>)
    requires |a| == |b| == |events|
    requires AnswerEffects(s.effects) == AnswerEffects(t.effects)
    requires Protected(s.next) <==> Protected(t.next)
    requires Protected(s.next) ==> SameAnswer(s.next, t.next)
    ensures FateAfter(s, events, a) == FateAfter(t, events, b)
    decreases |events|, 1
  {
    if Protected(s.next) {
      PausingNeverChangesFate(s.next, t.next, events, a, b);
    }
  }
}
