# Phone booth verification

A Dafny 4.11 model of the parts of the phone-booth software whose correctness depends
on more than one function: the FLAC header rewriter, the durable event spool and its
forwarder, the call state machine and the session tracker that watches it, the
pending-upload protocol and its replayer, the admission gate, the GPIO sampler and the
names of stored keys. `dafny verify dfyconfig.toml` checks everything.

## How the pieces are modelled

- **FLAC rewriting** (`Polynomials`, `Words8`, `Words16`, `Crc`, `FlacReader`, `FlacFrame`).
  Bytes are bit-vectors. The table-driven checksums are related to polynomial long division
  over GF(2), which is itself characterised independently by the existence of a quotient.
  The rewriter is an in-place method over an array. Its meaning is RFC 9639, sections
  9.1.1, 9.1.2, 9.1.5, 9.1.8 and 9.3: `FlacReader` reads headers as a decoder does, bit
  strings looked up in the tables of these sections.
- **Event spool** (`SpoolKeys`, `SpoolQueue`, `EventSpool`, `SpoolDurability`,
  `SpoolCrash`, `SpoolDrain`, `Forwarder`). A directory is a map from parsed keys to batches; the
  queue it stands for is its files in key order, flattened. Every file operation may
  stop half-way: faults are inputs, and what had reached the directory stays. `SpoolCrash`
  adds crashes: a directory change is safe only once synced, and until then a crash may
  keep or undo each change on its own. The forwarder is a class whose ghost fields record
  the fate of each event, every request and every reply.
- **Calls** (`CallCore`, `CallRuns`, `CallAnswers`, `CallFlow`, `CallSignals`,
  `SessionTracker`). `CallCore.Handle`
  transcribes `handle_with_call_availability` (crates/booth-core/src/lib.rs:499-1211)
  branch by branch. `CallRuns` adds a world — recorder, loudspeaker, timers, cradle,
  light, uploads — driven by the effects, and proves invariants over arbitrary event
  sequences and admission schedules; events are not assumed to arrive when expected.
  `CallFlow` says from the other end which states and events lead to each state, and
  `CallSignals` what each step sounds, shows and asks for.
- **Uploads** (`PendingUploads`, `UploadProtocol`, `UploadFlow`, `UploadSafety`,
  `ReplaySweep`, `SweepOutcome`). The spool is a class;
  the protocol is a transition system whose steps interleave foreground tasks, the renames
  and syncs of blocking writes, removals, the replayer, shutdown, restarts of the process
  and crashes of the machine in any order; the replayer's
  sweep is a class over the spool, with `sort_by`, `position` and `rotate_left` as
  specified functions.
- **Admission** (`InstallationGate`): the gate as a class, and a transition system of
  probes, replies and clock ticks around it.
- **GPIO** (`GpioSampler`, `GpioDelivery`): the poll loop as a class over a bounded queue;
  samples and the consumer's reads are inputs.
- **Stored keys** (`FileStorage`): escaping and unescaping as loops over the bytes of
  UTF-8 text, and the temporary-file protocol of writes under faults.
- **Temporary names** (`MonotonicClock`): the compare-and-swap loops behind the names of
  pending uploads' temporary files, interleaved in any way.

`Decimal` holds decimal printing and parsing, `Wrappers` the option type.

## What turned out not to hold

- The pulse timer is not always cancelled on leaving `Dialing`: a digit above 9 injected
  while dialling leads to `Error` with the timer still armed.
  `CallRuns.PulseTimerStep` gives the exact condition, and
  `CallRuns.OversizedDigitLeavesTimerRunning` a run.
- A replay can be sending an entry that is no longer stored: shutdown may abort a task
  whose confirmed entry is still to be removed, the replayer, not yet stopped, looks and
  finds the entry, and the removal then runs, before or after the sending begins.
  `UploadSafety.ReplayLosesEntryOnlyToDetached` shows that an entry the replayer has seen
  goes missing in no other way, `UploadSafety.ReplayOfMissingEntry` gives the two steps that
  bring such a replay about, and `UploadSafety.DetachedRemovalRacesReplay` and
  `UploadSafety.ReplayBeginsAfterRemoval` that both happen. The recording is confirmed by
  then, so nothing is lost.
- A replay can be sending an entry that is stored but not durable, without any shutdown,
  in two ways. When the directory sync at the end of `enqueue` fails, the foreground task
  gives up, but the renamed entry is there for the replayer
  (`UploadSafety.UnsyncedEntryIsReplayed`). And when the process ends between rename and
  sync, the one that is started after it finds the entry
  (`UploadSafety.RestartedReplayIsUndurable`; the service is restarted on failure,
  packaging/debian/telephone-booth.service:18-20).
  `UploadSafety.ReplayIsUndurableExactly` shows over runs that these are the only ways, for
  as long as no write of any entry syncs the directory; `UploadSafety.ReplayOfUndurableEntry`
  gives the condition for each step, shutdown included. So where no sync fails and every
  restart finds the directory synced, every replay outside a shutdown is of a durable entry
  (`UploadSafety.SyncedReplaysAreDurable`). Foreground uploads always are.
- The outcome of a call need not be the outcome of that call. A report on an upload is
  credited to whatever call is in progress: after hanging up twice during an upload and
  lifting the handset again, the late report makes the new call count as completed
  (`SessionTracker.LateReportDecides`). And any event handled between an upload's report
  and its delivery to the call machine puts the call back to uploading, so that it does not
  count as completed: a stray pulse (`SessionTracker.PulseHidesCompletion`), or simply the
  end of the beep after a timed-out recording (`SessionTracker.BeepHidesCompletion`).
  `SessionTracker.OutcomesAreOwn` and `SessionTracker.CompletionIsTold` say exactly when.
- On a file system that may reorder directory changes, a crash between the removal of a
  split file and the directory sync can keep the removal and undo the renames.
  `SpoolCrash.SplitEndangersItsSource` says exactly when safe events are then at risk, and
  `SpoolCrash.UnsyncedSplitMayLoseAll` gives a case. Where changes reach the disk in order,
  a crash leaves one of the stages of `SpoolDurability.SplitLosesNothing`, all of which hold
  the same events.
- Unescaping fails on text in which an escape would cut a character in two, and yields
  the empty key for escapes that are no text (`FileStorage.NotEveryNameDecodes`); names
  made by escaping are never of that kind (`FileStorage.KeyRoundTrip`).
- `handle_inner` alone does not hear a pickup while calls are paused on the hook
  (`CallRuns.InnerStepExactly`); the wrapper never asks it to.
- The comment on the sync code speaks of a reserved 0 bit after it; the code takes frames
  with either value of that bit (crates/booth-pi/src/flac_frame.rs:123-128), and
  `FlacReader.HeaderLen` reads 14 bits accordingly.
- The status last shown need not be that of the call: a step into an error, the recorder's
  apart, and most steps while calls are paused push none. `CallSignals.StatusStaysExactly`
  says exactly which.
- The comment on key escaping lists `/`, `\`, `:`, `%` and `.`; the code escapes NUL too
  (crates/booth-bin/src/file_storage.rs:87-106). The model follows the code.

## Model

| member | source | states |
|---|---|---|
| Polynomials.RemainderIffDivision | crates/booth-pi/src/flac_frame.rs:72-82 | the reference remainder is exact: `r` is the result if and only if the dividend is some multiple of the divisor plus `r` |
| Polynomials.RegisterDivides | crates/booth-pi/src/flac_frame.rs:30-49 | clocking a message bit by bit through the division register leaves the remainder of the message times x^width |
| Crc.BuildCrc8Table | crates/booth-pi/src/flac_frame.rs:30-49 | the looped construction yields, for each of the 256 bytes, its eight division steps |
| Crc.BuildCrc16Table | crates/booth-pi/src/flac_frame.rs:51-70 | the same for the 16-bit table |
| Crc.Crc8IsRemainder | crates/booth-pi/src/flac_frame.rs:72-76 | for every byte string, `crc8` by table look-up is the remainder of message times x^8 modulo x^8+x^2+x+1, that divisor written out by its powers |
| Crc.Crc16IsRemainder | crates/booth-pi/src/flac_frame.rs:78-82 | for every byte string, `crc16` by table look-up is the remainder of message times x^16 modulo x^16+x^15+x^2+1, that divisor written out by its powers |
| Crc.Divisor8 | crates/booth-pi/src/flac_frame.rs:17-18 | the constant's bits are the powers 2, 1 and 0 |
| Crc.Divisor16 | crates/booth-pi/src/flac_frame.rs:19-20 | the constant's bits are the powers 15, 2 and 0 |
| Crc.OneByteChangesChecksum8 | crates/booth-pi/src/flac_frame.rs:72-76 | replacing any one byte of any message by a different one changes its CRC-8 |
| Crc.Checksum8Residue | crates/booth-pi/src/flac_frame.rs:203-225 | a message followed by its own CRC-8 has checksum 0 |
| Crc.Checksum16Residue | crates/booth-pi/src/flac_frame.rs:203-225 | a frame followed by its own CRC-16, high byte first, has checksum 0 |
| FlacFrame.RateCodeIsRead | crates/booth-pi/src/flac_frame.rs:84-106 | a rate is given a code if and only if a decoder reads that code as that rate |
| FlacFrame.HeaderLenIsRead | crates/booth-pi/src/flac_frame.rs:108-148 | the header length is the one a decoder works out from the bits: 14 bits of sync code, a coded number as long as its leading ones say, and the bytes of uncommon block sizes and rates; a header is refused exactly when it cannot |
| FlacFrame.HeaderLenDependsOnPrefix | crates/booth-pi/src/flac_frame.rs:123-160 | the header length is decided by the sync code, the two length-bearing codes and the lead byte of the coded number alone |
| FlacFrame.RunPreflight | crates/booth-pi/src/flac_frame.rs:169-200 | `Rewritable` exactly when every frame is well formed with an unspecified rate; `AlreadyExplicit` exactly when there is a frame and all name the wanted rate |
| FlacFrame.CheckedTotal | crates/booth-pi/src/flac_frame.rs:233-260 | the checked sum of the frame lengths is the true sum, or absent exactly when that overflows |
| FlacFrame.RewriteFrame | crates/booth-pi/src/flac_frame.rs:203-223 | in place: true exactly for a frame that parses, has its footer and leaves the rate unspecified, which becomes its rewritten form; otherwise nothing changes, and no byte outside the frame ever does |
| FlacFrame.RewrittenFrameIsSound | crates/booth-pi/src/flac_frame.rs:203-225 | a rewritten frame keeps header length and block size, names the rate, has valid CRC-8 and CRC-16, and differs only in byte 2, the CRC-8 byte and the footer |
| FlacFrame.RewriteFrameSampleRates | crates/booth-pi/src/flac_frame.rs:233-290 | all or nothing: an eligible stream has every frame rewritten and the count returned, any other stream is left unchanged with result 0 |
| FlacFrame.EligibleStreamsAre | crates/booth-pi/src/flac_frame.rs:169-275 | the streams that are rewritten are exactly those in which a decoder sees "fLaC", a rate that has bits of its own, lengths that fit, and frames whose rate bits are 0000, closed by their CRC-8 and with room for the footer |
| FlacFrame.RewriteDeclaresRate | crates/booth-pi/src/flac_frame.rs:91-290 | after the pass every frame of the stream tells a decoder the rate in hertz that the pass was asked for |
| FlacFrame.RewriteIsSoundAt | crates/booth-pi/src/flac_frame.rs:233-290 | in a rewritten stream every frame, at its old boundaries, names the rate and is soundly rewritten |
| FlacFrame.RewriteKeepsHead | crates/booth-pi/src/flac_frame.rs:233-290 | length, magic number and metadata before the first frame stay |
| FlacFrame.SecondPassIsNoOp | crates/booth-pi/src/flac_frame.rs:233-290 | a rewritten stream is not eligible again, for any rate |
| FlacFrame.DamagedHeaderIsIneligible | crates/booth-pi/src/flac_frame.rs:169-200 | one changed byte in any frame header of a stream that passed, unless it makes the header parse with another length, makes the stream fail the check for every rate |
| CallRuns.StepKeepsInvariant | crates/booth-core/src/lib.rs:499-643 | any event in any state, admitted or not, keeps state and world consistent: audio, recorder, timers, cradle, light and uploads |
| CallRuns.InnerStepExactly | crates/booth-core/src/lib.rs:645-1211 | over every state and event the inner machine keeps the invariant if and only if it is not asked about a pickup while paused on the hook |
| CallRuns.RunKeepsInvariant | crates/booth-core/src/lib.rs:499-1211 | the invariant holds after every event sequence and admission schedule |
| CallRuns.NothingWaitsInVain | crates/booth-core/src/lib.rs:523-1161 | states that leave on PlaybackEnded have a finite clip playing; a Finishing state has one unanswered StopRecording and no other state has any; an awaited upload was requested and not answered; the recording timer is armed exactly in Recording |
| CallRuns.HandsetIsTruthful | crates/booth-core/src/lib.rs:552-712 | the state's idea of the handset is the last hook event, and nothing plays on hook or while calls are paused |
| CallRuns.NothingPlaysOnHook | crates/booth-core/src/lib.rs:564-1161 | no step of any run emits Play with the handset on its cradle |
| CallRuns.LightAndCounts | crates/booth-core/src/lib.rs:72-138 | the light always shows the state's indication; uploads never outnumber recordings started, and are fewer while an answer is held |
| CallRuns.PulseTimerStep | crates/booth-core/src/lib.rs:732-762 | the pulse timer stays armed exactly in Dialing if and only if the step is not an admitted injection of a digit above 9 while dialling |
| CallRuns.PulseTimerOverRun | crates/booth-core/src/lib.rs:732-762 | over runs whose injected digits are at most 9, the pulse timer is armed exactly in Dialing |
| CallRuns.OversizedDigitLeavesTimerRunning | crates/booth-core/src/lib.rs:1163-1211 | a concrete run that reaches Error with the pulse timer armed |
| CallAnswers.StepOwes | crates/booth-core/src/lib.rs:654-1017 | which StopRecording and UploadRecording effects a step emits depends on state and event, never on admission |
| CallAnswers.AnswerEndsOnlyWithRecorder | crates/booth-core/src/lib.rs:803-1017 | an answer in progress is left exactly on RecordingFinished, with one upload for its question, or on RecordingFailed |
| CallAnswers.UploadsAnswerTheLastQuestion | crates/booth-core/src/lib.rs:764-901 | every upload in every run carries the question last accepted and answers RecordingFinished |
| CallAnswers.PausingNeverChangesFate | crates/booth-core/src/lib.rs:564-643 | from one protected state, any two admission schedules give the same answer effects and leave the protected states at the same event |
| CallFlow.EntersExactly | crates/booth-core/src/lib.rs:645-1211 | for every two states and every event the inner machine goes from the one to the other if and only if the table of what leads there says so: each of the seventeen states with the only ways into it, recording, question and reason carried along |
| CallFlow.WholeFlow | crates/booth-core/src/lib.rs:523-643 | the whole machine goes where the inner one does, unless the upload is another's, calls are paused, or they resume; a pause keeps an answer under way and nothing else |
| CallSignals.StepShowsExactly | crates/booth-core/src/lib.rs:499-1211 | for every state, event and admission decision, which sound a step starts, which status it pushes, what it fetches and whether it touches power |
| CallSignals.DigitsFetch | crates/booth-core/src/lib.rs:1163-1211 | a question, a message or the instructions are fetched, or the number said not to be in service, if and only if the step decodes a one, a two, a zero, or any other digit; no other step does |
| CallSignals.PulsesFetch | crates/booth-core/src/lib.rs:732-763 | over runs: after the dial tone, k pulses and a pause ask for what k modulo ten stands for |
| CallSignals.ButtonAlonePowers | crates/booth-core/src/lib.rs:1154-1155 | the booth restarts or powers off if and only if the button says so, in any state, admitted or not |
| CallSignals.StatusStaysExactly | crates/booth-core/src/lib.rs:253-274 | an up-to-date status stays so at a step if and only if the step is not one into an error other than the recorder's, nor a change while calls are paused |
| CallSignals.StatusOverRun | crates/booth-core/src/lib.rs:253-274 | over every run without such a step the last status pushed is the state's |
| CallSignals.LightTells | crates/booth-core/src/lib.rs:72-138 | over every run, which states each light stands for |
| SessionTracker.Tracker.Observe | crates/booth-bin/src/observability.rs:223-299 | the in-place update is the specified transition of open session and synthetic events |
| SessionTracker.DecodedDigitIsLogged | crates/booth-core/src/lib.rs:1163-1211 | the digit a step decodes is exactly the one its log effect names; what it fetches is said by CallSignals.DigitsFetch |
| SessionTracker.TelemetryAnnouncesDecodedDigits | crates/booth-bin/src/lib.rs:958-969 | the runtime announces a digit if and only if the core decodes one, the same one, with ten pulses for a zero and as many as the digit otherwise |
| SessionTracker.SessionsFollowCalls | crates/booth-bin/src/observability.rs:223-299 | over every run, reports included, a session is open exactly during a call, CallStarted and CallEnded alternate with matching ids, and CallEnded carries exactly the digits decoded in that call and the outcome that its states and reports give |
| SessionTracker.DigitsFallInsideCalls | crates/booth-bin/src/lib.rs:912-978 | after every run, each digit announced for the next event is observed while a session is open |
| SessionTracker.DigitsAreThoseDialed | crates/booth-bin/src/observability.rs:281-285 | over every run an open session has collected the digits decoded in its call, in order, one character each |
| SessionTracker.EndCarriesDigits | crates/booth-bin/src/observability.rs:250-280 | and a call that ends hands over those |
| SessionTracker.OutcomesMean | crates/booth-bin/src/observability.rs:255-271 | for each outcome, exactly what it says of the call: paused, last known phase or report, and whether a digit was dialled |
| SessionTracker.StatesBear | crates/booth-bin/src/observability.rs:241-249 | recording, both uploading states and errors set the phase, and no other state does |
| SessionTracker.OutcomesAreOwn | crates/booth-bin/src/observability.rs:231-296 | an ended call reports its own outcome, or, when a report on a recording not awaited came last, that report's; so the outcome is its own if and only if there was no such report or it says the same |
| SessionTracker.NoStrayDecides | crates/booth-bin/src/observability.rs:231-296 | over runs without such reports every outcome is the call's own |
| SessionTracker.CompletionIsTold | crates/booth-bin/src/observability.rs:231-296 | however a call goes on after the last report in it, it ends with that report's outcome if and only if no event in between left the core recording, uploading or in error |
| SessionTracker.PulseHidesCompletion | crates/booth-bin/src/observability.rs:231-296 | a run from the start in which a stray pulse keeps a completed upload from counting |
| SessionTracker.BeepHidesCompletion | crates/booth-bin/src/observability.rs:231-296 | a run from the start in which the end of the ordinary beep does, and the call goes on in the dial tone |
| SessionTracker.LateReportDecides | crates/booth-bin/src/observability.rs:284-293 | a run from the start in which the report on one call's upload decides the next call |
| Decimal.ParsePad | crates/booth-bin/src/event_spool.rs:263-272 | a zero-padded number parses back to itself, exactly when it fits the parsed width |
| SpoolKeys.NamesRoundTrip | crates/booth-bin/src/event_spool.rs:258-272 | a printed file name parses to its key exactly when sequence and chunk indices are in range |
| SpoolKeys.NamesAreDistinct | crates/booth-bin/src/event_spool.rs:258-272 | different keys in range never share a file name |
| SpoolKeys.ChildName | crates/booth-bin/src/event_spool.rs:150-160 | the name a split gives a chunk, the source's with "-part-" and six digits, is the name of the chunk's key |
| SpoolKeys.FirstNames | crates/booth-bin/src/event_spool.rs:54 | how the first batch and its first chunk are spelled |
| SpoolKeys.ChildTakesPlace | crates/booth-bin/src/event_spool.rs:202-240 | a chunk sorts after its source and between the source's neighbours |
| SpoolQueue.SpillAppends | crates/booth-bin/src/event_spool.rs:41-68 | a spilled batch joins the end of the queue |
| SpoolQueue.SplitKeepsQueue | crates/booth-bin/src/event_spool.rs:120-174 | splitting any file, even a part of a part, leaves the flattened queue unchanged |
| SpoolQueue.SplitStaysPrefixFree | crates/booth-bin/src/event_spool.rs:120-174 | no file is ever a part of another after a completed split |
| SpoolQueue.RemovalDropsFront | crates/booth-bin/src/event_spool.rs:242-252 | removing the first n files takes exactly their events from the front |
| SpoolQueue.ChunksCover | crates/booth-bin/src/event_spool.rs:149-160 | chunks hold the events in order, all full but the last, none empty, and there are ceil(n/size) |
| EventSpool.Spool.Entries | crates/booth-bin/src/event_spool.rs:202-240 | the scan yields every file once in key order, whatever order the directory has |
| EventSpool.Spool.Append | crates/booth-bin/src/event_spool.rs:41-68 | files, result and evicted events of a spill, wherever a fault stops it |
| EventSpool.Spool.ReplaceWithChunks | crates/booth-bin/src/event_spool.rs:120-174 | files and result of a split, wherever a fault stops it |
| EventSpool.Spool.OldestBatch | crates/booth-bin/src/event_spool.rs:88-94 | the first file in key order, absent exactly when the spool is empty |
| EventSpool.SpillIsFifo | crates/booth-bin/src/event_spool.rs:41-68 | a spill, even a faulty one, changes the queue by appending its batch and evicting from the front, or changes nothing; a success leaves at most the cap |
| EventSpool.SpillIsExact | crates/booth-bin/src/event_spool.rs:41-68 | a spill succeeds if and only if no call fails and the next number has a name, leaving exactly min(n+1, cap) files; how many a faulty one evicts |
| EventSpool.NewKeyIsNext | crates/booth-bin/src/event_spool.rs:41-54 | a new file's number is one above the greatest in use, or 1 |
| EventSpool.SplitIsExact | crates/booth-bin/src/event_spool.rs:120-174 | wherever a split stops: the parts in place hold their chunks, the source is there until all are, every other file is untouched, and it succeeds if and only if nothing fails |
| EventSpool.StepIsFifo | crates/booth-bin/src/event_spool.rs:41-252 | each completed operation moves the queue as a queue and keeps it prefix-free |
| EventSpool.SpoolIsFifo | crates/booth-bin/src/event_spool.rs:41-252 | over every run from a prefix-free directory, what was stored and entered is what left, in order, followed by what is stored |
| SpoolDurability.SpillLosesNothing | crates/booth-bin/src/event_spool.rs:41-68 | wherever a spill stops, old and new events are stored or evicted |
| SpoolDurability.SplitLosesNothing | crates/booth-bin/src/event_spool.rs:120-174 | wherever a split of the oldest file stops, exactly the same events are stored |
| SpoolCrash.SurvivorsAreFirm | crates/booth-bin/src/event_spool.rs:41-174 | the events that survive every crash are exactly those in files synced and untouched since |
| SpoolCrash.SpillIsDurable | crates/booth-bin/src/event_spool.rs:41-68 | a successful spill makes its batch and all that was stored survive every crash, evictions apart; a failing one endangers nothing that was safe except by evicting it |
| SpoolCrash.SplitIsDurable | crates/booth-bin/src/event_spool.rs:120-174 | a successful split makes everything stored survive every crash; one that stops before removing its source endangers nothing that was safe |
| SpoolCrash.SplitEndangersItsSource | crates/booth-bin/src/event_spool.rs:161-173 | between the removal of a safe source and the sync, with or without parts of an earlier attempt, nothing that was safe is endangered if and only if other safe files, those overwritten with other contents not counted, hold all of the source's events |
| SpoolCrash.FreshSplitEndangersItsSource | crates/booth-bin/src/event_spool.rs:161-173 | without such parts the condition is that other safe files hold them |
| SpoolCrash.SyncedRetryRisksNothing | crates/booth-bin/src/event_spool.rs:161-173 | a retry whose parts are all synced already endangers nothing |
| SpoolCrash.UnsyncedSplitMayLoseAll | crates/booth-bin/src/event_spool.rs:163-173 | a synced one-event file, split up to the sync, and a crash that leaves nothing |
| SpoolCrash.RunKeepsPromises | crates/booth-bin/src/event_spool.rs:41-252 | over every run of spills, splits of the oldest file and removals, each stopping anywhere, every event that was safe or has been spilled successfully is stored or gone, and safe unless its split's sync is outstanding |
| SpoolCrash.CrashKeepsPromises | crates/booth-bin/src/event_spool.rs:41-252 | so a crash at the end of any such run leaves every such event, those evicted or removed and those of splits whose sync is outstanding apart |
| SpoolDrain.DrainIsExact | crates/booth-bin/src/observability.rs:467-546 | with an acknowledging operator the spool is empty after exactly the sum over files of 1, or 1+ceil(n/c) for oversized ones, ticks, having sent its queue in order in requests of at most c events |
| SpoolDrain.DrainTakesItsTime | crates/booth-bin/src/observability.rs:467-546 | and not before |
| Forwarder.EffectiveBatchMax | crates/booth-bin/src/observability.rs:463-465 | a configured limit is used when within 1 to 500, a greater one counts as 500, and 0 stays in that range |
| Forwarder.Forwarder.PushWithCap | crates/booth-bin/src/observability.rs:779-787 | the buffer holds the last events, as many as the cap allows; at the cap exactly the oldest is dropped and charged |
| Forwarder.Forwarder.PushAll | crates/booth-bin/src/observability.rs:690-711 | the events of a record join the buffer in order, of which the last, as many as the cap allows, stay |
| Forwarder.Forwarder.SpillRemaining | crates/booth-bin/src/observability.rs:816-855 | success empties the buffer, with nothing else writing onto the end of the spool's queue in order, only evicted events leaving it; failure or being cut short keeps the buffer, the writes of a cut spill going on; nothing is lost, files take one request each, and a spill that nothing hinders succeeds |
| Forwarder.Forwarder.MaybeSpill | crates/booth-bin/src/observability.rs:793-814 | a buffer less than half full stays, and a fuller one is spilled unless something hinders it |
| Forwarder.Forwarder.SendOne | crates/booth-bin/src/observability.rs:741-774 | a request of the front of the buffer is acknowledged, in full, exactly when its reply is Accepted; what every other reply does to buffer and spool and the result it gives |
| Forwarder.Forwarder.FlushOnce | crates/booth-bin/src/observability.rs:733-777 | sent are the chunks of the buffer up to the first that is not accepted; acknowledged and gone are exactly the events of the accepted ones before it; the flush succeeds if all are accepted or the operator does not support events, and otherwise the rest stays, or is spooled where the installation is inactive |
| Forwarder.Forwarder.FlushAndRecover | crates/booth-bin/src/observability.rs:713-731 | after a refused request the rest stays in a buffer less than half full and is spooled from a fuller one; a request cut short by shutdown stops the loop |
| Forwarder.Forwarder.TakeTurn | crates/booth-bin/src/observability.rs:344-405 | a record below the batch limit only joins the buffer, at the limit everything is sent; a tick sends what there is; with everything accepted the buffer is empty afterwards |
| Forwarder.Forwarder.ReplayOneBatch | crates/booth-bin/src/observability.rs:467-503 | one tick is the drain step when all goes well; a file that fits is sent whole and acknowledged if and only if that is accepted; otherwise nothing leaves the spool unacknowledged |
| Forwarder.Forwarder.Drain | crates/booth-bin/src/observability.rs:467-546 | with an acknowledging operator, as many replay ticks as the spool costs leave it empty, having sent its queue in order |
| Forwarder.ReplayAll | crates/booth-bin/src/observability.rs:320-460 | a forwarder started on a prefix-free directory gets every event acknowledged, in queue order and in bounded requests |
| Forwarder.Forwarder.StraggleOne | crates/booth-bin/src/observability.rs:831-855 | a write left over from a cut spill, whenever it runs, keeps every event accounted for |
| Forwarder.Forwarder.Shutdown | crates/booth-bin/src/observability.rs:435-460 | after a successful final drain every event ever pushed is acknowledged, spooled or charged to an eviction; a drain that nothing hinders succeeds |
| Forwarder.Forwarder.Run | crates/booth-bin/src/observability.rs:320-461 | conservation over the forwarder's whole life, under every pattern of records, replies, faults, cut spills and shutdown; an event counts as acknowledged if and only if a recorded request that holds it was answered Accepted |
| Forwarder.AcceptedEventsAre | crates/booth-bin/src/observability.rs:750-758 | what counts as acknowledged in a list of requests and replies: the events of the accepted ones |
| Forwarder.AcceptedInFull | crates/booth-bin/src/observability.rs:741-776 | a flush of which every request is accepted sends and acknowledges the whole buffer |
| InstallationGate.InstallationGate.CheckAt | crates/booth-bin/src/installation.rs:70-82 | whether calls are accepted at a given time |
| InstallationGate.InstallationGate.Observe | crates/booth-bin/src/installation.rs:84-99 | only an inactive conflict changes the gate |
| InstallationGate.InstallationGate.Reconcile | crates/booth-bin/src/installation.rs:101-126 | a probe's effect under the revision guard |
| InstallationGate.FailuresNeverTouchBetween | crates/booth-bin/src/installation.rs:101-126 | failed probes neither enter nor leave the mode between exhibitions |
| InstallationGate.ClosingInvalidatesFetches | crates/booth-bin/src/installation.rs:84-156 | fetches in flight are invalidated exactly when the mode changes into Unknown or BetweenExhibitions |
| InstallationGate.AdmissionIsBacked | crates/booth-bin/src/installation.rs:70-156 | in every interleaving calls are accepted if and only if the last answer taken says that there are no lifecycles, or active and taken under 15 s ago, with no conflict observed since its probe began; before any answer, if and only if there is nothing to reconcile with and no conflict |
| InstallationGate.ModeIsExact | crates/booth-bin/src/installation.rs:84-126 | in every interleaving the mode is exactly the one that the answers taken, the conflicts observed and the leases that failing probes found expired call for |
| InstallationGate.RefusalsTell | crates/booth-bin/src/installation.rs:70-82 | which of the two refusals is given, and when |
| InstallationGate.GuardIsExact | crates/booth-bin/src/installation.rs:101-126 | the guard admits a probe exactly when the revisions since it began are a multiple of 2^64, hence none for fewer |
| GpioSampler.EmitsAfterUnbrokenRun | crates/booth-pi/src/gpio.rs:211-330 | an edge is emitted exactly when samples have differed without a break for the debounce window |
| GpioSampler.EdgesAlternate | crates/booth-pi/src/gpio.rs:211-330 | the edges of a pin alternate, starting away from its first level |
| GpioSampler.PinsAreIndependent | crates/booth-pi/src/gpio.rs:211-330 | inside the loop each pin is debounced by its own samples alone, whatever the queue does |
| GpioSampler.PressesAreEmitted | crates/booth-pi/src/gpio.rs:211-330 | the confirmed button edges, with their times, are those of the button's samples |
| GpioSampler.ButtonIsFaithful | crates/booth-pi/src/gpio.rs:332-364 | under any queue pressure the delivered button levels are a subsequence of the confirmed ones, with a release between any two presses |
| GpioDelivery.EdgesAreDelivered | crates/booth-pi/src/gpio.rs:264-311 | over every run the queue carries, for hook, rotary pulse and rotary read, the confirmed levels with their times, in order; the dropped ones of each role are counted, and are exactly those confirmed while the queue was full |
| GpioDelivery.RoomDeliversAll | crates/booth-pi/src/gpio.rs:264-311 | so an input is delivered in full if and only if the queue was never full when it had an edge |
| GpioDelivery.RoomDeliversButton | crates/booth-pi/src/gpio.rs:244-311 | if the button's edges always find room, all are queued, in order, and none waits |
| GpioDelivery.ButtonLagsByOnePress | crates/booth-pi/src/gpio.rs:244-311 | however full the queue, the newest button edge told or waiting is the newest confirmed one, or the release before a press; none is counted as dropped |
| GpioDelivery.TickRetriesFirst | crates/booth-pi/src/gpio.rs:245-248 | a waiting button edge is queued at the next tick that finds room, before that tick's edges |
| GpioDelivery.QueueIsFifo | crates/booth-pi/src/gpio.rs:332-364 | the consumer takes what was queued in the order in which it was, and the queue never outgrows its capacity |
| GpioSampler.Sampler.TrySend | crates/booth-pi/src/gpio.rs:350-364 | delivery never blocks; a full queue hands the edge back |
| GpioSampler.RunLoop | crates/booth-pi/src/gpio.rs:211-330 | the sampler and its consumer, turn by turn, are in the state that the statements about runs speak of |
| GpioSampler.Sampler.Tick | crates/booth-pi/src/gpio.rs:211-330 | one turn of the loop over all four roles is the specified transition |
| FileStorage.EncodeKey | crates/booth-bin/src/file_storage.rs:87-106 | the loop computes the escaping |
| FileStorage.EncodingIsSpelled | crates/booth-bin/src/file_storage.rs:92-102 | how each character is spelled: six as escapes, all others as themselves |
| FileStorage.DecodeKey | crates/booth-bin/src/file_storage.rs:108-128 | the index loop computes the unescaping, malformed escapes, cut characters and bytes that are no text included |
| FileStorage.CutsExactly | crates/booth-bin/src/file_storage.rs:116-124 | decoding fails if and only if a percent sign stands three bytes before a continuation byte |
| FileStorage.KeyRoundTrip | crates/booth-bin/src/file_storage.rs:87-128 | every key, the empty one included, decodes back from its name |
| FileStorage.NamesAreText | crates/booth-bin/src/file_storage.rs:87-106 | the name of a key is UTF-8 text |
| FileStorage.NotEveryNameDecodes | crates/booth-bin/src/file_storage.rs:108-128 | a text on which decoding fails and one that it loses |
| FileStorage.EncodingIsInjective | crates/booth-bin/src/file_storage.rs:87-106 | different keys have different names |
| FileStorage.NamesAreSafe | crates/booth-bin/src/file_storage.rs:33-35 | no name is empty or contains a separator, colon, dot or NUL |
| FileStorage.NamesAvoidTemporaries | crates/booth-bin/src/file_storage.rs:37-40 | no key is stored under a temporary file's name |
| FileStorage.Store.Get | crates/booth-bin/src/file_storage.rs:45-54 | the stored value, absent exactly when there is none |
| FileStorage.Store.Set | crates/booth-bin/src/file_storage.rs:56-68 | wherever a write stops, every key has its old value, or this one its new value exactly on success; nothing but the temporary file is left over, and that only on failure |
| FileStorage.Store.Delete | crates/booth-bin/src/file_storage.rs:70-80 | deleting a missing key succeeds, and no other key changes |
| PendingUploads.PendingUploadSpool.Claim | crates/booth-bin/src/pending_uploads.rs:69-79 | a claim is granted exactly when none is outstanding |
| PendingUploads.PendingUploadSpool.Enqueue | crates/booth-bin/src/pending_uploads.rs:89-110 | success means stored; a failure after the rename leaves the entry stored |
| PendingUploads.PendingUploadSpool.Dequeue | crates/booth-bin/src/pending_uploads.rs:113-120 | success exactly when the entry is gone, present before or not |
| PendingUploads.PendingUploadSpool.Scan | crates/booth-bin/src/pending_uploads.rs:126-162 | every stored entry exactly once |
| MonotonicClock.ResultsIncrease | crates/booth-bin/src/pending_uploads.rs:172-194 | in every interleaving of the exchange loops a later result exceeds an earlier one if and only if the earlier is below saturation |
| MonotonicClock.ExchangeIsLeast | crates/booth-bin/src/pending_uploads.rs:172-194 | an exchange that nobody got ahead of returns the least time not before the measured one and after the last; one that somebody did changes nothing and starts over |
| MonotonicClock.TempNamesDiffer | crates/booth-bin/src/pending_uploads.rs:92-94 | so two temporary names of a process coincide if and only if the clock has saturated |
| UploadProtocol.ClaimsStayExclusive | crates/booth-bin/src/pending_uploads.rs:38-79 | in every step each claim has exactly one holder: a foreground task or the replayer |
| UploadProtocol.NothingIsLost | crates/booth-bin/src/lib.rs:1727-1802 | no step, abort or crash removes a recording that was durably stored and is not confirmed |
| UploadProtocol.RunKeepsInvariant | crates/booth-bin/src/lib.rs:1727-1802 | exclusivity, durability and storedness after every interleaving, across restarts |
| UploadProtocol.EnqueuedIsStoredOrConfirmed | crates/booth-bin/src/lib.rs:1727-1802 | everything ever enqueued is in the spool or confirmed by the operator |
| UploadProtocol.OneUploader | crates/booth-bin/src/lib.rs:2285-2287 | no recording is ever uploaded by two tasks, or by a task and the replayer |
| UploadFlow.EveryStep | crates/booth-bin/src/lib.rs:1727-1802 | in every world and at every step: exactly when a task starts, sends, is told, removes and leaves, how far its write is, when a removal outlives it, where the replayer goes, and when a recording becomes durable, is confirmed or is gone; sending and replaying begin only while calls are admitted |
| UploadFlow.ClaimedExactly | crates/booth-bin/src/pending_uploads.rs:38-79 | a recording is claimed exactly when a task or the replayer takes it up, and free again exactly when that task leaves or the replayer lets it go |
| UploadFlow.UploadsCanFinish | crates/booth-bin/src/lib.rs:1727-1802 | from every world in which calls are admitted a recording that is not claimed can be uploaded to the end: confirmed, off the disk and unclaimed |
| UploadFlow.ReplaysCanFinish | crates/booth-bin/src/lib.rs:2285-2338 | and one that is stored can be replayed to the end |
| UploadSafety.UploadsAreOfStoredEntries | crates/booth-bin/src/lib.rs:1745-1802 | a foreground upload runs only while its entry, written and synced by its own task, is durable; a replay is of a stored entry unless, during shutdown, a detached removal has taken a confirmed one |
| UploadSafety.DequeuedIsNeverReplayed | crates/booth-bin/src/lib.rs:2285-2333 | once an entry is removed, by its holder or by a detached removal before the replayer looked, no continuation stores or replays it until an action writes it back |
| UploadSafety.ReplayLosesEntryOnlyToDetached | crates/booth-bin/src/lib.rs:2285-2338 | an entry the replayer has seen, whether or not it is sending yet, goes missing at a step if and only if a removal that outlived its aborted task runs there |
| UploadSafety.AbsentUnlessWritten | crates/booth-bin/src/pending_uploads.rs:89-110 | an absent entry appears at a step if and only if the step is a write's rename, or a crash that undoes a removal |
| UploadSafety.ReplayOfMissingEntry | crates/booth-bin/src/lib.rs:2285-2338 | a replay comes to be of an entry not stored at a step if and only if a detached removal takes it under the replay, or the sending begins after one has |
| UploadSafety.ReplayOfUndurableEntry | crates/booth-bin/src/lib.rs:2285-2338 | and of one not durable if and only if a detached removal takes it, or the sending begins while it is missing or unsynced |
| UploadSafety.UnsyncedExactly | crates/booth-bin/src/pending_uploads.rs:89-106 | over every run a crash may undo an entry if and only if a write put it in place and since then no write of any entry has synced the directory and the machine has not crashed; restarts of the process do not matter |
| UploadSafety.RemovedExactly | crates/booth-bin/src/pending_uploads.rs:89-120 | over every run a crash may bring an entry back if and only if it was removed and since then no write of any entry has synced the directory and the machine has not crashed; restarts of the process do not matter |
| UploadSafety.ReplayIsUndurableExactly | crates/booth-bin/src/lib.rs:2285-2338 | over every run, outside a shutdown, a replay is of an entry that is not durable if and only if the entry was unsynced when the sync of its own write failed or the process was restarted, and no write has synced the directory since |
| UploadSafety.SyncedReplaysAreDurable | crates/booth-bin/src/pending_uploads.rs:89-110 | over runs in which no directory sync fails and every restart finds the directory synced, every replay outside a shutdown is of a durable entry |
| UploadSafety.UnsyncedEntryIsReplayed | crates/booth-bin/src/pending_uploads.rs:105 | a reachable world, with no shutdown, in which a crash would undo the entry being replayed |
| UploadSafety.RestartedReplayIsUndurable | crates/booth-bin/src/pending_uploads.rs:100-105 | a world reached with no shutdown and no failing sync in which a crash would undo the entry being replayed |
| UploadSafety.ReplayBeginsAfterRemoval | crates/booth-bin/src/lib.rs:2287-2313 | a reachable world in which the sending begins after the removal |
| UploadSafety.DetachedRemovalRacesReplay | crates/booth-bin/src/lib.rs:849-895 | a reachable world in which the removal runs under the replay |
| ReplaySweep.Replayer.SortedEntries | crates/booth-bin/src/lib.rs:2265-2273 | the scanned entries, each once, in strictly increasing id order |
| ReplaySweep.Replayer.Sweep | crates/booth-bin/src/lib.rs:2273-2338 | the loop is the specified sweep over the rotated order and gives back every claim |
| ReplaySweep.RotatedIsOrdered | crates/booth-bin/src/lib.rs:2274-2280 | rotation puts the ids after the last attempt first, in order, then the others in order |
| ReplaySweep.SweepAccounts | crates/booth-bin/src/lib.rs:2281-2338 | any sweep uploads stored unclaimed entries, none twice, only the last possibly unconfirmed, and exactly the confirmed removable ones leave the spool |
| SweepOutcome.SweepIsExact | crates/booth-bin/src/lib.rs:2273-2338 | whatever a sweep meets, it uploads exactly the entries that it reaches and can send, in the order that resumes after the last attempt, and the next sweep resumes after the last entry that this one tried |
| ReplaySweep.OpenSweepDrains | crates/booth-bin/src/lib.rs:2281-2338 | with everything accepted, confirmed and removable, one sweep leaves only claimed or unreadable entries |
| ReplaySweep.OutageSweepTakesNext | crates/booth-bin/src/lib.rs:2274-2338 | during an outage a sweep uploads exactly the next waiting entry after the last attempt |
| ReplaySweep.EachWaitingEntryOnce | crates/booth-bin/src/lib.rs:2273-2338 | with n waiting entries and every upload failing, any n consecutive sweeps upload each exactly once, from wherever the replayer left off |

## Left out

- Spool files with legacy or `split-` names, whose order depends on modification times, and files that cannot be read or parsed.
- File names other than the printed form of their key: the directory is keyed by parsed key, so two spellings of one key are not distinguished.
- A forwarder without a spool, the mapping of telemetry records to JSON, and the lag of the telemetry bus.
- Forwarder.Forwarder.Run: counts events as identities, so it does not say how many copies a retried request or a half-finished split delivers, because the operator removes duplicates by event id.
- SpoolDrain.DrainIsExact: does not cover an operator that answers Inactive or fails, because such a tick leaves the spool as it is.
- SpoolQueue.SplitKeepsQueue: chunk indices are unbounded, because the names of chunks beyond the 32-bit range are the subject of SpoolKeys.NamesRoundTrip.
- UploadProtocol.NothingIsLost: a recording that is enqueued again after it was confirmed counts as confirmed, because its id is the hash of its contents.
- UploadProtocol.RunKeepsInvariant: does not model the minimum recording length, upload size caps, operator retries or the concurrency limit, which only decide whether and when an upload starts or succeeds.
- Forwarder.Forwarder.TakeTurn: a replay's blocking split or removal that shutdown stops waiting for counts as done or not done at that moment, because only spills are followed past it.
- SpoolCrash.CrashKeepsPromises: covers runs up to a crash and not across several, because crashes between failing syncs may leave parts of parts, which the statement's starting directories exclude.
- ReplaySweep.Replayer.Sweep: nothing else changes the spool during one call; the interleavings are those of UploadProtocol.
- InstallationGate.AdmissionIsBacked: does not cover fetch tokens end to end, because a token is taken when the fetch starts and checked before, not while, its result is stored.
- InstallationGate.InstallationGate.Reconcile: the timing of the reconciler's loop is an input.
- GpioSampler.Sampler.Tick: does not model the shared snapshot of levels, a closed receiver, or overflow of timestamps.
- SessionTracker.SessionsFollowCalls: session ids are counters rather than random, and an event's time is not modelled.
- FileStorage.Store.Set: one writer at a time; its temporary names come from a clock without an exchange loop, so that two writers could share one.
- The wording of log lines other than those of dialled digits.
- "Audio is off after every refused step": not stated, as power-button events and results of foreign uploads return before the pause logic.
- Constant tables: the FLAC methods take them as arguments, as the builders return them.
- LED animation, metering, weather, audio capture and playback, codecs, HTTP, JSON, configuration, the simulator and the debug surface.
