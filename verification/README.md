# Verified models of the streaming pipeline, the virtual keyboard and the element cache

This project models three parts of the repository in Dafny and proves what they promise.

**The media proxy** (`packages/media-proxy`). A native encoder calls back with units, one async
consumer reads them, and `pipeThrough` runs a video pump, an audio pump and that consumer over one
transcoder. The queue, the timestamp converter and the transcoder are classes whose methods are
proved against functions on a state value (`UnitQueues`, `Timing`, `Transcoders`). Concurrency is a
step relation: what runs between two `await`s is one atomic step, and the environment decides which
pending `await` settles next, when the native side calls back and when the caller aborts
(`QueueRuns`, `TranscoderRuns`, `Pipelines`, `PipelineRuns`, `Streams`, `Outcomes`, `Deliveries`,
`Backlogs`, `Asking`, `Faults`, `Stopping`, `NativeTraffic`). The native side may call back until its
close settles, as `packages/media-proxy/src/types.ts:116` states. Results hold for every run.

**The virtual keyboard** (`packages/remote-debugger/atoms/src`, bundled as `atoms/type.js`). A set of
held keys, a modifier mask, a remembered cursor and a DOM selection together implement a text editor.
The text field is the one of the HTML Standard, section 4.10.20 ("APIs for the text control
selections"), with the value sanitization of text, url and textarea controls (`TextControls`). The
key table is built by registrations (`KeyTable`), the keyboard is a class (`Keyboards`), and it is
proved to refine an editor with a text, an anchor and a cursor (`Editors`, `Typings`). Key sequences
from the wire are modelled with a supplied keyboard and with the new keyboards of the `type` atom
(`WireKeys`, `NewKeyboards`), over several calls with a reported state (`SentKeys`), and against a
reading of the keys by that editor, with the events the page is told of (`Readings`).

**The element cache with value wrapping** (`packages/remote-debugger/atoms/src/core/inject.ts`,
bundled as `atoms/execute_script.js`). Script values leave the page with nodes replaced by ids of a
cache that sweeps itself while it is filled, and come back as arguments later (`ElementCaches`,
`WrapValues`, `RoundTrips`).

Some properties turned out not to hold of the code; for each the project proves exactly when they do:

- A queue of capacity 0 is unbounded if overflow keeps anything, because `slice(-0)` keeps all
  (`QueueRuns.BoundedExactly`). `fail` reports its reason only if it is truthy
  (`QueueRuns.FailureIsReported`).
- `packages/media-proxy/src/transcoder.ts:212-213` and `:261-263` promise that everything produced when
  the stream ends is still yielded. That holds if and only if every unit found a request waiting or room
  in the buffer (`Deliveries.ProducedIsYieldedExactly`). One unit more, flushed by the closing native
  side into a full buffer of video, costs the whole backlog, and the pipeline still ends in order
  (`Backlogs.FlushCostsTheBacklog`, with `Backlogs.OneUnitOfAll` for a run from the start). What the
  queue held when the native side had closed is yielded in every orderly end (`Deliveries.EverythingHeldWasYielded`).
- The comment at `packages/media-proxy/src/transcoder.ts:131` says that audio units are never dropped. A
  buffer full of nothing but audio drops its oldest one for each that arrives (`Backlogs.AudioIsDropped`);
  all audio is yielded if and only if that never happens (`Deliveries.AudioIsYieldedExactly`).
- The comment at `packages/media-proxy/src/transcoder.ts:332-333` says that an audio read left over
  when the video ends cannot fail the stream. It does, up to the moment the pipeline has finished,
  unless something failed before it (`Outcomes.LateAudioFailureExactly`, with
  `PipelineRuns.LateAudioFailureFailsTheStream` for a run in which it happens).
- The audio source is told to stop, except after a push of one of its items threw: then nobody asks it to
  `return()` (`Stopping.AudioIsToldExactly`).
- A native error is not always reported: if the caller aborts before the consumer is answered, the
  consumer is told `done` and the error is swallowed (`Outcomes.AbortDecidesByTheAnswer`, with
  `Outcomes.AbortSwallowsTheError` for a schedule).
- The `type` atom supplies no keyboard, so that after a NULL key a new one types on, which does not
  know where the cursor is; a movement with Shift may then select something else than meant
  (`NewKeyboards.AtomExactly` has the exact condition, `NewKeyboards.AtomSelectsNothing` an input).
- A modifier left held by one `sendKeys` call is forgotten by the next, because the keys of a reported
  state come back as copies that the keyboard does not recognise (`SentKeys.CallsAreOne` and
  `SentKeys.CallsTypeAsOne` have the exact conditions, `SentKeys.ShiftIsForgotten` an input).
- A `url` input drops a space at its end as soon as it is typed, so the text typed is not the text
  asked for (`Typings.TypingTheorem` has the exact condition, `Typings.UrlLosesSpaces` the family).
- When the element already had the focus, `currentPos` is not the caret, and Shift+Left selects
  nothing (`Typings.ShiftLeftNeedsTheCursor`).
- Nodes in a shadow tree hosted by the document element count as detached
  (`ElementCaches.StaleByLineage`); everywhere else the check is connectedness
  (`ElementCaches.FreshMeansConnected`). An `html` element cannot host a shadow tree, so this concerns
  documents with another root, such as a custom element in an XML document or one built by a script.
- An id whose node was detached during a sweep stays dead even if the node is attached again
  (`ElementCaches.LookupExactly`).

## Model

| member | source | states |
|---|---|---|
| UnitQueues.UnitQueue.Push | packages/media-proxy/src/queue.ts:26-57 | the whole new queue state: resync gate, hand-over to a parked waiter, bounded buffer |
| UnitQueues.UnitQueue.Fail | packages/media-proxy/src/queue.ts:59-72 | the backlog goes, the waiter is rejected, and only the first end counts |
| UnitQueues.UnitQueue.End | packages/media-proxy/src/queue.ts:78-98 | draining keeps the backlog, discarding drops it, and discarding cancels a drain |
| UnitQueues.UnitQueue.Next | packages/media-proxy/src/queue.ts:101-132 | how a request is answered at once or parked with one abort listener |
| UnitQueues.UnitQueue.Abort | packages/media-proxy/src/queue.ts:116-120 | a signal fires once and runs exactly the listeners registered on it |
| UnitQueues.UnitQueue.ClearBacklog | packages/media-proxy/src/queue.ts:46-56 | what is kept on overflow, and that a resync starts exactly when something was dropped |
| UnitQueues.UnitQueue.KeptOnOverflow | packages/media-proxy/src/queue.ts:47-48 | the kept units in order, and nothing else |
| QueueRuns.RunKeepsValid | packages/media-proxy/src/queue.ts:8-133 | the queue invariant over every single-consumer run |
| QueueRuns.NoLostOrDoubleWakeUp | packages/media-proxy/src/queue.ts:38-43 | every promise is settled at most once and is either parked or settled; a parked waiter means an open, empty queue; an ended queue is draining exactly while it holds units |
| QueueRuns.AbortEffect | packages/media-proxy/src/queue.ts:115-131 | a signal settles the waiter parked on it as done, and otherwise changes nothing |
| QueueRuns.StaleAbortIsHarmless | packages/media-proxy/src/queue.ts:116-130 | a signal of an earlier request never cancels a later waiter |
| QueueRuns.Fifo | packages/media-proxy/src/queue.ts:26-132 | delivered plus buffered is the pushed sequence with units deleted: no reordering, no duplicates, across consumers |
| QueueRuns.OtherContents | packages/media-proxy/src/queue.ts:59-132 | apart from pushes, only a failure and a discarding end change what is delivered plus buffered |
| QueueRuns.EndedContents | packages/media-proxy/src/queue.ts:78-107 | once ended, a queue hands out only what it still holds, and its error never changes |
| QueueRuns.DrainDeliversExactlyTheBacklog | packages/media-proxy/src/queue.ts:74-98 | after a draining end exactly the backlog is delivered, in order, and then done |
| QueueRuns.DiscardIsFinal | packages/media-proxy/src/queue.ts:59-98 | after a failure or a discarding end nothing is delivered in any continuation |
| QueueRuns.FailureIsReported | packages/media-proxy/src/queue.ts:105-107 | every later live request is rejected with the failure if and only if its reason is truthy |
| QueueRuns.BoundedExactly | packages/media-proxy/src/queue.ts:44-56 | the buffer never exceeds the capacity in any run, if and only if the capacity is positive or nothing is kept on overflow |
| Timing.TimestampConverter.ToMicros | packages/media-proxy/src/transcoder.ts:92-101 | the next clock state and the clamped nearest microsecond |
| Timing.DeltaIsExact | packages/media-proxy/src/transcoder.ts:96-97 | the signed 32-bit difference of two RTP timestamps is the true difference if and only if that fits |
| Timing.UnwrapsExactly | packages/media-proxy/src/transcoder.ts:92-99 | the accumulated ticks equal the true elapsed ticks, through any number of wraps, if and only if every step fits in 32 bits |
| Timing.MicrosNearestAndMonotone | packages/media-proxy/src/transcoder.ts:100-100 | the result is within half a microsecond, zero before the start, and monotone |
| Timing.MicrosInIntegers | packages/media-proxy/src/transcoder.ts:100-100 | in integers: `t` ticks at a clock rate are 10^6 `t` / rate microseconds, to within half a microsecond |
| Timing.StampClosedForm | packages/media-proxy/src/transcoder.ts:155-190 | in any interleaving of the tracks, the timestamp is media time since the track began plus the track's arrival offset |
| Timing.SecondsOfMedia | packages/media-proxy/src/transcoder.ts:92-101 | the scale: on a video track of 90 kHz or an audio track of 48 kHz that began some ms after the stream, `k` seconds of media time are stamped `k` million plus a thousand for each ms |
| Timing.StreamStartsAtZero | packages/media-proxy/src/transcoder.ts:186-190 | the very first unit, of either track, is at zero |
| Timing.OffsetsAreWriteOnce | packages/media-proxy/src/transcoder.ts:161-178 | an offset never changes once set, and no offset or timestamp is negative |
| Timing.TrackIsMonotone | packages/media-proxy/src/transcoder.ts:155-183 | timestamps of a track do not go back when its media time does not |
| Timing.TracksStayAligned | packages/media-proxy/src/transcoder.ts:155-190 | across tracks, timestamps differ by media time plus arrival offset to within 1.5 µs while no clamp is active |
| Transcoders.Transcoder.constructor | packages/media-proxy/src/transcoder.ts:125-152 | the initial session, with the queue options of the codec |
| Transcoders.Transcoder.OffsetFromOrigin | packages/media-proxy/src/transcoder.ts:186-190 | the origin is the first arrival and is never moved |
| Transcoders.Transcoder.Push | packages/media-proxy/src/transcoder.ts:155-166 | what one video unit does to clock, offset and native handle, and which error it throws |
| Transcoders.Transcoder.PushAudio | packages/media-proxy/src/transcoder.ts:169-183 | the same for audio, including the option error |
| Transcoders.Transcoder.OnUnit | packages/media-proxy/src/transcoder.ts:239-250 | numbering per track, and a keyframe request with each overflow |
| Transcoders.Transcoder.OnError | packages/media-proxy/src/transcoder.ts:147-147 | a native failure ends the queue with an error object |
| Transcoders.Transcoder.EndStream | packages/media-proxy/src/transcoder.ts:215-218 | `end()` up to its await: the handle is closed only if nothing closed it before |
| Transcoders.Transcoder.ResumeEnd | packages/media-proxy/src/transcoder.ts:219-224 | the rest of `end()`: drain, or fail with the close error |
| Transcoders.Transcoder.CloseNow | packages/media-proxy/src/transcoder.ts:230-237 | consumers stop first, then the queue is discarded, then the handle is closed if it was not |
| Transcoders.Transcoder.Units | packages/media-proxy/src/transcoder.ts:192-200 | a second consumer is refused; the first asks the queue under the combined signal |
| Transcoders.Transcoder.CombineSignals | packages/media-proxy/src/transcoder.ts:197-197 | the combined signal is aborted at birth exactly if one of its sources is |
| Transcoders.RunKeepsSession | packages/media-proxy/src/transcoder.ts:107-251 | the session invariant over every run of all operations, callbacks and aborts |
| TranscoderRuns.ClosedAtMostOnce | packages/media-proxy/src/transcoder.ts:215-237 | the native handle is closed at most once and is never fed afterwards |
| TranscoderRuns.OneConsumer | packages/media-proxy/src/transcoder.ts:192-209 | the queue is never asked while a request is parked, so its single-consumer rule is kept |
| TranscoderRuns.CloseIsFinal | packages/media-proxy/src/transcoder.ts:229-237 | after `close()`, even during an `end()` in flight, no later request gets a unit |
| TranscoderRuns.PushOutcome | packages/media-proxy/src/queue.ts:26-57 | h264: a unit is refused, or joins, or costs exactly the oldest audio unit, or clears all video and starts a resync |
| TranscoderRuns.DeliveredVideoIsDecodable | packages/media-proxy/src/transcoder.ts:131-142 | in every run, a delivered video unit that does not directly follow the last delivered one is a keyframe |
| TranscoderRuns.ResyncProgress | packages/media-proxy/src/queue.ts:30-56 | video is lost only by starting or being inside a resync, each start requests a keyframe, and the first keyframe with room ends it and is kept |
| TranscoderRuns.ResyncHasAsked | packages/media-proxy/src/queue.ts:30-56 | in every run, while resyncing, a keyframe has been requested since the last video unit that was let in |
| TranscoderRuns.MjpegResyncsAtOnce | packages/media-proxy/src/transcoder.ts:141-141 | in MJPEG mode the unit after an overflow is always let in, and the buffer stays bounded |
| TranscoderRuns.AudioIsConserved | packages/media-proxy/src/transcoder.ts:131-139 | until the end, audio delivered or held plus the overflows of an all-audio buffer is the audio produced |
| NativeTraffic.NativeIsHanded | packages/media-proxy/src/transcoder.ts:155-183 | in any interleaving with everything else, the native side is handed each access unit fed before the close, in order, with its payload, its keyframe flag and the stamp that the shared clock has for its time of arrival |
| NativeTraffic.RequestsMatchOverflows | packages/media-proxy/src/transcoder.ts:133-141 | in h264 mode a keyframe is requested once for each overflow, in MJPEG mode never |
| NativeTraffic.ProducedIsDelivered | packages/media-proxy/src/transcoder.ts:239-250 | one unit is produced for each that the native side delivers, in order, with its payload, timestamp, keyframe flag and track, numbered by the units of its track before it, or by all in MJPEG mode |
| NativeTraffic.GivenIsDelivered | packages/media-proxy/src/transcoder.ts:192-250 | every unit yielded carries what some unit of the native side brought |
| NativeTraffic.BacklogLimit | packages/media-proxy/src/transcoder.ts:132-141 | never more than 60 units are held back, and 560 with audio |
| PipelineRuns.StartIsValid | packages/media-proxy/src/transcoder.ts:298-389 | the pipeline starts in a valid state over any unused transcoder |
| PipelineRuns.RunKeepsPipe | packages/media-proxy/src/transcoder.ts:292-410 | the invariant tying pumps, consumer, flags, sources and queue together, over every run |
| PipelineRuns.SourcesAreReleased | packages/media-proxy/src/transcoder.ts:312-325 | `return()` is called at most once and never after the source reported; at the end the video source has ended or been returned and the audio source is done |
| PipelineRuns.JoinNeverAwaitsASource | packages/media-proxy/src/transcoder.ts:399-406 | when the consumer awaits the pump, the pump has left its read loop and needs at most one step of its own |
| PipelineRuns.WaitsOnlyForTheWorld | packages/media-proxy/src/transcoder.ts:292-410 | deadlock freedom: with nothing ready inside, the pipeline is done or waits for its caller, the native close, or a source that is still feeding it |
| PipelineRuns.OutcomeIsDetermined | packages/media-proxy/src/transcoder.ts:388-410 | how every finishing move ends the pipeline, with a successful native close: the native error the consumer was rejected with; if it was told `done`, silence if the caller has aborted by the time the close is awaited, and else the first pump failure or completion, with no native error and nothing discarded by an end or a failure |
| Faults.FaultsAreRecorded | packages/media-proxy/src/transcoder.ts:326-381 | in every run the failures recorded are exactly those of the sources, read off their items and ends: what they throw, and pushes of theirs that throw, in that order |
| Faults.QueueErrorIsFirstFault | packages/media-proxy/src/transcoder.ts:144-148 | in every run the error of the queue is the first error the native side called back with, or the failure of the close made by `end()`, before the queue ended |
| Faults.OutcomeIsThatOfTheRun | packages/media-proxy/src/transcoder.ts:388-410 | how every run ends that ends, from what its consumer, its sources and its native side did: a failed close is thrown; else a consumer that left of itself is all; one that was rejected met the first native error, which is thrown; one that was told `done` ends in silence if the caller had aborted by the close, else with the first fault of a source, and completes only without any |
| Faults.VideoFailureExactly | packages/media-proxy/src/transcoder.ts:359-387 | from every reached state, each run that settles after a failure of the video source throws it, or the failure before it; it never completes |
| PipelineRuns.LateAudioFailureFailsTheStream | packages/media-proxy/src/transcoder.ts:332-357 | a run in which an audio failure after the normal end of the video fails the stream |
| Streams.ConsumersGetTheStream | packages/media-proxy/src/transcoder.ts:192-250 | in every run, what `units()` yields was produced by the native side, in that order and none twice, and in h264 mode is decodable |
| Streams.RunHands | packages/media-proxy/src/transcoder.ts:199-205 | every unit a promise was resolved with is yielded exactly once, in order, except an answer still being awaited |
| Streams.MoveOperates | packages/media-proxy/src/transcoder.ts:334-398 | each segment of the pipeline acts on the transcoder exactly by the operations named for it: a video item is fed while streaming, an audio item while streaming and the audio is not done with, and every exit closes |
| Streams.PipelineOperates | packages/media-proxy/src/transcoder.ts:292-410 | every run of the pipeline is a run of the transcoder's operations, so all results about those carry over |
| Streams.PipelineGivesTheStream | packages/media-proxy/src/transcoder.ts:261-266 | end to end, what the pipeline yields was produced in that order and is decodable |
| Streams.EndYieldsTheContents | packages/media-proxy/src/transcoder.ts:388-410 | when the pipeline is about to complete, or to throw a pump failure, it has yielded exactly what its queue handed out, the buffer is empty, and no end or failure has thrown anything away |
| Outcomes.AbortDecidesByTheAnswer | packages/media-proxy/src/transcoder.ts:388-401 | when the queue failed, the pipeline is silent if and only if the caller had aborted when the last answer was given; else it throws the native error, even if the caller has aborted since |
| Outcomes.AbortSwallowsTheError | packages/media-proxy/src/queue.ts:101-107 | a native error followed by an abort and a request: the consumer is told `done` |
| Outcomes.LateAudioFailureExactly | packages/media-proxy/src/transcoder.ts:350-357 | after the video pump left its loop, every run that settles after an audio failure throws it, unless an earlier failure is thrown or the pipeline had completed |
| Outcomes.ComesToRest | packages/media-proxy/src/transcoder.ts:292-410 | from every reached state, at most seven steps of its own bring the pipeline to its end or to a wait for something outside |
| Outcomes.InternalRunIsShort | packages/media-proxy/src/transcoder.ts:292-410 | no schedule of its own steps is longer than that |
| Stopping.AbortStopsTheStream | packages/media-proxy/src/transcoder.ts:192-209 | after the caller has aborted, in every continuation, nothing is yielded but the one unit its request may already have been answered with |
| Stopping.LateItemsAreDropped | packages/media-proxy/src/transcoder.ts:345-377 | an item that comes after the pipeline has stopped, or an audio item after the video has ended, is not fed and only ends its pump |
| Stopping.SourcesStopWithTheStream | packages/media-proxy/src/transcoder.ts:350-382 | at any time in a run, once the video pump is out of its loop or a source has failed, the video source has reported its end or been asked to return; and once the pump is out no more audio is taken |
| Stopping.AudioIsToldExactly | packages/media-proxy/src/transcoder.ts:319-325 | when the pipeline has finished, the audio source has reported its end or been asked to return if and only if no push of an item of its threw |
| Deliveries.KeptExactly | packages/media-proxy/src/queue.ts:26-98 | in every run of the transcoder, what is handed out, held, or thrown away by an end or a failure is all that was produced, in that order, if and only if every unit found the queue open with a request waiting or room; otherwise units are missing |
| Deliveries.KeptForGood | packages/media-proxy/src/queue.ts:78-107 | once the queue has ended or the native side has closed, no continuation loses anything to an overflow |
| Deliveries.EverythingHeldWasYielded | packages/media-proxy/src/transcoder.ts:261-263 | whatever the queue held or had handed out when it ended, or when the native side had closed, has been yielded once the pipeline is about to complete or to throw a pump failure |
| Deliveries.RunIsInTime | packages/media-proxy/src/transcoder.ts:215-225 | a pipeline that streams without a native error, or ends in order, has had no unit arrive after the end of its queue, which ended only after the native side had closed |
| Deliveries.ProducedIsYieldedExactly | packages/media-proxy/src/transcoder.ts:261-263 | when the pipeline is about to complete, or to throw a pump failure, it has yielded everything ever produced if and only if every unit found a request waiting or room in the buffer; otherwise less |
| Deliveries.AudioIsAccountedFor | packages/media-proxy/src/transcoder.ts:131-139 | in every run to its completion, audio produced is audio handed out, held, or thrown away by an end or a failure, plus the overflows of an all-audio buffer, plus what came after the end |
| Deliveries.AudioIsYieldedExactly | packages/media-proxy/src/transcoder.ts:131-139 | at the end of the pipeline, audio yielded plus the overflows of an all-audio buffer is the audio produced, and all of it is yielded if and only if there was no such overflow |
| Backlogs.BacklogIsReached | packages/media-proxy/src/transcoder.ts:359-387 | with the video ended and the consumer busy, any number of units of one track up to the capacity is held in some run |
| Backlogs.FlushCostsTheBacklog | packages/media-proxy/src/queue.ts:44-57 | with a full buffer of video, one unit more from the closing native side throws out everything held and itself, and the stream then ends in order |
| Backlogs.OneUnitOfAll | packages/media-proxy/src/transcoder.ts:212-225 | a run without any failure or abort in which all but the first of the units produced are lost, two more than the capacity |
| Backlogs.AudioIsDropped | packages/media-proxy/src/transcoder.ts:131-139 | a run in which audio alone fills the buffer and the next audio unit pushes the oldest out |
| Asking.AskingFinishes | packages/media-proxy/src/transcoder.ts:192-209 | once the native side has closed, and whatever else happens, a consumer makes at most one request for each unit held and one more; whenever the program rests it can ask or the pipeline has finished, and after that many requests it has |
| Asking.DrivenFinishes | packages/media-proxy/src/transcoder.ts:292-410 | from there the program and a consumer that keeps asking reach the end in every order of their steps, within nine and two for each unit held |
| KeyTable.CharToKey.NewKey | packages/remote-debugger/atoms/src/core/keyboard.ts:681-695 | registering a key fills the table in place |
| KeyTable.EveryEntryTypesItsCharacter | packages/remote-debugger/atoms/src/core/keyboard.ts:681-695 | for any registrations, every entry's key types its own character under the recorded Shift state |
| KeyTable.TableIsTheWinner | packages/remote-debugger/atoms/src/core/keyboard.ts:684-692 | for any registrations, a character maps to the last two-character key that types it, else to the first bare one, else to nothing |
| KeyTable.PrintableIsKnown | packages/remote-debugger/atoms/src/core/keyboard.ts:27-143 | every printable ASCII character has a key |
| KeyTable.NeverANumpadKey | packages/remote-debugger/atoms/src/core/keyboard.ts:145-153 | the table never leads to a key of the numeric pad |
| TextControls.SanitizeIsClosure | packages/remote-debugger/atoms/src/core/dom-core.ts:34-42 | assigning a value yields a value the control can hold, fixes exactly those, and never lengthens |
| TextControls.SanitizeRemovesOnly | packages/remote-debugger/atoms/src/core/dom-core.ts:34-42 | what inputs lose by sanitization: exactly the line breaks, and in a url input then only whitespace at the ends |
| TextControls.SettersSelect | packages/remote-debugger/atoms/src/core/selection.ts:14-43 | setting start and then end inside the text selects exactly that range |
| TextControls.SetTextReplaces | packages/remote-debugger/atoms/src/core/selection.ts:85-101 | the selected text is replaced and the new text left selected |
| TextControls.SetTextIsValid | packages/remote-debugger/atoms/src/core/selection.ts:85-101 | whatever sanitization does, the selection stays inside the sanitized replacement |
| TextControls.TextField.SetStart | packages/remote-debugger/atoms/src/core/selection.ts:14-23 | the start setter, with the conversion of -1 and the push of the end |
| TextControls.TextField.SetEnd | packages/remote-debugger/atoms/src/core/selection.ts:34-43 | the end setter, clamped to the text |
| TextControls.TextField.SetCursorPosition | packages/remote-debugger/atoms/src/core/selection.ts:72-82 | both ends set, one after the other |
| TextControls.TextField.ReplaceSelection | packages/remote-debugger/atoms/src/core/selection.ts:85-101 | value and selection after replacing the selected text |
| Keyboards.Keyboard.constructor | packages/remote-debugger/atoms/src/core/keyboard.ts:306-317 | a restored keyboard holds exactly the given key objects, and its mask counts only those that are the module's own |
| Keyboards.Keyboard.GetState | packages/remote-debugger/atoms/src/core/keyboard.ts:663-669 | the report lists exactly the keys held, and the cursor |
| Keyboards.Keyboard.SetPressed | packages/remote-debugger/atoms/src/core/keyboard.ts:325-336 | pressed set and mask after a key changes |
| Keyboards.Keyboard.PressKey | packages/remote-debugger/atoms/src/core/keyboard.ts:343-361 | throws exactly for a modifier that is down; else events, edit, then the key is held |
| Keyboards.Keyboard.ReleaseKey | packages/remote-debugger/atoms/src/core/keyboard.ts:426-436 | throws exactly for a key that is up; else key-up, and the key is no longer held |
| Keyboards.Keyboard.EditText | packages/remote-debugger/atoms/src/core/keyboard.ts:394-416 | which edit a key makes |
| Keyboards.Keyboard.UpdateOnCharacter | packages/remote-debugger/atoms/src/core/keyboard.ts:474-489 | control, cursor and events after a character |
| Keyboards.Keyboard.UpdateOnEnter | packages/remote-debugger/atoms/src/core/keyboard.ts:491-506 | a new line in a textarea, only an event elsewhere |
| Keyboards.Keyboard.UpdateOnBackspaceOrDelete | packages/remote-debugger/atoms/src/core/keyboard.ts:508-534 | control, cursor and events after an erasure |
| Keyboards.Keyboard.UpdateOnLeftOrRight | packages/remote-debugger/atoms/src/core/keyboard.ts:536-587 | selection and cursor after an arrow key, with and without Shift |
| Keyboards.Keyboard.UpdateOnHomeOrEnd | packages/remote-debugger/atoms/src/core/keyboard.ts:589-620 | selection and cursor after Home or End, with and without Shift |
| Keyboards.Keyboard.MoveCursor | packages/remote-debugger/atoms/src/core/keyboard.ts:651-661 | the caret goes to the end of the text only if the focus moved |
| Keyboards.MaskFollows | packages/remote-debugger/atoms/src/core/keyboard.ts:325-336 | the modifier mask and the pressed set never drift apart |
| Keyboards.MaskBits | packages/remote-debugger/atoms/src/core/device.ts:8-29 | each bit of the mask says whether its modifier is held |
| Editors.PressRefinesEditor | packages/remote-debugger/atoms/src/core/keyboard.ts:343-620 | a key does to the field what it does to the editor, if and only if the control can hold the editor's text |
| Editors.EraseRemovesExactly | packages/remote-debugger/atoms/src/core/keyboard.ts:508-534 | exactly the selection, one neighbour or nothing is removed; `input` fires if and only if the value changed |
| Editors.NeighbourSelected | packages/remote-debugger/atoms/src/core/keyboard.ts:513-520 | what gets selected for erasure, including position -1 and past the end |
| Editors.EditKeepsControl | packages/remote-debugger/atoms/src/core/keyboard.ts:394-620 | any key, in any kind of control and for any `currentPos`, leaves a selection inside the text |
| Typings.RunRefinesEditor | packages/remote-debugger/atoms/src/core/keyboard.ts:301-661 | every sequence of presses and releases, in every kind of control, refines the editor while its texts can be held |
| Typings.TextFieldsAreEditors | packages/remote-debugger/atoms/src/core/keyboard.ts:301-661 | in text inputs and textareas the refinement holds of every run: selection is the sorted anchor and cursor, `currentPos` one of its ends |
| Typings.RunKeepsSelection | packages/remote-debugger/atoms/src/core/keyboard.ts:301-661 | over every run, 0 <= start <= end <= length, and the mask matches the held keys |
| Typings.TypeCharacter | packages/remote-debugger/atoms/src/core/action.ts:101-112 | one character: Shift only if needed and released again; nothing throws |
| Typings.TypeString | packages/remote-debugger/atoms/src/core/action.ts:100-112 | the loop over the characters of a string |
| Typings.TypeValue | packages/remote-debugger/atoms/src/core/action.ts:99-123 | strings are typed, modifiers toggled, other keys pressed and released |
| Typings.TypeValues | packages/remote-debugger/atoms/src/core/action.ts:159-171 | the values and the release of the modifiers, in which no press or release ever throws, from any keyboard state |
| Typings.Type | packages/remote-debugger/atoms/src/core/action.ts:96-171 | the action from the choice of a keyboard on: the supplied one or a new one, the focus, then the values |
| Typings.TypingTheorem | packages/remote-debugger/atoms/src/core/action.ts:99-112 | the string lands in place of the selection if and only if the control can hold every value on the way; then the caret is just behind it; no new key stays held |
| Typings.TextFieldsTakeAnyText | packages/remote-debugger/atoms/src/core/action.ts:96-171 | in text inputs and textareas, `type` on a new keyboard inserts any string of known characters, over the selection or at the end if the focus moves, and leaves no key down |
| Typings.UrlLosesSpaces | packages/remote-debugger/atoms/src/core/keyboard.ts:474-489 | at the end of a url input no text containing a space can be typed |
| Typings.ModifiersToggle | packages/remote-debugger/atoms/src/core/action.ts:113-118 | a modifier is held after the values exactly if they toggled it an odd number of times |
| Typings.TypeLeaves | packages/remote-debugger/atoms/src/core/action.ts:165-171 | without persistence nothing is left held; with it exactly the modifiers toggled oddly |
| Typings.FocusTracks | packages/remote-debugger/atoms/src/core/keyboard.ts:651-661 | focus that moves puts keyboard and field in step, at the end of the text |
| Typings.ShiftLeftNeedsTheCursor | packages/remote-debugger/atoms/src/core/keyboard.ts:545-557 | Shift+Left from a caret selects a character if and only if `currentPos` is the caret |
| WireKeys.SplitKeys | packages/remote-debugger/atoms/src/webdriver/element.ts:119-174 | the records a key sequence is split into at each NULL |
| WireKeys.TypeWire | packages/remote-debugger/atoms/src/webdriver/element.ts:176-178 | the records are typed one after the other, by the supplied keyboard or each by a new one, and the focus moves for the first at most |
| WireKeys.SplittingKeepsMeaning | packages/remote-debugger/atoms/src/webdriver/element.ts:139-150 | with a supplied keyboard the records together do what the keys mean one by one, NULL releasing the modifiers |
| WireKeys.SameKeyboardJoinsCalls | packages/remote-debugger/atoms/src/webdriver/element.ts:113-179 | on one keyboard object, a call whose modifiers persist followed by another is one call with all the keys |
| WireKeys.SplittingPlaysKeys | packages/remote-debugger/atoms/src/webdriver/element.ts:139-150 | with or without a supplied keyboard the records do what the keys do one by one, with a new keyboard at each NULL if none was supplied |
| WireKeys.NullReleasesModifiers | packages/remote-debugger/atoms/src/webdriver/element.ts:139-150 | after NULL no modifier is held, persisting or not, on any keyboard |
| NewKeyboards.OtherTokenAt | packages/remote-debugger/atoms/src/core/keyboard.ts:394-620 | no key but a movement with Shift depends on the remembered cursor |
| NewKeyboards.ShiftMoveAt | packages/remote-debugger/atoms/src/core/keyboard.ts:545-610 | a movement with Shift leaves the same control from two remembered cursors if and only if they agree on its branch, or the branches coincide |
| NewKeyboards.NewKeyboardsExactly | packages/remote-debugger/atoms/src/core/action.ts:96-97 | with a new keyboard after each NULL, every key leaves the control it means if and only if each movement with Shift finds an agreeing cursor |
| NewKeyboards.AtomExactly | packages/remote-debugger/atoms/src/webdriver/inject/action.ts:8-11 | the same for the `type` atom, with the element in focus or not |
| NewKeyboards.AtomInTextFields | packages/remote-debugger/atoms/src/webdriver/inject/action.ts:8-11 | in text inputs and textareas that is the whole condition, for every sequence of keys |
| NewKeyboards.OrientedIsInStep | packages/remote-debugger/atoms/src/core/action.ts:96-97 | it is met whenever each keyboard puts the cursor somewhere, or was told where it is, before it extends a selection |
| NewKeyboards.AtomSelectsNothing | packages/remote-debugger/atoms/src/webdriver/inject/action.ts:8-11 | NULL, Shift, Left in an unfocused field with text: the keys mean to select a character, and the atom leaves a caret |
| Readings.ReadAsDownAndUp | packages/remote-debugger/atoms/src/core/action.ts:119-122 | a key that is no modifier means its press and release in the editor |
| Readings.PlayReads | packages/remote-debugger/atoms/src/core/action.ts:99-123 | any sequence of strings, keys, modifiers and NULLs leaves the text, the anchor, the cursor and the keys held that an editor-level reading of the sequence has, while the control can hold the texts on the way |
| Readings.SequenceReads | packages/remote-debugger/atoms/src/webdriver/element.ts:113-179 | so does the wire form of `type` with a supplied keyboard, in focus or not, with the modifiers let go of at the end unless they persist |
| Readings.TextFieldsReadKeys | packages/remote-debugger/atoms/src/webdriver/element.ts:113-179 | in text inputs and textareas it does for every sequence of keys |
| Readings.AtomReads | packages/remote-debugger/atoms/src/webdriver/inject/action.ts:8-11 | and so does the `type` atom on an element not in focus, for keys without NULL |
| Readings.PressTells | packages/remote-debugger/atoms/src/core/keyboard.ts:343-373 | the events of a press, exactly: keydown, keypress for what types, text input and input for what is typed, input for an erasure that changes the value |
| Readings.RunIsRecorded | packages/remote-debugger/atoms/src/core/keyboard.ts:343-436 | over every run of presses and releases, no key is told to go up unless it is down and no modifier to go down while it is, and what the page was last told of a key is whether it is held |
| Readings.PlayTells | packages/remote-debugger/atoms/src/core/action.ts:99-123 | the whole event record of any such sequence, from its reading alone |
| Readings.TextFieldsAreTold | packages/remote-debugger/atoms/src/webdriver/element.ts:113-179 | the same for the wire form of `type` in text inputs and textareas |
| SentKeys.SendKeys | packages/remote-debugger/atoms/src/webdriver/inputs.ts:14-31 | a call types with the keyboard restored from the report, and reports in turn |
| SentKeys.CopiesAreNoModifiers | packages/remote-debugger/atoms/src/core/keyboard.ts:325-336 | no key of a restored report is a modifier to the keyboard |
| SentKeys.TwoCallsAreOne | packages/remote-debugger/atoms/src/webdriver/inject/action.ts:36-40 | two calls do what one with all the keys does, down to the modifiers held and whatever the second types, if and only if the first leaves no modifier held |
| SentKeys.TwoCallsTypeAsOne | packages/remote-debugger/atoms/src/webdriver/inject/action.ts:36-40 | in the text and the cursor they do if and only if the first does not leave Shift held |
| SentKeys.ShiftIsForgotten | packages/remote-debugger/atoms/src/webdriver/inject/action.ts:36-40 | with Shift left held, the letter `a` comes out small after a second call and capital in one call |
| SentKeys.CallsAreOne | packages/remote-debugger/atoms/src/webdriver/inject/action.ts:36-40 | any number of calls do at each point what one with all the keys does, down to the modifiers held and whatever comes next, if and only if no call but the last leaves a modifier held |
| SentKeys.CallsTypeAsOne | packages/remote-debugger/atoms/src/webdriver/inject/action.ts:36-40 | in the text and the cursor they do if and only if no call but the last leaves Shift held |
| ElementCaches.CheckStale | packages/remote-debugger/atoms/src/core/inject.ts:424-442 | the walk over parents and hosts decides staleness |
| ElementCaches.FreshExactly | packages/remote-debugger/atoms/src/core/inject.ts:430-441 | a node passes if and only if a path of parents and hosts leads to the document element and enters it from a child |
| ElementCaches.FreshMeansConnected | packages/remote-debugger/atoms/src/core/inject.ts:430-441 | unless the document element hosts a shadow tree, passing means being connected |
| ElementCaches.StaleByLineage | packages/remote-debugger/atoms/src/core/inject.ts:436-439 | a connected node fails the check if and only if its path enters the document element from a shadow root it hosts, at any depth |
| ElementCaches.KeysDiffer | packages/remote-debugger/atoms/src/core/inject.ts:326-326 | different counters give different ids, none of which is the counter's own property |
| ElementCaches.DecimalDenotes | packages/remote-debugger/atoms/src/core/inject.ts:326-326 | the serial number of an id is written in decimal digits without leading zeros |
| ElementCaches.ElementCache.Sweep | packages/remote-debugger/atoms/src/core/inject.ts:450-463 | exactly the stale entries go |
| ElementCaches.ElementCache.AddElement | packages/remote-debugger/atoms/src/core/inject.ts:305-330 | cache and id after an addition |
| ElementCaches.ElementCache.FindKey | packages/remote-debugger/atoms/src/core/inject.ts:316-322 | finds the id of a cached node, or shows there is none |
| ElementCaches.ElementCache.GetElement | packages/remote-debugger/atoms/src/core/inject.ts:336-357 | answer and cache after a lookup, including the removal of a stale entry |
| ElementCaches.AddKeepsValid | packages/remote-debugger/atoms/src/core/inject.ts:305-330 | no two ids ever name one node, and the returned id names the added node |
| ElementCaches.AddKeepsIssued | packages/remote-debugger/atoms/src/core/inject.ts:312-314 | an addition removes an older id if and only if it sweeps and that id's node is stale |
| ElementCaches.AddKeepsExactly | packages/remote-debugger/atoms/src/core/inject.ts:305-330 | an addition keeps all ids while there are fewer than 200, and else exactly those of attached nodes |
| ElementCaches.CacheIsBounded | packages/remote-debugger/atoms/src/core/inject.ts:410-418 | over every run, while fewer than 200 cached nodes are attached at each addition, the cache never holds more than 200 entries |
| ElementCaches.IdLivesUntilReaped | packages/remote-debugger/atoms/src/core/inject.ts:305-357 | over every run of additions, lookups and document changes, an id names its node until reaped, and never any other node |
| ElementCaches.LookupExactly | packages/remote-debugger/atoms/src/core/inject.ts:336-357 | after any run an id finds its node if and only if the node is attached and no sweep or lookup found it detached before |
| ElementCaches.UnknownKeysFindNothing | packages/remote-debugger/atoms/src/core/inject.ts:336-344 | a key that was never given out finds nothing and changes nothing |
| ElementCaches.AttachedNodeKeepsItsId | packages/remote-debugger/atoms/src/core/inject.ts:301-330 | while a node stays attached its id finds it, and adding it again returns the same id |
| WrapValues.WrapValue | packages/remote-debugger/atoms/src/core/inject.ts:29-93 | the wire value and the cache left by the recursive traversal |
| WrapValues.UnwrapValue | packages/remote-debugger/atoms/src/core/inject.ts:98-127 | the value or first failure, and the cache left |
| RoundTrips.WrapEncodes | packages/remote-debugger/atoms/src/core/inject.ts:29-93 | the wire form of every value: plain data as it is, `undefined` as null, a function as its source, a node as a handle with its id under both element keys |
| RoundTrips.NodeOnTheWire | packages/remote-debugger/atoms/src/core/inject.ts:61-69 | a node is sent as an object of two fields, `ELEMENT` and the W3C key, both with the id under which the cache holds it |
| RoundTrips.EitherFieldIsEnough | packages/remote-debugger/atoms/src/core/inject.ts:109-114 | either field alone finds the node again while it is attached |
| RoundTrips.WrapCarries | packages/remote-debugger/atoms/src/core/inject.ts:305-330 | wrapping any value keeps every id of an attached node, however often it sweeps |
| RoundTrips.HandlesAreReserved | packages/remote-debugger/atoms/src/core/inject.ts:109-117 | an object is taken for a handle if and only if it has a reserved key |
| RoundTrips.RoundTripExactly | packages/remote-debugger/atoms/src/core/inject.ts:29-127 | a value comes back unchanged if and only if it is plain data without reserved keys whose nodes are all attached; otherwise plain data is refused as stale |
| RoundTrips.RoundTripAcrossScripts | packages/remote-debugger/atoms/src/core/inject.ts:206-221 | with any page and script activity in between, such a value whose nodes stay attached comes back unchanged |

## Left out

- Native encoders, addon loading, platform checks and the range checks of `resolveOptions`: foreign calls, or settled by one branch.
- The exact order of microtasks: a settled `await` may resume at any later step, which includes the real order.
- IEEE doubles in the clock: integers are ideal, which doubles match while |ticks| * 10^6 stays below 2^53; arrival times are reals.
- A native `close()` or `requestKeyFrame()` that throws synchronously, and a first audio `next()` that throws synchronously (modelled as settling right after the first segment).
- `generator.throw()` on the pipeline, and iterators whose creation throws (`packages/media-proxy/src/transcoder.ts:303-306`).
- PipelineRuns.WaitsOnlyForTheWorld: takes `return()` of a source to be absent or to give a promise (`packages/media-proxy/src/transcoder.ts:316`, `:323`). If it throws synchronously, or gives something without `catch`, after a throwing push, the pump skips `end()` and the consumer stays parked.
- PipelineRuns.JoinNeverAwaitsASource: takes the same of `return()`; such a throw would reject the pump that is awaited.
- PipelineRuns.SourcesAreReleased: does not claim that the audio source is asked to `return()` after a throwing `pushAudio`, because the code marks it done instead (Stopping.AudioIsToldExactly).
- PipelineRuns.OutcomeIsDetermined: is about runs whose native close succeeds; Faults.OutcomeIsThatOfTheRun covers a failed close too.
- QueueRuns.RunKeepsValid: is about one consumer at a time, which `units()` enforces (TranscoderRuns.OneConsumer).
- TranscoderRuns.AudioIsConserved: speaks of the time until the queue ends; Deliveries.AudioIsAccountedFor and Deliveries.AudioIsYieldedExactly carry it to completion.
- Typings.TypingTheorem: covers the characters of the key table, which are the printable ASCII ones; other characters go through the host's case mapping, which is not part of this model.
- Typings.RunRefinesEditor: asks for values shorter than 2^32 - 2 code units, the range of the selection setters.
- Keyboards.Keyboard.PressKey: types into the element it was given, which is editable; the move to another active element, the submission of a form on Enter, and page handlers that cancel keys or edit during them are not modelled.
- Keyboards.Keyboard.UpdateOnCharacter: covers controls that support selection; the branches for those that do not (`number`, `email`) and for contenteditable elements are not modelled.
- Typings.Type: starts behind the check that the element can be interacted with, and leaves out the `date` and `number` branches.
- WireKeys.SplittingPlaysKeys: without a supplied keyboard, is about calls in which modifiers do not persist, as the atom makes them.
- Editors.EraseRemovesExactly: like all results about text, is about values without surrogate pairs, which the character type does not represent; there Backspace removes half a pair.
- The table from wire characters to keys (`packages/remote-debugger/atoms/src/webdriver/element.ts:47-101`): WireKeys starts from looked-up keys.
- SentKeys.SendKeys: the report travels unharmed except for the identity of its keys, and the active element is the text field.
- ElementCaches.ElementCache.GetElement: looks up nodes, not windows, and takes ids as decoded; `decodeURIComponent` is the identity on every id the cache issues.
- ElementCaches.CheckStale: is about nodes; a window is stale when it is closed, which is not modelled.
- Windows, and caches of several documents: the model is one document with its nodes.
- WrapValues.WrapValue: covers values without cycles, windows and array-likes, as the next line says.
- Objects with a property `nodeType` or `document`, a numeric `length` or an own `__proto__`, which wrapping takes for nodes, windows, arrays or prototypes; cycles; NaN and Infinity, numbers being carried as integers.
- Compiling and running scripts, the response envelope, and the one-response rule of `executeAsyncScript`.
- The other atoms, and the service clients of the repository.
