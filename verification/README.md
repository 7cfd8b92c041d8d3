# Agent Gateway runtime core: model and proofs

A Dafny model of the part of the Vifu Agent Gateway that decides what leaves the gateway and when: the
telemetry of an invocation and its upload, the bounded public form of inputs and outputs, the admission and
cancellation of calls, the monitor of an embedded runtime, the overlay of a server release over local Python
agents, the planner of route combinations, and the codec of the wire frames. Each part has the form of its
source: classes where objects are updated in place, loops where the source loops, step machines where tasks
interleave, and functions where the source computes a value. `dafny verify dfyconfig.toml` checks everything.

## Parts

| files | part |
|---|---|
| `Text`, `JsonValues`, `JsonEncoding`, `TraceIo`, `ClippedText`, `TraceIoFixpoint`, `TraceIoGuarantees`, `TraceIoKept`, `TraceIoEdges` | canonical trace summaries and their receiver's check |
| `TelemetryEvents`, `PublicErrors`, `Recorder`, `RecorderRuns`, `InvocationRuns`, `TerminalSurvival`, `Pairs`, `Spans`, `TerminalRuns`, `RecordContents`, `ReceiverLimits` | the recorder of one invocation |
| `Backlog`, `TelemetryPipeline`, `PipelineSafety`, `PipelineTheorems`, `PipelineFates` | the upload pipeline as interleaved tasks |
| `Admission`, `AdmissionSafety`, `AdmissionTheorems`, `AdmissionAnswers` | one connection: call table, permits, cancellation, responses |
| `EmbeddedMonitor`, `MonitorRuns`, `MonitorAccounts`, `MonitorBatches`, `MonitorContents` | the monitor of an embedded runtime |
| `Lists`, `ReleaseOverlay`, `OverlayTheorems`, `OverlayFixpoints`, `Resync`, `OverlayContents`, `OverlayEdges`, `LocalRelease`, `SyncRuns` | the release overlay and the choice of a local release |
| `RouteCandidates`, `SharedProvider`, `RoutePlanner` | route combinations |
| `GatewayCodec`, `GatewayWire`, `CodecAcceptance` | commands and frames |
| `Outcomes`, `Sums` | optional values and results, sums over lists |

`ReceiverLimits`, the second half of `CodecAcceptance` and the last lemmas of `TraceIoKept` write the receiver's and
the codec's checks, names and limits out in numbers and words, so that a changed limit fails a proof.

## What the proofs show about the code

Some promises hold only under a condition on what goes in. For each the condition is proved to be exact;
`TraceIoEdges`, `OverlayEdges` and a few single lemmas give inputs on which it fails.

- A summary that the gateway makes can be refused by its own receiver. It happens when an object with more than
  128 keys keeps a key that sorts after the `…` marker, when clipping an over-long text cuts off the blanks
  that hid a `bearer ` or `basic ` scheme, and when the caller's own value has a `truncated: true` member or a
  ` chars total>` text. It happens in no other case.
- A public error keeps 512 characters, but the validator counts bytes, so an error with wide characters can
  make an otherwise good batch unacceptable. Errors of at most 512 bytes never do.
- A Failed record can be lost in a full buffer. All survive when the open observations are at most the free
  slots plus the Started records; `FailedRecordsFit` is the exact condition, which allows one more in some buffers.
- The overlay of two valid manifests is invalid exactly when an endpoint that stays has the name of an endpoint
  that the source brings. A Python provider without agents that displaced a used one is dropped and comes back
  when the same source is applied again. Syncing a release repeatedly can move Python endpoints once, and is
  stable after two rounds.
- A connection that ends with an error cancels and aborts nothing, so whatever was not cancelled or aborted
  before keeps running; an orderly end aborts all of it. Request ids are therefore unique within one
  connection only.
- A trace that runs longer than a day and falls silent makes a terminal batch that the receiver refuses, which
  ends the connection.
- A provider's output of more than 16 MiB of JSON is an answer that cannot be encoded, which ends the connection; every
  other answer can.
- Starting an embedded trace under the id of a running one forgets the running one, without a terminal batch
  and with the summaries that waited.

JSON texts are read by a parameter, `Reader`, of which two facts are used: a text that decodes to a container
ends, apart from JSON blanks, in `]` or `}` and the bracketed placeholders do not decode (sections 2, 4 and 5
of RFC 8259), and what it yields is a well-formed value.

## Model

| member | source | states |
|---|---|---|
| TraceIo.RedactTraceIoValue | crates/vifu-gateway/src/protocol.rs:1194-1289 | The rewriter as the gateway runs it, one pass that builds the output and raises the flag, terminates although it parses strings again and agrees with `RedactValue` and `Truncates`, whose meaning `TraceIoKept`, `TraceIoFixpoint` and `TraceIoGuarantees` give, for every value, depth and key hint |
| TraceIo.RedactObject | crates/vifu-gateway/src/protocol.rs:1208-1237 | The object loop: at most 128 kept fields and one marker, inserted into a sorted map, and the flag raised for every cut |
| TraceIo.RedactArray | crates/vifu-gateway/src/protocol.rs:1238-1249 | The array loop: the first 128 items, each under the array's own key hint |
| TraceIoKept.HarmlessIsKept | crates/vifu-gateway/src/protocol.rs:1194-1289 | A value comes through as it is and without the flag exactly when it is harmless: at most five levels, or six to eight under the keys of tool calls, fewer than 128 entries everywhere, no binary marker, no sensitive key, and only short plain texts that are not decoded |
| TraceIoKept.SummaryIsTheValue | crates/vifu-gateway/src/protocol.rs:184-205 | The canonical summary is the value itself, not flagged, exactly for harmless values of at most 131072 bytes |
| TraceIoKept.KeptIsRewritten | crates/vifu-gateway/src/protocol.rs:1208-1249 | Along every path of kept positions, through objects, arrays and decoded texts, the output has the rewriting of what the input has there |
| TraceIoKept.HarmlessPartsAreKept | crates/vifu-gateway/src/protocol.rs:1194-1289 | So numbers, booleans, nulls and all other harmless parts stay as they are in their places, whatever is cut around them |
| TraceIoKept.NothingIsMadeUp | crates/vifu-gateway/src/protocol.rs:1194-1289 | Every number, boolean and null of the output is that of the input in the same place |
| TraceIoKept.LongTextKeepsItsHead | crates/vifu-gateway/src/protocol.rs:1271-1282 | A text that is only too long keeps its head and ends in how long it was, in exactly 98304 characters |
| Text.DecimalIsTheNumber | crates/vifu-gateway/src/protocol.rs:1275-1278 | The count in such a text is the number itself, without leading zeros |
| Text.TrimTakesTheBlanks | crates/vifu-gateway/src/protocol.rs:1336-1337 | Trimming takes the blanks at both ends and nothing else |
| TraceIoKept.ReplacementsAreNamed | crates/vifu-gateway/src/protocol.rs:1194-1270 | What stands for containers that are too deep, binary objects, sensitive texts and media |
| TraceIoKept.RedactedFieldsAreNamed | crates/vifu-gateway/src/protocol.rs:1221-1234 | The value of a sensitive key is replaced, and an object of more than 128 fields says that it has more |
| TraceIoKept.SecretWordsAreSensitive | crates/vifu-gateway/src/protocol.rs:1361-1382 | A key that ends in one of eleven words is sensitive |
| TraceIoKept.SpellingDoesNotMatter | crates/vifu-gateway/src/protocol.rs:1361-1382 | Punctuation and capitals in a key make no difference to that |
| TraceIoKept.SensitiveTextsHaveMarkers | crates/vifu-gateway/src/protocol.rs:1336-1359 | A text is sensitive exactly when one of seventeen markers is in it, in whatever case |
| TraceIoKept.MediaKeysHaveWords | crates/vifu-gateway/src/protocol.rs:1384-1396 | A key stands for media exactly when its letters are `data` or have one of five words in them |
| TraceIoFixpoint.RedactTwice | crates/vifu-gateway/src/protocol.rs:1194-1289 | Rewriting twice is rewriting once exactly for stable values, through depth limits, key hints, parsed `arguments` strings and both size limits |
| TraceIoFixpoint.CanonicalIsFixpoint | crates/vifu-gateway/src/protocol.rs:184-205 | The canonical summary is its own canonical form exactly when it fell back to its shape or its input is stable |
| ClippedText.RedactTextTwice | crates/vifu-gateway/src/protocol.rs:1250-1286 | A string is rewritten to a fixed point exactly unless clipping exposes a credential scheme whose space the trim had hidden |
| ClippedText.ClipSensitive | crates/vifu-gateway/src/protocol.rs:1271-1282 | A clipped text is sensitive exactly when the original text ends in a scheme and blanks inside the kept prefix |
| TraceIoGuarantees.FlagShows | crates/vifu-gateway/src/protocol.rs:1316-1334 | A rewritten value looks cut exactly when something was cut or the input already had a `truncated: true` member or a ` chars total>` text in a place that is kept |
| TraceIoGuarantees.ReportedCutIsVisible | crates/vifu-gateway/src/protocol.rs:176-205 | For every input a summary that reports a cut also shows it |
| TraceIoGuarantees.CanonicalIsAccepted | crates/vifu-gateway/src/protocol.rs:1172-1192 | The receiver accepts the gateway's own summary exactly when it is a fallback, or its input is stable and does not pretend to be cut |
| TraceIoGuarantees.RedactedIsBounded | crates/vifu-gateway/src/protocol.rs:1194-1289 | The output nests no deeper than the levels that remain, with bounded arrays, objects and texts, and the fixed marker under every sensitive key |
| TraceIoGuarantees.CanonicalIsBounded | crates/vifu-gateway/src/protocol.rs:184-205 | Every summary fits 128 KiB and nests at most eight containers, bounded at every level |
| TraceIoGuarantees.AcceptedIsBounded | crates/vifu-gateway/src/protocol.rs:1172-1192 | Whatever a receiver accepts, whoever sent it, is within 131072 bytes and the same bounds, redacted, and flagged if it shows a cut |
| JsonEncoding.EncodedSizeIsTheLength | crates/vifu-gateway/src/protocol.rs:1620-1628 | The size that all limits count is the number of bytes of the compact JSON text, escapes included |
| TraceIoGuarantees.SecretsDoNotFlow | crates/vifu-gateway/src/protocol.rs:1194-1289 | Two inputs that differ only under sensitive keys, in texts that look like credentials or below the depth limit, with `arguments` texts compared by what they decode to, are rewritten to the same value with the same flag |
| TraceIoGuarantees.SummaryKeepsNoSecret | crates/vifu-gateway/src/protocol.rs:184-205 | Such two inputs have one and the same canonical summary |
| TraceIoGuarantees.ArgumentSecretsAreNotSeen | crates/vifu-gateway/src/protocol.rs:1250-1270 | What a sensitive key holds inside the JSON text of a call's arguments does not show in the summary |
| TraceIoEdges.MisplacedMarkerIsRefused | crates/vifu-gateway/src/protocol.rs:1221-1225 | A concrete object of 129 keys that sort after the marker has a summary that the receiver refuses |
| TraceIoEdges.ExposedSchemeIsRefused | crates/vifu-gateway/src/protocol.rs:1276-1282 | A concrete over-long text, a scheme followed by blanks, has a summary that the receiver refuses |
| TraceIoEdges.PretendedCutIsRefused | crates/vifu-gateway/src/protocol.rs:1316-1334 | The one-member object `truncated: true` has a summary that the receiver refuses |
| TelemetryEvents.SafeErrorIsValid | crates/vifu-gateway/src/relay.rs:1878-1904 | A public error is never blank and has at most 512 characters; the validator, which counts bytes, accepts it exactly when the raw text has a secret marker, or its first 512 characters are blank or take at most 512 bytes |
| TelemetryEvents.ShortErrorFits | crates/vifu-gateway/src/relay.rs:1878-1904 | So every error of at most 512 bytes is accepted |
| TelemetryEvents.WideErrorIsRefused | crates/vifu-gateway/src/relay.rs:3653-3670 | A concrete error of 512 two-byte characters whose public form the validator refuses |
| PublicErrors.PublicErrorIs | crates/vifu-gateway/src/relay.rs:1878-1904 | A public error is the fixed redaction, or the first 512 characters with blanks for control characters, or `unknown error` if those are blank, each in exactly its case |
| PublicErrors.PlainErrorIsShown | crates/vifu-gateway/src/relay.rs:3653-3670 | A short error without markers and control characters is shown as it is |
| PublicErrors.RedactedErrorsHaveMarkers | crates/vifu-gateway/src/relay.rs:1878-1902 | An error is redacted exactly when one of sixteen markers is in it, in whatever case |
| Recorder.InvocationTelemetry.constructor | crates/vifu-gateway/src/relay.rs:290-303 | A recorder begins with the InvocationStarted record and nothing else |
| Recorder.InvocationTelemetry.SetRootInputSummary | crates/vifu-gateway/src/relay.rs:305-309 | Sets the input summary unless the recorder is sealed |
| Recorder.InvocationTelemetry.SetRootOutputSummary | crates/vifu-gateway/src/relay.rs:311-315 | Sets the output summary unless the recorder is sealed |
| Recorder.InvocationTelemetry.Push | crates/vifu-gateway/src/relay.rs:317-329 | Appends below 32 events and otherwise counts a drop, up to 10000 |
| Recorder.InvocationTelemetry.PushTerminal | crates/vifu-gateway/src/relay.rs:331-371 | A terminal record in a full buffer replaces its own Started record, else any Started record, else the second record |
| Recorder.InvocationTelemetry.FailActive | crates/vifu-gateway/src/relay.rs:373-395 | Closes every open observation with a Failed record of its own id and start, in order, and returns those records |
| Recorder.InvocationTelemetry.Finish | crates/vifu-gateway/src/relay.rs:397-405 | Seals the recorder and hands over exactly what it held |
| Recorder.InvocationTelemetry.SafeTraceTelemetry | crates/vifu-gateway/src/relay.rs:1343-1436 | What one provider event does to the recorder, and the record that the observer is shown |
| RecordContents.RecordTellsItsEvent | crates/vifu-gateway/src/relay.rs:1343-1436 | Every stage event before the seal makes a record that tells it field by field: stage, status, numbers, public error, end and time to the first token, under the id and from the start of the open observation of its stage, or else new, and from as long ago as a terminal event took |
| RecordContents.EventOpensOrCloses | crates/vifu-gateway/src/relay.rs:1381-1410 | Afterwards the stage is open with the record's id and start exactly if the event started it, and the other stages are as they were |
| RecordContents.ForcedRecordsTell | crates/vifu-gateway/src/relay.rs:373-395 | A forced record is Failed, has its observation's id, stage and start, lasts until the end and has the public error |
| RecordContents.EventsAreReported | crates/vifu-gateway/src/relay.rs:1343-1436 | In every run the history has, in order, one record for each stage event before the seal, which tells it, and one for each observation that an end found open, and nothing else |
| RecordContents.BufferHoldsTheRun | crates/vifu-gateway/src/relay.rs:317-371 | Before the seal the buffer holds records of the run only, and all of them in order while they are at most 32 |
| RecordContents.FirstRecordsStay | crates/vifu-gateway/src/relay.rs:317-329 | Without a forced end it holds the first 32 |
| RecorderRuns.SealedIsFinal | crates/vifu-gateway/src/relay.rs:289-406 | After the seal no operation changes the events, the open observations, the summaries or the counter |
| RecorderRuns.RunIsAccounted | crates/vifu-gateway/src/relay.rs:317-371 | In every run before the seal event 0 stays InvocationStarted, min(32, offered + 1) events are kept, the counter is min(10000, offered + 1 - kept), and at most one observation is open per stage |
| RecorderRuns.ObservedIsValid | crates/vifu-gateway/src/protocol.rs:1416-1506 | The record of a provider event is valid exactly when the event's numbers are in range, its raw error fits and its offset is within a day or already on an open observation |
| RecorderRuns.FailedRecordIsValid | crates/vifu-gateway/src/relay.rs:373-395 | A forced Failed record is valid exactly when its end is within a day and the raw error fits |
| RecorderRuns.BatchNeedsItsSummaries | crates/vifu-gateway/src/protocol.rs:1152-1170 | Whatever happens to an invocation whose events are in range, its batch passes the receiver's validator exactly when its two summaries do, on every finish path |
| InvocationRuns.BatchHasItsSummaries | crates/vifu-gateway/src/relay.rs:397-405 | The batch carries the canonical summaries of the last input and of the last output |
| InvocationRuns.BatchIsAccepted | crates/vifu-gateway/src/protocol.rs:1152-1192 | With the canonical summaries that the gateway sets, the batch is accepted exactly when the last raw input and the last raw output are oversized, or stable and not pretending to be cut |
| InvocationRuns.ShortErrorIsInRange | crates/vifu-gateway/src/protocol.rs:1416-1506 | A stage that fails with an error of at most 512 bytes is in range, whatever the error says |
| InvocationRuns.UnfitErrorSpoilsTheBatch | crates/vifu-gateway/src/protocol.rs:1416-1506 | One stage that fails with an error that does not fit has the receiver refuse the whole batch |
| InvocationRuns.WideErrorSpoilsABatch | crates/vifu-gateway/src/protocol.rs:1416-1506 | A concrete one-event run whose batch is refused for its 512 wide characters |
| TerminalSurvival.AllFit | crates/vifu-gateway/src/relay.rs:331-395 | With room for all open observations every Failed record is kept and only Started records give way |
| TerminalSurvival.TerminalsSurvive | crates/vifu-gateway/src/relay.rs:331-395 | Every open observation leaves its Failed record, exactly when the records fit: as many as free slots and Started records, or one more under a stated condition on the second slot |
| TerminalRuns.RunTerminalsSurvive | crates/vifu-gateway/src/relay.rs:331-395 | The same for every run of a recorder with fresh ids, in whatever order the offsets arrive; the buffer stays within 32 |
| Pairs.ReportedRecordsArePaired | crates/vifu-gateway/src/relay.rs:1381-1434 | In every run with fresh ids a terminal record has the id and start of the Started record that is open for its stage, a closed id is not used again, and a reopened stage has a new one |
| Spans.ReportedSpansAreOrdered | crates/vifu-gateway/src/relay.rs:1381-1434 | With non-decreasing offsets the spans of one stage are also disjoint and in order, and no record ends before it starts |
| Backlog.TelemetryBacklog.Enqueue | crates/vifu-gateway/src/relay.rs:1827-1836 | Appends at the back; a full queue of 512 loses its oldest batch and counts it |
| Backlog.TelemetryBacklog.TriggerFlush | crates/vifu-gateway/src/relay.rs:3022-3049 | Claims the flush, and tells to spawn, exactly when there is something to send and nobody sends |
| Backlog.TelemetryBacklog.TakeNext | crates/vifu-gateway/src/relay.rs:3051-3090 | Takes the oldest batch, or gives the flush up when there is none |
| Backlog.TelemetryBacklog.RestoreRetryable | crates/vifu-gateway/src/relay.rs:3111-3120 | Puts a batch back at the front, unless the queue is full, and then counts it as lost |
| Backlog.TelemetryBacklog.RecordPermanentDrop | crates/vifu-gateway/src/relay.rs:1838-1857 | Counts a permanently refused batch and nothing else |
| Backlog.TelemetryBacklog.HandleFlushResult | crates/vifu-gateway/src/relay.rs:3092-3109 | What each upload result does to the queue and its counters |
| PipelineSafety.StepKeepsInv | crates/vifu-gateway/src/relay.rs:1634-1667 | Every atomic step of every task keeps the order, the account, the permits and the wake-up promise |
| PipelineTheorems.QueueIsNewestPartOfLog | crates/vifu-gateway/src/relay.rs:3051-3120 | In every interleaving the queue is the newest part of the enqueue log, at most 512 long; a batch on its way is older than all of it and is its immediate predecessor unless the queue is full; workers take batches in log order |
| PipelineTheorems.OverflowLosesTheOldest | crates/vifu-gateway/src/relay.rs:1827-1836 | Whichever step loses a batch by overflow, all that is pending afterwards is newer |
| PipelineTheorems.BatchesAreConserved | crates/vifu-gateway/src/relay.rs:1634-1667 | In every reachable state each batch is in exactly one place, and both drop counters equal the number of batches dropped that way |
| PipelineFates.ResultsAreObeyed | crates/vifu-gateway/src/relay.rs:1648-1667 | In every run a batch is acknowledged exactly when an upload of it was accepted, and dropped exactly when one was refused for good, once the task that heard so has acted |
| PipelineFates.QueuedExactlyWhenSent | crates/vifu-gateway/src/relay.rs:1638-1667 | A batch is in the enqueue log, or its submitter is about to put it there, exactly when its own upload may be retried, it found no permit or it was shed; no submitter finishes before |
| PipelineFates.WorkerObeys | crates/vifu-gateway/src/relay.rs:3092-3120 | What a worker's upload returned decides what becomes of its batch: a retry is back at the front of the queue, or overflowed exactly when the queue is full |
| PipelineFates.LossesHaveCauses | crates/vifu-gateway/src/relay.rs:1827-1836 | A batch is overflowed exactly when a newer one pushed it out of a full queue or its retry found the queue full, and lost exactly when its submitter was aborted during the upload |
| PipelineTheorems.FinalFateStays | crates/vifu-gateway/src/relay.rs:1838-1857 | No step changes the fate of a batch that is acknowledged, dropped, overflowed or lost |
| PipelineTheorems.UploadsAreBounded | crates/vifu-gateway/src/relay.rs:1638-1661 | At most four uploads are in flight, direct and flushed together |
| PipelineTheorems.OneWorkerAndNoLostWakeup | crates/vifu-gateway/src/relay.rs:3022-3090 | `flushing` holds exactly while one worker is live or about to be spawned, never two, and a queue without a worker has a task that is about to look at it |
| PipelineTheorems.StretchIsShort | crates/vifu-gateway/src/relay.rs:3051-3109 | A stretch without arrivals and failed retries has a bounded number of steps |
| PipelineTheorems.QuiescentIsDrained | crates/vifu-gateway/src/relay.rs:3051-3109 | When no progress is left and no retry waits, the queue is empty, no worker is left, all permits are back and every batch is gone in a recorded way |
| AdmissionSafety.StepKeepsInv | crates/vifu-gateway/src/relay.rs:2151-2631 | Every step of the loop and of every task keeps the call table, the permits, the responses and the verdicts consistent |
| AdmissionTheorems.OneProviderCall | crates/vifu-gateway/src/relay.rs:2244-2270 | In every reachable state no two provider calls run for one request id |
| AdmissionTheorems.SuspendedIsBounded | crates/vifu-gateway/src/relay.rs:2348-2400 | The tasks that wait for something are at most 64 + 64 + 4 |
| AdmissionTheorems.NothingLeaks | crates/vifu-gateway/src/relay.rs:1634-1661 | When no task is left every call permit, rejection slot and upload permit is back |
| AdmissionTheorems.ShedOnlyAtCapacity | crates/vifu-gateway/src/relay.rs:1793-1816 | An invocation under a free request id is turned away without a task exactly when tasks hold all 64 call permits and all 64 rejection slots |
| AdmissionTheorems.OneResponse | crates/vifu-gateway/src/relay.rs:1555-1556 | No invocation ever has two responses, queued or sent |
| AdmissionTheorems.AnsweredUnlessCancelled | crates/vifu-gateway/src/relay.rs:2526-2588 | While the connection lives, a task that ran to its end without being aborted has answered exactly unless it saw the call cancelled |
| AdmissionAnswers.TasksAnswerTruly | crates/vifu-gateway/src/relay.rs:2547-2588 | The response of a provider call carries exactly the one result that its provider returned; a task without a provider answers NotConnected and a rejected one Backpressure |
| AdmissionAnswers.RefusalsAreTrue | crates/vifu-gateway/src/relay.rs:2255-2264 | A response without a task is DuplicateRequest exactly if the id was in the table when its invocation arrived, and Backpressure otherwise, with all permits and slots taken |
| AdmissionAnswers.TurnedAwayIsRefused | crates/vifu-gateway/src/relay.rs:1793-1816 | Every invocation that is turned away without a task gets that response if the queue has room |
| AdmissionAnswers.TasksHaveOrigins | crates/vifu-gateway/src/relay.rs:2343-2425 | Every task answers the invocation that started it, under a free request id, and is rejected, without a provider or a provider call as that one found permits and provider |
| AdmissionAnswers.DisturbedOnlyWhenAsked | crates/vifu-gateway/src/relay.rs:2596-2631 | In every run nothing cancels or aborts a task but a cancel message for its own request id and the stop of the loop |
| AdmissionAnswers.AdmittedIsAnswered | crates/vifu-gateway/src/relay.rs:2526-2588 | So an invocation that got a task and was not asked to stop is answered when its task has come to its end, while the connection lives |
| AdmissionAnswers.StoppingReachesAllTasks | crates/vifu-gateway/src/relay.rs:2739-2755 | An orderly stop cancels every provider call that still runs and aborts every other task |
| AdmissionAnswers.FinishedIdsAreFree | crates/vifu-gateway/src/relay.rs:3649-3651 | The look at the table that precedes every message forgets exactly the calls that are over |
| AdmissionAnswers.QueueIsBounded | crates/vifu-gateway/src/relay.rs:2138-2150 | In every run at most 128 messages wait for the socket, responses and notices together |
| AdmissionTheorems.ReportsAreTrue | crates/vifu-gateway/src/relay.rs:2192-2200 | A task is told that its response was delivered exactly when the socket took it |
| AdmissionTheorems.CancelledCallStaysSilent | crates/vifu-gateway/src/relay.rs:2529-2545 | A call that is cancelled before its task looked for the last time never answers, in all of the run that follows |
| AdmissionTheorems.CancelSilencesItsCall | crates/vifu-gateway/src/relay.rs:2596-2631 | A cancel message reaches the call that runs under its request id and silences it if the result was not accepted yet |
| AdmissionTheorems.OrderlyEndAbortsTheRest | crates/vifu-gateway/src/relay.rs:2739-2755 | After an orderly end whatever still runs has been aborted |
| AdmissionTheorems.EndLeavesNothingUntouched | crates/vifu-gateway/src/relay.rs:2151-2240 | From the end of a connection on, all that still runs is cancelled or aborted exactly when the end was orderly or all of it had been cancelled or aborted before |
| AdmissionTheorems.NothingIsTouched | crates/vifu-gateway/src/relay.rs:2151-2240 | Neither the step that ends a connection, orderly or not, nor anything after it cancels or aborts a task |
| AdmissionTheorems.BrokenEndLeavesACall | crates/vifu-gateway/src/relay.rs:2151-2240 | A concrete run that ends with an error and leaves a provider call neither cancelled nor aborted |
| EmbeddedMonitor.Monitor.TakeDropped | crates/vifu-gateway/src/relay.rs:138-142 | Empties the loss counter and reports at most 10000 of it |
| EmbeddedMonitor.Monitor.NoteDrop | crates/vifu-gateway/src/embedded.rs:660-670 | Counts an event that found the queue full |
| EmbeddedMonitor.Monitor.Receive | crates/vifu-gateway/src/relay.rs:2826-2958 | What one lifecycle event does to the table, the counter and the waiting summaries, and the batch it sends; an event without deployment or trace takes nothing |
| EmbeddedMonitor.Monitor.RecordIo | crates/vifu-gateway/src/relay.rs:2960-2976 | A summary waits with its trace and replaces the one that waited; an unknown trace is ignored |
| EmbeddedMonitor.Monitor.CollectExpired | crates/vifu-gateway/src/relay.rs:2986-2992 | The traces that were idle for 150 seconds, in the order of the walk |
| EmbeddedMonitor.Monitor.Expire | crates/vifu-gateway/src/relay.rs:2978-3020 | Removes the expired traces with one terminal batch each, of which the first reports the losses; without an expired trace or a clock nothing changes |
| MonitorRuns.NothingAfterTheTerminal | crates/vifu-gateway/src/relay.rs:2826-3020 | In every run nothing is sent for a trace after its terminal batch until it is started again, so a started trace has at most one terminal |
| MonitorRuns.ExpiryRemovesTheIdle | crates/vifu-gateway/src/relay.rs:2978-3020 | After an expiry exactly the traces that were not idle too long are left, unchanged |
| MonitorRuns.ExpiryIsExact | crates/vifu-gateway/src/relay.rs:2978-3020 | Each expired trace has exactly one batch in an expiry, which ends it, and no other trace has one |
| MonitorContents.RunKeepsTable | crates/vifu-gateway/src/relay.rs:2826-3020 | In every run the table holds exactly the running traces, with the head of their start, the time they were last heard of, the summaries recorded since their last batch and the first id of each stage |
| MonitorContents.EventsAreTold | crates/vifu-gateway/src/relay.rs:2826-2958 | An event makes one batch exactly if its trace runs or it starts one: its status, numbers and public error, the trace's head, the waiting summaries and at most 10000 losses |
| MonitorContents.ExpiriesAreTold | crates/vifu-gateway/src/relay.rs:2978-3020 | An expiry ends every trace that was silent for 150 seconds, in the order of the walk, with an error and the time since its start; the first batch reports the losses |
| MonitorContents.BatchesAreInOrder | crates/vifu-gateway/src/relay.rs:2826-3020 | What a run sends is these batches in the order of the operations, and nothing else |
| MonitorAccounts.LossesAreReported | crates/vifu-gateway/src/relay.rs:138-142 | Reported losses and the live counter never exceed the losses, and equal them exactly while no batch finds more than 10000 |
| MonitorAccounts.LossesAreConserved | crates/vifu-gateway/src/relay.rs:138-142 | Every loss is reported, still counted, or above the limit of the batch that took it |
| MonitorAccounts.SummariesAreSentOnce | crates/vifu-gateway/src/relay.rs:207-230 | What is sent for a trace is a subsequence of what was recorded for it: right trace, right order, each recording at most once |
| MonitorAccounts.RestartForgets | crates/vifu-gateway/src/relay.rs:2843-2882 | In any run, starting a trace that runs already sends a batch without summaries and forgets what the trace kept |
| MonitorBatches.CommandIsAccepted | crates/vifu-gateway/src/protocol.rs:1114-1150 | The batch for an event passes the receiver's validator exactly when the event and its trace are in range |
| MonitorBatches.ExpiredBatchIsAccepted | crates/vifu-gateway/src/protocol.rs:1114-1150 | The last batch of an expired trace is accepted exactly when the clock shows the start or at most a day later |
| MonitorBatches.EveryBatchIsAccepted | crates/vifu-gateway/src/protocol.rs:1114-1150 | While all that the monitor hears is in range, all that it sends is accepted |
| MonitorBatches.LongTraceIsRefused | crates/vifu-gateway/src/relay.rs:2978-3020 | For every deployment and start event, a run in which the trace falls silent for over a day and its last batch is refused |
| ReleaseOverlay.RuntimeManifest.PreserveEmbeddedPythonAgents | crates/vifu-gateway/src/relay.rs:3323-3397 | The in-place merge computes `Overlay` for any two manifests with unique ids |
| OverlayTheorems.PythonAgentsAreKept | crates/vifu-gateway/src/relay.rs:3360-3379 | Every Python agent of the source is in the result with the source's provider and capabilities |
| OverlayTheorems.PythonProvidersAreKept | crates/vifu-gateway/src/relay.rs:3333-3347 | The provider of every Python agent is in the result exactly as the source has it |
| OverlayTheorems.EndpointsAndOthersAreKept | crates/vifu-gateway/src/relay.rs:3380-3389 | Python agents have exactly the source's endpoints, all others exactly the remote's, and other agents do not change |
| OverlayContents.AgentsOfOverlay | crates/vifu-gateway/src/relay.rs:3360-3379 | The overlay's agents are the remote's in order, each as it was or taken over: it keeps its name, its metadata members win, and provider and capabilities are the source's; then the source's other Python agents |
| OverlayContents.AgentsAreAllThere | crates/vifu-gateway/src/relay.rs:3360-3379 | None of them is missing, and no id is there twice |
| OverlayContents.ProvidersOfOverlay | crates/vifu-gateway/src/relay.rs:3333-3347 | The providers are exactly the source's Python providers and the remote's others, except those that lost an agent and have none left |
| OverlayFixpoints.OverlayIsValid | crates/vifu-runtime/src/manifest.rs:106-193 | No reference of the overlay dangles, and it is valid, timeouts, names and capabilities included, exactly when no endpoint that stays has the name of one that comes |
| OverlayFixpoints.SameSourceAgain | crates/vifu-gateway/src/relay.rs:3390-3396 | Applying the same source again changes nothing exactly when every Python provider of the source survives the first time |
| Resync.ResyncChangesNothing | crates/vifu-gateway/src/relay.rs:3323-3397 | Laying the overlay itself over the same release changes nothing exactly when the source's Python endpoints already come last |
| Resync.TwoRoundsSettle | crates/vifu-gateway/src/relay.rs:3323-3397 | After two such rounds nothing changes any more, for all manifests |
| OverlayEdges.ClashingNamesAreInvalid | crates/vifu-gateway/src/relay.rs:3380-3389 | Two concrete valid manifests whose overlay is invalid |
| OverlayEdges.IdleProviderComesBack | crates/vifu-gateway/src/relay.rs:3390-3396 | Two concrete valid manifests over which the same source applied again changes the result |
| OverlayEdges.ResyncMayReorder | crates/vifu-gateway/src/relay.rs:3380-3389 | A concrete valid release over which the next round moves an endpoint |
| LocalRelease.ChoiceIsSound | crates/vifu-gateway/src/relay.rs:3286-3321 | The chosen release has exactly the overlaid manifest under its true hash, and no version ever stands for two contents |
| LocalRelease.ChoiceIsStable | crates/vifu-gateway/src/relay.rs:3300-3305 | Choosing again with the release installed finds that release |
| LocalRelease.NewReleaseKeepsItsVersion | crates/vifu-gateway/src/relay.rs:3305-3319 | A release of new content keeps the server's version if that is free, and else follows the largest installed one |
| LocalRelease.SyncsSettle | crates/vifu-gateway/src/relay.rs:3286-3321 | However often one release is synced, the store and the active manifest stop changing after the second time |
| SyncRuns.RunsKeepTheStore | crates/vifu-gateway/src/relay.rs:3286-3321 | Over every run of syncs, with releases of any kind and order, the store stays sound, keeps what it had, holds each content once, and goes above the versions it was shown by at most one for each new release |
| SyncRuns.VersionsLast | crates/vifu-gateway/src/relay.rs:3305-3319 | So until that many syncs could use up the 64-bit versions, the next one fails exactly for a manifest refused before or after the overlay and for version 0 |
| RouteCandidates.PassedByAgent | crates/vifu-gateway/src/optimization.rs:638-666 | One walk over the evaluations, replacing in place, computes the index |
| RouteCandidates.PassedIndexIsIndex | crates/vifu-gateway/src/optimization.rs:638-666 | The index has for each agent and provider with a passing evaluation one of the lowest median, and nothing else |
| RouteCandidates.PassedIndexIsInOrder | crates/vifu-gateway/src/optimization.rs:638-666 | Of equal evaluations of a pair the index keeps the first, and it lists providers in the order in which they first passed |
| RouteCandidates.SelectionIsFirstBest | crates/vifu-gateway/src/optimization.rs:674-693 | The selected candidate has the least median, or the least memory and then the least median, and is the first of equals |
| RouteCandidates.SelectedRoutesAreOptimal | crates/vifu-gateway/src/optimization.rs:674-693 | No complete choice of passing providers beats the selected routes in summed latency, or in summed memory |
| RouteCandidates.FullWhenEveryAgentPasses | crates/vifu-gateway/src/optimization.rs:545-546 | There are as many routes as cases exactly when every agent has a passing candidate and no agent has two cases |
| SharedProvider.AccumulateCoverage | crates/vifu-gateway/src/optimization.rs:699-712 | The coverage map does not depend on the order in which hash maps yield their entries |
| SharedProvider.ChooseShared | crates/vifu-gateway/src/optimization.rs:713-721 | The choice of the shared provider is the best one, in whatever order the map yields its entries |
| SharedProvider.SharedIsUnique | crates/vifu-gateway/src/optimization.rs:713-721 | There is one shared provider only: most agents, then least summed latency, then smallest name |
| SharedProvider.SharedIsLeast | crates/vifu-gateway/src/optimization.rs:713-721 | Of the providers that serve as many agents none has a lower summed latency, as far as 64 bits count it, and of those that tie the shared one has the smallest name |
| SharedProvider.SharedCoversMost | crates/vifu-gateway/src/optimization.rs:695-735 | No provider serves more agents than the shared one |
| SharedProvider.SharedRoutes | crates/vifu-gateway/src/optimization.rs:695-735 | The shared routes are those of the shared provider, with the fastest candidate where it does not serve, if they are complete |
| SharedProvider.SharedRoutesServe | crates/vifu-gateway/src/optimization.rs:722-735 | In the shared routes every agent goes to the shared provider if that passed for it, and else to a passing provider that none is faster than |
| RoutePlanner.SortHead | crates/vifu-gateway/src/optimization.rs:613-620 | The stable sort puts the candidate first that the selection finds |
| RoutePlanner.NextBestIsNext | crates/vifu-gateway/src/optimization.rs:613-620 | The second candidate is another provider's, and only the best one beats it |
| RoutePlanner.SlowAgents | crates/vifu-gateway/src/optimization.rs:587-606 | The routes' agents with their medians, slowest first |
| RoutePlanner.CurrentRoutesAreCurrent | crates/vifu-gateway/src/optimization.rs:530-542 | The current routes have exactly the cases' agents, each with the current provider of its last case |
| RoutePlanner.CurrentRoutesOfCases | crates/vifu-gateway/src/optimization.rs:530-542 | With one case for each agent they are what the cases say |
| RoutePlanner.GenerateCombinations | crates/vifu-gateway/src/optimization.rs:524-634 | At most eight proposals with pairwise distinct routes, in the order current, fastest, leanest, shared and substitutions for the slowest agents; the first one is current as above, each is what its kind says, and everything that can be proposed is there |
| RoutePlanner.SubstitutionMovesOneAgent | crates/vifu-gateway/src/optimization.rs:607-630 | A substitution differs from the fastest routes at its agent and nowhere else, and moves it to its next best candidate |
| RoutePlanner.FastestIsOptimal | crates/vifu-gateway/src/optimization.rs:545-557 | When every case has a passing evaluation the fastest routes are complete, and no assignment of passing evaluations, duplicates and all, has a lower summed median latency |
| GatewayCodec.RoundTrip | crates/vifu-gateway/src/protocol.rs:482-700 | Every command that is encoded comes back from its frame as it was |
| GatewayCodec.DecodedComesBack | crates/vifu-gateway/src/protocol.rs:692-903 | What was decoded from any frame can be encoded and comes back as it was |
| GatewayCodec.FramesAreUnambiguous | crates/vifu-gateway/src/protocol.rs:482-690 | No two commands share a frame |
| GatewayCodec.ToGatewayFrame | crates/vifu-gateway/src/protocol.rs:955-1112 | Exactly the valid commands are encoded |
| CodecAcceptance.AnswersAreEncoded | crates/vifu-gateway/src/relay.rs:2526-2588 | Whatever the gateway answers to a decoded invocation can be encoded, except exactly an output of more than 16 MiB |
| CodecAcceptance.ConfigurationIsEncoded | crates/vifu-gateway/src/protocol.rs:1080-1090 | Exactly the configuration notices with 1 to 256 different deployments are encoded |
| CodecAcceptance.DecodedIsNamed | crates/vifu-gateway/src/protocol.rs:692-903 | What is decoded is what its frame names: every event, request and response yields the command of its name and id, with its payload or error |
| GatewayCodec.RefusedHelloBecomesAnEvent | crates/vifu-gateway/src/protocol.rs:738-751 | A refused hello decodes to a connection error whose own frame is an event, so frames themselves need not come back |
| GatewayWire.FaithfulWireExists | crates/vifu-gateway/src/protocol.rs:905-953 | There are payload and id conversions, for any JSON reader, that meet all that the codec results assume |

## Left out

- Sockets, TLS, HTTP, ping and pong, terminal output and file storage: an upload or a send is a result that the environment picks.
- Real clocks: every time is a number given from outside, and only where a lemma says so is it non-decreasing.
- Task scheduling: any interleaving of the modelled steps may happen; that permits are handed out in order, and that a waiting task is ever woken, is not modelled.
- Backlog.TelemetryBacklog.Enqueue: the drop counters are unbounded, without the 64-bit saturation, which would only cap them.
- Backlog.TelemetryBacklog.RecordPermanentDrop: has the same unbounded counter, and the status message to the observer is left out.
- EmbeddedMonitor.Monitor.NoteDrop: counts without the 32-bit saturation.
- EmbeddedMonitor.Monitor.Receive: host metrics are read from the operating system and are not part of the batch here.
- Recorder.InvocationTelemetry.SafeTraceTelemetry: the numbers and the flag in an event's JSON metadata are given as already read.
- Pairs.ReportedRecordsArePaired: takes fresh observation ids to be unused, as random identifiers are.
- Spans.ReportedSpansAreOrdered: takes fresh observation ids to be unused, too.
- TerminalRuns.RunTerminalsSurvive: takes fresh observation ids to be unused, too.
- MonitorRuns.NothingAfterTheTerminal: a batch counts as sent when it is made for the socket; when one send of an expiry fails the ones after it are not tried, which the model does not show.
- AdmissionTheorems.OneProviderCall: is about one connection; calls that a failed connection left running are not visible to the next one.
- Invocation activity messages take places in the outbound queue, but which of them the socket sends, and their order among the responses, is not modelled; capture events and the observer's lifecycle events of a call carry no state that the admission depends on.
- The uploads of a finished call inside the admission model: its telemetry step only takes and returns an upload permit; what happens to the batch is the upload pipeline's model.
- LocalRelease.ChoiceIsSound: takes the content hash to be an injective function of the manifest, as `SyncRuns` does.
- OverlayFixpoints.OverlayIsValid: validity is unique ids and endpoint names, known providers, offered capabilities, capability lists and names that are not blank, and bounded timeouts; limits on counts and bytes and the form of identifiers and values are one predicate, `Rules.portable`, in the choice of a release.
- A provider's settings and resources are one text in the overlay, which copies them as a whole.
- RoutePlanner.GenerateCombinations: the ids, labels and explanations of combinations, and the capability of a case, which the planner does not read.
- The coverage report of a comparison, the validation of comparison uploads, session route overrides, reconnect delays and gateway text output: single-branch checks and formatting.
- GatewayCodec.RoundTrip: the derived conversions between payload structs and JSON are a parameter that decodes what it encodes and keeps to a payload's shape; the text form of frames is outside the model.
- CodecAcceptance.AnswersAreEncoded: lets the fixed texts of the refusals be any text.
- Signatures, keys, URLs, hosts, pairing and configuration files: library calls and single checks.
- The runtime behind the gateway, its store and its frame text are not part of this model.
