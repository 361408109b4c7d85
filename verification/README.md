# The ingestion producer as a crash-safe protocol

The producer downloads the monthly Discogs dumps, parses each file into records, normalizes
them, publishes them in batches to the broker's exchanges, announces each finished file with
`file_complete`, and announces the finished version with `extraction_complete`. A state marker on
disk says how far it got, so that a run can be cut short anywhere and taken up by the next. This
project models what that design has to guarantee, and proves it.

Check everything with `dafny verify dfyconfig.toml`.

## Contents

* `Protocol.dfy` is the run protocol as a state machine: the marker in memory and on disk, the
  files' bytes and the recorded and published checksums, one task per file, the status and the
  shutdown flag, and the history of snapshots saved and messages confirmed by the broker. Any save,
  send, connection or download may fail, a shutdown may be requested and the process may crash
  between any two steps, and there may be any number of sessions. Marker generations are numbered:
  a new one begins whenever a marker is created. `ProtocolInv.dfy` is its invariant,
  `ProtocolHistory`, `ProtocolSteps`, `ProtocolDownload`, `ProtocolTasks` and `ProtocolFinish` show
  that every step keeps it, and `ProtocolTheorems`, `ProtocolProgress` and `ProtocolTrigger` draw the
  conclusions about all reachable states. `ProtocolOutcome` says how runs begin, what they leave when
  they end, and which files are downloaded, and `ProtocolFailure` where they may fail. `ProtocolCounts` follows the progress in memory, which a
  resume rebuilds from the marker, and `ProtocolSkips` exhibits a run in which it falls short.
  `ProtocolCalm` shows that runs in which nothing fails come to an end, whatever the order of their
  steps, and `ProtocolRun` that no state is a dead end.
* `Pipeline.dfy` and `PipelineProofs.dfy` are one file's stages (parser, optional validator,
  normalizer, batcher, publisher) over bounded channels, in any interleaving. Each running attempt of
  the run protocol contains one such pipeline.
* `StateMarker.dfy` is the marker as the object that is updated in place; `Marker.dfy` has the same
  transitions on values, `MarkerFacts.dfy` what they keep, and `MarkerLife.dfy` what they write.
* `Publishing.dfy` has the loops at the end of the pipeline: batching, publishing a batch and settling
  its confirms, and the final broadcast.
* `Xml.dfy` has elements, the tokenizer's events, the parser's accumulating context and a recursive
  converter; `XmlParser.dfy` the event loop; `XmlRefinement.dfy` shows that the loop is the recursive
  converter; `XmlFaults.dfy`, `XmlDamage.dfy`, `XmlResync.dfy` and `XmlIsolation.dfy` deal with damaged
  input; `XmlWriter.dfy` and `XmlRoundTrip.dfy` with the printer. `XmlMessages.dfy` says what the
  message of a record carries.
* `Pacing.dfy` is the token bucket, `Filters.dfy` and `Normalize.dfy` the record filters and list
  shapes, with `FilterFacts.dfy` on what each condition does; `Identifiers.dfy`, `Companies.dfy` and
  `Media.dfy` are the canonical blocks of a release, with `FieldFacts.dfy` on how the entries of the
  first two are read, `MediaInput.dfy` on those of the third, and `MediaFacts.dfy` and
  `MediaRelease.dfy` on what a release's formats say. `Sorting.dfy`,
  `Strings.dfy`, `Numbers.dfy`, `Fields.dfy` and `Json.dfy` are shared.

The run of a version is a state machine and not a method because a crash may fall between any two
of its statements and other tasks run between them; a method's contract speaks only of runs that
return. The marker, the parser loop, the printer, the batcher, the publisher, the bucket and the
mappers are methods with the loops the program has, each proved against a function whose properties
the lemmas state. Structs that are owned locals in the program (a stack of element contexts, a block
being built, a record being filtered) are values held in variables.

Some results are about where the program does not do what one might expect.

After an error the parser anchors its depth at the next tag of the record's name, wherever that tag
stands. If it stands below record level, inside the damaged record, it is emitted as a record of its
own (`XmlDamage.NestedResyncPromotes`). Worse, leaving the damaged record then counts as leaving the
root: the depth stays at zero, no later record is at record level, and all of them are silently lost
while the file is parsed with Ok (`XmlResync.LaterRecordsAreLost`), but for elements of the record's
name that stand right below a record. The labels file is such an input, with its
`<sublabels><label ..>`; `XmlIsolation.LabelThreeIsLost` has one. `XmlDamage.AnyDamage` says what every
damaged document yields, at whatever level its tags stand. The complete records come out, and nothing
else, whichever records follow an error, if and only if no tag of the record's name is left inside the
elements that it interrupted (`XmlResync.IsolationIff`), and for all errors of a document if and only
if every tag at which the parser resyncs is at record level (`XmlIsolation.EveryErrorIff`).

The progress in memory is the count that is broadcast exactly when the rules skip none of the file's
records or the file was completed in an earlier session (`ProtocolCounts.CountsSurviveResume`);
otherwise it is smaller, since it counts what reaches the batcher (`ProtocolSkips.ProgressIsShort`).

Of several formats that stand for containers only the last is kept
(`MediaRelease.ContainerSurvivesIff`; `MediaRelease.BoxSetIsLost` has two), and the name of a format whose taxonomy entry has a variant
alone leaves no trace (`MediaRelease.NameIsIgnoredIff`).

A list field that holds a lone empty element loses it, where several are kept
(`Filters.FilteringIsShapeBlind` says exactly when). The validator's comment says that all records
that are not skipped are forwarded; the code stops forwarding, with Ok, when the next stage is gone,
and the model does the same.

The provenance round trip of the identifiers needs no assumption on the vocabulary: it holds even if
identifiers and catalogue numbers are given the same field name.

## Model

| member | source | states |
|---|---|---|
| ProtocolTheorems.SplitCommitIsSafe | src/discogs/mod.rs:183-254 | A marker on disk makes later cycles skip the version only if it is finalized, and it is finalized only after all four exchanges confirmed the broadcast of that marker, each after a snapshot reached the disk in which every file was completed and delivered. |
| ProtocolTheorems.BroadcastIsSound | src/discogs/mod.rs:358-412 | Every extraction_complete ever confirmed carries, for each file, a start no later than the start of the attempt that completed it, and for its type the parser's count of that attempt, whatever session it ran in; the attempt's records were all confirmed first. |
| ProtocolTheorems.BroadcastsAgree | src/discogs/mod.rs:144-178 | All broadcasts of one marker generation carry the same start, over any resumes, retries and invalidations. |
| ProtocolTheorems.CompletedMeansDelivered | src/discogs/mod.rs:586-606 | A file is durably completed only after its file_complete was confirmed, and before that exactly the normalized records of the bytes it was computed from, in order. |
| ProtocolTheorems.DownloadEstablishesProvenance | src/discogs/downloader.rs:94-277 | From the moment the download phase returns Ok, metadata, marker and bytes on disk agree on every file, also with a published checksum where one is listed, and the checksum a completed status was computed from is that of the bytes on disk. |
| ProtocolTheorems.CompletedFromTheseBytes | src/state_marker.rs:403-475 | If no other delivered bytes share their hash, the attempt that completed a file has read exactly the bytes now on disk, and its record count is theirs. |
| ProtocolTheorems.SnapshotsAreConsistent | src/state_marker.rs:495-537 | Every snapshot that ever reached the disk counts exactly its completed files; one whose processing phase is completed has every file completed and its total is the sum over the files; a finalized one has both phases completed. |
| ProtocolTheorems.ParkedIsNeverRunning | src/discogs/mod.rs:806-893 | Whenever the periodic loop waits its status is Waiting or Failed, on every return path of a run, early errors and a missing downloader included. |
| ProtocolOutcome.RunReturns | src/discogs/mod.rs:40-421 | However a run ends, short of a crash, what it leaves is fixed. It succeeds when there is no file, when the version is already finalized, or with the commit; the loop then waits with status Waiting, also after an initial run, and but for the first case the marker on disk is finalized. Any other end, a failed connection, broadcast, download or task among them, leaves status Failed where the loop goes on, and ends the process after an initial run. After a shutdown request every end of a run ends the process. |
| ProtocolOutcome.EnteredRuns | src/discogs/mod.rs:56-71 | A run that begins is Running, shows no progress and has its own start. |
| ProtocolOutcome.EnteredWithFlag | src/discogs/mod.rs:806-893 | A run is entered only at process start with the flag given there, at the timer without force, or at a trigger with the flag stored. |
| ProtocolOutcome.EnteredWithMetadata | src/discogs/downloader.rs:735-766 | A run begins with the metadata file as it is on disk; if that cannot be read, with none, and then every file is downloaded again. |
| ProtocolOutcome.NoDownloaderFails | src/discogs/mod.rs:806-893 | A wait after which no downloader can be built leaves status Failed and waits again, unless a shutdown is requested. |
| ProtocolOutcome.NothingBeginsAfterShutdown | src/discogs/mod.rs:56-60 | After a shutdown request no run begins and no wait continues. |
| ProtocolOutcome.NothingStartsAfterShutdown | src/discogs/mod.rs:277-297 | After a shutdown request a file not yet admitted is skipped, or its task fails; it is never started. |
| ProtocolOutcome.WhatARunStartsFrom | src/discogs/mod.rs:94-126 | A run starts a new marker of a new generation if it is forced, if none can be read, or if a first download was cut short with nothing completed; otherwise it continues the one on disk as it is, or returns at once if that is finalized. |
| ProtocolOutcome.MatchingIsKept | src/discogs/downloader.rs:519-548 | A file is kept exactly when it is on disk, its recorded checksum is that of its bytes, and a published checksum, if there is one, is the same; otherwise it is fetched. |
| ProtocolOutcome.RejectedIsFetchedAgain | src/discogs/downloader.rs:182-207 | A download is rejected only for a published checksum that is another than the recorded one, and then the file is downloaded again, whether or not it could be removed. |
| ProtocolOutcome.DownloadedOnce | src/discogs/downloader.rs:148-164 | After the download phase no file of the version needs a download any more, with or without the published checksums. |
| ProtocolOutcome.SavedMetadataSuffices | src/discogs/downloader.rs:715-732 | Nor does one in a later session that reads the metadata saved at the end of the phase. |
| ProtocolOutcome.UnsavedFails | src/discogs/mod.rs:598-603 | A file whose start or completion could not be saved has failed, and its run does not succeed. |
| ProtocolFailure.BroadcastDecides | src/discogs/mod.rs:383-410 | Whatever the four exchanges answer, all are served, the history gains exactly what was confirmed, and the marker is finalized exactly if all confirmed; otherwise the run fails with the marker left as it was. |
| ProtocolFailure.ConnectionDecides | src/discogs/mod.rs:383-396 | A failed connection ends the run as a failure before anything is broadcast; a good one begins with the first exchange. |
| ProtocolFailure.JoinDecides | src/discogs/mod.rs:311-350 | When all tasks have stopped, the run goes on to the broadcast exactly if none failed and no shutdown was requested; otherwise it saves the marker once more as the tasks left it, and fails. |
| ProtocolFailure.NoFilesEnds | src/discogs/mod.rs:77-82 | A run ends for want of files only where they are listed, and then succeeds without touching the marker. |
| ProtocolFailure.EarlyErrors | src/discogs/mod.rs:40-254 | Listing, every stage of the download phase and every mandatory save may fail, which fails the run and writes nothing. |
| ProtocolFailure.TaskMayFail | src/discogs/mod.rs:277-309 | A file's task may fail at any time until its file is announced, and then its run does not succeed. |
| ProtocolFailure.FailedTaskDrains | src/discogs/mod.rs:466-583 | The stages of a failed file go on until they stop, also after the join; they may still publish and write progress, but never complete the file. |
| ProtocolFailure.SignalAnyTime | src/runtime.rs:293-312 | A shutdown may be requested whenever the process runs. |
| ProtocolFailure.ShutdownIsKept | src/runtime.rs:293-312 | Whatever the step, a request is made by the signal alone and forgotten only by the next process, which starts without one; with `ProtocolOutcome.RunReturns`, the run's end is then the process's. |
| ProtocolTheorems.CertificateCovers | src/discogs/mod.rs:364-381 | From a snapshot in which every file is completed, the counts sent for a type are those of the attempt that delivered its file. |
| ProtocolTheorems.StepKeeps | src/discogs/mod.rs:40-421 | Every step of the protocol, whether it succeeds, fails or is a crash, keeps the whole invariant. |
| ProtocolTheorems.RunKeeps | src/discogs/mod.rs:755-896 | So does every run of any length, over any number of sessions. |
| ProtocolProgress.ProgressIsNeverLost | src/discogs/mod.rs:94-123 | Whatever the next step, a durably completed file stays as it is, or the bytes verified on disk are others than it was computed from, or a forced run or an unreadable marker began a new generation; a restart of the version is never the reason. |
| ProtocolProgress.SavingAccounts | src/state_marker.rs:248-281 | A save that replaces the marker on disk keeps every completed entry, except for verified other bytes or a new generation. |
| ProtocolCalm.CalmStepAdvances | src/discogs/mod.rs:40-421 | While nothing fails and nothing interferes, every step of a run leaves less to do, in the lexicographic order of three natural numbers (phase, files and tasks to start, work of the pipelines), or the run has returned with a finalized marker. |
| ProtocolCalm.NeutralStays | src/runtime.rs:133-142 | Time that passes, progress that is written and metadata that is saved neither bring a run nearer to its end nor set it back. |
| ProtocolCalm.SomeCalmStep | src/discogs/mod.rs:40-421 | A run in which nothing has failed always has a next step that does not fail, in every phase and in any interleaving of its files. |
| ProtocolCalm.EveryScheduleCommits | src/discogs/mod.rs:40-421 | From any state of such a run every schedule of steps in which nothing fails and nothing interferes reaches, after finitely many steps, the end of the run with a finalized marker on disk and every file completed. |
| ProtocolRun.NoDeadEnds | src/discogs/mod.rs:40-421 | From every reachable state, after any failures, shutdowns and crashes, some run ends with a finalized marker on disk and all files of the version completed, for any number of files, any records and any rules. |
| ProtocolTrigger.TriggerIsTakenOnce | src/runtime.rs:258-269 | A stored trigger changes only when a newer one replaces it, the process restarts, or one wait takes it; that wait enters a run with its force flag, or records a failure. |
| ProtocolTrigger.EachTakeHasItsSet | src/discogs/mod.rs:806-893 | Over a whole run that starts with none stored, the wait that takes a trigger takes the flag that was set last, with no other set, take or process start between, and enters a run with that flag if a downloader can be built. |
| ProtocolTrigger.NoMoreTakesThanSets | src/runtime.rs:258-269 | Over any run, what was taken and what is still stored is no more than what was set and what was stored before. |
| ProtocolSteps.OutsideKeeps | src/runtime.rs:293-312 | Time, a shutdown signal, a trigger or a crash at any point keep the invariant. |
| ProtocolSteps.LoopKeeps | src/discogs/mod.rs:94-126 | Starting a run, choosing, replacing or skipping the marker, and every early return keep it. |
| ProtocolDownload.DownloadKeeps | src/discogs/downloader.rs:553-712 | Every step of the download phase keeps it: a file kept, fetched, left partial, rejected or accepted, with or without its save. |
| ProtocolTasks.TaskKeeps | src/discogs/mod.rs:277-297 | Every step of every file task keeps it, in any interleaving; the stages of a failed task drain on until the run returns, also after the join. |
| ProtocolFinish.FinishKeeps | src/discogs/mod.rs:311-421 | Beginning, spawning, joining, the mandatory saves, the broadcast and the commit keep it. |
| PipelineProofs.Conservation | src/discogs/mod.rs:466-583 | Under every interleaving, if all stages return Ok then the confirmed batches concatenated are exactly the normalized records that the rules let through, in order, each batch non-empty and within the batch size, and the counts reported are right. |
| PipelineProofs.CountersAgree | src/runtime.rs:122-180 | In one attempt that succeeds, the batcher has counted what the rules let through and the parser everything; the two agree when there are no rules. |
| PipelineProofs.BatchesAgree | src/runtime.rs:122-180 | The number of batches that it reports is the number of batches confirmed. |
| ProtocolCounts.CountsSurviveResume | src/discogs/mod.rs:155-168 | When the files of a run are processed, after any number of sessions, the progress in memory is for each type the count in the marker, which is broadcast, exactly when the file was completed in an earlier session or the rules skip none of its records; without rules always. Otherwise it is what the rules let through. |
| ProtocolSkips.ProgressIsShort | src/runtime.rs:122-131 | From an empty disk a run processes a file of one record, which the rules skip, with success; the progress then shows none, and the marker has one. |
| PipelineProofs.AnyStageMayFail | src/discogs/mod.rs:552-583 | Every stage may fail at any point at which it runs. |
| PipelineProofs.SilentBreakIsPaidFor | src/discogs/mod.rs:709-734 | A stage that leaves its loop with Ok because the next one is gone implies that some later stage has returned Err. |
| PipelineProofs.Progress | src/runtime.rs:121-172 | With channel capacities of at least one, no combination of failures deadlocks the pipeline: every reachable state that is not final has an enabled step, and no run takes more steps than a bound fixed by the input. |
| PipelineProofs.StepKeeps | src/discogs/mod.rs:466-583 | Every channel operation of every stage keeps the pipeline's invariant: conservation, batch sizes, clean ends and counts. |
| StateMarker.StateMarker.CompletedFileCount | src/state_marker.rs:288-290 | Counts exactly the files whose entry is completed. |
| StateMarker.StateMarker.ShouldProcess | src/state_marker.rs:293-337 | The decision of the marker's value, which the two lemmas below characterize in all three outcomes. |
| MarkerFacts.SkipIffCompleted | src/state_marker.rs:293-337 | Of a consistent marker the decision is Skip exactly when it is finalized. |
| MarkerFacts.DecisionIs | src/state_marker.rs:293-337 | Reprocess is decided exactly when the download phase has failed or was cut short and no file is completed; Skip exactly when the version is finalized and the download phase is neither; Continue in every other case. |
| StateMarker.StateMarker.PendingFiles | src/state_marker.rs:544-550 | Selects in order the files that are not completed. |
| MarkerFacts.PendingFilesSpec | src/state_marker.rs:544-550 | A file is pending exactly when it is one of the version's and not completed. |
| StateMarker.StateMarker.FileBytesVerified | src/state_marker.rs:403-439 | Records the checksum and re-queues a completed file whose known source is another, telling so. |
| MarkerFacts.VerifiedFacts | src/state_marker.rs:403-439 | After verification a file that is still completed with a known source was computed from the verified bytes, and no other file's entry has changed. |
| MarkerFacts.FileBytesVerifiedOk | src/state_marker.rs:403-439 | Verification keeps the marker consistent, also when it re-queues a file. |
| StateMarker.StateMarker.StartFileProcessing | src/state_marker.rs:460-475 | Begins an attempt: the entry is in progress, started now, and computed from the bytes last verified. |
| StateMarker.StateMarker.UpdateFileProgress | src/state_marker.rs:478-492 | Records progress without ever un-completing a file. |
| StateMarker.StateMarker.CompleteFileProcessing | src/state_marker.rs:495-512 | Completes the entry and recounts the completed files. |
| MarkerFacts.CompleteFileProcessingOk | src/state_marker.rs:495-512 | Afterwards the marker is consistent: in particular its count is the number of completed entries. |
| StateMarker.StateMarker.TotalOf | src/state_marker.rs:515-519 | The sum of one counter over all files, whatever order the map is visited in. |
| StateMarker.StateMarker.SyncPhaseTotals | src/state_marker.rs:515-519 | The phase totals become the sums over the files. |
| MarkerFacts.TotalsExact | src/state_marker.rs:515-528 | Once every file of a consistent marker is completed, its phase totals are exactly the sums over the files. |
| StateMarker.StateMarker.CompleteProcessing | src/state_marker.rs:522-528 | Completes the phase and leaves the totals as they were last synchronized. |
| StateMarker.StateMarker.CompleteExtraction | src/state_marker.rs:531-537 | Finalizes the marker, and touches no phase but the summary and publishing. |
| MarkerLife.AttemptBegins | src/state_marker.rs:460-475 | The entry of an attempt: in progress, started now, without end and counts, from the checksum last verified; nothing else changes but the current file. |
| MarkerLife.UpdateWrites | src/state_marker.rs:478-492 | An update changes three counters of one entry and brings the totals to the sums; publishing is in progress as soon as there is a message. |
| MarkerLife.CompletionWrites | src/state_marker.rs:495-512 | Completion sets status, end and records of one entry, adds one to the count and brings the totals to the sums; messages that were never counted are as many as the records. |
| MarkerLife.FileLife | src/state_marker.rs:460-512 | Over a whole life, start, any number of updates and completion, the entry is exactly that of its own times, source, records and last counters; all other entries are as before. |
| MarkerLife.DownloadLife | src/state_marker.rs:350-439 | A file that is started, received and verified has an entry of exactly these times and this checksum, and counts once. |
| MarkerLife.KeptIsCountedOnce | src/state_marker.rs:356-384 | Reporting a file as downloaded again does not count it again. |
| MarkerLife.RequeuedIsPending | src/state_marker.rs:403-439 | A re-queued file has no entry any more, one file less is completed (never less than none), finished phases are open again and the totals are the sums of what is left. |
| MarkerLife.NewIsBlank | src/state_marker.rs:188-198 | A new marker has nothing downloaded, processed or published, and every phase pending. |
| MarkerLife.DownloadPhaseLife | src/state_marker.rs:340-446 | A download phase begins without entries, and from its start to its end leaves the processing as it was. |
| MarkerLife.ProcessingPhaseLife | src/state_marker.rs:449-537 | The processing phase keeps its start and all entries through a resume, its end and the finalization. |
| Publishing.CheckConfirmation | src/message_queue.rs:111-126 | Ok exactly for a message that was acked and not returned; a return is reported even if acked. |
| Publishing.PublishBatch | src/message_queue.rs:427-459 | Ok exactly when there was a channel and every message was serialized, accepted, acked and routed; all are on the wire before the first confirm is judged; the error is that of the first message that did not go out, or of the first confirm that failed. |
| Publishing.SendExtractionComplete | src/message_queue.rs:472-501 | Attempts every exchange whatever failed before, reaches exactly those that confirmed, and succeeds only when all did. |
| Publishing.ReachedIff | src/message_queue.rs:484-489 | An exchange is among those reached exactly when its own publish was confirmed. |
| Publishing.MessagePublisher | src/runtime.rs:186-208 | Confirms batches in order up to the first one that is not proven delivered, and returns Ok exactly when there is none. |
| Publishing.MessageBatcher | src/runtime.rs:113-183 | With Ok the batches hold exactly the received messages in order; otherwise a prefix, because the publisher is gone. Which batches are sent, and which updates are written to the marker, is fixed for every sequence of arrivals; no batch is empty or too large, and progress never goes back and ends with the true totals. |
| Publishing.FullIsSent | src/runtime.rs:121-150 | A batch is sent at once when it is full. |
| Publishing.PauseSends | src/runtime.rs:151-172 | When nothing comes for a while, a batch that is not empty is sent exactly if the last flush is more than a second ago. |
| Publishing.ReportsAtMultiples | src/runtime.rs:128-142 | Between the start and the end, progress is written exactly when the count is a multiple of the interval. |
| Xml.IntoValueIsShape | src/discogs/parser.rs:58-96 | An element's accumulated attributes, text and children become plain text, nothing, or an object of the three, in one rule. |
| Xml.AddAllIsGrouped | src/discogs/parser.rs:99-116 | Adding children one by one gives, for each name, the single value or the array of all values in document order. |
| XmlParser.ParseFile | src/discogs/parser.rs:134-406 | The event loop: sends what the state machine emits, counts it, and returns Err exactly when the machine aborts. What it emits is the recursive conversion (`XmlRefinement.StackMachineRefinesRecursion`), and what a message of that carries is fixed by the lemmas of `XmlMessages`. |
| XmlRefinement.StackMachineRefinesRecursion | src/discogs/parser.rs:240-398 | On the events of any well-formed document the depth-and-stack loop emits exactly the recursive conversion of each target element below the root, in order, and is left as it began. |
| XmlRefinement.InsideRecord | src/discogs/parser.rs:240-398 | Everything inside a record goes into its innermost open element, also elements that share the record's name. |
| XmlMessages.MessageIdIs | src/discogs/parser.rs:303-307 | A record is sent with its `id` attribute, the last of repeated ones; without one with the text of its only `id` child, if that is plain text; and otherwise as "unknown". |
| XmlMessages.MessageDataIs | src/discogs/parser.rs:309-326 | A message has all fields of the record's object, but no `id` beside `@id`. |
| XmlMessages.TextIffPlain | src/discogs/parser.rs:58-96 | An element becomes a string exactly when it has text and neither attributes nor elements, and then it is that text. |
| XmlMessages.EscapedReads | src/discogs/parser.rs:355-392 | Every text, written with the five entities for the characters that need them, is read as itself. |
| XmlMessages.OtherPieces | src/discogs/parser.rs:355-392 | Any other entity stays as it was written, and a character reference gives its character. |
| XmlMessages.ArtistIsSent | src/discogs/parser.rs:240-340 | The message of one artist with an `id` element, repeated name variations and an image, field by field. |
| XmlFaults.OkIffTolerable | src/discogs/parser.rs:184-221 | For every input, the file is parsed with Ok exactly when it has at most a hundred errors and none at the offset of the one before. |
| XmlFaults.ErrorForgets | src/discogs/parser.rs:184-221 | No record mixes events from both sides of a tolerated error: what is emitted after it is what a parser emits that never saw what came before. |
| XmlFaults.ReceiverGone | src/discogs/parser.rs:276-279 | A receiver that goes away after some messages has got exactly the first records, and the loop ends with Ok. |
| XmlDamage.AnyDamage | src/discogs/parser.rs:165-398 | For every document with tolerated errors, at whatever level the tags stand at which the parser resyncs, the exact messages: the records at the level each tag is taken for, then those of the levels above as the depth sees them. |
| XmlDamage.DamagedDocument | src/discogs/parser.rs:165-238 | With all resyncs at record level, exactly the complete records before, between and after the errors are emitted, each as the recursive converter gives it. |
| XmlDamage.NestedResyncPromotes | src/discogs/parser.rs:223-238 | If the first tag of the record's name after an error is at any depth inside a record, it and its siblings of that name are emitted as records, and of the records that follow only their children of that name. |
| XmlDamage.NestedIsNoRecord | src/discogs/parser.rs:240-398 | Without the error the same events have no record but the outer one. |
| XmlResync.RestOfDocument | src/discogs/parser.rs:165-398 | After the last error, what the document still yields is what the stretch from its first tag of the record's name yields with that tag taken for record level; the parse ends with Ok. |
| XmlResync.RecoversIff | src/discogs/parser.rs:223-238 | The records after an error are emitted, and nothing else, whichever they are, exactly when no tag of the record's name is left in the elements that the error interrupted. |
| XmlResync.CompleteIff | src/discogs/parser.rs:223-238 | For one document in which promoted messages differ from the records: exactly then, or if there is nothing to lose and nothing to promote. |
| XmlResync.IsolationIff | src/discogs/parser.rs:165-238 | A whole document yields its complete records, whichever records follow the last error, exactly under that condition. |
| XmlResync.LaterRecordsAreLost | src/discogs/parser.rs:340-398 | Where a tag is left and no later record has a child of the record's name, every later record is lost and the parser goes on to the end without a further error. |
| XmlIsolation.EveryErrorIff | src/discogs/parser.rs:165-398 | A document with any number of tolerated errors yields its complete records, and nothing else, whichever records stand between the errors and after them, exactly when every tag at which the parser resyncs is at record level. |
| XmlIsolation.LabelsFileEvents | src/discogs/tests/parser_tests.rs:179-192 | The events of a labels file with one error inside a label that has a sublabel. |
| XmlIsolation.LabelThreeIsLost | src/discogs/parser.rs:223-398 | Of this file the sublabel is emitted as a label, the complete label after it is not, and the parse ends with Ok. |
| XmlWriter.Writer.WriteElement | src/discogs/parser.rs:421-476 | Appends the events of the element that the value stands for: attributes and text first, arrays as repeated elements, no `id` beside `@id`. |
| XmlWriter.CollectAttributes | src/discogs/parser.rs:426-433 | Exactly the string fields with the attribute prefix, in key order, without the prefix. |
| XmlRoundTrip.ConvertIsCanonical | src/discogs/parser.rs:58-116 | Every value the converter produces is canonical: no empty object, none of text alone, no blank text, arrays of at least two values that are no arrays. |
| XmlRoundTrip.PrintedConverts | src/discogs/parser.rs:421-476 | Every canonical value is what its printed element converts to, up to the ids that printing drops. |
| XmlRoundTrip.EmittedRecordRoundTrip | src/discogs/parser.rs:410-476 | A message the parser emitted, printed and parsed again, comes back exactly when no object in it has both an attribute and a child `id`. |
| XmlRoundTrip.PrunedIff | src/discogs/parser.rs:438-446 | Dropping ids beside attributes changes a value exactly when some object in it has both. |
| Pacing.PublishRateFrom | src/message_queue.rs:46-59 | Pacing is off exactly for the number zero; a positive rate is taken as it is set, and anything else gives the default. |
| Pacing.TokenBucket.constructor | src/message_queue.rs:72-75 | A new bucket is full, and holds at least one token. |
| Pacing.TokenBucket.Take | src/message_queue.rs:77-87 | Takes a token from the refilled bucket, on credit if need be, and returns how long until the credit is paid. |
| Pacing.TakesOne | src/message_queue.rs:77-87 | The time since the last call refills the bucket up to its capacity, a clock that went back adds nothing, and a call takes one token; its wait is positive exactly if it leaves a debt, and pays exactly that. |
| Pacing.BalanceIsMinimum | src/message_queue.rs:64-88 | The balance a call finds is the least of what a bucket full at any earlier call would hold by now. |
| Pacing.GrantsInOrder | src/message_queue.rs:320-328 | Grants come in the order of the calls and never before them. |
| Pacing.RateBound | src/message_queue.rs:64-88 | No window of any length holds more grants than the capacity and the rate times its length, whatever the publishers do. |
| Pacing.NewBucketBound | src/message_queue.rs:64-88 | For a bucket as it is made that capacity is a tenth of a second's worth, but at least one token. |
| Pacing.BurstIsFree | src/message_queue.rs:64-88 | Calls that come at once wait only beyond that many. |
| Filters.Retain | src/discogs/rules.rs:436-450 | Splits an array into what stays and what is removed, in order, losing nothing. |
| Filters.ApplyFilters | src/discogs/rules.rs:400-503 | Applies all conditions in order, each on what the one before left, and reports each that changed something; what a single condition does and reports is fixed by the lemmas of `FilterFacts`. |
| FilterFacts.AppliedInOrder | src/discogs/rules.rs:400-503 | Later conditions work on what earlier ones left, and the reports follow in that order. |
| FilterFacts.ClearsOutOfRange | src/discogs/rules.rs:472-499 | A text or number out of range becomes null, reported once with its text; nothing else in the record changes, and a value in range, or of another kind, is neither changed nor reported. |
| FilterFacts.NullIffOutOfRange | src/discogs/rules.rs:472-499 | Afterwards the field is null exactly if it was before, or held a text or number out of range; something is reported exactly if the record changed. |
| FilterFacts.NumberOutOfRange | src/discogs/rules.rs:492-494 | What can be read as a number is out of range exactly below the one bound or above the other. |
| FilterFacts.DateOutOfRange | src/discogs/rules.rs:392-398 | What cannot is judged by what stands before its first separator, trimmed. |
| FilterFacts.RemovesMatching | src/discogs/rules.rs:430-471 | A list loses the texts that match and the report has their number and the texts; a lone text that matches goes with its key; nothing else changes, and nothing is reported where nothing matches. |
| FilterFacts.RemovesNothing | src/discogs/rules.rs:424-433 | A record without the field is left alone. |
| FilterFacts.EachIsKeptOrRemoved | src/discogs/rules.rs:436-446 | Wherever a value stands, it is removed exactly if it is a text that matches, and all others keep their order. |
| FilterFacts.WorksAtPointer | src/discogs/rules.rs:413-428 | A nested field is filtered where its path leads, through objects and list indices; a path that leads nowhere does nothing. |
| FilterFacts.LeavesTheRest | src/discogs/rules.rs:413-428 | What any path that parts from it leads to stays as it is. |
| FilterFacts.IndexIsDecimal | src/discogs/rules.rs:417-421 | A list index is a decimal number without leading zeros. |
| Filters.KeptIff | src/discogs/rules.rs:436-450 | A value stays exactly when it was there and does not match. |
| Filters.KeptTwice | src/discogs/rules.rs:436-450 | Filtering again removes nothing more. |
| Filters.FilteringIsShapeBlind | src/discogs/rules.rs:405-471 | Values added to a container one by one, filtered and then normalized, leave exactly those that do not match, in order, with the field absent when there are none, unless they are a lone empty element; nothing else in the record changes. |
| Normalize.StripAtPrefixes | src/discogs/normalize.rs:6-29 | Attributes lose their prefix and win over what had their name, the text becomes `name` unless there already is one, and every other key keeps its value. |
| Normalize.NothingElseIsLost | src/discogs/normalize.rs:6-29 | No value is lost unless an attribute, or the text, takes its place. |
| Identifiers.MapDiscogsIdentifiers | src/discogs/identifiers.rs:249-311 | The block of the items found: identifiers, then catalogue numbers, in source order, with its three lists. |
| Identifiers.BlockIsCanonical | src/discogs/identifiers.rs:184-196 | Every list of the block is strictly increasing and holds exactly what the items say. |
| Identifiers.ListsIgnoreOrder | src/discogs/identifiers.rs:213-217 | The lists depend only on which entries there are, not on their order or repetition. |
| Identifiers.ProvenanceRoundTrip | tests/contract_identifiers_companies_fixture_test.rs:30-39 | The raw list rebuilt from the block's own items, with the same labels, maps to the same block, for every input. |
| Identifiers.ItemKeepsFields | src/discogs/identifiers.rs:254-270 | An item keeps the type, value and description of its entry, trimmed. |
| FieldFacts.IdentifierIsNamedIff | src/discogs/identifiers.rs:254-260 | An entry is an identifier exactly when it is an object with a type and a value that are texts and not blank. |
| FieldFacts.IdentifierIsMapped | src/discogs/identifiers.rs:261-270 | Its item has the canonical type of that type, or the unmapped one, and its value, description and source, each without the white space around it. |
| FieldFacts.CatalogNumberIsMapped | src/discogs/identifiers.rs:275-291 | A label counts exactly when it has a catalogue number that is not the one for none, whatever its case; its item is that number. |
| FieldFacts.IdentifierInPlace | src/discogs/identifiers.rs:254-271 | Wherever an identifier stands in the list, its item stands there among the items, before all catalogue numbers. |
| FieldFacts.LabelInPlace | src/discogs/identifiers.rs:275-291 | So do the catalogue numbers, after all identifiers. |
| FieldFacts.AliasIff | src/discogs/identifiers.rs:293-302 | The aliases are exactly those that some item mints under the namespace of its type. |
| FieldFacts.UnmappedIff | src/discogs/identifiers.rs:261-264 | The unmapped types are exactly those of identifiers that the vocabulary does not have. |
| FieldFacts.RulesAre | src/discogs/identifiers.rs:224-237 | Each alias rule on words with any white space around and between them: the digits, the words with one space between, these in upper case; any other rule mints nothing. |
| FieldFacts.DigitsAreLeft | src/discogs/identifiers.rs:226 | The first rule keeps exactly the digits, in order. |
| FieldFacts.EachIsMapped | src/discogs/identifiers.rs:228 | Upper case replaces each character by what the table has for it. |
| Identifiers.AliasValuesAreCanonical | src/discogs/identifiers.rs:224-237 | A normalized alias value is left as it is by its own rule, for each of the three rules; the upper-case rule needs that the character tables map white space to itself and the rest to upper case without white space. |
| Companies.IdShapesAgree | src/discogs/companies.rs:138-145 | An id means the same as element text and as a number, for every whole number: itself from one up to 64 bits, and otherwise none. |
| Companies.CodeShapesAgree | src/discogs/companies.rs:149-160 | So does a relationship code, for every number that JSON keeps as a whole one: its digits, and none for a negative one. |
| Companies.MapDiscogsCompanies | src/discogs/companies.rs:178-211 | The block of one item per named credit, in source order, with its two lists. |
| Companies.BlockIsCanonical | src/discogs/companies.rs:111-122 | Both lists are strictly increasing and hold exactly what the items say. |
| Companies.ListsIgnoreOrder | src/discogs/companies.rs:162-166 | The lists depend only on which entries there are. |
| Companies.ProvenanceRoundTrip | tests/contract_identifiers_companies_fixture_test.rs:41-57 | The raw list rebuilt from the block's own items maps to the same block, for every input. |
| Companies.ItemKeepsFields | src/discogs/companies.rs:184-203 | An item keeps every text of its entry, trimmed, and the id and code that can be used. |
| FieldFacts.TrimPads | src/discogs/companies.rs:126-131 | Trimming takes away the white space at both ends, all of it and nothing else. |
| FieldFacts.TrimmedIff | src/discogs/companies.rs:126-131 | A field yields a text exactly if it holds it, not blank, with white space around it or none. |
| FieldFacts.CompanyIsNamedIff | src/discogs/companies.rs:184-190 | An entry is a credit exactly when it is an object with a name and a role that are texts and not blank. |
| FieldFacts.CompanyIsMapped | src/discogs/companies.rs:191-202 | Its item has this name and role, the category of the role or the unmapped one, and the catalogue number. |
| FieldFacts.CompanyInPlace | src/discogs/companies.rs:183-203 | Wherever a credit stands in the list, its item stands there among the items. |
| FieldFacts.IdIsRead | src/discogs/companies.rs:138-145 | An id as text is its digits, after a plus sign or none and with any white space around; zero and what does not fit into 64 bits is none. |
| FieldFacts.CodeIsRead | src/discogs/companies.rs:149-160 | A code as text is that text without white space around it, exactly if it consists of digits. |
| FieldFacts.NoIdNoCode | src/discogs/companies.rs:138-160 | A value of another kind, no value, and a number that does not fit into 64 bits is neither. |
| MediaFacts.QtyIsLeading | src/discogs/media.rs:294-319 | A quantity given as text is the whole number after white space and a plus sign, if any, up to the first character that is no digit; it is one without a number, for a number below one, and for one that does not fit into 64 bits. |
| MediaFacts.EveryTextReads | src/discogs/media.rs:306-319 | Every text has the form that the contract above speaks of. |
| MediaFacts.OtherQuantities | src/discogs/media.rs:294-303 | A number counts as itself if it is at least one and fits; a missing quantity and every other kind of value count as one. |
| MediaRelease.DescriptionHasOneTarget | src/discogs/media.rs:380-414 | A description never changes both its item and its release, loses nothing that was stated before, and changes neither exactly when its target is none, its value is of another kind, or its one place is taken. |
| MediaRelease.NameIsIgnoredIff | src/discogs/media.rs:327-347 | The name of a format makes no difference, whatever came before, exactly when its entry has no family, medium, container or flag. |
| Media.MapDiscogsFormats | src/discogs/media.rs:430-477 | The block of all formats, one after another, finished; how each shape of a format is read is stated by the lemmas of `MediaInput`, and what becomes of it by those that follow. |
| MediaInput.DescriptionsAreRead | src/discogs/media.rs:275-290 | Descriptions given as a list, as a single text, or either of these wrapped under `description` any number of times, are the same texts in order. |
| MediaInput.OnlyTextsCount | src/discogs/media.rs:282 | In such a list exactly what is no text is passed over, wherever it stands. |
| MediaInput.NothingElseDescribes | src/discogs/media.rs:284-288 | Any other value has no descriptions. |
| MediaInput.NameAndTextAreRead | src/discogs/media.rs:440-442 | Name and text of a format are the strings under these keys. |
| MediaInput.QuantityIsRead | src/discogs/media.rs:454-457 | The quantity of an item is that of its format. |
| MediaInput.ShapesAgree | src/discogs/media.rs:430-477 | Lists of formats that differ only in wrapped or flat descriptions map to the same block. |
| MediaInput.NothingToMap | src/discogs/media.rs:426-439 | No list, and a list without objects, gives the empty block. |
| MediaInput.ItemLists | src/discogs/media.rs:350-376 | Variants and appearances of an item strictly increase and are exactly those its descriptions have a rule for, with the variant of its name. |
| MediaInput.BlockIsCanonical | src/discogs/media.rs:416-424 | The lists of a block strictly increase, and its families are those of its items. |
| MediaFacts.FormatsAreAccounted | src/discogs/media.rs:430-477 | Items come in source order, exactly one for each entry whose name is known as a medium or family; the unmapped names are exactly those the taxonomy does not know. |
| MediaRelease.FormatHasOneFate | src/discogs/media.rs:430-477 | Of a named format exactly one thing becomes, unless its entry has no family, medium, container or flag: the item, in its place; a container or flag alone; or a name listed as unmapped. Its flag is in the block, and some container is if it names one. |
| MediaRelease.ContainerSurvivesIff | src/discogs/media.rs:327-331 | The container a format names is the release's exactly when the last later format that names one, if any, names the same. |
| MediaRelease.BoxSetIsLost | src/discogs/media.rs:327-331 | Of a box set and a slipcase, in this order, the release keeps the slipcase. |
| MediaRelease.ScalarFacts | src/discogs/media.rs:380-414 | Kind and packaging are the first stated in document order; the container is that of the last format that names one, and else the first described. |
| MediaRelease.ListedIffStated | src/discogs/media.rs:380-414 | Traits, editions and flags are exactly the values for which some description of some format has a rule with that target, and the flags that formats' names stand for. |
| MediaFacts.DescriptionsAreAccounted | src/discogs/media.rs:463-468 | The unmapped descriptions are exactly those the taxonomy does not rule, whether or not their format made an item. |
| MediaFacts.FirstStatementWins | src/discogs/media.rs:213-223 | Each attribute of an item is the first usable value its descriptions state, and where there is none the default of its medium. |
| MediaFacts.ItemKeepsSource | src/discogs/media.rs:350-376 | An item keeps its format's name, descriptions, text and quantity, and always has a medium. |
| MediaFacts.ItemIsOfItsFormat | src/discogs/media.rs:327-376 | An item is of the medium and family its format's name stands for; a medium alone brings its family, and none if the taxonomy does not know it; a family alone picks the medium for the first usable value stated of its rule's attribute, and is unspecified where none is stated, none is known for it, or there is no rule. |
| MediaFacts.FinishItemTwice | src/discogs/media.rs:350-376 | Finishing an item twice is finishing it once. |
| MediaFacts.FinishBlockTwice | src/discogs/media.rs:416-424 | So it is for a block. |
| Sorting.SortedUnique | src/discogs/identifiers.rs:213-217 | Sorting and removing neighbours that are equal yields the elements once each, in order. |

## Left out

- FilterFacts.NumberOutOfRange: reading a text as a floating-point number is an input, an arbitrary partial function to the reals; texts that read as an infinity or as NaN are not modelled.
- Pacing.TokenBucket.Take: exact real arithmetic; rounding of 64-bit floats and of durations is not modelled.
- Publishing.MessageBatcher: time is an input (whether the last flush is more than a second ago), and what its send answers is the number of batches the channel still takes.
- Normalize.StripAtPrefixes: for records in which no attribute's own name begins with the prefix, as in XML.
- XmlParser.ParseFile: the tokenizer, decompression and decoding are inputs, as the events and error offsets they produce; duplicate attributes are taken as last one wins, where the tokenizer reports a repeated one as an error that is skipped.
- XmlWriter.Writer.WriteElement: escaping is not modelled: text and attribute values are taken to survive it, and a tab or line break in an attribute value, which reading turns into a space, is not.
- Identifiers.AliasValuesAreCanonical: the character tables themselves are not part of this model, so what the upper-case rule needs of them is a premise.
- MediaFacts.ItemKeepsSource: numbers that are not whole (a size or a speed) are not modelled; numbers are integers throughout.
- ProtocolTheorems.DownloadEstablishesProvenance: the hash is an arbitrary function of the bytes, and one attempt's retries, delays and byte counts are merged into fetches that may leave any bytes or none.
- ProtocolTheorems.RunKeeps: no marker is on disk at first, so entries that earlier versions of the program wrote without a checksum do not occur in the protocol (`StateMarker` and `MarkerFacts` cover them).
- ProtocolTheorems.CompletedMeansDelivered: messages of a batch that failed part-way may have reached the broker too; the history holds confirmed batches only.
- ProtocolTasks.TaskKeeps: the bound on concurrent files is not modelled (more interleavings are allowed), and the stages of a failed file are taken to have drained before the next run loads the marker.
- ProtocolTheorems.BroadcastIsSound: the version's files are fixed, one per data type, as the latest listing selects them; the clock does not run backwards.
- Marker fields that nothing decides on: file counts by type, bytes, durations, error lists, the heartbeat, the metadata version.
- Listing, selecting and grouping the dumps, the metadata file's format, the one-shot local manifest, polite back-off.
- Reconnecting, confirm deadlines and exchange set-up: they appear as calls that succeed or fail.
- Evaluating, skipping and reporting by the rules (`evaluate_rules`, `should_skip_record`, the quality report): the validator is an arbitrary function that drops a record or passes on another.
- The per-type normalizers as a whole: the filters' theorem holds for any list field and any treatment of its items.
- Content hashes and raw XML carried with a message, telemetry, logging and the health endpoint.
- Vocabulary contents: arbitrary maps.
