# vaultspec-a2a: verified models

Dafny models of the parts of vaultspec-a2a whose correctness rests on an
argument over many steps, and proofs of what those parts promise.

- **Tool-call journal and retirement** (`Ids`, `Json`, `Journal`, `JournalStore`,
  `RetirementModel`, `Retirement`, `RetirementExact`, `RetirementFiles`,
  `RetirementNames`, `RetirementLimits`). A journal binds each
  mutating call to a key and its owned references before delivery. The journal
  and the storage directory are classes; the race between transactions, index
  registrations and retirements over many processes is a state machine whose
  steps are the points where the code can be interrupted.
- **Tool dispatch** (`Catalog`, `Dispatch`, `DispatchSafety`, `DispatchLifecycle`,
  `DispatchOwned`, `DispatchLimits`). The catalog's parser, printer and field injection, and a
  state machine of dispatch tasks over one journal, a network that may deliver
  any request late and repeatedly, and an engine that deduplicates by key.
- **Dispatch over the storage directory** (`DispatchStore`, `DispatchRecord`,
  `DispatchLate`, `DispatchLateLimits`). The two machines as one: dispatchers prepare
  their calls and completions settle them in transactions that take the directory's
  own steps, beside retirements.
- **Resumable streaming** (`Cursor`, `Replay`, `StreamModel`, `StreamSafety`,
  `StreamMark`, `StreamResume`, `StreamHandover`, `StreamReconnect`, `StreamLimits`,
  `ThreadStream`, `StreamBody`, `StreamRefines`). The replay functions as methods, one
  run's producer, ring, table and reconnecting client as a state machine, the stream
  body as a class, and the proof that machine and class say the same.
- **Single flight** (`SingleFlight`), **import reachability** (`Reachability`),
  the **import probe** (`ImportProbe`, `ImportAttribution`) and the **advisory
  verdict** (`DependencyAudit`).

SHA-256 is taken as injective, each SQLite transaction and each stretch of code
without a suspension point as one step, and the engine as a map from a key to its
first answer. What the outside world does (the clock, failing reads, crashes, the
order of steps) is a parameter or an action of a run, so every theorem about runs
holds for all of them.

## Properties that do not hold as promised

Each is shown by a lemma and comes with the exact condition.

- *No transaction commits after its run's retirement has returned.* One can
  (`RetirementLimits.ACommitCanFollowTheReturn`), exactly when at the return some
  transaction stands between its last marker check and its commit; where one
  process retires the run that is a transaction of another process
  (`RetirementExact.CommitFollowsTheReturnExactlyWhen`), and what it writes has lost
  its name (`Retirement.LateCommitIsInvisible`).
- *No request goes out once its run has been retired.* One can, with no row on record
  of it (`DispatchLateLimits.ARequestCanGoOutUnrecorded`), exactly when at the return a
  dispatcher has committed its preparation or stands between the last marker check and
  that commit (`DispatchLate.SendFollowsTheReturnExactlyWhen`). A request has its row on
  record exactly until its journal is replaced
  (`DispatchRecord.OnRecordExactlyUntilReplaced`).
- *Every canonical file of a retired run is a closed header.* A file set aside for
  an isolated bridge can appear empty afterwards
  (`RetirementLimits.AnEmptyFileCanAppearAfterTheReturn`). A name leads to a closed
  header after the return exactly when it did so at the retirement's one read of the
  index or the rows read there held its scope
  (`RetirementFiles.ClosedExactlyWhenRead`); every file a transaction made or wrote is
  closed (`Retirement.RetirementClosesEveryJournal`).
- *Distinct mutations never overlap.* A rejected call with a delivery in flight can
  be applied while another is pending (`DispatchLimits.ARejectedCallCanOverlap`),
  and that is the only way (`DispatchSafety.OverlapExactlyAfterRejection`).
- *A resumed stream without a gap notice misses nothing.* A run evicted from the
  writer's cache at any time before the ring read with frames unwritten, or a newest
  row that no longer decodes, loses frames silently
  (`StreamLimits.EvictionBetweenTheReadsLosesSilently`,
  `StreamLimits.EvictionBeforeConnectingLosesSilently`,
  `StreamLimits.DamagedNewestRowLosesSilently`); the handover is whole exactly when
  at the ring read the cursor is at or past the position of the subscription, or the
  rows read and the ring hold a number from that position on in a form that decodes
  (`StreamHandover.HandoverIsWholeExactlyWhenHeld`).
- *The mark drops only repeats.* A ring that overflows between the reads leaves a
  queued frame before the window, and the mark drops it
  (`StreamLimits.AFrameBeforeTheWindowIsDropped`); with the window-start sentinel no
  notice says so. A dropped frame was never shown exactly when it lies before the
  window or the cursor claimed it (`StreamMark.WhatTheMarkDrops`).
- *A client cannot silence its own stream, and the newest frame is never dropped.* A
  cursor ahead of the run can, if the run catches up between the viewer's reads: after
  a notice (`StreamLimits.ACursorAheadSilencesAFrame`), or with none at all
  (`StreamLimits.ACursorJustAheadSilencesTheNewestUnannounced`). The newest frame goes
  unshown exactly when the mark drops it and the cursor had claimed it
  (`StreamMark.TheNewestIsSwallowedExactlyWhen`); a cursor that is no further than the
  run at subscription always gets it (`StreamMark.TheNewestIsNeverSwallowed`).
- *Each worker line is one line.* A summary holding a carriage return or another
  boundary character is read as several
  (`ImportAttribution.ACarriageReturnForgesALine`); the trace is read back exactly
  when no summary holds one (`ImportAttribution.TheTraceIsReadBackExactlyWhen`).
- *Each advisory is reported once.* An id that only a later id names as its alias leads
  a finding of its own, and the two share that id. A table reports each advisory once,
  whatever is hit, exactly when the first in sorted order of two ids that have an id in
  common always names the other (`DependencyAudit.ReportsOnceExactlyWhen`).
- *A journal file has one owner.* Two surrogates side by side in a run or scope print
  like the character they stand for (`Journal.APairSharesItsCharactersName`); names are
  shared exactly when the owners agree once such pairs are joined
  (`Journal.NamesAreSharedExactlyWhen`).

## Model

| member | source | states |
|---|---|---|
| Ids.ValidIdIsTheEngineGrammar | src/vaultspec_a2a/authoring/_ids.py:24-36 | an id is valid exactly when it is 1 to 160 characters of the engine's alphabet, and then it is free of the key separator |
| Ids.JoinIsInjective | src/vaultspec_a2a/authoring/_ids.py:60-73 | joining separator-free non-empty parts loses nothing: equal joins come from equal part lists, of any lengths |
| Ids.KeysNameTheirMaterial | src/vaultspec_a2a/authoring/_ids.py:60-73 | equal keys come from equal material |
| Ids.CallKeyIsInjective | src/vaultspec_a2a/authoring/_ids.py:60-73 | the five-part call key determines call and owned text even when the command may hold separators |
| Ids.SeparatorInsideAPartCollides | src/vaultspec_a2a/authoring/_ids.py:60-73 | without the restriction two different materials share one key |
| Json.DumpListsAgreeExactlyWhen | src/vaultspec_a2a/authoring/_journal_index.py:40-47 | two lists of Python strings, lone surrogates included, have the same JSON text exactly when they are the same list once adjacent surrogates are joined |
| Json.DumpFieldsIsPrintable | src/vaultspec_a2a/authoring/catalog.py:405-426 | the JSON text of owned fields is printable ASCII, so it never holds the key separator |
| Journal.NamesAreSharedExactlyWhen | src/vaultspec_a2a/authoring/_journal_index.py:40-47 | two journals share a file name, and two runs a marker, exactly when their owners agree once adjacent surrogates are joined; no marker is a journal |
| Journal.APairSharesItsCharactersName | src/vaultspec_a2a/authoring/_journal_index.py:40-47 | in every scope, the run of two surrogates and the run of the character they stand for have one journal file |
| Journal.NamesHaveOneOwner | src/vaultspec_a2a/authoring/_journal_index.py:40-47 | among strings without surrogates two journals share a file name exactly when they are one, markers are per run, and no marker is a journal |
| Journal.ToolCallJournal.Prepare | src/vaultspec_a2a/authoring/_tool_calls.py:315-358 | a known call is answered from its row, a new one is bound only when none is pending; a closed run writes nothing; at most one call stays pending |
| Journal.ToolCallJournal.Complete | src/vaultspec_a2a/authoring/_tool_calls.py:360-377 | only the first completion of a pending call changes its row and the references |
| Journal.BindingIsForever | src/vaultspec_a2a/authoring/_tool_calls.py:315-377 | over every later history a call keeps fingerprint, owned fields and key, and a settled call its outcome |
| Journal.OnePendingAlways | src/vaultspec_a2a/authoring/_tool_calls.py:315-377 | over every history of transactions at most one call is pending |
| Journal.RetryIsHandedTheFirstBinding | src/vaultspec_a2a/authoring/_tool_calls.py:325-358 | a retry gets exactly its first binding, whatever ran in between and whatever it would build, or learns it was rejected |
| Journal.LateCompletionIsIgnored | src/vaultspec_a2a/authoring/_tool_calls.py:360-377 | a completion of a settled call changes nothing, after any history |
| JournalStore.Directory.Register | src/vaultspec_a2a/authoring/_journal_index.py:187-197 | refused exactly when the run is marked closed; otherwise the row names the run's own file and nothing else changes |
| JournalStore.Directory.Scopes | src/vaultspec_a2a/authoring/_journal_index.py:199-210 | lists exactly the run's scopes, and the ownership mismatch is never met in a store kept by these operations |
| JournalStore.ForgettingIsPerRun | src/vaultspec_a2a/authoring/_journal_index.py:199-214 | after forgetting, the run has no scope left to list and every other run lists exactly those it had |
| JournalStore.Directory.Retire | src/vaultspec_a2a/authoring/_tool_calls.py:246-313 | replaces the journal by its closed header unless it is not a file or cannot be replaced, and touches no other name |
| JournalStore.Directory.RetireRun | src/vaultspec_a2a/authoring/_tool_calls.py:162-197 | a missing directory gets no marker; otherwise the marker is set, every indexed journal is tried even after a failure, and the rows are forgotten exactly when all succeeded |
| JournalStore.RetireEachAt | src/vaultspec_a2a/authoring/_tool_calls.py:186-197 | name by name, retiring closes exactly the listed journals that can be replaced and changes nothing of any other run or scope |
| JournalStore.RetryFinishes | src/vaultspec_a2a/authoring/_tool_calls.py:186-197 | a retirement that failed in places is completed by a later one that meets no fault |
| Retirement.StepKeepsInv | src/vaultspec_a2a/authoring/_tool_calls.py:162-313 | every step of a transaction, a retirement or a file set aside keeps locks, serial commits and the coverage of files by index rows or retirement work |
| Retirement.RetirementClosesEveryJournal | src/vaultspec_a2a/authoring/_tool_calls.py:162-313 | in every interleaving, once a retirement has returned each canonical file of its run that a transaction made or wrote is a closed header |
| Retirement.WithoutIsolationEveryFileIsClosed | src/vaultspec_a2a/authoring/_tool_calls.py:162-313 | where no file is set aside, every canonical file of the run is a closed header, without exception |
| RetirementFiles.ClosedExactlyWhenRead | src/vaultspec_a2a/authoring/_tool_calls.py:186-197 | over every interleaving, a canonical name leads to a closed header after the return exactly when it did at the read of the scopes or that read held its scope |
| Retirement.ReturnedStays | src/vaultspec_a2a/authoring/_tool_calls.py:162-197 | a retirement that has returned stays so, hence the guarantee holds at every later state |
| Retirement.ClosedStays | src/vaultspec_a2a/authoring/_tool_calls.py:217-244 | a closed header is never reopened, whatever runs later |
| Retirement.LateCommitIsInvisible | src/vaultspec_a2a/authoring/_tool_calls.py:208-244 | whatever commit is still possible after the return goes to a file that has lost its name, from another process than the one that retires the run |
| RetirementExact.CanStillCommitExactlyWhen | src/vaultspec_a2a/authoring/_tool_calls.py:208-244 | once its run is marked closed, some later run brings a transaction to a commit exactly when it has passed its last check |
| RetirementExact.CommitFollowsTheReturnExactlyWhen | src/vaultspec_a2a/authoring/_tool_calls.py:162-244 | a commit to a journal of the run can follow the return exactly when a transaction stands between its last check and its commit, of another process where one process retires the run |
| Retirement.MarkerRefusesTransactions | src/vaultspec_a2a/authoring/_tool_calls.py:208-244 | once the marker exists, a transaction at any point before its last check, or one that starts later, never passes that check and never commits |
| Retirement.CommitsAreSerial | src/vaultspec_a2a/authoring/_tool_calls.py:226-244 | each commit replaces exactly the content its transaction read |
| Retirement.OwnOpenFileIsNeverReplaced | src/vaultspec_a2a/authoring/_tool_calls.py:208-252 | a journal is never replaced while a transaction of the same process has it open |
| RetirementLimits.ACommitCanFollowTheReturn | src/vaultspec_a2a/authoring/_tool_calls.py:240-244 | a run in which another process commits after the retirement has returned |
| RetirementLimits.AnEmptyFileCanAppearAfterTheReturn | src/vaultspec_a2a/authoring/_tool_calls.py:95-146 | a run in which an empty canonical file appears after the retirement has returned |
| Catalog.ParseCatalog | src/vaultspec_a2a/authoring/catalog.py:117-164 | the validating loop computes the specified parse, with its first error |
| Catalog.PrintThenParse | src/vaultspec_a2a/authoring/catalog.py:117-198 | parsing a printed snapshot gives it back exactly when its version is current and its tool names are non-empty |
| Catalog.ParsePrintParse | src/vaultspec_a2a/authoring/catalog.py:117-198 | parse, print, parse equals parse on every payload that parses |
| Catalog.ParsedToolsAreNamed | src/vaultspec_a2a/authoring/catalog.py:117-164 | every tool of a parsed catalog has a non-empty name |
| Catalog.ResolveCommand | src/vaultspec_a2a/authoring/catalog.py:240-260 | the first declared command the discriminator occurs in; the only, the first, or the tool's own name where nothing discriminates |
| Catalog.InjectOwnedFields | src/vaultspec_a2a/authoring/catalog.py:263-269 | every owned field is overwritten, or removed where its value is not known yet, and nothing else changes, in whatever order the fields come |
| Catalog.OwnedFieldsAreWhatWasInjected | src/vaultspec_a2a/authoring/catalog.py:286-327 | reading the owned fields back from injected arguments gives what was injected, for every command |
| Catalog.RetryInputEqualsFirstInput | src/vaultspec_a2a/authoring/catalog.py:400-441 | injecting a stored binding into the raw arguments gives the same input as the first attempt sent |
| Catalog.CallerCannotSupplyOwnedFields | src/vaultspec_a2a/authoring/catalog.py:50-58 | injecting a binding into arguments that differ only in owned fields gives one input, which holds the bound values there and nothing else |
| DispatchOwned.OwnedFieldsAreNeverTheCallers | src/vaultspec_a2a/authoring/catalog.py:286-327 | in every request of every run all owned fields of the command are exactly those injected from the session of the attempt that bound the call and the references the journal held right after it, and a field with no value then is absent |
| DispatchOwned.OwnedArgumentsMakeNoDifference | src/vaultspec_a2a/authoring/catalog.py:400-441 | arguments that differ only in owned fields build the same owned fields and key and send the same input |
| Dispatch.CallsHaveTheirOwnKeys | src/vaultspec_a2a/authoring/catalog.py:405-426 | two calls of one journal with the same key are the same call, whatever the commands |
| Dispatch.JournalsHaveTheirOwnKeys | src/vaultspec_a2a/authoring/catalog.py:405-426 | calls with one key belong to one journal and are one call, for runs and scopes without the separator |
| DispatchSafety.StepKeepsDeliveries | src/vaultspec_a2a/authoring/catalog.py:387-455 | every step keeps: each request in flight is the one its row stands for, applied keys are distinct, completed rows were applied |
| DispatchSafety.RetriesSendTheSameRequest | src/vaultspec_a2a/authoring/catalog.py:400-441 | in every run two deliveries of one call, or of one key, are the same command, name, input and key |
| DispatchSafety.EachCallIsAppliedAtMostOnce | src/vaultspec_a2a/authoring/catalog.py:387-455 | over every run with crashes, lost answers and retries the engine applies each call at most once |
| DispatchSafety.AnswersBelongToTheirCall | src/vaultspec_a2a/authoring/catalog.py:430-455 | a call that settles as completed settles with what is tracked from the engine's answer to that very, applied request |
| DispatchSafety.EveryAttemptTracksTheSame | src/vaultspec_a2a/authoring/catalog.py:427-455 | two attempts at one call that both get an answer, at any distance in a run, sent the same request and settle with the same updates |
| DispatchSafety.AtMostOneCallIsPending | src/vaultspec_a2a/authoring/_tool_calls.py:315-358 | in every run at most one call of the journal is pending |
| DispatchSafety.OverlapExactlyAfterRejection | src/vaultspec_a2a/authoring/catalog.py:430-455 | a first application overlaps another pending call exactly when its own call was recorded as rejected and some call is pending |
| DispatchLimits.ARejectedCallCanOverlap | src/vaultspec_a2a/authoring/catalog.py:442-447 | for all names of journal, command and calls, a run with such an overlap exists |
| DispatchLifecycle.LifecycleIsTheFold | src/vaultspec_a2a/authoring/_tool_calls.py:350-395 | in every run the references are the fold of the first completions in order; exactly the settled calls appear, each once |
| DispatchLifecycle.ChangesetNeverChanges | src/vaultspec_a2a/authoring/catalog.py:286-340 | the changeset id is null or the one minted for the run, and once set no later run changes it |
| DispatchStore.PreparesLikeTheDispatcher | src/vaultspec_a2a/authoring/catalog.py:400-429 | a preparation made inside a journal transaction binds, writes and sends what the one-step preparation does over the same tables |
| RetirementNames.StepKeepsAttached | src/vaultspec_a2a/authoring/_tool_calls.py:208-252 | in every interleaving the file a transaction has open keeps its name unless a retirement of its marked run replaces it |
| DispatchRecord.StepKeepsInv | src/vaultspec_a2a/authoring/_tool_calls.py:208-377 | every step of dispatchers, completions and retirements keeps: bodies only add and settle rows, and a committed request is on record or its journal replaced |
| DispatchRecord.OnRecordExactlyUntilReplaced | src/vaultspec_a2a/authoring/_tool_calls.py:315-377 | over every interleaving a request whose preparation has committed has its row on record exactly as long as its journal is not replaced, and always while its run is not marked closed |
| DispatchRecord.NoRecordAfterTheReturn | src/vaultspec_a2a/authoring/_tool_calls.py:162-197 | once a retirement has returned no request of the run, sent or still to be sent, has a row on record |
| DispatchLate.SendFollowsExactlyWhen | src/vaultspec_a2a/authoring/_tool_calls.py:208-244 | once a run is marked closed some request of it can still be sent exactly when a dispatcher has committed its preparation or only that commit is missing |
| DispatchLate.SendFollowsTheReturnExactlyWhen | src/vaultspec_a2a/authoring/_tool_calls.py:162-244 | the same after the return over every interleaving; where one process retires the run, a preparation still to commit is another process's |
| DispatchLateLimits.ARequestCanGoOutUnrecorded | src/vaultspec_a2a/authoring/_tool_calls.py:240-244 | a run in which a request is sent after the return with no row on record |
| Cursor.EventIdNamesItsPosition | src/vaultspec_a2a/api/_stream_replay.py:45-98 | the id of frame n names n on its own run, colons included, for every n of at most nineteen digits; any other run and longer numbers are refused; it is never the sentinel |
| Cursor.OnlyIdsNamePositions | src/vaultspec_a2a/api/_stream_replay.py:80-98 | a numbered position is read off a cursor exactly when it is the run, a colon and one to nineteen digits of that value |
| Cursor.PositionsAreBounded | src/vaultspec_a2a/api/_stream_replay.py:62-98 | whatever a client sends, its position has at most nineteen digits, and only the sentinel asks for the window |
| Cursor.EventIdsAreInjective | src/vaultspec_a2a/streaming/sse_frames.py:734-743 | an id names one frame of one run |
| Replay.Merge | src/vaultspec_a2a/api/_stream_replay.py:240-252 | the merged dictionary is the union of both reads by number, a row winning over the ring's copy |
| Replay.RetainedAfter | src/vaultspec_a2a/api/_stream_replay.py:218-257 | the frames are the decodable records of that union in ascending order |
| Replay.RetainedIsTheUnion | src/vaultspec_a2a/api/_stream_replay.py:218-257 | whatever the two unsynchronised reads returned, the numbers strictly ascend without duplicates and are exactly those some read holds decodably |
| Replay.ContiguousTail | src/vaultspec_a2a/api/_stream_replay.py:277-293 | the downward loop returns the frames from the cut on |
| Replay.TailIsTheLongestSuffix | src/vaultspec_a2a/api/_stream_replay.py:277-293 | a suffix is consecutive exactly when it starts at or after the cut |
| Replay.ReplayWindow | src/vaultspec_a2a/api/_stream_replay.py:296-359 | the served frames, notice, first number and floor in each of the three answers, the failing read included |
| Replay.EmptyReplayWindow | src/vaultspec_a2a/api/_stream_replay.py:362-426 | the three empty answers, told apart by the highest number the table or ring holds |
| Replay.NumberedWindowIsFlaggedExactlyOnLoss | src/vaultspec_a2a/api/_stream_replay.py:342-359 | for a numbered cursor a window carries no notice exactly when no position from the cursor to the newest retained frame is missing; otherwise it names its own first number |
| Replay.SentinelWindowIsFlaggedExactlyOnAHole | src/vaultspec_a2a/api/_stream_replay.py:342-359 | for the sentinel a notice is carried exactly when the retained frames have a hole |
| Replay.FloorIsClamped | src/vaultspec_a2a/api/_stream_replay.py:389-426 | the floor never exceeds the client's cursor nor the highest number read, and without a notice it is the cursor |
| StreamSafety.StepKeepsInv | src/vaultspec_a2a/api/thread_stream.py:364-535 | every step of producer, flush, sweep, eviction and viewer keeps the order and bounds of queue, window and output |
| StreamSafety.RetainedIsWhatIsRead | src/vaultspec_a2a/api/_stream_replay.py:240-257 | the numbers the state machine serves from are those of the frames the merging read computes |
| StreamMark.ConnectionsNeverRepeat | src/vaultspec_a2a/api/thread_stream.py:398-535 | in every run a connection shows strictly increasing numbers the run has produced |
| StreamMark.MarkIsAPositionOfTheRun | src/vaultspec_a2a/api/thread_stream.py:270-285 | no client can push the mark past what the run has produced |
| StreamMark.MarkNeverFalls | src/vaultspec_a2a/api/thread_stream.py:406-417 | in every reachable state no step lowers the mark of a connection that lasts |
| StreamMark.WhatTheMarkDrops | src/vaultspec_a2a/api/thread_stream.py:510-525 | a queued frame the mark drops was never shown exactly when it lies before the served window or the cursor claimed it ahead of the run; before the window a numbered cursor has been told |
| StreamMark.WhatTheMarkDropsOnHonestClients | src/vaultspec_a2a/api/thread_stream.py:510-525 | for a cursor no further than the run at subscription, exactly when it lies before the served window |
| StreamMark.TheNewestIsSwallowedExactlyWhen | src/vaultspec_a2a/api/thread_stream.py:515-529 | the newest frame goes unshown exactly when the mark drops it and the cursor had claimed it |
| StreamMark.TheNewestIsNeverSwallowed | src/vaultspec_a2a/api/thread_stream.py:515-529 | a client that claimed no more than had been produced at subscription is shown the newest frame, a terminal in particular |
| StreamResume.HandoverIsWholeExactlyWhen | src/vaultspec_a2a/api/thread_stream.py:364-535 | without backpressure drops, a resumed stream that went live without a notice is exactly cursor+1, cursor+2, ... if and only if its window reached the position at subscription |
| StreamHandover.HandoverIsWholeExactlyWhenHeld | src/vaultspec_a2a/api/_stream_replay.py:218-257 | the same equivalence decided at the ring read: the cursor is at or past the position at subscription, or the rows read and the ring hold a number from there on in a form that decodes |
| StreamReconnect.ResumeIsContiguous | src/vaultspec_a2a/api/thread_stream.py:364-535 | with decodable rows, the newest frame in the ring and no drop, a resume without a notice delivers exactly cursor+1, cursor+2, ... once each, in every interleaving |
| StreamReconnect.ReconnectsLoseNothingSilently | src/vaultspec_a2a/api/thread_stream.py:295-424 | over any number of reconnects that offer the last id received and are served a window reaching their subscription, everything received rises strictly and every missing position falls right before a gap notice |
| StreamReconnect.SoundRunsAreGood | src/vaultspec_a2a/api/_stream_replay.py:218-257 | decodable rows and a ring that keeps the newest frame give every connection such a window |
| StreamLimits.EvictionBetweenTheReadsLosesSilently | src/vaultspec_a2a/streaming/run_event_writer.py:212-236 | a run in which an eviction between the reads skips a frame without notice |
| StreamLimits.EvictionBeforeConnectingLosesSilently | src/vaultspec_a2a/streaming/run_event_writer.py:212-236 | a run in which an eviction before the client connects does the same |
| StreamLimits.DamagedNewestRowLosesSilently | src/vaultspec_a2a/api/_stream_replay.py:186-215 | a run in which a damaged newest row hides the ring's good copy without notice |
| StreamLimits.AFrameBeforeTheWindowIsDropped | src/vaultspec_a2a/api/thread_stream.py:510-525 | a run in which a queued frame, unclaimed and unshown, is dropped by the mark |
| StreamLimits.ACursorAheadSilencesAFrame | src/vaultspec_a2a/api/_stream_replay.py:412-425 | for every cursor beyond 1 a run that catches up between the further reads and drops its first frame unshown after a notice |
| StreamLimits.ACursorJustAheadSilencesTheNewestUnannounced | src/vaultspec_a2a/api/_stream_replay.py:412-426 | a run that drops its newest frame with no notice at all |
| ThreadStream.RelayHub.AddSubscriber | src/vaultspec_a2a/streaming/subscribers.py:479-513 | a slot is given exactly when there is room or the client already holds one |
| ThreadStream.Stream.Replayed | src/vaultspec_a2a/api/thread_stream.py:398-424 | the gap notice, then the window up to its first terminal, with mark and closing flag to match, cut where the client leaves |
| ThreadStream.Stream.TurnFrames | src/vaultspec_a2a/api/thread_stream.py:462-535 | what one turn says, what it does to the mark and whether it ends the stream |
| ThreadStream.Stream.Live | src/vaultspec_a2a/api/thread_stream.py:440-451 | the live loop says exactly the script of its turns, cut where the client leaves |
| ThreadStream.Stream.Serve | src/vaultspec_a2a/api/thread_stream.py:364-396 | snapshot, replay, then terminal or live, with both refusals |
| ThreadStream.Stream.Frames | src/vaultspec_a2a/api/thread_stream.py:295-307 | a foreign cursor or a full registry is one rejection; otherwise the served script |
| ThreadStream.StreamThreadEvents | src/vaultspec_a2a/api/thread_stream.py:556-570 | the registry holds the same slots afterwards on every exit |
| StreamBody.EveryBodyIsWellFormed | src/vaultspec_a2a/api/thread_stream.py:295-535 | whatever is read or queued and whenever the client leaves, the body is accepted by the grammar |
| StreamBody.NothingFollowsAnEnd | src/vaultspec_a2a/api/thread_stream.py:387-424 | a rejection or a terminal is the last frame, so there is at most one |
| StreamBody.OpeningFrame | src/vaultspec_a2a/api/thread_stream.py:295-382 | a rejection stands alone; every other body opens with its only snapshot |
| StreamBody.ReplayComesFirst | src/vaultspec_a2a/api/thread_stream.py:398-424 | a gap notice is the second frame, and replayed frames precede everything live |
| StreamBody.LiveNumbersRise | src/vaultspec_a2a/api/thread_stream.py:495-535 | numbered live frames rise strictly one after the other |
| StreamBody.LiveNumbersAreAbove | src/vaultspec_a2a/api/thread_stream.py:515-525 | and all lie above the mark the live loop starts from |
| StreamRefines.TurnsAgree | src/vaultspec_a2a/api/thread_stream.py:440-535 | one live step of the state machine shows what the class's turn says and leaves the mark that turn leaves, repeats and notices included |
| StreamRefines.ConnectionsShowTheirScript | src/vaultspec_a2a/api/thread_stream.py:364-535 | in every run a resumed connection served the window of its reads and gone live shows exactly the numbered frames and notices of the body the class serves for that window and those turns |
| StreamRefines.FreshConnectionsShowTheirScript | src/vaultspec_a2a/api/thread_stream.py:364-535 | and so does a connection without a cursor |
| SingleFlight.CommitSingleFlight.Register | src/vaultspec_a2a/api/run_admission.py:72-79 | the identity's entry, made if missing, with one more user; no other entry changes |
| SingleFlight.CommitSingleFlight.Unregister | src/vaultspec_a2a/api/run_admission.py:83-87 | one user less, and the entry is dropped exactly when it was the last |
| SingleFlight.StepsCountLikeTheBlocks | src/vaultspec_a2a/api/run_admission.py:72-87 | in the state machine arriving and leaving change the user counts exactly as the two guarded blocks do, and nothing else changes them |
| SingleFlight.OneAtATime | src/vaultspec_a2a/api/run_admission.py:65-87 | in every schedule at most one task per identity is inside, although entries are deleted and made again |
| SingleFlight.TheMapCountsItsUsers | src/vaultspec_a2a/api/run_admission.py:65-87 | the map holds exactly the identities in use, each counting its registered tasks |
| SingleFlight.TheMapEmptiesItself | src/vaultspec_a2a/api/run_admission.py:65-87 | once every task has left, cancelled ones included, the map is empty |
| SingleFlight.NobodyIsStuck | src/vaultspec_a2a/api/run_admission.py:65-87 | a waiting task can enter or has one of its identity inside; the others can always go on |
| Reachability.AncestorsOf | dev/audit/unreachable_code.py:519-523 | splitting and joining yields the package ancestors, nearest first |
| Reachability.AncestorsAreDottedPrefixes | dev/audit/unreachable_code.py:519-523 | they are exactly the prefixes that stop in front of a dot |
| Reachability.ReachableClosure | dev/audit/unreachable_code.py:526-551 | the worklist terminates and returns exactly the modules a chain of edges and package ancestors reaches from a root |
| Reachability.ReachIsMonotone | dev/audit/unreachable_code.py:526-551 | more edges never reach less |
| Reachability.ClassifyModules | dev/audit/unreachable_code.py:554-591 | exactly the shipped non-test modules are classified, each by which edges reach it |
| Reachability.RuntimeIsWithinCombined | dev/audit/unreachable_code.py:569-580 | what runtime edges reach, combined edges reach too |
| ImportProbe.LinesComeBackExactlyWhenClean | dev/quality/import_load_probe.py:175-175 | written lines are read back exactly when none holds a boundary character |
| ImportProbe.LineRoundTrip | dev/quality/import_load_worker.py:29-39 | a line parses back into its three fields, tabs in the detail included |
| ImportProbe.Work | dev/quality/import_load_worker.py:42-65 | the worker's loop writes the specified trace up to where the process dies |
| ImportProbe.ParseWorkerOutput | dev/quality/import_load_probe.py:157-201 | loaded count and failures are those of the parsed lines (raised, died during import, never attempted), the failures sorted by module and detail |
| ImportAttribution.EveryModuleIsAttributed | dev/quality/import_load_probe.py:157-201 | for every point the worker can stop at, each of distinct modules is attributed correctly, in order and with its own summary |
| ImportAttribution.TheCountsAddUp | dev/quality/import_load_probe.py:157-201 | loaded plus failures equals attempted, and together they name all modules |
| ImportAttribution.TheTraceIsReadBackExactlyWhen | dev/quality/import_load_worker.py:29-39 | the parser recovers the written trace exactly when no summary holds a line boundary besides flattened newlines |
| ImportAttribution.OutputIsAttributed | dev/quality/import_load_probe.py:157-201 | from the text left of a worker stopped anywhere, over distinct modules and summaries without line boundaries, every module is attributed correctly |
| ImportAttribution.ACarriageReturnForgesALine | dev/quality/import_load_worker.py:37-37 | after a carriage return, any event a summary spells out is read as the worker's own |
| DependencyAudit.SplitSuppressions | dev/audit/dependency_audit.py:519-522 | the loop computes the suppressions in force by id and the list of expired ones |
| DependencyAudit.InForceExactlyWhenLast | dev/audit/dependency_audit.py:519-519 | a suppression is in force under its id exactly when it is the last unexpired one there |
| DependencyAudit.FindCovering | dev/audit/dependency_audit.py:536-541 | the suppression under the first key that has one, or none when no key has |
| DependencyAudit.BuildReport | dev/audit/dependency_audit.py:502-561 | for any alias table and order of hits: no hit is lost and none invented, the findings are those of the ids no earlier finding goes by, no id belongs to two findings exactly when those ids share none, a finding is covered exactly when an unexpired suppression stands under one of its ids and then by the first such, the expired are listed, and one in force is stale exactly when it covers nothing |
| DependencyAudit.ReportsOnceExactlyWhen | dev/audit/dependency_audit.py:524-535 | a table reports each advisory once for every sorted list of hits exactly when the first of two ids with an id in common always names the other |
| DependencyAudit.Verdict | dev/audit/dependency_audit.py:473-561 | the exit code of the report built is 0 exactly when nothing has expired and every finding has an unexpired suppression under its id or an alias |

## Left out

- Lone surrogates beyond file names: runs, scopes, calls and arguments elsewhere are strings of Unicode scalar values.
- The relay hub's hold, publish and release of a terminal, and its number seeding: numbering is one counter and a frame is queued when it is numbered.
- The eviction rule of the bounded relay queue: a drop removes any queued frame at any time, and contiguity is claimed for runs without one.
- A viewer without a replay writer, and a run that is not numbered: every frame of the stream state machine is numbered and passes through the ring.
- SQLite itself, file modes, links, fsync, sidecar files and the checks on them: a transaction or a replacement is one step.
- The index adoption pass: a starting state says what it would have found.
- HMAC, bearer and attach authentication, the HTTP routes, settings, logging and tracing.
- The network and the engine in the machine over the storage directory: it ends where a request is sent, and completions settle any call with any updates.
- The engine's own tools and its responses beyond the revision and approval a response may carry.
- The order of findings and suppressions in reports, and package and surface strings.
- Stripping whitespace around an offered cursor.
- What an imported module prints itself, and the probe's process handling, timeout and minimum module count.
- Parsing Python sources into import edges: the edges of a module are given.
- JournalStore.Directory.RetireRun: states one retirement with nothing running beside it; the interleavings are in the retirement state machine.
- ThreadStream.Stream.Serve: reads and queued items are given in advance rather than interleaved; the interleavings are in the stream state machine.
- Dispatch.JournalsHaveTheirOwnKeys: asks for runs and scopes without the separator, because with it the joined material of two journals can coincide.
