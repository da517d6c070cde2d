# An event-sourced control plane, modelled and proved

Prodeo watches coding agents on several machines. Sessions, interactions and schedules live in memory; every
change is also an event with a monotone id. A recorder makes events durable later, a boot folds the log back, a
hub mirrors the logs of other machines, a retention pass deletes and archives, clients catch up over a WebSocket.
The proofs here are about those parts staying consistent with each other under interleaving and crashes, and
about five smaller algorithms beside them: cron search, transcript tailing, the app supervisor's restart loop,
Aider's history parser and the digest windows.

Every coroutine is cut at its awaits into atomic segments. A state machine interleaves the segments with
publishing, recording, crashes and restarts; the theorems hold at every state of every run. The code that updates
objects in place is a class whose methods are proved against the functions that the state machines use.

## The modules

| file | what it holds |
|---|---|
| `envelope.dfy`, `maps.dfy`, `decimal_text.dfy` | events, records, the session state machine, monotone ids, type patterns; map and number lemmas |
| `event_log.dfy` | the event table: idempotent append, filtered queries, deletion, cursor walks |
| `sessions.dfy`, `mediation.dfy` | the two registries: segments, folds, replay, interleaved machines, in-place classes |
| `session_commands.dfy`, `mediation_commands.dfy` | what each command does from start to end, and which events it issues |
| `node_host.dfy` | one machine: every interleaving of both registries, with crashes and boots |
| `deliveries.dfy`, `milestones.dfy` | over those runs: answers reach the agent once, milestones follow moves |
| `read_model.dfy`, `node_sync.dfy` | the hub's folds, the mirroring protocol, hub and machine end to end |
| `skipped_start.dfy`, `late_rows.dfy` | which loop starts go wrong, and what happens to events stored out of id order |
| `hub.dfy` | the whole hub: its own commands, any number of mirrors, one store, boots |
| `bus.dfy`, `event_stream.dfy` | bounded queues, publishing, the recorder, replay and live handover |
| `retention.dfy`, `summary.dfy` | retention passes and the archive; digest windows |
| `calendar.dfy`, `cron.dfy`, `scheduler.dfy` | the proleptic calendar, cron parsing and search, schedules under interleaving |
| `cron_fields.dfy`, `cron_halves.dfy` | what cron fields mean form by form, and the rule of the two day fields |
| `tailer.dfy`, `supervisor.dfy` | the transcript tailer, the restart loop |
| `history_parser.dfy`, `history_lines.dfy`, `history_watch.dfy`, `history_restarts.dfy` | Aider's parser, what its lines mean, the watch around it with its saved offset and restarts, and what all attempts report together |

## What the statements assume

- (adapter, native id) pairs and ids belong to one machine each: the index keys omit the node
  (`Ownership`, `WritesOwn`; `Sessions.SharedIdentityIsOrderSensitive` shows it is needed).
- Fresh ULIDs for sessions and interactions are new; the clock does not run backward across a restart, so that an
  id drawn after a boot exceeds everything recorded (`NodeHost.IdsForward`).
- A crash keeps a prefix of the events issued; the recorder does not fail to append. A log that lost an event in
  the middle need not be a legal history (`Sessions.LostMiddleBreaksHistory`), but its pending index is sound and
  folding it on from any earlier point is harmless (`ReadModel.PartOfALogIsSound`).
- Mirroring: a machine's log grows in id order, that is, its recorder stores ids in increasing order
  (`NodeSync.Enabled`, `MachineAppends`); otherwise an event stored below the hub's cursor is never mirrored
  (`LateRows.LateRowIsNeverMirrored`). Event ids belong to one machine each (`Hub.Fleet`).
- WebSocket: ids increase in publish order (`EventStream.InOrder`), and nothing that the client is due was
  published but still unrecorded when it subscribed. The second is exactly what completeness needs
  (`EventStream.SubscriptionIsCompleteExactly`).
- Schedules: a clock that does not run backward, a zone with a fixed offset, and dates before the last four years
  of the calendar, where the search would run off its end.

## What turned out otherwise than one might expect

- Replaying a suffix of a log is harmless for sessions always, and for interactions when requests are stored
  pending and ids keep their native identity. Dropping either leaves a log that a replay changes
  (`Mediation.RekeyedIdBreaksReplay`, `Mediation.ResolvedRequestBreaksReplay`); every log a machine writes has
  both (`ReadModel.LawfulIsStable`).
- A sync loop may end at any moment. Resuming converges as long as each new loop starts at or below just after the
  last event folded (`NodeSync.ModelIsFoldOfPrefix`, `Resumes`). The source does not see to that: a loop starts
  after the newest stored event, and the last event folded may be an older one, when a loop that was re-folding
  ended early. Which starts are safe is known exactly (`SkippedStart.StartIsSafeExactly`): for every start above an
  event folded last there is a lawful log on which the hub comes to rest stale, although everything is stored
  (`SkippedStart.SkippingStartGoesStale`). Loops that end only when caught up never leave such a gap
  (`NodeSync.PatientLoopsResume`).
- A page of foreign events never moves the sync cursor: the loop fetches it for ever (`NodeSync.TurnAdvances`).
- Discovery of a known session never un-parks it and never errs; the state hint of a session discovered just
  before can do both, because an await lies in between (`Sessions.FreshDiscoveryIsStrong`).
- A query with a limit below 1 still returns one row (`EventLog.SqliteEventStore.Fetch`).
- A list field with an oversized stepped value, such as `75/5,0` for minutes, parses: that part names nothing
  (`Cron.OversizedStepIsSilent`).
- Four years of search miss the leap day across a century year that has none. Exactly: a search that would find only
  29 February fails from 29 February four years before such a year (when no listed time of that day is left) to 25
  February of that year, for instance from 1 March 1896 (`Cron.NeverFiresExactly`, `Calendar.LeapGap`,
  `Cron.LeapDayBeforeCenturyIsMissed`). From 1901 to 2095 there is no such gap (`Cron.NeverFiresThisCentury`).
- The 60 second cap on the supervisor's backoff is never reached: it gives up first.
- The first replay of a huge transcript starts at a line boundary only if the capped tail holds a line feed.
- Aider's parser documents that drift garbles cosmetics and never crashes the watch
  (`packages/prodeo-adapter-aider/src/prodeo_adapter_aider/parser.py:13-17`). A chat start with an impossible time
  raises. The error leaves the watch before the offset is saved, so the restarted watch reads the same lines again,
  reports again what came before and raises again: nothing from the bad line on is ever reported
  (`HistoryWatch.NothingPastTheBadLine`, `HistoryWatch.EveryAttemptRaises`), nor is the text held back just before
  it (`HistoryParser.FinalFlushTellsAll`).
- A restart of Aider's watch loses text without any error: the offset is saved after the chunk, but the parser may
  still hold a block back. Edits are numbered from one again. All attempts together report the conversation if and
  only if no restart came while text was held back, with the right numbers if and only if in addition no attempt has
  edits of its own after edits of an earlier one (`HistoryRestarts.ReportsAreComplete`).
- A clock set back between two digests makes a later one count events again (`Summary.SetBackCountsTwice`); the
  clock readings for which two digests can count the same event are known exactly (`Summary.CountedTwiceExactly`).

## Model

| member | source | states |
|---|---|---|
| Envelope.IdSource.NewId | src/prodeo/events/envelope.py:14-27 | the new id exceeds the last one and is the fresh ULID unless that is not newer |
| Envelope.NamespacePattern | src/prodeo/bus/interface.py:22-32 | `ns.*` matches exactly the types below the dot |
| Envelope.MatchesExactly | src/prodeo/bus/interface.py:22-32 | a pattern matches everything, its own text, or what continues its namespace behind the dot |
| EventLog.InsertSorted | src/prodeo/persistence/sqlite.py:50-68 | appending keeps the rows sorted by id and adds the event exactly when its id is new |
| EventLog.AnyRecordingOrder | src/prodeo/persistence/sqlite.py:50-68 | recording the events of a log in any order stores that log |
| EventLog.SqliteEventStore.Append | src/prodeo/persistence/sqlite.py:50-68 | in-place insertion is the idempotent insert |
| EventLog.Scan | src/prodeo/persistence/sqlite.py:90-114 | the row loop returns the first matching rows up to the limit, which is compared after adding |
| EventLog.SqliteEventStore.Fetch | src/prodeo/persistence/sqlite.py:70-114 | a query returns the page of the filtered rows, in either order |
| EventLog.QueryExactly | src/prodeo/persistence/sqlite.py:70-114 | a query returns each row of its id window, session, machine and type as often as it is stored, and no other |
| EventLog.PageExactly | src/prodeo/persistence/sqlite.py:90-114 | a page is as long as limit and matches allow, and starts from the end asked for |
| EventLog.SqliteEventStore.Delete | src/prodeo/persistence/sqlite.py:116-128 | chunked deletion removes exactly the given ids and counts the removed rows |
| EventLog.AdvanceAfter | src/prodeo/api/app.py:513-534 | moving the forward cursor onto a result drops exactly the results up to it |
| EventLog.AdvanceBefore | src/prodeo/api/app.py:513-534 | moving the backward cursor onto a result drops exactly the results from it on |
| EventLog.SqliteEventStore.WalkForward | src/prodeo/sessions/registry.py:238-252 | following cursors forward terminates and yields the filtered log, each event once, for any limit |
| EventLog.SqliteEventStore.WalkBackward | src/prodeo/api/app.py:513-534 | following cursors backward yields the filtered log reversed, each event once |
| Sessions.SegmentIsFold | src/prodeo/sessions/registry.py:68-232 | folding the event a segment issues is exactly the segment's change |
| Sessions.SegmentIsLawful | src/prodeo/sessions/registry.py:137-193 | a segment issues only first discoveries and legal moves from the current state |
| Sessions.KnownDiscoveryIsWeak | src/prodeo/sessions/registry.py:75-106 | discovery of a known session never un-parks it, never errs, moves legally or not at all |
| Sessions.FreshDiscoveryIsStrong | src/prodeo/sessions/registry.py:108-135 | when the hint after a first discovery is refused and when it un-parks, exactly |
| Sessions.FreshDiscoveryCanUnpark | src/prodeo/sessions/registry.py:108-135 | an interleaving in which it does un-park |
| Sessions.HistoryIsLegal | src/prodeo/sessions/state.py:24-68 | recorded moves form a contiguous legal path to the current state; ended exactly in end states |
| Sessions.ArchivedIsAbsorbing | src/prodeo/sessions/state.py:62-63 | no recorded move follows one into archived |
| Sessions.LostMiddleBreaksHistory | src/prodeo/persistence/recorder.py:30-36 | a log that lost a middle event need not be a path |
| Sessions.ReplayIsHarmless | src/prodeo/sessions/registry.py:267-293 | folding any log twice in a row is folding it once, from any catalogue |
| Sessions.FoldOfOneNode | src/prodeo/sessions/registry.py:254-293 | what a mixed log holds for one machine is the fold of that machine's events |
| Sessions.InterleavingIsIrrelevant | src/prodeo/sessions/registry.py:238-293 | logs with the same per-machine sequences fold to the same catalogue |
| Sessions.SharedIdentityIsOrderSensitive | src/prodeo/sessions/registry.py:271 | with a shared native identity they need not |
| SessionCommands.EnteredFrom | src/prodeo/sessions/state.py:30-64 | the transition table read by column: from where each state can be entered |
| SessionCommands.ObservationEnds | src/prodeo/sessions/registry.py:137-193 | undisturbed, a legal move is made, marked and announced with its milestone, in that order; the same state is ignored, any other only reported |
| SessionCommands.KnownDiscoveryEnds | src/prodeo/sessions/registry.py:75-106 | undisturbed, discovery of a known session describes it anew and then moves it exactly when it is not parked and the move is legal; exactly the events of both |
| SessionCommands.FirstDiscoveryEnds | src/prodeo/sessions/registry.py:108-135 | a first discovery files the session as found, in the hinted state when that is legal |
| SessionCommands.ModelRefreshEnds | src/prodeo/sessions/registry.py:201-212 | a model is recorded, and announced exactly when it is another one |
| SessionCommands.ModeRefreshEnds | src/prodeo/sessions/registry.py:214-223 | the same for the permission mode |
| SessionCommands.FoldWrites | src/prodeo/sessions/registry.py:267-293 | what each event writes, field by field, and what is ignored |
| Sessions.FoldOfNamespace | src/prodeo/sessions/registry.py:243-245 | the `session.*` query loses nothing the fold would use |
| Sessions.SessionRegistry.UpsertDiscovered | src/prodeo/sessions/registry.py:68-135 | the in-place command is the specified segment: new state, issued event, what remains to do |
| Sessions.SessionRegistry.RefreshFields | src/prodeo/sessions/registry.py:77-91 | compares before writing: it reports a change exactly when the session differs |
| Sessions.SessionRegistry.FollowDiscoveryHint | src/prodeo/sessions/registry.py:92-106 | a parked session or an illegal hint is left alone; any other hint is followed, with its event |
| Sessions.SessionRegistry.ObserveState | src/prodeo/sessions/registry.py:137-193 | legal moves write state and end marker; a refused one only issues `adapter.error`; which of the two errors is raised, exactly |
| Sessions.SessionRegistry.RefreshSessionModel | src/prodeo/sessions/registry.py:201-212 | a changed model is written and announced, an unchanged one is silent |
| Sessions.SessionRegistry.RefreshMode | src/prodeo/sessions/registry.py:214-223 | the same for the permission mode |
| Sessions.SessionRegistry.ApplyEvent | src/prodeo/sessions/registry.py:267-293 | the in-place fold of one event, including events of unknown sessions |
| Sessions.SessionRegistry.ApplyRemote | src/prodeo/sessions/registry.py:254-265 | own events are ignored, everything else is folded |
| Sessions.SessionRegistry.Rebuild | src/prodeo/sessions/registry.py:238-252 | the paged rebuild is one fold over the whole stored log |
| Mediation.SegmentIsFold | src/prodeo/mediation/service.py:88-263 | folding the event a segment issues is exactly its change of the inbox |
| Mediation.SegmentIsLawful | src/prodeo/mediation/service.py:88-188 | a segment issues only new pending requests and resolutions of pending interactions |
| MediationCommands.AnswerIsDelivered | src/prodeo/mediation/service.py:142-182 | an answer is recorded, announced, cleared from the books and handed to the waiting callback |
| MediationCommands.TimeoutDenies | src/prodeo/mediation/service.py:302-325 | a timeout denies a permission to its callback and answers no question |
| MediationCommands.ResolvedStays | src/prodeo/mediation/service.py:142-157 | a second answer or a late timer changes nothing and calls nobody |
| MediationCommands.WithdrawalCancels | src/prodeo/mediation/service.py:184-188 | withdrawing a pending identity cancels it without a call, any other does nothing |
| MediationCommands.OrphanIsCancelled | src/prodeo/mediation/service.py:210-218 | an orphan is cancelled without a call |
| MediationCommands.RequestIsFiled | src/prodeo/mediation/service.py:102-140 | what a new request files, indexes, times and announces |
| MediationCommands.RequestIsRefreshed | src/prodeo/mediation/service.py:95-100 | a pending request only gets the new callback |
| MediationCommands.FoldWrites | src/prodeo/mediation/service.py:239-263 | what requests, timeouts and cancellations write, and what is ignored |
| MediationCommands.FoldAnswers | src/prodeo/mediation/service.py:239-263 | what an answer writes |
| Mediation.ReplayIsHarmless | src/prodeo/mediation/service.py:239-263 | a keyed log folded twice in a row is folded once |
| Mediation.RekeyedIdBreaksReplay | src/prodeo/mediation/service.py:241-255 | a request that changes an id's native identity breaks this |
| Mediation.ResolvedRequestBreaksReplay | src/prodeo/mediation/service.py:241-249 | so does a request stored already resolved |
| Mediation.LawfulIndex | src/prodeo/mediation/service.py:59-84 | the pending index of every lawful log is a bijection with the pending interactions |
| Mediation.PendingCount | src/prodeo/mediation/service.py:66-84 | so `pending_count` equals the length of the filtered list |
| Mediation.ResolvedExactlyOnce | src/prodeo/mediation/service.py:142-181 | an interaction has one terminal event once it is not pending, none before |
| Mediation.KeyedIndexSound | src/prodeo/mediation/service.py:239-263 | in every keyed log the index names interactions under their own identity |
| Mediation.SweepResolves | src/prodeo/mediation/service.py:210-217 | the boot sweep cancels exactly the orphans and drops them from the index |
| Mediation.SweepLeavesNoZombie | src/prodeo/mediation/service.py:210-217 | after a complete sweep nothing is pending |
| Mediation.FoldOfOneNode | src/prodeo/mediation/service.py:226-263 | what a mixed log holds for one machine is the fold of that machine's events |
| Mediation.InterleavingIsIrrelevant | src/prodeo/mediation/service.py:192-263 | logs with the same per-machine sequences fold to the same inbox |
| Mediation.FoldOfNamespace | src/prodeo/mediation/service.py:200-203 | the `interaction.*` query loses nothing the fold would use |
| Mediation.MediationService.OpenInteraction | src/prodeo/mediation/service.py:88-140 | re-opening refreshes the callback only; opening files record, index, callback and timer and issues one event |
| Mediation.MediationService.ResolveBookkeeping | src/prodeo/mediation/service.py:280-286 | exactly the index entry, the timer and the callback go; the callback is returned |
| Mediation.MediationService.AnswerInteraction | src/prodeo/mediation/service.py:142-182 | unknown and resolved interactions are refused unchanged; else one answer, one event, one delivery |
| Mediation.MediationService.CancelByNative | src/prodeo/mediation/service.py:184-188 | a pending identity is cancelled, anything else is a no-op |
| Mediation.MediationService.Cancel | src/prodeo/mediation/service.py:288-300 | status, bookkeeping and event of one cancellation |
| Mediation.MediationService.Timeout | src/prodeo/mediation/service.py:302-325 | a late timer does nothing; a permission auto-denies, a question does not deliver |
| Mediation.MediationService.ApplyEvent | src/prodeo/mediation/service.py:239-263 | the in-place fold of one event leaves callbacks and timers alone |
| Mediation.MediationService.ApplyRemote | src/prodeo/mediation/service.py:226-237 | own events are ignored, everything else is folded |
| Mediation.MediationService.FoldStore | src/prodeo/mediation/service.py:192-209 | the paged rebuild is one fold over the whole stored log |
| Mediation.MediationService.Orphans | src/prodeo/mediation/service.py:210-216 | lists exactly the own machine's pending interactions, each once |
| Mediation.MediationService.SweepOrphans | src/prodeo/mediation/service.py:210-217 | each of them is cancelled, with one event per orphan in order |
| Mediation.MediationService.Rebuild | src/prodeo/mediation/service.py:192-217 | the result is the fold of the stored log, swept of what this machine left pending |
| NodeHost.LiveEqualsReplay | src/prodeo/sessions/registry.py:68-293 | at every await point of every run, recording in any order and rebuilding gives the catalogues in memory |
| NodeHost.HistoriesAreLegal | src/prodeo/sessions/registry.py:137-193 | in every interleaving every session's history is a legal path to its state |
| NodeHost.ResolutionIsExactlyOnce | src/prodeo/mediation/service.py:66-325 | at most one terminal event, at most one delivery over all boots, an honest one in this boot, and an exact pending index |
| Deliveries.EveryAnswerIsDelivered | src/prodeo/mediation/service.py:88-325 | over all interleavings an interaction opened since the boot and answered, or a permission timed out, has exactly one call, made or still to be made, to the callback of its last (re-)opening, with the recorded answer or the denial; any other has none |
| Milestones.MilestonesFollowMoves | src/prodeo/sessions/registry.py:168-193 | over all interleavings there are never more milestones, issued or still to come, than moves that deserve them; without a crash exactly as many |
| NodeHost.StepsInWords | src/prodeo/sessions/registry.py:68-193 | a started command's new state, event and suspended rest all take effect |
| NodeHost.BootLeavesNothingPending | src/prodeo/mediation/service.py:192-224 | when the boot sweep ends nothing is pending |
| ReadModel.AheadIsAbsorbed | src/prodeo/sessions/registry.py:267-293 | folding an event of a log just before the whole log changes nothing |
| ReadModel.SuffixReplay | src/prodeo/machines/sync.py:143-145 | folding a suffix again changes neither sessions nor interactions nor their indexes |
| ReadModel.LawfulIsStable | src/prodeo/mediation/service.py:88-140 | every log one machine writes meets the condition of suffix replay |
| ReadModel.PartOfALogIsSound | src/prodeo/persistence/recorder.py:30-36 | any part of a machine's log, with holes anywhere, folds to a sound index and survives suffix replay |
| ReadModel.InterleavingIsIrrelevant | src/prodeo/machines/sync.py:118-132 | folds of different machines commute |
| ReadModel.SameByMachine | src/prodeo/machines/sync.py:127-132 | logs that fold alike machine by machine, re-folds included, fold alike altogether |
| ReadModel.RestartShowsTheSame | src/prodeo/sessions/registry.py:238-252 | a hub rebuild over the id-merged log shows what the hub held before |
| NodeSync.StoredIsPrefix | src/prodeo/machines/sync.py:104-145 | in every run the hub's rows are a prefix of the machine's own events, however much of the queue is recorded |
| NodeSync.ModelIsFoldOfPrefix | src/prodeo/machines/sync.py:85-132 | loops and the hub may stop at any moment: if each loop starts at or below just after the last event folded, folding on from there to the highest event reached gives the fold of that prefix, and once there that is the read-model |
| NodeSync.PatientLoopsResume | src/prodeo/machines/sync.py:104-117 | loops that end only when caught up always start so |
| NodeSync.CrashesAloneNeverReplay | src/prodeo/machines/sync.py:104-106 | with hub crashes as the only interruption nothing is folded twice between boots |
| SkippedStart.SkippingStartGoesStale | src/prodeo/machines/sync.py:85-117 | for every start above an event folded last, a lawful log and a run with that gap only end at rest and stale |
| SkippedStart.ImpatientRestartGoesStale | src/prodeo/machines/sync.py:85-117 | two events and a page size of two are enough |
| SkippedStart.StartIsSafeExactly | src/prodeo/machines/sync.py:85-117 | allowing starts at `n` when event `u` was folded last leaves every hub at rest with the fold of the log if and only if `n` is not above `u`, or nothing was folded yet |
| LateRows.LateRowIsNeverMirrored | src/prodeo/machines/sync.py:104-145 | an event that the machine stores below the hub's rows and cursor is in no later run stored, queued or on a page |
| LateRows.StillAheadExactly | src/prodeo/machines/sync.py:134-145 | a newly stored event is ahead of a loop exactly when its id is above the cursor |
| LateRows.SomeRowIsMissed | src/prodeo/machines/sync.py:104-145 | a run in which a machine's own event is stored late and passed |
| NodeSync.TurnAdvances | src/prodeo/machines/sync.py:112-132 | a turn advances the cursor if and only if its page holds an own event; otherwise nothing changes |
| NodeSync.OwnLogIsMirroredCompletely | src/prodeo/machines/sync.py:104-141 | on a log of own events every turn advances until the whole log is mirrored |
| NodeSync.HubShowsTheMachine | src/prodeo/machines/sync.py:104-132 | caught up, the hub's sessions and interactions are the machine's own, across both sides' interleavings, for loops that start as above |
| Hub.HubShowsEveryMachine | src/prodeo/machines/sync.py:60-145 | with own commands, any number of mirrors and boots interleaved and loops that start as above, a caught-up hub's one read-model is the fold of everything folded so far, however the logs are merged |
| Hub.RestartShowsTheSame | src/prodeo/sessions/registry.py:238-265 | in the same runs, once all of it is recorded, the model rebuilt from the id-merged store is the one in memory |
| NodeSync.Mirror.MirrorEvent | src/prodeo/machines/sync.py:122-132 | a foreign event is dropped; an own one is folded, published and becomes the cursor |
| NodeSync.Mirror.MirrorBatch | src/prodeo/machines/sync.py:118-132 | a batch folds and publishes exactly its own events, in order, and ends at the last of them |
| NodeSync.Mirror.Unreachable | src/prodeo/machines/sync.py:112-117 | the wait doubles up to the cap |
| Bus.QueueSubscription.Deliver | src/prodeo/bus/inproc.py:38-59 | blocking keeps received plus queued equal to what was accepted; dropping keeps the newest within the bound |
| Bus.QueueSubscription.Displace | src/prodeo/bus/inproc.py:44-59 | at most the oldest item makes room, the queue stays a suffix of what was accepted |
| Bus.QueueSubscription.Take | src/prodeo/bus/inproc.py:64-70 | the reader takes the oldest item and ends at the mark |
| Bus.QueueSubscription.PutMark | src/prodeo/bus/inproc.py:72-77 | the close mark waits for room and drops nothing |
| Bus.MarkIsNeverDropped | src/prodeo/bus/inproc.py:38-77 | in every run of a dropping subscription the close mark, once in, stays last in the queue until it is taken |
| Bus.InProcessEventBus.Subscribe | src/prodeo/bus/inproc.py:94-106 | a closed bus refuses; else an open, empty subscription is attached last |
| Bus.InProcessEventBus.BeginClose | src/prodeo/bus/inproc.py:72-77 | the first close stops deliveries to the subscription and detaches it; a second does nothing |
| Bus.InProcessEventBus.BeginPublish | src/prodeo/bus/inproc.py:87-90 | a closed bus refuses; an open one fixes the subscribers to serve |
| Bus.InProcessEventBus.Publish | src/prodeo/bus/inproc.py:90-92 | exactly the matching subscribers of the snapshot are offered the event, in order, up to the one that blocks |
| Bus.InProcessEventBus.Detach | src/prodeo/bus/inproc.py:108-110 | exactly that subscription goes |
| Bus.StopLosesNothing | src/prodeo/persistence/recorder.py:26-43 | when the loop has ended, every event whose publish returned before `stop` is stored |
| Bus.PublishedIsStored | src/prodeo/persistence/recorder.py:26-43 | an event published to an open, empty recorder is stored when its steps run undisturbed |
| EventStream.CatchUp | src/prodeo/api/app.py:1239-1256 | if nothing due was unrecorded at the subscription, the frames sent are at every moment of every run a prefix of the wanted events above the cursor, each once; with overflow a part of them in order |
| EventStream.DrainedIsComplete | src/prodeo/api/app.py:1239-1256 | under the same condition a client that has drained its queue has been sent everything due |
| EventStream.DueExactly | src/prodeo/api/app.py:1236-1256 | due is each event above the cursor that some pattern matches, as often as it is in the log |
| EventStream.CatchUpStart | src/prodeo/api/app.py:1244-1253 | with a cursor what is newer than it is due, without one what is newer than all there is |
| EventStream.UnrecordedMayBeLost | src/prodeo/api/app.py:1239-1256 | for every due event published but unrecorded at the subscription some run drains the queue and never sends it |
| EventStream.SubscriptionIsCompleteExactly | src/prodeo/api/app.py:1239-1256 | every draining client is sent everything due if and only if nothing unrecorded at the subscription is due |
| EventStream.Pump.SendIfWanted | src/prodeo/api/app.py:1236-1237 | an event is sent once exactly when some pattern matches |
| EventStream.Pump.Replay | src/prodeo/api/app.py:1244-1253 | the undisturbed replay sends everything due, once, and moves the cursor to the newest row |
| EventStream.Pump.Forward | src/prodeo/api/app.py:1254-1256 | a live event is sent exactly when newer than the replay and wanted |
| Retention.MinUlidAt | src/prodeo/persistence/retention.py:67-71 | an id sorts below the cutoff exactly when its millisecond is earlier |
| Retention.AgeDecides | src/prodeo/persistence/retention.py:161-175 | a rule covers an event exactly by its age in milliseconds, its type and its protection |
| Retention.KeptExactly | src/prodeo/persistence/retention.py:161-180 | a rule removes exactly what is older than its cutoff, of its types and unprotected |
| Retention.PassRemovesExactly | src/prodeo/persistence/retention.py:135-180 | a pass removes exactly what some of its rules covers |
| Retention.PassFilesExactly | src/prodeo/persistence/retention.py:135-180 | the first covering rule decides whether an event is archived or not |
| Retention.PassConserves | src/prodeo/persistence/retention.py:135-180 | a pass splits the log into remaining, archived and opted-out events, however rules overlap |
| Retention.PassKeepsNamespace | src/prodeo/persistence/retention.py:53 | no pass removes a row that a rebuild reads |
| Retention.RebuildsSurvive | src/prodeo/persistence/retention.py:135-180 | after any passes under any rules every rebuild query and both folds are unchanged |
| Retention.NothingIsLost | src/prodeo/persistence/retention.py:161-192 | with appends and crashes anywhere, an event gone from the log is archived or opted out, and unprotected |
| Retention.OnlyCoveredGo | src/prodeo/persistence/retention.py:161-180 | in the same runs an event goes only if a rule applied before covers it |
| Retention.ArchiveIsJustified | src/prodeo/persistence/retention.py:176-178 | what is archived was covered by an archiving rule, what is opted out by one that is not |
| Retention.ChosenGoes | src/prodeo/persistence/retention.py:172-180 | a window that is chosen and deleted is gone |
| Retention.RetentionService.GroupByMonth | src/prodeo/persistence/retention.py:185-187 | each month's group holds that month's events in order |
| Retention.RetentionService.ArchiveEvents | src/prodeo/persistence/retention.py:182-192 | every month's file grows by exactly its events |
| Retention.RetentionService.ExpirePage | src/prodeo/persistence/retention.py:174-180 | a page's unprotected events are archived, unless opted out, then deleted, and counted |
| Retention.RetentionService.ApplyRule | src/prodeo/persistence/retention.py:161-180 | the walk ends with exactly the unprotected matches below the cutoff gone |
| Retention.RetentionService.RunOnce | src/prodeo/persistence/retention.py:135-159 | the log, the archive and the two counts after a full pass |
| Calendar.OrdinalOfNext | src/prodeo/scheduler/cron.py:107-110 | stepping one day adds one to the ordinal |
| Calendar.OrdinalIsInjective | src/prodeo/scheduler/cron.py:107-110 | ordinals name dates uniquely |
| Calendar.LeapDaySoon | src/prodeo/scheduler/cron.py:36-38 | outside the gaps around century years without a leap day, one lies within the search horizon |
| Calendar.NoLeapDayInGap | src/prodeo/scheduler/cron.py:36-38 | inside a gap every later leap day lies beyond the horizon |
| Cron.NextFire | src/prodeo/scheduler/cron.py:95-122 | the result is the least matching whole minute after the start within the horizon, or none matches there |
| CronHalves.FiresExactly | src/prodeo/scheduler/cron.py:53-63 | when an expression fires, field by field |
| CronHalves.UnionOfHalves | src/prodeo/scheduler/cron.py:61-62 | with both day fields restricted it fires when either half does |
| CronHalves.IntersectionOfHalves | src/prodeo/scheduler/cron.py:63 | otherwise it fires when both do |
| CronHalves.NextOfHalves | src/prodeo/scheduler/cron.py:95-122 | the next firing is the earlier of the halves' next firings; none exactly when neither has one |
| CronHalves.WeekdayFollows | src/prodeo/scheduler/cron.py:59-60 | weekdays follow each other, Sunday after Saturday |
| CronHalves.KnownWeekdays | src/prodeo/scheduler/cron.py:59-60 | and start from known dates |
| Cron.SearchDay | src/prodeo/scheduler/cron.py:113-121 | the inner loops return the least hour and minute of the day from the candidate on |
| Cron.LaterMeansFromCandidate | src/prodeo/scheduler/cron.py:100-121 | for whole minutes, strictly later means at or after the candidate: the final test never rejects |
| Cron.NextIsUnique | src/prodeo/scheduler/cron.py:95-122 | the next firing is unique |
| Cron.IterationEnumerates | src/prodeo/scheduler/cron.py:95-122 | following next firings enumerates every matching minute once, in order |
| Cron.NeverFiresExactly | src/prodeo/scheduler/cron.py:107-122 | up to 9995 a search fails exactly when the weekday is `*` and either no listed day exists in a listed month, or only 29 February does and the start lies in a gap with no listed time left that day |
| Cron.NeverFiresThisCentury | src/prodeo/scheduler/cron.py:107-122 | from 1901 to 2095 only the first of these can happen |
| Cron.LeapDayBeforeCenturyIsMissed | src/prodeo/scheduler/cron.py:36-38 | 29 February is not found from 1 March 1896 |
| Cron.FarFromOverflow | src/prodeo/scheduler/cron.py:107-110 | up to 2095 the search stays inside the calendar |
| Cron.ParsePart | src/prodeo/scheduler/cron.py:134-157 | a part is the stated progression within bounds, or an error, exactly |
| CronFields.StarMeans | src/prodeo/scheduler/cron.py:134-157 | `*` names every value, `*/n` every n-th from the lowest |
| CronFields.RangeMeans | src/prodeo/scheduler/cron.py:134-157 | a range names both ends and all between, or every n-th of them; reversed or out of bounds it fails |
| CronFields.ValueMeans | src/prodeo/scheduler/cron.py:134-157 | a value names itself, `v/n` every n-th from it up; when it fails |
| CronFields.GarbageFails | src/prodeo/scheduler/cron.py:134-157 | empty parts and tokens that are neither names nor numbers fail |
| Cron.ParseField | src/prodeo/scheduler/cron.py:125-131 | a field is the union of its parts, within bounds; it fails exactly when a part fails or nothing is named |
| CronFields.FieldRoundTrip | src/prodeo/scheduler/cron.py:125-131 | listing the values of a field and parsing the list gives these values |
| CronFields.SundayTwice | src/prodeo/scheduler/cron.py:81-83 | 0 and 7 are Sunday, the other days themselves |
| CronFields.WeekdayNames | src/prodeo/scheduler/cron.py:34 | the names of the weekdays, counted from Sunday, and no others |
| Cron.OversizedStepIsSilent | src/prodeo/scheduler/cron.py:153-157 | an oversized stepped value parses to nothing |
| Cron.ParseCron | src/prodeo/scheduler/cron.py:66-92 | what parses denotes its five fields and meets every assumption of the search; it fails exactly when a field is malformed |
| CronFields.StarsRestrictNothing | src/prodeo/scheduler/cron.py:89-92 | `*` restricts nothing; anything else restricts its day field |
| CronFields.FiveNumbersMean | src/prodeo/scheduler/cron.py:66-92 | which five plain numbers are accepted, and exactly when they fire |
| CronFields.WorkdaysAtNine | src/prodeo/scheduler/cron.py:53-92 | `0 9 * * 1-5` fires at nine from Monday to Friday and at no other time |
| Scheduler.EarlyRecomputeIsStable | src/prodeo/scheduler/service.py:129-135 | recomputing before the pending run finds the same run |
| Scheduler.NextRunNeverDecreases | src/prodeo/scheduler/service.py:155-257 | over any run, with restarts and manual triggers, a next run never decreases |
| Scheduler.NoSlotFiresTwice | src/prodeo/scheduler/service.py:204-225 | the loop consumes no due time twice |
| Scheduler.BacklogCollapses | src/prodeo/scheduler/service.py:204-210 | one visit launches at most once and leaves nothing due at the pass's time |
| Scheduler.DueIsLaunched | src/prodeo/scheduler/service.py:204-225 | a visited schedule that is due is launched for its due time and gets its next run; others are left alone |
| Scheduler.CommandsInWords | src/prodeo/scheduler/service.py:86-151 | what creating, deleting and triggering change, and what they leave |
| Scheduler.PassSeesAll | src/prodeo/scheduler/service.py:206-207 | a pass comes to every listed schedule |
| Scheduler.RestartRecomputes | src/prodeo/scheduler/service.py:155-171 | a restart sets every next run anew |
| Scheduler.SleepMicros | src/prodeo/scheduler/service.py:215-220 | a sleep ends by the earliest due time or the cap, and not earlier than needed |
| Scheduler.FirstRun | src/prodeo/scheduler/service.py:97-100 | the first run is the next firing; none exactly for expressions that never fire from now within the horizon |
| Scheduler.SchedulerService.CreateSchedule | src/prodeo/scheduler/service.py:86-127 | rejects exactly what is malformed or never fires, changing nothing; else adds one schedule of the denoted times with its next firing, announces it and wakes the loop |
| Scheduler.SchedulerService.DeleteSchedule | src/prodeo/scheduler/service.py:137-151 | exactly that schedule goes, is announced and wakes the loop; an unknown one is refused |
| Scheduler.SchedulerService.TriggerNow | src/prodeo/scheduler/service.py:129-135 | fires exactly that schedule and announces the launch or its failure; an unknown one changes nothing |
| Scheduler.SchedulerService.RecomputeRuns | src/prodeo/scheduler/service.py:169-171 | a rebuild sets every next run to the next firing from now |
| Scheduler.SchedulerService.Fire | src/prodeo/scheduler/service.py:222-225 | both times are set before anything is awaited |
| Scheduler.SchedulerService.RunPass | src/prodeo/scheduler/service.py:206-209 | exactly the due schedules fire, and none stays due |
| Tailer.NonBlankAcrossFeed | packages/prodeo-adapter-claude-code/src/prodeo_adapter_claude_code/adapter.py:431-437 | splitting a text at a line feed splits its non-blank lines |
| Tailer.DeliveredConcat | packages/prodeo-adapter-claude-code/src/prodeo_adapter_claude_code/adapter.py:431-437 | cutting at a line boundary cuts the delivered lines |
| Tailer.LinesExactly | packages/prodeo-adapter-claude-code/src/prodeo_adapter_claude_code/adapter.py:431-437 | each line ends at the first of the seven boundaries, a carriage return and line feed being one |
| Tailer.SplitExactly | packages/prodeo-adapter-claude-code/src/prodeo_adapter_claude_code/adapter.py:431-437 | complete lines are those before the last line feed, the rest is kept back |
| Tailer.CycleExactly | packages/prodeo-adapter-claude-code/src/prodeo_adapter_claude_code/adapter.py:349-379 | what a cycle delivers, keeps back and saves |
| Tailer.TruncationStartsOver | packages/prodeo-adapter-claude-code/src/prodeo_adapter_claude_code/adapter.py:349-379 | a file that became shorter is read again from its start |
| Tailer.TailingIsChunkIndependent | packages/prodeo-adapter-claude-code/src/prodeo_adapter_claude_code/adapter.py:336-390 | however the file grows and the watch restarts, the non-blank lines fed are those of the terminated part read; the saved offset is a line boundary |
| Tailer.StreamingEqualsBatch | packages/prodeo-adapter-claude-code/src/prodeo_adapter_claude_code/adapter.py:336-390 | caught up, streaming fed what one read of the file would have fed |
| Tailer.EmptyLinesDependOnChunks | packages/prodeo-adapter-claude-code/src/prodeo_adapter_claude_code/adapter.py:431-437 | empty lines are not chunk-independent |
| Tailer.InitialOffsetIsBoundary | packages/prodeo-adapter-claude-code/src/prodeo_adapter_claude_code/adapter.py:392-404 | the capped replay starts at a line boundary exactly when the tail holds a line feed |
| Tailer.InitialOffsetExactly | packages/prodeo-adapter-claude-code/src/prodeo_adapter_claude_code/adapter.py:392-404 | a long file starts behind the first line feed of its capped tail |
| Tailer.TranscriptWatch.PollFile | packages/prodeo-adapter-claude-code/src/prodeo_adapter_claude_code/adapter.py:349-379 | one cycle in place: truncation, reading, splitting, saved offset, and when activity is reported |
| Supervisor.GivesUpExactly | src/prodeo/apps/supervisor.py:352-369 | gives up exactly when still wanted and the last five runs were short; never a sixth |
| Supervisor.RoundInWords | src/prodeo/apps/supervisor.py:327-377 | what each round announces and leaves to be read, with whether it restarts, and when the supervision goes on |
| Supervisor.HealthyWithinFive | src/prodeo/apps/supervisor.py:352-353 | while it goes on, every five launches hold a healthy run |
| Supervisor.SleepIsShort | src/prodeo/apps/supervisor.py:370-377 | every sleep is 1, 2, 4, 8 or 16 seconds, and 16 only after a healthy run |
| Supervisor.NeverUpIsDroppedQuickly | src/prodeo/apps/supervisor.py:44-56 | an app that never stays up costs at most five launches, ten events and 15 seconds of sleep |
| Supervisor.BackoffIsSleep | src/prodeo/apps/supervisor.py:374-377 | doubling, resetting and capping compute the power of two fixed by the history |
| Supervisor.AppSupervisor.Supervise | src/prodeo/apps/supervisor.py:320-377 | which rounds are used, every sleep and event, the restart count and the state left behind |
| Supervisor.AppSupervisor.PlayRound | src/prodeo/apps/supervisor.py:327-377 | one pass of the loop: launch, exit, judgement, sleep |
| HistoryParser.FeedConserves | packages/prodeo-adapter-aider/src/prodeo_adapter_aider/parser.py:70-99 | one line loses, invents and reorders nothing, unless it is a chat start with an impossible time |
| HistoryParser.FlushSays | packages/prodeo-adapter-aider/src/prodeo_adapter_aider/parser.py:101-103 | a flush emits exactly what was pending, in reading order |
| HistoryParser.HeldIsPending | packages/prodeo-adapter-aider/src/prodeo_adapter_aider/parser.py:70-103 | the buffers hold exactly the block of prompt or answer lines since the last flush or change of speaker |
| HistoryParser.FinalFlushTellsAll | packages/prodeo-adapter-aider/src/prodeo_adapter_aider/parser.py:70-159 | all visible text with its speaker, all edits and turn ends are emitted once and in order, if and only if at the first impossible chat start nothing is held back and only silence follows |
| HistoryParser.QuietMomentsDoNotMatter | packages/prodeo-adapter-aider/src/prodeo_adapter_aider/parser.py:101-103 | in runs without an impossible time it does not matter where idle flushes fell |
| HistoryParser.ImpossibleTimeLosesThePrompt | packages/prodeo-adapter-aider/src/prodeo_adapter_aider/parser.py:73-77 | the prompt before an impossible chat start is never reported |
| HistoryWatch.NothingPastTheBadLine | packages/prodeo-adapter-aider/src/prodeo_adapter_aider/adapter.py:126-152 | however the file grows and the watch restarts, each attempt reports only from before the first bad line, and the offset never passes it |
| HistoryWatch.EveryAttemptRaises | src/prodeo/adapters/manager.py:387-403 | an attempt fed the bad line raises, keeps the offset and has reported everything from there to the bad line again, but for what was held back |
| HistoryWatch.SettledTellsAll | packages/prodeo-adapter-aider/src/prodeo_adapter_aider/adapter.py:153-158 | once the file is quiet an attempt has reported all it was fed |
| HistoryRestarts.ReportsAreComplete | packages/prodeo-adapter-aider/src/prodeo_adapter_aider/adapter.py:105-162 | without a bad line, all attempts together report the conversation if and only if nothing was held at a restart; the edit numbers are right if and only if, too, no attempt has edits after those of an earlier one |
| HistoryParser.RunAnnounces | packages/prodeo-adapter-aider/src/prodeo_adapter_aider/parser.py:137-159 | every prompt opens exactly one turn, every output is stripped and not empty |
| HistoryParser.RunTitles | packages/prodeo-adapter-aider/src/prodeo_adapter_aider/parser.py:137-150 | the title is the first prompt reported, squeezed and clipped, in every run without an impossible time |
| HistoryParser.ClassifiedIsTidy | packages/prodeo-adapter-aider/src/prodeo_adapter_aider/parser.py:89-91 | remarks are stripped and not empty |
| HistoryLines.PromptLine | packages/prodeo-adapter-aider/src/prodeo_adapter_aider/parser.py:79-84 | prompt lines and prompt breaks |
| HistoryLines.InfoLine | packages/prodeo-adapter-aider/src/prodeo_adapter_aider/parser.py:86-91 | info lines are their stripped text |
| HistoryLines.AnswerLine | packages/prodeo-adapter-aider/src/prodeo_adapter_aider/parser.py:93-99 | anything else is the answer, unchanged |
| HistoryLines.ChatStartLine | packages/prodeo-adapter-aider/src/prodeo_adapter_aider/parser.py:73-77 | a printed chat start is read back, possible or not |
| HistoryLines.TimesExactly | packages/prodeo-adapter-aider/src/prodeo_adapter_aider/parser.py:162-165 | which times are possible |
| HistoryLines.LabelledWord | packages/prodeo-adapter-aider/src/prodeo_adapter_aider/parser.py:107-119 | version and model are the word behind their label |
| HistoryLines.LabelledEdit | packages/prodeo-adapter-aider/src/prodeo_adapter_aider/parser.py:120-134 | edits name their file, the accounting line ends the turn |
| HistoryLines.OtherIsRemark | packages/prodeo-adapter-aider/src/prodeo_adapter_aider/parser.py:135 | other info text is a remark |
| HistoryLines.FactsInWords | packages/prodeo-adapter-aider/src/prodeo_adapter_aider/parser.py:107-135 | what each fact makes the parser report |
| HistoryLines.InkExactly | packages/prodeo-adapter-aider/src/prodeo_adapter_aider/parser.py:137-159 | ink is the text without its whitespace, in order |
| HistoryLines.StripExactly | packages/prodeo-adapter-aider/src/prodeo_adapter_aider/parser.py:137-159 | stripping takes whitespace off both ends and nothing else |
| HistoryLines.ClipExactly | packages/prodeo-adapter-aider/src/prodeo_adapter_aider/parser.py:144-146 | titles have at most 80 characters, cut and marked |
| HistoryLines.SqueezeKeepsInk | packages/prodeo-adapter-aider/src/prodeo_adapter_aider/parser.py:144-146 | squeezing a title keeps its visible characters |
| HistoryLines.SqueezeIsSingle | packages/prodeo-adapter-aider/src/prodeo_adapter_aider/parser.py:144-146 | and leaves single spaces between words only |
| HistoryLines.RunRemembers | packages/prodeo-adapter-aider/src/prodeo_adapter_aider/parser.py:70-135 | the parser knows the last model, version and chat start it was told |
| HistoryLines.DirtyExactly | packages/prodeo-adapter-aider/src/prodeo_adapter_aider/parser.py:64-67 | the dirty flag is set exactly by what changes the facts, and by chat starts |
| HistoryParser.ChatHistory.FeedLine | packages/prodeo-adapter-aider/src/prodeo_adapter_aider/parser.py:70-99 | the in-place parser is the specified step on the classified line |
| HistoryParser.ChatHistory.FlushBuffers | packages/prodeo-adapter-aider/src/prodeo_adapter_aider/parser.py:101-103 | prompt first, then answer; both buffers empty |
| HistoryParser.ChatHistory.ParseInfo | packages/prodeo-adapter-aider/src/prodeo_adapter_aider/parser.py:107-135 | facts update the metadata, number edits, close turns or pass as remarks |
| Summary.NeverTwice | src/prodeo/summary/service.py:125-134 | with a clock that does not run backward no event is in two digests |
| Summary.SetBackCountsTwice | src/prodeo/summary/service.py:127-131 | with a clock set back one is |
| Summary.CountedTwiceExactly | src/prodeo/summary/service.py:125-134 | two digests can count the same event exactly when their windows, in whole milliseconds, overlap |
| Summary.TallyExactly | src/prodeo/summary/service.py:196-214 | each counter is the number of events of its type |
| Summary.DigestedExactly | src/prodeo/summary/service.py:175-187 | which ids a digest holds |
| Summary.StartExactly | src/prodeo/summary/service.py:127-131 | a digest starts one period back or at the previous run, whichever is later |
| Summary.DigestsTile | src/prodeo/summary/service.py:125-187 | digests at most one period apart tile the log, but for ids exactly on a boundary |
| Summary.SummaryService.RunOnce | src/prodeo/summary/service.py:125-134 | the window of a run and its statistics |
| Summary.SummaryService.Fold | src/prodeo/summary/service.py:161-187 | the paged fold tallies exactly the window's events |

## Left out

- HTTP routing, authentication, TLS, pairing, installers, subprocess and file calls, SQLite's own guarantees: library behaviour or I/O.
- Timestamps, `touch` and the exact last activity: deliberately approximate after a rebuild.
- Session metadata values, interaction options and questions: carried as plain strings or not at all, since no branch reads them.
- The machine and schedule catalogues' own folds: `Retention.RebuildsSurvive` shows that their rebuild queries return the same rows.
- `_reconcile`'s task dictionary, the adding or removal of a machine while the hub runs, and retention on the hub or the machine during mirroring.
- NodeSync.StoredIsPrefix: does not cover a recorder that fails to append, which leaves a hole in the mirrored prefix.
- NodeHost.LiveEqualsReplay: takes the adapters' callbacks as opaque and their failures as logged, as the service does.
- HistoryWatch.NothingPastTheBadLine: works on whole lines and one file; a file that shrinks is not modelled.
- EventStream.CatchUp: an event whose id is not newer than the replayed rows, such as a mirrored older one, is skipped; publish order is assumed to be id order.
- Retention.RetentionService.RunOnce: covers the rules; the archiving of long-ended sessions and the completion event with its counts are omitted.
- Retention.NothingIsLost: an event archived before a crash and again after it is in the archive twice; session auto-archiving is not modelled.
- Summary.DigestsTile: speaks of one fixed log; an event recorded after the digest of its window was built is in none.
- Summary.SummaryService.RunOnce: states the window and its statistics; the digest's text, the prose written by a model and the published event are omitted.
- Summary.SummaryService.Fold: tallies by type; titles and the counters read from payloads are omitted.
- Cron.ParseCron: takes lower-cased, whitespace-separated fields and a lexer for integers; the `@` aliases are one table lookup before it.
- Cron.NextFire: works in a zone with a fixed offset, and reports the end of the calendar as its own outcome.
- Scheduler.SchedulerService.TriggerNow: the launch's outcome is a parameter.
- Scheduler.NoSlotFiresTwice: a deleted schedule may still fire once from the pass's snapshot, as in the source; create and delete events are taken as recorded.
- Tailer.TailingIsChunkIndependent: lines end at the one-byte boundaries of `splitlines`; decoding and the boundaries U+0085, U+2028 and U+2029 are omitted. A restart before anything was read counts from the same start, whereas the source recomputes it.
- Supervisor.AppSupervisor.Supervise: start, stop and termination commands appear as the `wanted` flags of a round; serialised commands are assumed. Process ids and payload texts are omitted.
- HistoryParser.ChatHistory.FeedLine: digits in a chat start are ASCII.
- Overflow of the 128-bit id space, Python integer lexing, JSON and text decoding.
