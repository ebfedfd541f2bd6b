# The daemon's stateful protocols, modelled and proved

A local agent daemon keeps its conversations, its provider traffic, its file
checkpoints and its decisions in a handful of stateful protocols. This project
models them in Dafny and proves what they promise, over whole runs with crashes
and failures wherever the code can meet one.

| area | files |
|---|---|
| provider request governor: ticket queues, pacing, cooldowns, wake-ups | `governor_state`, `governor` (the object), `governor_protocol`, `governor_theorems`, `governor_rate`, `governor_cooldowns` |
| event log and side-effect ledger | `event_log_state`, `event_log` (the object), `event_log_theorems`, `event_log_replay`, `event_log_rows` |
| interaction outbox | `outbox_protocol`, `outbox_theorems`, `outbox_wakes`, `interaction_store` (the object) |
| checkpoint and rewind | `checkpoint_state`, `checkpoint_budget`, `checkpoint_undo`, `checkpoint_redaction`, `checkpoint_restore`, `text_encoding`, `checkpoint` (the object) |
| conversation projector | `projector_state`, `projector_groups`, `projector_safety`, `projector_incremental`, `projector_recovery`, `projector_content`, `projector_turns`, `projector` (the object) |
| conversation store | `conversation_blocks`, `conversation_transcript`, `conversation_round_trip`, `conversation_writers`, `conversation_formats`, `conversation_fork`, `conversation_paging`, `queued_inputs` |
| MCP runtime kernels | `uri_templates`, `mcp_session`, `mcp_resources` |
| shared | `wrappers`, `texts`, `text_order`, `arithmetic`, `sequences` |

Each imperative component is a class (or a method with its loop) proved against
specification functions; the theorems are lemmas about those functions, or
about a step relation whose steps are cut where another task can run or the
process can die. A table is a map or a sequence, a transaction a shadow copy
that a commit installs, a statement that may fail a boolean asked for it, a
fresh uuid a number never drawn before, a clock a growing number. Time in the
governor is in nanoseconds.

Where the code and its comments disagree, the code is modelled and the exact
condition is proved:

- The interval is the whole number of milliseconds in a minute divided by the
  limit, so the limit is kept in every window exactly when it divides 60000
  (`LimitIsHonoured`).
- Recovery delivers each outbox row once, but an attempt that appended its event
  and was cut off before the mark adds one more event (`EventsAreBounded`,
  `ACrashRepeatsTheEvent`). The number recovery returns counts rows past their
  append, marked or not.
- A file without stored text is reported as restored and not written
  (`ReportedWithoutAWrite`), and a redacted file the run added is previewed as
  not restorable and removed (`RemovedThoughNotRestorable`).
- After-images of files that have a before-hash are not charged to the byte
  quota (`RewritesAreNotCharged`); the quota bounds the rest (`BudgetHolds`).
- A before-capture that was planned before another one committed replaces its
  before-image (`FirstImageIsKeptIff`), and an after-capture planned before the
  file was redacted takes the redaction off (`RedactionStaysIff`).
- A stop reason of the provider's own does not survive an append and a load
  (`AppendLoads`), so the two writers of a turn agree only on the standard five
  (`WritersAgree`).
- A fork inserts its messages by time and id while the parent is a foreign key,
  so a message that comes before its parent makes the whole fork fail
  (`ForwardParentIsRefused`), exactly then or when a new id is taken
  (`ForkIsACopy`).
- Every page of messages that has another after it drops its newest row
  (`MessagePagesDropTheNewest`); the list of conversations drops nothing
  (`PagesVisitAll`).
- The template matcher cuts a value where the literal behind it first occurs, so
  it can refuse a true expansion (`ExampleIsRefused`). Which URIs it accepts is
  stated exactly (`MatchesIffLeftmost`), and so is which templates accept all
  their expansions (`AcceptsAllIff`): a slash anywhere in a literal is enough,
  and a variable between two dots is safe because the matcher refuses `..`.
- Outcomes of MCP calls are recorded in the ledger ahead of their events, so an
  intent may be settled without a fact (`McpSettlesEarly`), exactly then
  (`SettledWithoutFactIffEarly`).
- A state recorded for a call whose row is cancelled or uncertain takes a second
  row, although the call's idempotency key is the same
  (`OneRowUnlessDuplicated`, `UncertainCanBeDoubled`).
- Starting a queued prompt as a run marks its row sent in one statement and
  deletes it in the next, so a crash leaves a sent row without a message
  (`ACrashLeavesSent`), exactly then (`SentIsStoredUnlessAhead`).
- An intent recorded as started after its fact is in the log stays started
  (`StartedAfterFactIffReopened`).

A log is *typed* when all content lies inside a turn, a turn starts once and
ends with its completion, and a completed turn names every message it commits;
it is *ordered* when sequences start at 1 and grow. Groups without ids draw new
uuids at each projection, so repeatability is stated for typed logs.

## Model

| member | source | states |
|---|---|---|
| ProviderGovernor.ProviderRequestGovernor.TakeTicket | src-agent-daemon/src/governor.rs:91-102 | a new ticket is one more than any before and goes to the end of its route's queue, nothing else changes |
| ProviderGovernor.ProviderRequestGovernor.TryAcquire | src-agent-daemon/src/governor.rs:104-133 | one locked pass grants, sleeps until the first admissible instant, or waits to be notified, and changes the route accordingly |
| ProviderGovernor.ProviderRequestGovernor.RemoveTicket | src-agent-daemon/src/governor.rs:200-214 | the loop removes exactly that ticket and keeps the order of the others |
| ProviderGovernor.ProviderRequestGovernor.Cancel | src-agent-daemon/src/governor.rs:139-146 | a cancelled waiter's ticket leaves its queue and nothing else changes |
| ProviderGovernor.ProviderRequestGovernor.RecordRateLimit | src-agent-daemon/src/governor.rs:150-172 | the route cools until the later of its cooldown and the new one and nothing else changes; over runs that is the latest of all (`CooldownIsLatest`) |
| GovernorTheorems.SettingsReachEveryWaiter | src-agent-daemon/src/governor.rs:193-198 | after an update of the settings, whatever follows, nobody sleeps on a decision of the old ones: with pacing off nobody sleeps, with it on a timer is the first instant the new interval admits |
| ProviderGovernor.ProviderRequestGovernor.Snapshot | src-agent-daemon/src/governor.rs:174-191 | the loop counts every queued ticket and every route still cooling |
| GovernorProtocol.StepKeeps | src-agent-daemon/src/governor.rs:81-214 | every step of every task, cut at the lock boundaries, keeps the whole invariant |
| GovernorTheorems.NoLostWakeup | src-agent-daemon/src/governor.rs:104-147 | in every interleaving a parked waiter with no pending notification parks for a reason that still holds: without a timer it is not at the head, with one the timer is exact |
| GovernorTheorems.FrontCanProceed | src-agent-daemon/src/governor.rs:104-147 | the front ticket of every queue can always go on: no route gets stuck |
| GovernorTheorems.AnnouncementsRun | src-agent-daemon/src/governor.rs:134-137 | a pending announcement is a step that some task can take |
| GovernorTheorems.GrantsArePaced | src-agent-daemon/src/governor.rs:116-129 | paced grants of a route are an interval apart, never inside an earlier cooldown, and in ticket order |
| GovernorTheorems.TicketsAreConserved | src-agent-daemon/src/governor.rs:91-148 | drawn tickets are granted, cancelled or still held: none is lost or settled twice |
| GovernorTheorems.HeldTicketsAreQueued | src-agent-daemon/src/governor.rs:200-214 | a held ticket is in exactly one queue, and queues are strictly increasing |
| GovernorTheorems.SnapshotCountsUnsettled | src-agent-daemon/src/governor.rs:174-191 | the reported number of queued requests is drawn minus settled |
| GovernorTheorems.StepKeepsDue | src-agent-daemon/src/governor.rs:104-148 | no step of any task makes a queued ticket due later: the route's ready instant plus an interval for each ticket ahead never grows while it stays queued |
| GovernorTheorems.WaitIsBounded | src-agent-daemon/src/governor.rs:104-133 | in every run with fixed enabled settings and no new cooldown whose heads retry on time, a ticket with k ahead is gone or granted within k intervals of the instant the front can go, whoever joins, cancels or wakes |
| GovernorCooldowns.CooldownIsLatest | src-agent-daemon/src/governor.rs:150-172 | over any run a route cools until the latest of the instants its rate limits named, and not at all without one |
| GovernorCooldowns.RateLimitIsLogged | src-agent-daemon/src/governor.rs:160-163 | the instant named is the requested wait from now, or 60 to 62 seconds if none was |
| GovernorCooldowns.CoolingIff | src-agent-daemon/src/governor.rs:185-189 | a route is reported as cooling exactly while the end of some cooldown of it lies ahead |
| GovernorCooldowns.GrantedIff | src-agent-daemon/src/governor.rs:104-133 | in any state of any run the front ticket is granted if and only if an interval has gone by since every paced grant of its route and every cooldown of it is over; otherwise it sleeps until the first instant when that holds; others wait to be notified; with pacing off everybody is granted |
| GovernorCooldowns.TicketsWrap | src-agent-daemon/src/governor.rs:91-102 | the counter wraps behind 64 bits and the new ticket stands at the end of the queue |
| GovernorRate.WindowIsBounded | src-agent-daemon/src/governor.rs:25-34 | with fixed settings any half-open minute holds at most ceil(60000/interval) grants of a route, in every run |
| GovernorRate.CapacityBound | src-agent-daemon/src/governor.rs:25-34 | that capacity is at most r + r(r-1)/(60001-r) + 1 |
| GovernorRate.CapacityIsLimit | src-agent-daemon/src/governor.rs:32-34 | the capacity is the configured limit exactly when the limit divides 60000 |
| GovernorRate.LimitIsHonoured | src-agent-daemon/src/governor.rs:32-34 | no run exceeds the configured requests per minute if and only if the limit divides 60000 |
| EventLogs.EventLog.AppendEventV2 | src-agent-daemon/src/event_log.rs:108-196 | look up the id, insert, and settle a completed tool's intent in the same transaction; a failure anywhere leaves both tables as they were |
| EventLogs.EventLog.SettleToolEffect | src-agent-daemon/src/side_effect_ledger.rs:412-435 | exactly the started rows of the call are settled |
| EventLogs.EventLog.AppendUntyped | src-agent-daemon/src/event_log.rs:46-75 | the run's next sequence is taken |
| EventLogs.EventLog.RecordToolEffectState | src-agent-daemon/src/side_effect_ledger.rs:227-320 | the call's rows that may still move are updated, or a new one takes the next place |
| EventLogs.EventLog.ReplayAfterV2 | src-agent-daemon/src/event_log.rs:411-469 | the row loop yields the run's later events in sequence order |
| EventLogs.EventLog.ReplayGlobalAfter | src-agent-daemon/src/event_log.rs:472-517 | the loop yields one clamped page of the global log |
| EventLogTheorems.RunKeepsRows | src-agent-daemon/src/event_log.rs:292-317 | ids ascend, event ids and per-run sequences stay unique, and no row is ever changed |
| EventLogTheorems.ReappendReturnsTheOriginal | src-agent-daemon/src/event_log.rs:108-140 | however much later, appending an id again returns the original global sequence and adds nothing |
| EventLogTheorems.RetryWorksOnlyWithAnId | src-agent-daemon/src/event_log.rs:108-140 | a retried append returns its sequence exactly when the event carries an id |
| EventLogTheorems.FactAndSettlementAreOne | src-agent-daemon/src/event_log.rs:141-196 | the completed fact and the settlement happen together or not at all, and no other ledger row moves |
| EventLogTheorems.SettledWithoutFactIffEarly | src-agent-daemon/src/side_effect_ledger.rs:227-320 | a completed or failed intent without its fact in the log appears exactly when an outcome is recorded directly ahead of the fact |
| EventLogTheorems.SettledOnlyWithFact | src-agent-daemon/src/side_effect_ledger.rs:412-435 | over any run every settled intent has its fact in every state if and only if no outcome is recorded ahead of its fact |
| EventLogTheorems.McpSettlesEarly | src-agent-daemon/src/production_tools.rs:2585-2678 | an MCP call recorded as started and then as completed before its event is settled without a fact |
| EventLogTheorems.StartedAfterFactIffReopened | src-agent-daemon/src/side_effect_ledger.rs:227-320 | a fact leaves no intent started, unless the intent is recorded as started again, and exactly then |
| EventLogTheorems.FactNeverLeavesStarted | src-agent-daemon/src/event_log.rs:141-196 | over any run no state has an intent left started behind its fact if and only if none is recorded as started after its fact |
| EventLogTheorems.UncertainIsFinal | src-agent-daemon/src/side_effect_ledger.rs:227-320 | the row of an uncertain effect is never moved again |
| EventLogTheorems.OneRowUnlessDuplicated | src-agent-daemon/src/side_effect_ledger.rs:227-320 | a call keeps at most one row exactly until another state is recorded for it while its row is cancelled or uncertain |
| EventLogTheorems.UncertainCanBeDoubled | src-agent-daemon/src/side_effect_ledger.rs:398-407 | an uncertain call recorded as completed gets a second, completed row |
| EventLogTheorems.LedgerSequencesAdvance | src-agent-daemon/src/side_effect_ledger.rs:227-320 | recorded effects take increasing places in their run's ledger |
| EventLogRows.AppendIs | src-agent-daemon/src/event_log.rs:108-196 | an append with any failing statement: a known id answers its sequence, a taken id or place or a failure changes nothing, and any other event is stored with its own id or the uuid, its run, its payload and its run sequence or else its sequence, answers the global sequence of that row, and settles the started intents of its call, replay-safe exactly for the three tools that write files |
| EventLogRows.AppendedIsReplayed | src-agent-daemon/src/event_log.rs:292-317 | whatever is done to the log later, a replay of the run returns that very row |
| EventLogRows.UntypedAppendIs | src-agent-daemon/src/event_log.rs:46-75 | an untyped append stores its kind without an id at one past the run's highest sequence and answers that |
| EventLogRows.RecordIs | src-agent-daemon/src/side_effect_ledger.rs:227-320 | recording a state moves every row of the call that is not cancelled or uncertain, or any if the state is uncertain, and keeps its place; without one it takes the place after the run's highest |
| EventLogRows.CategoriesAre | src-agent-daemon/src/side_effect_ledger.rs:372-380 | which tools' effects count as files, processes, network and MCP |
| EventLogReplay.ReplayIsExact | src-agent-daemon/src/event_log.rs:321-390 | a replay is the run's later events, each once, in order |
| EventLogReplay.PollDeliversEverything | src-agent-daemon/src/event_log.rs:411-469 | polling from the last seen sequence yields exactly the replay from the start |
| EventLogReplay.AppendIsMissedIffLate | src-agent-daemon/src/event_log.rs:411-469 | an append is missed by a following client exactly when its sequence is not past the cursor |
| EventLogReplay.FollowingMissesNothing | src-agent-daemon/src/event_log.rs:321-390 | over any interleaving of in-order appends, polls and reconnects each event comes once, in order |
| EventLogReplay.PagesConcatenate | src-agent-daemon/src/event_log.rs:472-517 | pages of the global replay concatenate to the log |
| EventLogRows.PageIs | src-agent-daemon/src/event_log.rs:472-517 | a page starts right behind the cursor and has as many rows as were asked for, between 1 and 500, or all that are left |
| OutboxProtocol.StepExtends | src-agent-daemon/src/interaction_store.rs:202-433 | no step changes a settled interaction, a committed decision or a durable event |
| OutboxProtocol.StepKeeps | src-agent-daemon/src/interaction_store.rs:202-470 | every step of concurrent responders, recovery and crashes keeps the whole invariant |
| OutboxTheorems.RunExtends | src-agent-daemon/src/interaction_store.rs:202-470 | over whole runs decisions are final, rows persist, delivery is never undone and events are only added |
| OutboxTheorems.AtMostOneDecision | src-agent-daemon/src/interaction_store.rs:291-316 | however responders race, an interaction gets at most one outbox row and keeps that decision for ever |
| OutboxTheorems.EventsAreBounded | src-agent-daemon/src/interaction_store.rs:345-433 | all events of a decision carry the same response, and their number is exactly the attempts cut off between append and mark, plus one for the marked or current one |
| OutboxTheorems.EventComesFirst | src-agent-daemon/src/interaction_store.rs:353-370 | nobody is woken and no row marked delivered before the event is durable |
| OutboxTheorems.RecoveryDeliversAll | src-agent-daemon/src/interaction_store.rs:438-470 | a fault-free recovery leaves no undelivered row when the socket opens |
| OutboxTheorems.RecoveryTakesFreeRows | src-agent-daemon/src/interaction_store.rs:438-470 | recovery never takes a row already being delivered, or one twice |
| OutboxTheorems.ACrashRepeatsTheEvent | src-agent-daemon/src/interaction_store.rs:435-470 | a crash between append and mark always makes one more event: the bound is reached |
| OutboxWakes.DecisionIsStored | src-agent-daemon/src/interaction_store.rs:202-316 | from the request to the outbox: run, kind and response of a decision are those of its interaction and its responder |
| OutboxWakes.SettlingIs | src-agent-daemon/src/interaction_store.rs:103-136 | settling without a row touches a pending interaction's status and response and nothing else |
| OutboxWakes.DeliveryTells | src-agent-daemon/src/interaction_store.rs:345-433 | a delivery past its append wakes exactly its row when the kind is a tool permission or a subagent assignment and nobody otherwise, its event carries the row's decision, and it is marked if the mark goes well |
| OutboxWakes.DeliveredIsWoken | src-agent-daemon/src/interaction_store.rs:366-433 | over any run with crashes and recoveries a delivered decision of these two kinds has woken its waiter, and a decision of any other kind wakes nobody |
| OutboxWakes.DeliveredIsTold | src-agent-daemon/src/interaction_store.rs:353-370 | over any run a delivered decision of a run has its event with its own interaction and response, one without a run has none |
| InteractionStores.InteractionStore.InsertPendingRow | src-agent-daemon/src/interaction_store.rs:71-98 | a duplicate emit changes nothing, a blank kind becomes unknown |
| InteractionStores.InteractionStore.MarkResolvedRow | src-agent-daemon/src/interaction_store.rs:103-136 | only a pending row is resolved; success means resolved now, by whomever |
| InteractionStores.InteractionStore.Respond | src-agent-daemon/src/interaction_store.rs:202-339 | the same answer again is accepted and changes nothing, another is refused, a decision stands even when its delivery fails |
| InteractionStores.InteractionStore.DeliverOutbox | src-agent-daemon/src/interaction_store.rs:345-433 | append, then wake, then mark; a failed append wakes nobody, a failed mark is ignored |
| InteractionStores.DeliveryIsARun | src-agent-daemon/src/interaction_store.rs:345-433 | that delivery is a run of the protocol |
| InteractionStores.InteractionStore.UndeliveredOutboxRows | src-agent-daemon/src/interaction_store.rs:473-507 | exactly the undelivered rows, each once |
| InteractionStores.InteractionStore.RecoverInteractionOutbox | src-agent-daemon/src/interaction_store.rs:438-470 | the loop is a run of the protocol; a row is marked exactly when its append and mark went well; the count is of rows past their append |
| Checkpoints.StreamReadCapped | src-agent-daemon/src/checkpoint.rs:980-1013 | however reads split the file the whole content is hashed, over_cap means longer than the cap, and content is kept whole or not at all |
| CheckpointUndo.NothingToUndoAtBegin | src-agent-daemon/src/checkpoint.rs:156-193 | a run starts with nothing captured: its checkpoint lists no file exactly until a capture succeeds, and until then a rewind changes and reports nothing |
| Checkpoints.CheckpointManager.CaptureBeforeImage | src-agent-daemon/src/checkpoint.rs:338-430 | the first touch records the file under its caps, later ones change nothing, an escape or a failed read is an error and changes nothing |
| Checkpoints.CheckpointManager.CaptureAfterImage | src-agent-daemon/src/checkpoint.rs:433-535 | the hash after the write is recorded, redaction included |
| CheckpointBudget.BudgetHolds | src-agent-daemon/src/checkpoint.rs:373-535 | in any order of commits, also with stale plans, before-images plus after-images without a before-hash stay within captured_bytes, that within 8 MiB, and each image within 256 KiB |
| CheckpointBudget.RewritesAreNotCharged | src-agent-daemon/src/checkpoint.rs:526-529 | after-images of files with a before-hash are outside the quota |
| CheckpointBudget.FirstImageIsKeptIff | src-agent-daemon/src/checkpoint.rs:373-430 | when captures of one path interleave, the first before-image is kept exactly when the last before-capture to commit saw the same content |
| CheckpointBudget.RedactionStaysIff | src-agent-daemon/src/checkpoint.rs:444-535 | in any order of commits, stale plans included, a redacted file stays redacted exactly when every commit on its path redacts it again |
| CheckpointBudget.AStalePlanUncovers | src-agent-daemon/src/checkpoint.rs:373-535 | of two calls on one path, the after-capture of one, planned before the late before-capture of the other found the file too large, takes its redaction off |
| CheckpointRedaction.FirstCaptureRecords | src-agent-daemon/src/checkpoint.rs:338-430 | a first capture redacts if and only if the path is sensitive, 512 files are captured, the file is over 256 KiB or takes the run over 8 MiB; what it then stores, hashes and charges is given entirely |
| CheckpointRedaction.LaterCaptureIsIdle | src-agent-daemon/src/checkpoint.rs:345-348 | a path that is captured is not captured again |
| CheckpointRedaction.AfterCaptureRecords | src-agent-daemon/src/checkpoint.rs:433-535 | the same for an after-capture: the before-image stays and redaction only comes on |
| CheckpointRedaction.AfterCaptureAlone | src-agent-daemon/src/checkpoint.rs:506-535 | an after-capture of a path never captured takes what it finds for a file the run added |
| TextEncoding.IsTextIffEncoded | src-agent-daemon/src/checkpoint.rs:1002-1006 | content is kept as text exactly when it is the UTF-8 of some characters |
| CheckpointRedaction.RedactedIff | src-agent-daemon/src/checkpoint.rs:338-535 | a file is redacted at the end of a run exactly when some step of the run redacts it, by one of those four conditions |
| CheckpointRedaction.SensitiveIsNeverStored | src-agent-daemon/src/checkpoint.rs:354-360 | over any run nothing of a sensitive file's content is stored, before or after |
| CheckpointUndo.RedactionIsSticky | src-agent-daemon/src/checkpoint.rs:444-459 | with captures one at a time, over any of them and any writes, redaction never comes off and the first before-image is final |
| CheckpointUndo.UndoOfARun | src-agent-daemon/src/checkpoint.rs:1127-1175 | after any run, whatever happened since, a rewind gives each selected captured file that is unredacted text its content at run start, removes what the run added and touches nothing else |
| CheckpointRedaction.UndoFromTheSteps | src-agent-daemon/src/checkpoint.rs:1127-1175 | the same told from the steps of the run alone: a selected path with a successful capture is removed if it was not there at the start, gets its starting text back if no step redacts it, and is left alone otherwise |
| CheckpointUndo.UncapturedIsUntouched | src-agent-daemon/src/checkpoint.rs:243-258 | a path the run never captured is one it never wrote |
| CheckpointUndo.UndoIsExact | src-agent-daemon/src/checkpoint.rs:766-799 | if every write was followed by its after-image and nobody else edited, nothing conflicts and a rewind of restorable files gives back the starting workspace |
| CheckpointUndo.ReportedWithoutAWrite | src-agent-daemon/src/checkpoint.rs:1155-1172 | a file is listed as restored although never written exactly when it existed, is unredacted and was not kept as text |
| CheckpointRestore.ConflictsOfIsExact | src-agent-daemon/src/checkpoint.rs:1062-1086 | the conflicts are exactly the selected files still present that differ from their after-hash |
| CheckpointRestore.RemovedThoughNotRestorable | src-agent-daemon/src/checkpoint.rs:1094-1110 | the one case where the preview says not restorable and rewind changes the file: a redacted file the run added |
| CheckpointRestore.StagingKeepsUndo | src-agent-daemon/src/checkpoint.rs:1148-1153 | staging a path before changing it keeps the reverse undo exact, also when the path was staged before |
| CheckpointRestore.ConflictsAreThoseThatDiffer | src-agent-daemon/src/checkpoint.rs:1075-1084 | the conflicts are the entries whose recorded and current hashes differ, in order |
| CheckpointRestore.EntryTellsTheRewind | src-agent-daemon/src/checkpoint.rs:1085-1120 | an entry says what rewind does to its file: an addition is removed, a restorable other file gets its earlier content, nothing else is touched |
| CheckpointRedaction.EntryHashes | src-agent-daemon/src/checkpoint.rs:1062-1086 | the entry's hashes are of the file as the last after-capture found it and as it is now |
| CheckpointRedaction.EntryCause | src-agent-daemon/src/checkpoint.rs:1085-1120 | the entry's kind of change and why the file cannot be restored |
| Checkpoints.CheckpointManager.BuildRewindPreview | src-agent-daemon/src/checkpoint.rs:1055-1121 | the loop yields an entry for every selected file, with both hashes, the kind of change and whether and why not it can be restored, and the conflicts, exactly if the selected files still there can be read |
| Checkpoints.CheckpointManager.ApplyRewindFiles | src-agent-daemon/src/checkpoint.rs:1127-1197 | all or nothing for any list of files, repeated paths included; it goes through exactly when no operation it meets fails |
| Checkpoints.CheckpointManager.UndoRestore | src-agent-daemon/src/checkpoint.rs:1177-1195 | the undo loop puts every staged path back in reverse order |
| Checkpoints.CheckpointManager.Rewind | src-agent-daemon/src/checkpoint.rs:766-799 | refusal and failure change nothing; a rewind restores the selected files, exactly if it is accepted, those still there can be read and are as the run left them, and no operation it meets fails |
| ProjectorGroups.GroupsSplit | src-agent-daemon/src/conversation_projector.rs:447-463 | grouping distributes over a split at a TurnCompleted |
| ProjectorGroups.GroupsKeepEvents | src-agent-daemon/src/conversation_projector.rs:447-463 | grouping loses, adds and reorders no event |
| ProjectorGroups.OpenIsSkipped | src-agent-daemon/src/conversation_projector.rs:477-487 | in a typed log a group without TurnCompleted is never materialized |
| ProjectorContent.GroupsAreTurns | src-agent-daemon/src/conversation_projector.rs:447-463 | the log is cut exactly before each TurnStarted and behind each TurnCompleted; with `GroupsKeepEvents` this is the only grouping |
| ProjectorContent.GatherJoins | src-agent-daemon/src/conversation_projector.rs:500-568 | two pieces of a group add up: text, thinking, calls and results of the first followed by those of the second, and the later committed content |
| ProjectorContent.GatherIs | src-agent-daemon/src/conversation_projector.rs:500-568 | a group gathers its text deltas, reasoning deltas, calls and results each in event order, and its last committed content |
| ProjectorContent.NothingAfterCorrupt | src-agent-daemon/src/conversation_projector.rs:533-563 | what comes behind content that does not decode is not read |
| ProjectorContent.ClassifyIs | src-agent-daemon/src/conversation_projector.rs:477-599 | exactly which groups are skipped, quarantined and projected |
| ProjectorContent.ProjectedTurnLoads | src-agent-daemon/src/conversation_projector.rs:604-682 | a new turn's assistant message is stored under the first assistant id it started and loads as what was committed, or as its reasoning, its text and its calls in order, with the turn's stop reason |
| ProjectorContent.ProjectedResultLoads | src-agent-daemon/src/conversation_projector.rs:649-682 | each tool result of a new turn loads under its own id with its call, tool, output and error |
| ProjectorContent.OutputIsKept | src-agent-daemon/src/conversation_projector.rs:884-910 | an output that names an artifact is kept as a reference, any other whole; an error code is found under either name |
| ProjectorContent.NewTurnIsStored | src-agent-daemon/src/conversation_projector.rs:604-729 | after a new turn the tables hold one more turn row and its messages in order, nothing else is different |
| ProjectorTurns.NewTurnMovesWatermark | src-agent-daemon/src/conversation_projector.rs:684-729 | a new turn puts the run's watermark at its last event, counts one turn, names its messages and counts a fallback without committed content |
| ProjectorTurns.KnownTurnMovesOn | src-agent-daemon/src/conversation_projector.rs:713-728 | a turn stored with its messages changes no row and only moves the watermark on, or makes the run's first |
| ProjectorTurns.TakenPlaceIsRefused | src-agent-daemon/src/conversation_projector.rs:609-650 | a new turn that starts where another turn of its run does stores nothing and is an error |
| ProjectorTurns.CorruptIsQuarantined | src-agent-daemon/src/conversation_projector.rs:533-563 | content that does not decode is put on record under its turn and message, nothing is stored |
| ProjectorTurns.ConflictIsQuarantined | src-agent-daemon/src/conversation_projector.rs:736-761 | a message stored with another content is never overwritten: the turn is put on record as a conflict |
| ProjectorTurns.OutsideAnyTurn | src-agent-daemon/src/conversation_projector.rs:590-606 | events outside any turn belong to one made up for their run |
| ProjectorSafety.PassGrows | src-agent-daemon/src/conversation_projector.rs:776-840 | no pass over any groups changes a stored turn, message or block |
| ProjectorSafety.AllOrNothing | src-agent-daemon/src/conversation_projector.rs:604-729 | after a turn's transaction its turn, messages, tool results and watermark are all there, or the tables are as before |
| ProjectorSafety.MessagesComeFromCompletedTurns | src-agent-daemon/src/conversation_projector.rs:477-487 | every message a pass over a typed log adds belongs to a turn with a TurnCompleted |
| ProjectorSafety.ReprojectingIsIdle | src-agent-daemon/src/conversation_projector.rs:684-724 | projecting a typed log again changes no turn, message, block or watermark, also when the first pass aborted |
| ProjectorIncremental.Resume | src-agent-daemon/src/conversation_projector.rs:301-370 | from what a pass over a prefix left, the incremental pass ends exactly as one pass over the whole log |
| ProjectorIncremental.IncrementalRefinesFull | src-agent-daemon/src/conversation_projector.rs:301-370 | a typed log in any batches, cut anywhere, with an incremental pass after each, ends in the same tables, quarantines and result as one full pass |
| ProjectorRecovery.StepKeeps | src-agent-daemon/src/conversation_projector.rs:221-370 | appends, passes cut short at any group, and recoveries keep the invariant and never lower the watermark |
| ProjectorRecovery.WatermarkCovers | src-agent-daemon/src/conversation_projector.rs:684-724 | over whole runs every committed turn at or below the watermark is projected, quarantined or empty, the turn count is the run's turn rows, and the watermark never goes back |
| ProjectorRecovery.RecoveryLeavesNothing | src-agent-daemon/src/conversation_projector.rs:221-282 | when recovery succeeds every committed turn that can be read is projected, quarantined or empty, or the run is quarantined for an unreadable row |
| ProjectorRecovery.UnreadableIsOnRecord | src-agent-daemon/src/conversation_projector.rs:221-282 | a recovery that succeeds with a committed turn at or behind an unreadable row has quarantined the run |
| Projectors.GroupTurns | src-agent-daemon/src/conversation_projector.rs:447-463 | the scanning loop yields the groups |
| Projectors.GatherGroup | src-agent-daemon/src/conversation_projector.rs:500-568 | the loop over a group gathers its text, reasoning, calls, results and committed content, and stops at corrupt content |
| Projectors.Projector.UpsertMessageBlocks | src-agent-daemon/src/conversation_projector.rs:776-840 | a stored message with the same blocks is left alone, another content is a conflict, a new one is inserted block by block |
| Projectors.Projector.ProjectCommittedTurn | src-agent-daemon/src/conversation_projector.rs:472-761 | with any statement failing the tables are as before or as the whole transaction leaves them; it is an error exactly when a statement met on the way fails or violates a constraint |
| Projectors.Projector.ProjectRunIncremental | src-agent-daemon/src/conversation_projector.rs:301-370 | the loop handles the groups after the watermark in order up to the first that does not go through, keeps what it did, and reports how many had which outcome, the projected ones being the turns added |
| ConversationTranscript.ContentRoundTrip | src-agent-daemon/src/conversation_store.rs:1056-1136 | stored content parses back exactly when every block of it is well formed |
| ConversationTranscript.ResultsRoundTrip | src-agent-daemon/src/conversation_store.rs:1138-1176 | so do tool result blocks |
| ConversationTranscript.StopReasonRoundTrip | crates/agent-core/src/message.rs:135-155 | a stop reason survives its text exactly when it is not the provider's own |
| ConversationFormats.StopTextsAre | crates/agent-core/src/message.rs:135-155 | which text stands for which stop reason |
| ConversationFormats.ToolCallLoadsIff | src-agent-daemon/src/conversation_store.rs:1056-1136 | which stored block loads as which tool call |
| ConversationFormats.ThinkingLoadsIff | src-agent-daemon/src/conversation_store.rs:1056-1136 | which stored block loads as which thinking block, the older member included |
| ConversationFormats.ImageLoadsIff | src-agent-daemon/src/conversation_store.rs:1056-1136 | which stored block loads as which image |
| ConversationFormats.FileReferenceLoads | src-agent-daemon/src/conversation_store.rs:1119-1133 | a file reference loads as a line of text with its name and path |
| ConversationFormats.OtherBlocks | src-agent-daemon/src/conversation_store.rs:1056-1136 | any other block of a content is an error, but the reference to the run |
| ConversationFormats.RunReasoningIsShown | src-agent-daemon/src/conversation_store.rs:700-744 | a message that names its run is shown behind the run's reasoning; reasoning that cannot be read is an error |
| ConversationFormats.ResultBlockLoadsIff | src-agent-daemon/src/conversation_store.rs:1138-1176 | which stored block loads as which tool result block |
| ConversationFormats.LegacyToolResultLoads | src-agent-daemon/src/conversation_store.rs:868-916 | a result without a call id is an error under a name made up for it |
| ConversationFormats.SystemLines | src-agent-daemon/src/conversation_store.rs:948-964 | the texts of a system message are its lines |
| ConversationFormats.AppendedColumns | src-agent-daemon/src/conversation_store.rs:2014-2058 | the columns an append fills: conversation, role, turn and run unless made up for a session, stop reason and legacy mark |
| ConversationRoundTrip.AppendLoads | src-agent-daemon/src/conversation_store.rs:2014-2128 | a message of any kind is stored and comes back as it was, behind its run's reasoning if any, if and only if it is well formed |
| ConversationRoundTrip.TranscriptRoundTrip | src-agent-daemon/src/conversation_store.rs:839-973 | a conversation loads message for message, in order |
| ConversationRoundTrip.LoadsIffEachLoads | src-agent-daemon/src/conversation_store.rs:839-973 | any conversation loads exactly if each of its rows does, and then as what its rows load as |
| ConversationWriters.WritersAgree | src-agent-daemon/src/conversation_store.rs:1340-1498 | the projector's and the compatibility writer's assistant rows load the same exactly when the stop reason is standard and the content was committed, or the turn has no reasoning, or its reasoning is the run's |
| ConversationWriters.ResultsAgree | src-agent-daemon/src/conversation_projector.rs:649-682 | tool results load the same from either writer's row |
| ConversationWriters.ProjectedIsAlike | src-agent-daemon/src/conversation_projector.rs:631-648 | what the two writers store differs in the form of text blocks only |
| ConversationWriters.DraftsBecomeRows | src-agent-daemon/src/conversation_projector.rs:810-838 | on new ids the projector inserts exactly its messages, in order |
| ConversationFork.ForkIsACopy | src-agent-daemon/src/conversation_store.rs:456-589 | the copy succeeds if and only if no new id is taken and every parent inside the transcript is at or before its child; then the fork's transcript in its own order is the source's under injectively renamed ids, parents come first again and the source is unchanged, for forks of forks too |
| ConversationFork.ForwardParentIsRefused | src-agent-daemon/src/storage/migrations.rs:77-87 | two messages of one moment, the first naming the second as its parent, cannot be forked although every new id is free |
| ConversationFork.LinksAreKept | src-agent-daemon/src/conversation_store.rs:513-547 | parent links inside the transcript are kept both ways, others become null, blocks and columns are the same |
| ConversationFork.TranscriptIsUnique | src-agent-daemon/src/conversation_store.rs:463-500 | the ordered list of a conversation's rows is unique, so the copy is what a query returns |
| ConversationFork.MessageTable.Copy | src-agent-daemon/src/conversation_store.rs:501-589 | the copying loops copy everything exactly when no statement fails, no id is taken and no parent missing, and otherwise leave the table as before |
| TextOrder.BeforeIff | src-agent-daemon/src/conversation_store.rs:228-269 | rows are ordered by time and then by id, texts by the first character that differs |
| ConversationPaging.PageAt | src-agent-daemon/src/conversation_store.rs:228-269 | a page of conversations is the next rows after the cursor, and its own cursor the last of them while any are left |
| ConversationPaging.PageHolds | src-agent-daemon/src/conversation_store.rs:228-269 | a page holds as many rows as were asked for, between 20 and 200, or 100 if nothing was said |
| ConversationPaging.PagesVisitAll | src-agent-daemon/src/conversation_store.rs:228-269 | requesting page after page with the cursor returned visits every conversation exactly once, newest first, and ends within one request a row |
| ConversationPaging.MessagePagesDropTheNewest | src-agent-daemon/src/conversation_store.rs:746-774 | following the cursors of message pages visits all rows but the newest of each page that has another after it |
| ConversationPaging.MessagePagesAreCompleteIff | src-agent-daemon/src/conversation_store.rs:746-774 | that walk is complete if and only if the conversation fits in one page |
| QueuedInputs.InputStore.PersistQueuedInputAndAck | src-agent-daemon/src/conversation_store.rs:37-141 | the message and the acknowledgement are stored together or not at all; it goes through exactly when no statement fails and there is no collision and no lost lease |
| QueuedInputs.PersistedIs | src-agent-daemon/src/conversation_store.rs:37-141 | exactly which requests go through, and the message and acknowledgement they store |
| QueuedInputs.RestartedGoesThrough | src-agent-daemon/src/conversation_store.rs:37-141 | whatever a crash left, an input still waiting can be leased again after a restart and then goes through |
| QueuedInputs.OnlyQueuedIsLeased | src-agent-daemon/src/prompt_queue_store.rs:126-141 | a lease is taken only of a queued row, and a new input waits |
| QueuedInputs.NoInputIsLostOrRepeated | src-agent-daemon/src/conversation_store.rs:34-141 | through crashes, lost leases, restarts, removals and runs started from the queue an input is kept until its row is deleted, one with a message is no longer waiting, and its message never changes |
| QueuedInputs.StepLosesIffRemoved | src-agent-daemon/src/prompt_queue_store.rs:692-720 | a step loses an input exactly when it deletes its row before there is a message |
| QueuedInputs.SentIsStoredUnlessAhead | src-agent-daemon/src/prompt_queue_store.rs:900-911 | rows marked sent have their message, exactly unless a step marks one that has none |
| QueuedInputs.AlwaysStoredIffNeverAhead | src-agent-daemon/src/prompt_queue_store.rs:1085-1095 | the same over whole runs |
| QueuedInputs.ACrashLeavesSent | src-agent-daemon/src/prompt_queue_store.rs:969-979 | a crash between the mark and the delete leaves a sent row without a message |
| QueuedInputs.AcknowledgedOnce | src-agent-daemon/src/conversation_store.rs:110-135 | after a success no request for the input goes through again |
| UriTemplates.UriMatchesTemplate | src-agent-daemon/src/mcp_runtime.rs:1944-1994 | the matching loops decide the specification |
| UriTemplates.MatchesIffLeftmost | src-agent-daemon/src/mcp_runtime.rs:1944-1994 | a URI matches exactly when it has no `..` and is the template with non-empty slash-free values, each cut where its literal first occurs |
| UriTemplates.AcceptsExpansions | src-agent-daemon/src/mcp_runtime.rs:1938-1943 | of a template whose every literal contains a slash, is the empty last one or keeps its variable between dots, every expansion without `..` is accepted |
| UriTemplates.RefusesAnExpansion | src-agent-daemon/src/mcp_runtime.rs:1979-1991 | every other template without `..` of its own has an expansion without `..` that is refused |
| UriTemplates.AcceptsAllIff | src-agent-daemon/src/mcp_runtime.rs:1938-1994 | a template accepts all its expansions without `..` if and only if it is of the first kind, or contains `..` and has none |
| UriTemplates.ExampleIsRefused | src-agent-daemon/src/mcp_runtime.rs:1979-1991 | `xabab` is an expansion of `{a}ab` and is refused |
| UriTemplates.ParsesRendered | src-agent-daemon/src/mcp_runtime.rs:1949-1967 | a template written with names and literals is parsed into its prefix and literals |
| UriTemplates.ParseIff | src-agent-daemon/src/mcp_runtime.rs:1949-1967 | a template parses into a prefix and literals if and only if it is written with them around some names |
| McpSession.StdioRoundtrip | src-agent-daemon/src/mcp_runtime.rs:2011-2081 | the receive loop passes arrivals until the response or a failure, answers each request passed once and buffers each notification, in order |
| McpSession.ReturnsOwnResponse | src-agent-daemon/src/mcp_runtime.rs:2066-2074 | a frame is returned exactly when a response with the request's own id comes before any failure |
| McpSession.StdioSession.StdioRequest | src-agent-daemon/src/mcp_runtime.rs:1020-1068 | each exchange takes a new id and works on what the ones before left of the stream |
| McpSession.ReturnedFramesAreOwn | src-agent-daemon/src/mcp_runtime.rs:1049-1068 | over a session no late response to an older request is ever returned |
| McpSession.NotificationsAreBuffered | src-agent-daemon/src/mcp_runtime.rs:2058-2065 | over a session notifications consumed are buffered once, in order |
| McpSession.RequestsAreAnswered | src-agent-daemon/src/mcp_runtime.rs:2053-2057 | over a session every server request consumed is answered once, in order |
| McpSession.ArrivalIs | src-agent-daemon/src/mcp_runtime.rs:2048-2080 | which arrival is a request, a notification or a response, and which reply each method gets |
| McpSession.ExchangeEnds | src-agent-daemon/src/mcp_runtime.rs:2011-2081 | what one exchange consumes and how it ends |
| McpResources.McpServer.RecordNotifications | src-agent-daemon/src/mcp_runtime.rs:1836-1873 | the loop keeps named frames, drops the overflow and clears the allowlist on a retraction |
| McpResources.RingIsNewest | src-agent-daemon/src/mcp_runtime.rs:1836-1866 | the ring is always the newest 200 notifications of the whole history |
| McpResources.RingHolds | src-agent-daemon/src/mcp_runtime.rs:1836-1866 | the ring holds the last 200 of the notifications, or all while they are fewer |
| McpResources.RetractsIff | src-agent-daemon/src/mcp_runtime.rs:1832-1873 | frames retract exactly when one of them names a method about resources |
| McpResources.McpServer.ListResources | src-agent-daemon/src/mcp_runtime.rs:1491-1524 | a listing without a cursor starts the cache over, each URI is kept once |
| McpResources.CacheIsPublished | src-agent-daemon/src/mcp_runtime.rs:1491-1550 | over any history the cache holds each URI once that some listing contains and no later event retracts or lists afresh, and the templates of the last template listing not retracted since |
| McpResources.McpServer.AssertResourceUriAllowed | src-agent-daemon/src/mcp_runtime.rs:1625-1702 | the check decides that specification |
| McpResources.AllowedIffPublished | src-agent-daemon/src/mcp_runtime.rs:1625-1702 | a URI may be read exactly when its scheme is not refused and it is published, or has no `..` and is a leftmost expansion of a published template |
| McpResources.DangerousIff | src-agent-daemon/src/mcp_runtime.rs:1630-1639 | the refused schemes, in any case and behind white space |
| McpResources.FileRefusedIff | src-agent-daemon/src/mcp_runtime.rs:1641-1668 | a file URI is refused unless the server is trusted, it has no `..` and it names no host but localhost |
| McpResources.RetractionClosesReads | src-agent-daemon/src/mcp_runtime.rs:1832-1873 | after a retraction, whatever follows, only what is published from then on may be read; notifications alone open nothing |

## Left out

- SQL text, migrations, file locks and the storage actor: a transaction is a shadow copy and a commit.
- The JSON text of stored values: a stored value is a tree, and a text column that is compared is compared as that tree.
- Decoding a committed message's content: an event carries its blocks or the fact that they do not decode.
- `UsageUpdated` roll-ups of the event log: best effort and not conserved by deletion.
- The fallback of `respond` when another process resolves the row between its read and its update: the protocol has that step, the object's method runs between two awaits and does not meet it.
- The conversation id of a recovered decision: the outbox insert leaves that column empty, so a recovered delivery has no fallback for it; route policies are not modelled.
- What a woken tool reads out of its response, approval and scope: a wake names its row, whose response is a text.
- Deletion of conversations, and the expiry scan's choice of rows: any pending interaction may expire at any step.
- Settings of the governor outside their validated range: callers validate first; the ticket counter is followed until it would wrap.
- The settings and the effective interval that a snapshot of the governor repeats: only its two counts are modelled.
- Governor futures dropped without cancellation: a waiter loops or cancels.
- The name rules for sensitive paths, symbolic links and path canonicalization: a trusted path says whether it is inside the root and sensitive.
- A file that changes while it is being read: its size and its content are of one moment.
- Concurrent captures of one path in the undo theorems: these take captures one at a time, because a late commit replaces the first before-image (`FirstImageIsKeptIff`); the byte quota takes them in any interleaving.
- Failing undo writes, and directories a restore creates: undo writes succeed.
- Persisting, finalizing and reloading checkpoint snapshots: a rewind takes the live checkpoint, its files in any order.
- The projector's path for runs without a row, which goes to the compatibility writer; the loop of recovery over several runs, which are handled one by one.
- Transient and permanent database errors are one kind of failure.
- Duration and token counts of messages: they are not part of what is loaded.
- Content, order and choice of queued prompts, and the message that a run started from one stores of its own: a request carries the content, and the new run is not followed.
- ConversationRoundTrip.AppendLoads: takes the message's conversation, run and turn to exist and its id to be new; an insert that violates one of these keys is a failing statement, which stores nothing.
- QueuedInputs.InputStore.PersistQueuedInputAndAck: the foreign keys of conversation, run and turn are not followed; an insert that violates one counts as the failing statement of the insert.
- Context snapshots, attachments and the engine history: not part of the round trip.
- Rows that cannot be decoded in a page of conversations: such a row shortens its page.
- MCP over HTTP, process spawning, the reader thread, the idle reaper and timeouts in real time: a timeout is something a receive can meet.
- The progress callback of an MCP exchange: a progress notification is buffered like any other.
- Request ids past 2^64: ids are not followed to their wrap.
- McpResources.AllowedIffPublished: does not follow byte offsets into a URI with leading multi-byte white space, because texts are sequences of characters.
- Small stores, the extension host, credentials, UI and build scripts: they only add easy members.
