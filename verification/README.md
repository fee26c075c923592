# golutra-agent: verified model

A Dafny model of the hard parts of the golutra agent runtime, with proofs about all of its runs.

- **Attachments and runtimes.** A server hands out attachments: capabilities that lease a runtime of
  one working directory. `LeaseProtocol` is the lease counter with its atomic flag, its notifications
  and its drain wait, as steps that any number of threads interleave. `RegistryModel` and
  `RuntimeModel` are the registry and the table of runtimes as values; `Attachments` and `AppServer`
  are the classes that update them in place, proved against those values.
- **OAuth refresh.** `OAuthRefresh` is every await point of resolving a credential: many calls, many
  services, one store, a lock per service and a lock file. `OAuthInvariants` holds the invariant and
  `OAuthLaws` what follows from it.
- **Projection of a turn.** `Projector` turns a log of runtime facts into the events of one turn;
  `ProjectionLaws` and `ProjectionScope` say what it reports and what it may see of a shared log;
  `AgentStream` is the event stream of a connection, resuming it, and the handle that waits for a turn.
- **Causal record.** `CausalModel` and `CausalRecorder` give each recorded event its parent, context and
  links; `CausalLaws` and `CausalRestart` say what holds over failures, dropped calls, restarts and history
  readings; `CausalOrigins` says which action left each head, and `CausalParents` what that decides about
  the next event's parent; `CausalStarts` does the same for the starts that events are linked to.
- **The wire.** `Connection` is a WebSocket JSON-RPC connection and the attachments it holds, frame by
  frame; `ConnectionRuntime` is the same connection await by await on top of `RuntimeModel`; `Framing` is
  the newline framing over a byte stream.
- **Smaller cores.** `CredentialStore` is the credential file under its lock, `CliWait` the command
  line's wait for a task to end, `BenchAdapter` and `BoundedText` the benchmark adapter's report and
  `NoProxy` its list of hosts. `Options` and `Text` are shared helpers.

Protocols that run concurrently are state machines: an action, when it is enabled, what it does, and
theorems over every sequence of enabled actions. Code that updates an object is a class whose methods are
proved equal to a function on values, about which the theorems are stated. Clocks, random ids, the network
and the answers of code outside the model are arguments of the actions.

Where the code does not keep a property on every input there is a lemma with an input that breaks it and
one that says exactly when it holds: a rotated refresh token whose answer is lost, whose write is adrift
after its caller was dropped, that a late write overwrites, or that a timed-out request replaces after it
was read; a command named by two tasks; resuming by event id with a cursor in the address or right after
the opening of a turn; a detach notification under another protocol version; the parent of an event after
a record or a reading that was abandoned; the link to a start that was abandoned, or recorded before a
restart; and the chain of history after a restart, a history reading or a dropped call. The store's comment
says its history query matches the model history index; the code's own list of history facts also has
subagent reports and leaves out unreadable compactions, and the model follows the code.

`dafny verify dfyconfig.toml` checks the whole project.

## Model

| member | source | states |
|---|---|---|
| `LeaseProtocol.DrainIsFinal` | crates/golutra-agent-app-server/src/attachment_registry.rs:89-144 | in every interleaving of callers, revokers and waiters, once a drain wait has ended on a zero count after the revocation, no lease is held then or ever after |
| `LeaseProtocol.NoLostWakeup` | crates/golutra-agent-app-server/src/attachment_registry.rs:117-144 | a parked waiter that has not been signalled always has a counted thread or one about to notify |
| `LeaseProtocol.CountIsExact` | crates/golutra-agent-app-server/src/attachment_registry.rs:89-144 | the active count is the number of threads counted in and not yet released; a holder sees it above zero |
| `LeaseProtocol.DrainIsBounded` | crates/golutra-agent-app-server/src/attachment_registry.rs:105-128 | after the revocation only a bounded number of actions can change the state, under any schedule |
| `LeaseProtocol.QuietMeansDrained` | crates/golutra-agent-app-server/src/attachment_registry.rs:105-144 | when nobody but the timer can move, every lease is back, every wait has ended and the holders were cancelled |
| `RegistryModel.EverySequence` | crates/golutra-agent-app-server/src/attachment_registry.rs:217-317 | after any sequence of insert, lookup, detach, prune and release: counts equal the handles out, every handle's cell is an entry or a retained record, its key is in use, and the capacity bound holds |
| `RegistryModel.StepsInv` | crates/golutra-agent-app-server/src/attachment_registry.rs:207-317 | the registry's invariant is kept by every sequence of operations from any state that has it |
| `RegistryModel.LookupGrants` | crates/golutra-agent-app-server/src/attachment_registry.rs:253-266 | a lookup succeeds exactly for a registered attachment that has not idled out, and gives a handle on its own cell |
| `RegistryModel.InsertOutcome` | crates/golutra-agent-app-server/src/attachment_registry.rs:217-251 | an insertion is a duplicate, out of capacity or done exactly under the stated conditions on what survives pruning, and never replaces a live entry |
| `RegistryModel.RevokedStaysRevoked` | crates/golutra-agent-app-server/src/attachment_registry.rs:105-109 | a revoked cell gives out no further handle, whatever operations follow |
| `Attachments.AttachmentRegistry.constructor` | crates/golutra-agent-app-server/src/attachment_registry.rs:208-215 | a new registry is empty, with a limit of at least one |
| `Attachments.AttachmentRegistry.PruneExpiredAt` | crates/golutra-agent-app-server/src/attachment_registry.rs:283-302 | the loops over entries and revoked records give exactly the pruned registry |
| `Attachments.AttachmentRegistry.RetainEntries` | crates/golutra-agent-app-server/src/attachment_registry.rs:284-297 | keeps exactly the entries that are in use or not idle, and revokes the cells of the others |
| `Attachments.AttachmentRegistry.RetainRevoked` | crates/golutra-agent-app-server/src/attachment_registry.rs:283-302 | keeps exactly the revoked records that still have leases |
| `Attachments.AttachmentRegistry.ActiveRevoked` | crates/golutra-agent-app-server/src/attachment_registry.rs:217-251 | counts the revoked records that still have leases |
| `Attachments.AttachmentRegistry.InsertEntry` | crates/golutra-agent-app-server/src/attachment_registry.rs:217-251 | result and new registry of an insertion, error cases included |
| `Attachments.AttachmentRegistry.Attachment` | crates/golutra-agent-app-server/src/attachment_registry.rs:253-266 | result and new registry of a lookup |
| `Attachments.AttachmentRegistry.DetachAttachment` | crates/golutra-agent-app-server/src/attachment_registry.rs:268-281 | result and new registry of a detach |
| `Attachments.AttachmentRegistry.ReleaseLease` | crates/golutra-agent-app-server/src/attachment_registry.rs:130-144 | a release lowers the count by one and starts the idle window at the last |
| `Attachments.AttachmentRegistry.CollectRuntimeKeys` | crates/golutra-agent-app-server/src/attachment_registry.rs:304-317 | exactly the keys of entries and of revoked records with leases |
| `RuntimeModel.RuntimesStayOwned` | crates/golutra-agent-app-server/src/lib.rs:143-325 | in every reachable state the table is within its limit, every attachment and outstanding lease has its runtime in it, and all of one directory share one instance |
| `RuntimeModel.PruneDropsExactly` | crates/golutra-agent-app-server/src/lib.rs:291-325 | pruning keeps a runtime exactly when a live attachment, an outstanding lease or unfinished work needs it |
| `RuntimeModel.AttachInv` | crates/golutra-agent-app-server/src/lib.rs:143-238 | an attach keeps the invariant whatever its awaited steps answer |
| `RuntimeModel.AttachOutcome` | crates/golutra-agent-app-server/src/lib.rs:143-238 | success registers the fresh id on the directory's one runtime; every failure leaves no attachment and no new runtime unless that runtime reports work |
| `RuntimeModel.RunAppInv` | crates/golutra-agent-app-server/src/lib.rs:143-325 | every run of attach steps, lookups, detaches, prunings and drops keeps the invariant |
| `AppServer.AppState.PruneUnreferencedRuntimesLocked` | crates/golutra-agent-app-server/src/lib.rs:296-325 | the new table and registry of a pruning |
| `AppServer.AppState.AttachCwd` | crates/golutra-agent-app-server/src/lib.rs:143-238 | result, table and registry of a whole attach, on every path |
| `AppServer.AppState.AttachedAttachment` | crates/golutra-agent-app-server/src/lib.rs:276-289 | a lookup prunes first and gives a lease exactly when the registry does |
| `AppServer.AppState.DetachAttachment` | crates/golutra-agent-app-server/src/lib.rs:259-274 | a detach revokes the entry and keeps its record while leases are out; what follows is the drain wait and a pruning |
| `OAuthInvariants.RunInv` | crates/golutra-agent-auth/src/oauth.rs:531-626 | the invariant over locks, caches, store, server, unfinished writes and requests gone astray holds in every interleaving of calls, calls that time out or are dropped at any await, late handling at the server, failures and clock ticks |
| `OAuthLaws.RotationSafety` | crates/golutra-agent-auth/src/oauth.rs:563-624 | a refresh request presents the token issued last if and only if that token was saved when its caller read the store and no request handled between that reading and the arrival rotated it; what is handled in between, for a request that is waited for, had been given up by its own call; no request sends a token rotated away before a reading that found it saved |
| `OAuthLaws.StoredTokenIsCurrent` | crates/golutra-agent-auth/src/oauth.rs:588-624 | the stored token is the server's current one exactly while the last rotation, by whichever request, is saved |
| `OAuthLaws.FateIsVisible` | crates/golutra-agent-auth/src/oauth.rs:588-624 | a rotation is adrift exactly while the write of its answer is unfinished, held exactly while the holder of the lock file has the answer; an unfinished write would restore the current token exactly if no later request rotated it |
| `OAuthLaws.RotationSafeWithoutHarm` | crates/golutra-agent-auth/src/oauth.rs:563-624 | in every run where no answer is lost, no storing fails, no call is dropped while storing and no request that was given up rotates, each request that is waited for presents the token issued last and no rotated one is sent again |
| `OAuthLaws.AnswerCanBeLost` | crates/golutra-agent-auth/src/oauth.rs:588-624 | a run in which the answer to a rotation never arrives and the stored token is dead: the condition can fail |
| `OAuthLaws.DroppedWriteIsOvertaken` | crates/golutra-agent-auth/src/oauth.rs:617-624 | a run in which a call is dropped while it stores its answer and the next one sends the old token again: adrift |
| `OAuthLaws.DroppedWriteCanCostTheSecret` | crates/golutra-agent-auth/src/oauth.rs:600-616 | ... and is refused, so that the secret is deleted though nobody revoked the grant |
| `OAuthLaws.LateWriteOverwrites` | crates/golutra-agent-auth/src/oauth.rs:617-624 | a run in which such a write lands on a newer rotation: overwritten |
| `OAuthLaws.LateRequestOvertakes` | crates/golutra-agent-auth/src/oauth.rs:602-605 | a run in which the server handles a timed-out request between another call's reading and its request, which then presents a token that was saved when read and is not the current one |
| `OAuthLaws.LateRequestCanCostTheSecret` | crates/golutra-agent-auth/src/oauth.rs:602-614 | ... and is refused, so that the secret is deleted though every token was saved when it was read |
| `OAuthLaws.SingleFlightAcross` | crates/golutra-agent-auth/src/oauth.rs:563-588 | across services, once an answer is in the store another request comes only from a call that looked later or because the token was about to expire; the answer of a call that was not dropped is in the store before any later reader, except one whose request had gone astray before |
| `OAuthLaws.SingleFlightWithin` | crates/golutra-agent-auth/src/oauth.rs:547-562 | within a service, a call that looked before another cached its token is served from the cache and sends nothing |
| `OAuthLaws.ForcedYieldsNewer` | crates/golutra-agent-auth/src/oauth.rs:729-758 | a forced call never hands back the revision it was told to replace |
| `OAuthLaws.OneRefresherAtATime` | crates/golutra-agent-auth/src/oauth.rs:563-624 | at most one call over all services is sending, storing or caching; this counts calls, and requests that were given up may be at the server besides |
| `OAuthLaws.NoDeadlock` | crates/golutra-agent-auth/src/oauth.rs:547-624 | while a call is unfinished some call can take a step |
| `OAuthLaws.CredentialSurvives` | crates/golutra-agent-auth/src/oauth.rs:531-626 | unless the grant was revoked, or some request that was waited for had read a token that was not saved or was rotated since, the credential stays stored; it stays refreshable, and caches agree with it |
| `OAuthLaws.CredentialSurvivesWithoutHarm` | crates/golutra-agent-auth/src/oauth.rs:531-626 | where nothing harms a rotation only a revoked grant ends the credential |
| `AgentEvents.NonBlank` | crates/golutra-agent-client/src/agent_projection.rs:318-324 | a payload text that trimming does not leave empty is exactly one with a character that is not white space, and is kept whole |
| `Text.TrimIsEmpty` | crates/golutra-agent-client/src/agent_projection.rs:318-324 | trimming from both ends leaves nothing exactly when every character is white space |
| `Projector.AgentEventProjector.constructor` | crates/golutra-agent-client/src/agent_projection.rs:36-52 | a new projector knows only its thread and command |
| `Projector.AgentEventProjector.ProjectEvent` | crates/golutra-agent-client/src/agent_projection.rs:99-258 | the new state and the event sent, or none and no change |
| `Projector.AgentEventProjector.TakeIn` | crates/golutra-agent-client/src/agent_projection.rs:108-150 | what an accepted fact leaves in the projector before anything is sent |
| `Projector.AgentEventProjector.Send` | crates/golutra-agent-client/src/agent_projection.rs:151-258 | the event sent for a fact and what sending it records |
| `ProjectionLaws.StateIsWhatWasTaken` | crates/golutra-agent-client/src/agent_projection.rs:99-273 | for every log, each field is a scan of the facts taken: last message, verification, failure word since the last recovery, reported or derived outcome, status, task and turn |
| `ProjectionLaws.LatestMeans` | crates/golutra-agent-client/src/agent_projection.rs:115-158 | the scan used above is the last fact that says something |
| `ProjectionLaws.WhatIsTaken` | crates/golutra-agent-client/src/agent_projection.rs:275-303 | for every log, the next fact is taken exactly when it belongs to what was taken before: by command, turn, task end, verification, steering, or late evaluation |
| `ProjectionLaws.OneLifeCycle` | crates/golutra-agent-client/src/agent_projection.rs:99-258 | for every log, each taken fact is told once and in order; the first start alone opens the turn, the first end alone closes it, and then only raw evaluator updates of the task follow |
| `ProjectionLaws.FailureIsExplained` | crates/golutra-agent-client/src/agent_projection.rs:211-231 | a failure's text is the terminal error, else the failure detail for failed, blocked or partial, else the summary, else the default, and is never blank |
| `ProjectionLaws.TerminalReport` | crates/golutra-agent-client/src/agent_projection.rs:185-231 | the terminal event carries the latest message, verification, turn, sequence number and status of all that was taken |
| `ProjectionLaws.ResultAgrees` | crates/golutra-agent-client/src/agent_projection.rs:261-273 | the result agrees with the terminal event field by field; in the task exactly when the event names none or the bound one |
| `ProjectionLaws.ResultExists` | crates/golutra-agent-client/src/agent_projection.rs:261-273 | there is a result exactly when the turn is finished, which is exactly when a terminal event was sent |
| `ProjectionLaws.ResultIsSettled` | crates/golutra-agent-client/src/agent_projection.rs:99-108 | after the end only evaluator updates of the same task are taken; message, verification and task stay |
| `ProjectionLaws.ItemsFollowTheCall` | crates/golutra-agent-client/src/agent_projection.rs:433-465 | items of one tool call share its id, others have their event's; failed and cancelled exactly as the fact says |
| `ProjectionScope.EarlierFactsAreIgnored` | crates/golutra-agent-client/src/agent_projection.rs:275-315 | facts before the command's own change neither the events nor the state |
| `ProjectionScope.TasksDoNotInterfere` | crates/golutra-agent-client/src/agent_projection.rs:275-315 | a command sees the same events on the shared log as on its task's alone if and only if no other task names the command before it is settled; the state is then the same too |
| `ProjectionScope.SharedCommandInterferes` | crates/golutra-agent-client/src/agent_projection.rs:305-315 | a log where another task names the command and is seen: the condition can fail |
| `AgentStream.AgentEventsLoop` | crates/golutra-agent-app-server/src/lib.rs:832-889 | the connection's loop sends the marker and then exactly what the stream specification says, subscription and serialization errors included |
| `AgentStream.ServeSendsNewer` | crates/golutra-agent-app-server/src/lib.rs:837-889 | what the loop sends is the turn's stream without what the cursor covers, with an error in place of the first event that does not serialize |
| `AgentStream.LiveIsTheProjection` | crates/golutra-agent-app-server/src/lib.rs:852-875 | the stream is the projection cut right after the event that ends the turn |
| `AgentStream.LiveGrows` | crates/golutra-agent-app-server/src/lib.rs:829-889 | a longer log only extends the stream, and not at all once the turn has ended |
| `AgentStream.ResumeIsSeamless` | crates/golutra-agent-app-server/src/lib.rs:815-889 | reconnecting with the same start and the last sequence number as cursor gives exactly the rest of the stream, though the log has grown, whatever event id is sent along |
| `AgentStream.ResumeById` | crates/golutra-agent-app-server/src/lib.rs:815-827 | what a reconnect by last event id alone gives: the rest, after the opening of the turn once more if that came last |
| `AgentStream.ResumeWithCursor` | crates/golutra-agent-app-server/src/lib.rs:815-827 | a reconnect whose address still has a cursor starts over from that cursor, whatever event id it sends |
| `AgentStream.ResumeByIdIsSeamless` | crates/golutra-agent-app-server/src/lib.rs:815-942 | resuming by event id has no gap or repeat exactly when nothing was received yet, or the address has no cursor and the last event received is not the opening of the turn |
| `AgentStream.TurnHandle.constructor` | crates/golutra-agent-client/src/agent.rs:389-409 | a new handle has the thread marker pending and its command's projector |
| `AgentStream.TurnHandle.NextEvent` | crates/golutra-agent-client/src/agent.rs:416-439 | the next event, the end or a stream error, and the handle after it |
| `AgentStream.TurnHandle.Wait` | crates/golutra-agent-client/src/agent.rs:510-520 | draining gives what the specification of waiting says; a handle already drained gives what it has |
| `AgentStream.WaitFailsWithoutEnd` | crates/golutra-agent-client/src/agent.rs:510-520 | a stream that stops or breaks before the turn's end makes the wait fail accordingly |
| `AgentStream.WaitGivesTheResult` | crates/golutra-agent-client/src/agent.rs:510-520 | once the end arrives the wait gives the result it announces, whatever follows |
| `CausalRecorder.CausalLedger.SeedEvent` | crates/golutra-agent-client/src/causal_recorder.rs:42-52 | the ledger after taking in a stored event |
| `CausalRecorder.CausalLedger.Enrich` | crates/golutra-agent-client/src/causal_recorder.rs:60-100 | the completed event and the ledger with it as newest |
| `CausalRecorder.CausalLedger.IndexLifecycle` | crates/golutra-agent-client/src/causal_recorder.rs:133-153 | the index of starts after an event |
| `CausalRecorder.RuntimeHost.PrepareCanonicalEvent` | crates/golutra-agent-client/src/causal_recorder.rs:157-214 | the three readings from the store, then the completed event |
| `CausalRecorder.RuntimeHost.RecordEvent` | crates/golutra-agent-client/src/lib.rs:2406-2430 | a recorded event extends the log; a refused one leaves ledger and log as they were; a call dropped while reading or appending leaves the ledger as far as it had come |
| `CausalLaws.RunInv` | crates/golutra-agent-client/src/causal_recorder.rs:42-153 | in every run with refusals, dropped calls, history readings and restarts each ledger entry names an abandoned event or the one a scan of the log gives |
| `CausalLaws.AbandonedRecordDangles` | crates/golutra-agent-client/src/lib.rs:2406-2430 | a run in which a call is dropped while appending and the next event gets its unstored event as parent: the condition can fail |
| `CausalLaws.AbandonedHeadsAre` | crates/golutra-agent-client/src/lib.rs:2406-2430 | over every run a task's head is of an abandoned event if and only if the last record on the task since the start of the process was abandoned |
| `CausalLaws.RecordClears` | crates/golutra-agent-client/src/causal_recorder.rs:60-100 | recording an event makes it the head of its session, its task and, for history, its session's history, whatever was there |
| `CausalLaws.ContextIs` | crates/golutra-agent-client/src/causal_recorder.rs:81-95 | an event's context is a function of the log alone, whatever the ledger has forgotten, while its task's head is of a stored event |
| `CausalLaws.ContextNamesItsEvent` | crates/golutra-agent-client/src/causal_recorder.rs:217-243 | a recorded context names the event's own workspace, session, task, turn and run, and the step it gives |
| `CausalRestart.HistoryIsAChain` | crates/golutra-agent-client/src/causal_recorder.rs:60-79 | without restarts, history readings and dropped calls each history event follows the history event before it |
| `CausalRestart.RestartEquivalence` | crates/golutra-agent-client/src/causal_recorder.rs:157-214 | after a restart the next event gets the same context as from a ledger that saw the whole log, and the same parent if and only if it is given, the event is not history, or the last history event is recoverable from the store |
| `CausalRestart.ColdIsClear` | crates/golutra-agent-client/src/causal_recorder.rs:157-214 | after a restart every head an event depends on is found in the store, whatever was abandoned before |
| `CausalRestart.ChainAfterRestart` | crates/golutra-agent-store/src/lib.rs:583-615 | after a restart the first event joins the chain exactly when the store's query finds the last history event, or finds nothing readable and that event is the last of session or task |
| `CausalRestart.ChainWithinSession` | crates/golutra-agent-client/src/causal_recorder.rs:171-182 | in a known session the chain survives exactly when the task is known or its own last event is no older history event |
| `CausalRestart.ChainAfterRefresh` | crates/golutra-agent-client/src/execution.rs:1060-1070 | reading history keeps the chain exactly when the query finds its last event or nothing readable |
| `CausalRestart.ChainAfterAbandon` | crates/golutra-agent-client/src/lib.rs:2406-2430 | an abandoned record keeps the chain exactly when its event is not history and its readings kept it |
| `CausalRestart.ChainAfterReadings` | crates/golutra-agent-client/src/causal_recorder.rs:157-214 | readings that an abandoned call made keep the chain exactly when they bring no older history event of its task, or the session's last event after it and that is history |
| `CausalOrigins.HeadsAreLeftBy` | crates/golutra-agent-client/src/causal_recorder.rs:42-100 | over every run the head of a session, of a task and of a session's history is what the last action on it since the process started left, by record, abandoned record or reading; it names an event never stored if and only if that action was an abandoned record |
| `CausalOrigins.OriginsMean` | crates/golutra-agent-client/src/causal_recorder.rs:42-214 | over every run a head that a record left is the last recorded event of its kind, one that a reading left is recorded there, and for a task is its last event |
| `CausalParents.ParentIsRecorded` | crates/golutra-agent-client/src/causal_recorder.rs:60-79 | after any run a parent is the head that an action left, and an earlier event of the session if and only if that action was not an abandoned record; an event that is not history follows its task's last, else its session's last, if and only if no abandoned record came last on the task and, where the task has nothing, the session was last moved by a record or a reading of its last event |
| `CausalParents.HistoryFollowsHistory` | crates/golutra-agent-client/src/causal_recorder.rs:60-79 | after any run a history event follows a recorded history event if and only if the last action on its session's history, its own readings included, was a record or a reading that brought one |
| `CausalParents.ChainIff` | crates/golutra-agent-client/src/causal_recorder.rs:60-79 | after any run a history event joins the chain of history if and only if the last action on that history was the record of its last event or a reading that brought it, or there is no history and task and session were left in place |
| `CausalParents.SubagentReportIsLost` | crates/golutra-agent-store/src/lib.rs:583-615 | a run from the start in which a restart makes a message follow the event before a subagent report, which the query does not list |
| `CausalParents.OlderTaskRewindsTheChain` | crates/golutra-agent-client/src/causal_recorder.rs:171-182 | a run from the start in which, after a restart, an older task draws the chain back to its own last message |
| `CausalParents.AbandonedReadingSetsBack` | crates/golutra-agent-client/src/causal_recorder.rs:157-182 | a run from the start in which a call dropped between its readings sets the session's head back, and a new task's first event follows an older event |
| `CausalStarts.StartsAreEnteredBy` | crates/golutra-agent-client/src/causal_recorder.rs:133-153 | over every run the index of starts names, for each request or tool call of a task and each task's plan, exactly the start that the last action on it since the process started entered: by record, abandoned record or reading |
| `CausalStarts.EntriesMean` | crates/golutra-agent-client/src/causal_recorder.rs:133-153 | over every run a start that a record or a reading entered is the last such start in the log; one of an abandoned record is of that task and id and never stored; where none was entered, whatever such start the log has was there before the process started |
| `CausalStarts.LinksAreTrue` | crates/golutra-agent-client/src/causal_recorder.rs:102-131 | after any run the links of a new event are exactly the given ones, the one to its parent, and one to the start it belongs to, which is there if and only if an action since the process started entered that start; none to itself, none twice |
| `CausalStarts.StartsAreTrue` | crates/golutra-agent-client/src/causal_recorder.rs:102-131 | the linked start has the event's own task and request or tool call; it is the last such start in the log if and only if the action that entered it was not an abandoned record, and otherwise no recorded event has its id |
| `CausalStarts.AbandonedStartDangles` | crates/golutra-agent-client/src/lib.rs:2406-2430 | a run from the start in which an event is linked to a start that was never stored, though the task's last record was stored |
| `CausalStarts.RestartLosesTheStart` | crates/golutra-agent-client/src/causal_recorder.rs:157-182 | a run from the start in which the log has the start of a request and, after a restart, the next event of the request is not linked to it |
| `CausalStarts.ContextsTellTheLatest` | crates/golutra-agent-client/src/causal_recorder.rs:231-295 | after any run that records nothing on a task whose last record since the process started was abandoned, each identifier in its context is the one its events named last |
| `CausalStarts.RestartsChangeLittle` | crates/golutra-agent-client/src/causal_recorder.rs:157-214 | restarts, readings and dropped calls change nothing recorded except parents of history events and missing links to starts, as long as no event is recorded where an abandoned record or reading came last on its task, its session or its start |
| `Connection.ConnectionLeavesNothing` | crates/golutra-agent-app-server/src/rpc.rs:219-330 | over every run of a well-versioned connection, all it made and did not hand back is its current attachment, its streams run on that one, and after close nothing is left |
| `Connection.StepKeeps` | crates/golutra-agent-app-server/src/rpc.rs:598-629 | one action keeps the connection free of leaks exactly when it is not a detach notification of another version that drops a live attachment it made |
| `Connection.LeaksOnlyForgotten` | crates/golutra-agent-app-server/src/rpc.rs:219-330 | over any run only what such notifications dropped can be left behind |
| `Connection.MisversionedDetachLeaks` | crates/golutra-agent-app-server/src/rpc.rs:332-342 | a run with such a notification leaves an attachment live: the condition can fail |
| `Connection.OthersAreLeftAlone` | crates/golutra-agent-app-server/src/rpc.rs:582-596 | a frame ends no attachment but the one held, or named when none is held |
| `Connection.ServedLeavesNothing` | crates/golutra-agent-app-server/src/rpc.rs:219-330 | a session that has ended holds nothing and nothing it made is live |
| `Connection.Session.DispatchRequest` | crates/golutra-agent-app-server/src/rpc.rs:332-419 | what a request does to attachments, on every path |
| `Connection.Session.UpdateConnectionAttachment` | crates/golutra-agent-app-server/src/rpc.rs:598-629 | the connection after a response |
| `Connection.Session.ReleaseTemporary` | crates/golutra-agent-app-server/src/rpc.rs:507-519 | a temporary attachment is released unless the response hands it over |
| `Connection.Session.ReceiveText` | crates/golutra-agent-app-server/src/rpc.rs:231-325 | one text frame, from dispatch to stream |
| `Connection.Session.WebSocketSession` | crates/golutra-agent-app-server/src/rpc.rs:219-330 | the whole session over its frames |
| `ConnectionRuntime.ClosedConnectionLeavesTheServer` | crates/golutra-agent-app-server/src/rpc.rs:219-330 | over every interleaving of a connection's awaits with all that others do to registry and runtimes, each entry it made is in its hands or was forgotten, its leases are counted, the runtimes' invariant holds, and after close no entry it made is left but forgotten ones, and no lease |
| `ConnectionRuntime.ClosedConnectionKeepsNoRuntime` | crates/golutra-agent-app-server/src/lib.rs:291-325 | after close a pruning drops the runtime of a directory without work that nobody else has a fresh attachment or a lease on |
| `ConnectionRuntime.BoundToOne` | crates/golutra-agent-app-server/src/rpc.rs:582-629 | over every such interleaving, between requests all that a connection made and is registered is the one attachment it is bound to or was forgotten, so a rotation has detached the previous one; a bound connection is served on its own; success binds it to what it used |
| `ConnectionRuntime.StreamsAreOnTheirOwn` | crates/golutra-agent-app-server/src/rpc.rs:289-330 | over every such interleaving each stream's lease is on the cell of the attachment the connection is bound to or is rotating away from; that attachment is registered with the cell exactly while the cell is not revoked, and no other has it |
| `ConnectionRuntime.OnlyForgettingForgets` | crates/golutra-agent-app-server/src/rpc.rs:332-342 | nothing is forgotten but by a detach notification of another version |
| `Framing.ReadBoundedLine` | crates/golutra-agent-app-server/src/rpc.rs:1347-1376 | takes exactly the first min(newline + 1, limit + 1, length) bytes however they arrive, and leaves the rest |
| `Framing.TakePiece` | crates/golutra-agent-app-server/src/ipc.rs:145-170 | one turn of the reading loop: what is buffered, through a newline and up to the room left |
| `Framing.ReadFrames` | crates/golutra-agent-app-server/src/rpc.rs:98-120 | the server's reading loop gives exactly the frames of the stream, then at most one error |
| `Framing.FramesAreLines` | crates/golutra-agent-app-server/src/rpc.rs:98-120 | for every stream the bounded reader gives its lines in order up to the first too long or unterminated one |
| `Framing.StreamHasLines` | crates/golutra-agent-app-server/src/rpc.rs:98-120 | every stream is such a list of lines and a rest |
| `Framing.LineIsTaken` | crates/golutra-agent-app-server/src/rpc.rs:1347-1376 | a terminated line is accepted whole and alone exactly when it is within the limit |
| `Framing.WriteThenRead` | crates/golutra-agent-app-server/src/rpc.rs:1288-1328 | frames that pass the outgoing bound are read back unchanged and in order |
| `CredentialStore.DiskStore.Load` | crates/golutra-agent-auth/src/credential.rs:200-237 | the map of the file, or an error |
| `CredentialStore.DiskStore.Save` | crates/golutra-agent-auth/src/credential.rs:239-281 | the new file and whether the save succeeded, for a fault before or after the replacement |
| `CredentialStore.DiskStore.Operate` | crates/golutra-agent-auth/src/credential.rs:283-329 | reply and file of each operation |
| `CredentialStore.SaveThenLoad` | crates/golutra-agent-auth/src/credential.rs:239-281 | a successful save loads back as the same map, and an empty map leaves no file |
| `CredentialStore.ActsAsOneMap` | crates/golutra-agent-auth/src/credential.rs:283-329 | over every interleaving of processes, crashes and faults the file and all replies are those of the operations one at a time in the order they took effect; each process leaves with its own operation's reply, and two are never inside |
| `CredentialStore.KindIsFixed` | crates/golutra-agent-auth/src/credential.rs:298-319 | while a credential stays present its kind stays the same |
| `CredentialStore.StoredIsReadBack` | crates/golutra-agent-auth/src/credential.rs:283-319 | a stored secret is read back until its own entry is set or deleted |
| `CredentialStore.EmptyLeavesNoFile` | crates/golutra-agent-auth/src/credential.rs:243-250 | no run leaves a file without credentials |
| `CliWait.ChangesAreStatusEvents` | crates/golutra-agent-protocol/src/projection.rs:53-84 | an event that changes a session's status, as the reducer has it, is one for which the waiting loop rereads the state |
| `CliWait.EndIsNeverMissed` | crates/golutra-agent-cli/src/main.rs:3105-3258 | in every run, while the loop waits and the task has ended, the event that ended it is still undelivered; what is returned is a terminal status the session had |
| `CliWait.EndIsReported` | crates/golutra-agent-cli/src/main.rs:3165-3230 | once the task has ended the loop returns after receiving no more than what is recorded, or gives up on a state that awaits an approval without naming it |
| `BenchAdapter.EvaluationAssertions` | tools/terminal_bench/golutra_agent_tbench_adapter.py:1264-1312 | the assertions of a trial, with the failure mode and the resolution appended when needed |
| `BenchAdapter.AllPassedMeans` | tools/terminal_bench/golutra_agent_tbench_adapter.py:1264-1312 | there is always an assertion; all pass only if the trial is resolved and reports no failure |
| `BenchAdapter.ReportIsConsistent` | tools/terminal_bench/golutra_agent_tbench_adapter.py:528-560 | pass, full score and no cause are the same; a cause names a failing phase, and exactly the stated phases fail |
| `BoundedText.TruncateIsBounded` | tools/terminal_bench/golutra_agent_tbench_adapter.py:1410-1417 | truncated text is within the limit and is the text itself exactly when it fits, else a prefix of whole characters |
| `BoundedText.WholeIsLongest` | tools/terminal_bench/golutra_agent_tbench_adapter.py:1410-1417 | no further character would have fitted |
| `BoundedText.JoinBoundedLines` | tools/terminal_bench/golutra_agent_tbench_adapter.py:1392-1407 | the loop gives the join of the chosen lines |
| `BoundedText.JoinIsBounded` | tools/terminal_bench/golutra_agent_tbench_adapter.py:1392-1407 | joined lines are within the limit, and when all fit only empty lines are left out |
| `NoProxy.MergeNoProxy` | tools/terminal_bench/golutra_agent_tbench_adapter.py:1043-1061 | the loop gives the joined list of the entries kept |
| `NoProxy.MergeIsFaithful` | tools/terminal_bench/golutra_agent_tbench_adapter.py:1043-1061 | for any case folding the list is some of the candidates, stripped and in order, no two with the same folding, within both limits; a usable candidate is missing only if the list is full or it does not fit |
| `NoProxy.MergeAgain` | tools/terminal_bench/golutra_agent_tbench_adapter.py:1043-1061 | merging is idempotent: the list made from hosts without commas, read back, gives itself |

## Left out

- HTTP routing, WebSocket and socket plumbing, authentication headers and disclosure checks: input and output over libraries.
- JSON parsing and serialization: requests, payloads and stored documents are modelled as the fields the code reads, and serialized lengths are inputs.
- The provider runtime, the task loop and the SQLite repositories: only what the modelled code asks of them, as inputs or as the last matching event of a log.
- Attachments.AttachmentRegistry.PruneExpiredAt: does not return the list of runtime keys, which no caller uses.
- OAuthInvariants.RunInv: models resolving a credential as the steps between its awaits and not as a class; account ids and a response that cannot be decoded are not modelled.
- LeaseProtocol.DrainIsFinal: the lease counter is modelled as the atomic steps of its methods and not as a class.
- Logout, or a second login, running together with a refresh: the code orders neither with it.
- Titles and contents of stream items: they are copied from the payload.
- Starting an Agent stream at a cursor without a start cursor: it begins a fresh projection there and promises no continuation.
- AgentStream.AgentEventsLoop: runs over the deliveries received before the connection is closed or cancelled.
- The stdio session loop: it treats attachments as the WebSocket loop does, but leaves without detaching when writing fails, as the process then ends.
- Connection.ConnectionLeavesNothing: each frame is handled in one step, with a set of live attachments for the server; the steps between, and the server itself, are in ConnectionRuntime.
- ConnectionRuntime.ClosedConnectionLeavesTheServer: the connection's task runs to its end; that a temporary attachment is given back when the task itself is dropped is not modelled.
- AppServer.AppState.DetachAttachment: stops where the source waits without the lock; the wait is LeaseProtocol and the pruning after it is PruneUnreferencedRuntimesLocked.
- Events written to the same store by another process while a host records: one host writes at a time.
- CredentialStore.ActsAsOneMap: environment and in-memory credentials, file permissions and symbolic links are not modelled.
- CliWait.EndIsNeverMissed: the subscription delivers everything after its cursor in order; the state is modelled as its active task, status and pending approval.
- BenchAdapter.EvaluationAssertions: messages and evidence references of assertions and phases, timestamps and durations are not modelled; only ASCII letters are lowered.
- Agent facade, MCP adapter, configuration, packaging and benchmark scripts: forwarding, fixtures and plain data.
