# Fubun: model and proofs

Fubun is a local daemon that runs short, user-approved lists of actions ("rituals") through connected adapters and keeps
a durable history in SQLite behind one writer thread. A browser extension and a VS Code extension talk to it over
length-prefixed frames. This project models the parts of Fubun whose correctness depends on interleaving, on crashes, or
on two pieces of code agreeing, and proves what they promise.

Interleavings are modelled by event-driven step systems over values: between any two steps every other process, a crash,
or any later callback may come in. The loops and in-place updates of the execution store, the executor, the registry, the
decoder, the bridge and the session are also modelled as classes and methods with the original's fields, proved against
the same functions the step systems use; so are the ritual store's transactions (update and approvals) and the event
insert. The other ritual, resource and scope operations, and `ensureConnected` and `establish` with their awaits, exist as
steps only.

A run is a sequence of events; an event that is not possible in a state leaves it unchanged, so a statement about
`Run(START, evs)` for all `evs` is a statement about every reachable state. Fresh identifiers (UUIDs, connection tokens,
ports) are modelled by events that do nothing when the identifier was used before.

| File | What it models |
|---|---|
| `Domain.dfy`, `Wrappers.dfy` | the shared entities, validity of actions and definitions, the action descriptors |
| `History.dfy`, `HistoryStore.dfy` | the execution tables, one function per SQL statement; the store object and reading back |
| `CrashSafety.dfy` | runs, crashes at any statement boundary, start-up recovery |
| `Executor.dfy` | the executor's loop, its four ways out, finalization, deadlines |
| `Selection.dfy` | requirements, eligibility, the choice of an adapter, hello validation |
| `Registry.dfy`, `Dispatch.dfy`, `DispatchOutcomes.dfy`, `AdapterManager.dfy` | the adapter registry's lock sections as steps; dispatches; where their outcomes come from; the object |
| `Versions.dfy`, `Approvals.dfy`, `RitualRuns.dfy`, `RitualStore.dfy` | ritual handlers under interleaving; versions; approvals; what each handler does and when a run starts; the store object |
| `Preview.dfy` | the two separately written checkers of a ritual |
| `Events.dfy` | the event store, ingestion, observation scopes |
| `Framing.dfy` | encoders, the streaming decoder, the daemon's reader |
| `Bridge.dfy`, `BridgeConnects.dfy`, `NativeBridge.dfy` | the browser bridge's event loop; from a call to a connection and from a request to its answer; the bridge object |
| `Session.dfy`, `SessionConnects.dfy`, `AdapterSession.dfy` | the VS Code session's event loop; from a start to a connection and from an emit call to its result; the session object |
| `StaleFlag.dfy` | when the session's connected flag is stale, and what that does to the order of hello and events |

Four results say where the code promises less than a first reading suggests, each with the exact condition:

- A ritual can be Active with a current version nobody approved. An update that commits between the approvals and the
  status write of an activation does it (`Approvals.ActiveWithoutApproval`), nothing else does
  (`OnlyActivationCanBreakIt`), and the status write does it exactly when no activation that had loaded the version now
  current has committed its approvals (`ActivationApprovesIffStillCurrent`). No execution starts without approvals all the same.
- When a chunk contains a bad frame, the streaming decoder drops the good frames of that same chunk. What is delivered
  depends on how the stream was cut exactly when a good frame comes before the bad one
  (`Framing.DeliveryDependsOnTheCutIff`).
- The two frame readers differ on an empty frame: the extension throws, the daemon reads an empty payload
  (`Framing.EmptyFrameSplitsReaders`). On a stream the extension throws on, that is the only way they can differ, and they
  always do (`ReadersSplitIff`).
- The VS Code session sets `connected` without looking whether its transport is still there (adapter-session.ts:197-199).
  The flag goes stale exactly when the handler of an acknowledged hello runs while there is no transport
  (`StaleFlag.GoesStaleIff`); a hello acknowledgement and an unreadable frame in one chunk do that (`FlagBecomesStale`).
  As long as it never happens, events go only to transports whose hello was acknowledged (`EventsFollowHello`); once it
  has, from every stale state, some continuation writes an event before any acknowledgement (`StaleFlagLeaks`).

Clock readings, adapter replies, storage faults, message contents and what the file system answers are inputs. SHA-256,
JSON and URL canonicalisation are arbitrary functions.

## Model

| member | source | states |
|---|---|---|
| `History.InsertStepsRows` | crates/fubun-storage/src/lib.rs:1346-1369 | a successful insert of the steps adds exactly these rows, all of them new, and leaves the others alone |
| `CrashSafety.ReachableInv` | crates/fubun-storage/src/lib.rs:1307-1413 | in every reachable state, with crashes between any two statements, a Running execution holds its ritual's lock, and each unfinished step belongs to a Running execution or one that recovery is aborting |
| `CrashSafety.RunStartsIff` | crates/fubun-storage/src/lib.rs:1307-1344 | a run starts exactly if the daemon serves, the execution is Running with pending steps in order, the ritual is not locked and all ids are new; then exactly its rows and its lock are added |
| `CrashSafety.AtMostOneRunning` | crates/fubun-storage/src/lib.rs:692-697 | a ritual never has two Running executions |
| `CrashSafety.FinishedRunFreesRitual` | crates/fubun-storage/src/lib.rs:1371-1392 | finishing a run releases exactly its own lock; the ritual could not start before and can start again |
| `CrashSafety.GivenUpRunBlocksRitual` | crates/fubun-core/src/lib.rs:1556-1732 | a run that gives up after a storage error stays Running and its ritual locked through anything but a crash and its recovery |
| `CrashSafety.FinishedForever` | crates/fubun-storage/src/lib.rs:1394-1413 | finished steps and ended executions never change again, across runs, crashes and recoveries |
| `CrashSafety.CompletedRecoveryIsClean` | crates/fubun-storage/src/lib.rs:1571-1591 | whenever recovery completes, however often it was cut before, nothing is Running, no lock is held and no step is unfinished |
| `CrashSafety.CrashedDaemonServesAgain` | crates/fubun-core/src/lib.rs:108-113 | after a crash in any state three statements lead back to serving, with the recovered tables and nothing in flight |
| `CrashSafety.RecoveryTouchesOnlyLeftovers` | crates/fubun-storage/src/lib.rs:1571-1591 | recovery aborts exactly the running executions and unfinished steps, changing only their status, closing time (that of the recovery), code and message; it is idempotent; cut after any statement and run again at any later time it ends in the same tables, but for the closing time of steps not yet closed |
| `HistoryStore.Store.StartExecution` | crates/fubun-storage/src/lib.rs:1307-1344 | one transaction: all rows and the lock, or nothing |
| `HistoryStore.Store.UpdateStep` | crates/fubun-storage/src/lib.rs:1394-1413 | changes the mutable columns of one row, or fails, with which error, and changes nothing |
| `HistoryStore.Store.UpdateExecution` | crates/fubun-storage/src/lib.rs:1371-1392 | two separately committed statements: which failure leaves nothing, and which leaves the row written and the lock held |
| `HistoryStore.Store.AbortRunningExecutions` | crates/fubun-storage/src/lib.rs:1571-1591 | three separately committed statements; it succeeds exactly if none fails, and which one failed decides which of three partial results is left |
| `HistoryStore.OrderedByIndexIsSorted` | crates/fubun-storage/src/lib.rs:1425-1453 | reading rows by step index gives back any index-ordered list of them |
| `HistoryStore.ViewIsReadBack` | crates/fubun-storage/src/lib.rs:1425-1453 | what a run believes is what reading the execution back returns, when it agrees with the tables |
| `HistoryStore.ReadBackInEveryInterleaving` | crates/fubun-storage/src/lib.rs:1425-1453 | in every reachable state reading a run in flight back gives its own view, steps in index order |
| `HistoryStore.FinalizedReadsBackForever` | crates/fubun-storage/src/lib.rs:1425-1453 | a finalized execution reads back the same after anything that can happen later |
| `Executor.StartedRunIsReady` | crates/fubun-storage/src/lib.rs:1307-1344 | what start_execution commits is what the executor needs to begin |
| `Executor.FollowKeepsView` | crates/fubun-core/src/lib.rs:1556-1780 | statements that follow the run protocol keep the executor's view equal to the tables |
| `Executor.Settle` | crates/fubun-core/src/lib.rs:1606-1679 | how an outcome is recorded; a timeout under the ritual's limit leaves the step to finalization, any other failure is written |
| `Executor.TakeTurn` | crates/fubun-core/src/lib.rs:1566-1680 | one turn: its verdict, the step it leaves in memory and the step it leaves in the table |
| `Executor.RunActions` | crates/fubun-core/src/lib.rs:1563-1680 | the loop stops at the first action that does not succeed; all before went well, all after are untouched |
| `Executor.FinalizeUnfinishedSteps` | crates/fubun-core/src/lib.rs:1734-1759 | closes exactly the pending and running steps and writes through what was only in memory |
| `Executor.DecideStatus` | crates/fubun-core/src/lib.rs:1639-1708 | the final status and failure code for each way out of the loop |
| `Executor.CloseSteps` | crates/fubun-core/src/lib.rs:1681-1708 | after the loop every step is finished and the history has its shape |
| `Executor.CommitResult` | crates/fubun-core/src/lib.rs:1708-1731 | the internal checks do not fire, and an Ok result is what the tables hold |
| `Executor.ExecuteSteps` | crates/fubun-core/src/lib.rs:1556-1732 | every Ok run has the history shape, reads back exactly as returned and has released its lock; every run, also a failing one, follows the protocol; it fails only on a fault among its own storage calls or, after turns that went well, on a missing resource; its reply waits exceed the ritual's timeout by no more than the lateness of the last timer |
| `Executor.RunGoesOnWhileAnswered` | crates/fubun-core/src/lib.rs:1566-1680 | on the turns alone: the run goes on exactly as long as there is time before the deadline and the replies say succeeded or skipped |
| `Executor.RepliesAreRecorded` | crates/fubun-core/src/lib.rs:1607-1634 | a reply that was waited for in time is recorded with its status, sender, code and message; a failed one ends the run as action_failed |
| `Executor.StepStatusIsTheReplys` | crates/fubun-core/src/lib.rs:1615-1634 | a step says succeeded, or skipped, exactly if its turn was taken and its reply said so |
| `Executor.ErrorsAreRecorded` | crates/fubun-core/src/lib.rs:1650-1678 | each dispatch error is recorded with its own code and message, unless it is a timeout with at most the action's ten seconds left to the deadline, which is the ritual's timeout |
| `Executor.UntakenStepsAreClosed` | crates/fubun-core/src/lib.rs:1681-1706 | steps that were not come to are closed at the end of the run as timed out or stopped after a failure, and nothing else of them changes |
| `Executor.StatusFollowsTheTurns` | crates/fubun-core/src/lib.rs:1634-1708 | the execution is Succeeded exactly if every turn had time left and was answered without a failure, and Failed exactly if already the first was not |
| `Executor.RedactedMessage` | crates/fubun-core/src/lib.rs:1782-1788 | a recorded message has at most 160 characters and no control characters; a short clean one is kept |
| `Executor.StatusCountsSteps` | crates/fubun-core/src/lib.rs:1634-1708 | Succeeded, Failed, Partial exactly when all, none, some of the steps went well |
| `Executor.TimeoutIsBlamedOnTheSmallerLimit` | crates/fubun-core/src/lib.rs:1601-1677 | action_timeout is recorded exactly when the action's own limit was strictly below the time left |
| `Executor.ReplyWaitsWithinTimeout` | crates/fubun-core/src/lib.rs:1563-1604 | the reply waits of a run add up to at most the ritual's timeout plus the lateness of the last timer |
| `Executor.StatementsAreEvents` | crates/fubun-core/src/lib.rs:1556-1759 | the statements an executor commits are possible events of the crash model and have the same effect there |
| `Executor.RunTouchesOnlyItself` | crates/fubun-storage/src/lib.rs:1371-1413 | a run changes its own rows only and gives up its own lock only, at its end |
| `Selection.TextOrderIsNumericOrder` | crates/fubun-core/src/adapter.rs:526 | sorting by the text of a UUID is sorting by its number |
| `Selection.SelectEligible` | crates/fubun-core/src/adapter.rs:510-536 | finds the numerically least eligible instance, and fails exactly when there is none, for every walk order of the map |
| `Selection.TabSelectionIff` | crates/fubun-core/src/adapter.rs:563-600 | a tab is placed exactly if some Chromium adapter offers it and lists the page as permitted; the least such instance is picked |
| `Selection.AppSelectionIff` | crates/fubun-core/src/adapter.rs:563-600 | an app is placed exactly if some one Linux adapter offers it, has gtk-launch available and lists the desktop entry |
| `Selection.PathSelectionIff` | crates/fubun-core/src/adapter.rs:563-600 | a path is placed exactly if some one Linux adapter offers it and has xdg-open available |
| `Selection.NotificationSelectionIff` | crates/fubun-core/src/adapter.rs:563-600 | a notification is placed exactly if some one Linux adapter offers it and has notify-send available |
| `Selection.SelectionIsUnique` | crates/fubun-core/src/adapter.rs:510-536 | that specification has one answer, so map order cannot matter |
| `Selection.CapabilityErrorMeansNotAtHome` | crates/fubun-core/src/adapter.rs:185-236 | the chain of capability checks accepts exactly the well-formed capabilities that belong to this adapter |
| `Selection.ValidateHello` | crates/fubun-core/src/adapter.rs:163-238 | a hello is accepted exactly when its version is well formed and its 1 to 16 capabilities are different and each one of the few its adapter may offer; a rejected one gets the error of the first check that fails |
| `Selection.AtHomeMeans` | crates/fubun-core/src/adapter.rs:185-236 | the six capabilities and the one adapter that may offer each |
| `Domain.Utf8LengthGrows` | crates/fubun-core/src/adapter.rs:169-195 | lengths are counted in UTF-8 bytes: one to four for each character |
| `Selection.ValidatedCapabilityIsAllowed` | crates/fubun-core/src/adapter.rs:602-610 | for validated adapters the identity check of the selection adds nothing |
| `Selection.ApprovedCapabilityIsRequired` | crates/fubun-policy/src/lib.rs:97-152 | the approved, the required and the offered capability of an action are one, with one home adapter |
| `Dispatch.ReachableInv` | crates/fubun-core/src/adapter.rs:240-440 | the whole registry invariant holds in every interleaving of register, disconnect, shutdown, execute and resolve |
| `Dispatch.PendingIsCurrentOrDrained` | crates/fubun-core/src/adapter.rs:240-318 | a pending request's token is current for its instance or is being drained by an unfinished replace, disconnect or shutdown |
| `Dispatch.DrainRetires` | crates/fubun-core/src/adapter.rs:303-318 | the end of a token's drain retires it: issued, not current, drained by nobody |
| `Dispatch.RetiredTokenNeverPends` | crates/fubun-core/src/adapter.rs:538-555 | no request with a retired token is or ever becomes pending |
| `Dispatch.DisconnectSparesOthers` | crates/fubun-core/src/adapter.rs:270-291 | a disconnect leaves the requests of every other connection pending and unanswered, whether it is stale or not |
| `Dispatch.StaleDisconnectChangesNothing` | crates/fubun-core/src/adapter.rs:270-291 | the disconnect of a connection that is no longer current leaves connections, requests and channels as they are |
| `Dispatch.PendingIsUnanswered` | crates/fubun-core/src/adapter.rs:333-439 | the pending map is exactly the set of unanswered dispatches in flight, one owner each |
| `Dispatch.SettledDispatch` | crates/fubun-core/src/adapter.rs:395-439 | a settled dispatch has left no entry, a success came from an action result with both of its ids, a waiting receiver never loses its sender |
| `Dispatch.ResponseDecides` | crates/fubun-core/src/adapter.rs:417-439 | a response that names a waiting dispatch decides it: success exactly for an action result with the right action execution id |
| `Dispatch.DrainDisconnects` | crates/fubun-core/src/adapter.rs:293-318 | the end of a drain decides every pending dispatch with the drained token: it wakes as disconnected |
| `Dispatch.DrainDisconnectsSending` | crates/fubun-core/src/adapter.rs:293-415 | a dispatch whose token is drained while its request is still being sent settles as disconnected too |
| `Dispatch.OutcomeIsFinal` | crates/fubun-core/src/adapter.rs:333-415 | a dispatch has one outcome, for good |
| `Dispatch.PostedRequestIsEligible` | crates/fubun-core/src/adapter.rs:333-383 | although selection and insertion are separate lock sections, the connection meets the requirements when the request is inserted |
| `DispatchOutcomes.ChoiceIff` | crates/fubun-core/src/adapter.rs:333-355 | a dispatch is rejected as unavailable exactly if nothing is connected, as not capable exactly if nothing connected is eligible, and else gets the selection's answer |
| `DispatchOutcomes.PostIff` | crates/fubun-core/src/adapter.rs:370-384 | its request is inserted exactly if the chosen connection is still current; else it is rejected as disconnected |
| `DispatchOutcomes.SendDecides` | crates/fubun-core/src/adapter.rs:385-390 | a request that cannot be sent settles its dispatch as disconnected, one that is sent makes it wait |
| `DispatchOutcomes.TimeoutSettles` | crates/fubun-core/src/adapter.rs:391-414 | a waiting dispatch without a sent reply settles as timed out when its timer runs out, and leaves no entry; with a sent reply the timer does nothing |
| `DispatchOutcomes.CancelSettles` | crates/fubun-core/src/adapter.rs:612-640 | a dispatch that is dropped undecided leaves no entry |
| `DispatchOutcomes.ShutdownFailsEverything` | crates/fubun-core/src/adapter.rs:293-301 | a shutdown clears the connections, and its drain fails every request then pending as disconnected |
| `DispatchOutcomes.DispatchCanSucceed` | crates/fubun-core/src/adapter.rs:333-439 | in every reachable state with an eligible connection a new dispatch that is sent and answered with an action result settles with that result |
| `DispatchOutcomes.EveryOutcomeHasItsCause` | crates/fubun-core/src/adapter.rs:333-439 | whatever a dispatch settles as, the run holds the event that caused it: the response heard, the timer, the failed send, the drain, the cancellation |
| `DispatchOutcomes.TimedOutByItsTimer` | crates/fubun-core/src/adapter.rs:410-413 | only its own timer, before any reply was sent, times a dispatch out |
| `AdapterManager.Manager.FailPendingForToken` | crates/fubun-core/src/adapter.rs:303-318 | removes exactly the requests with this token |
| `AdapterManager.Manager.Register` | crates/fubun-core/src/adapter.rs:240-262 | a valid hello replaces its instance's connection and fails that connection's requests only |
| `AdapterManager.Manager.DisconnectIfCurrent` | crates/fubun-core/src/adapter.rs:270-291 | removes the connection and its requests if the token is current, else nothing |
| `AdapterManager.Manager.Shutdown` | crates/fubun-core/src/adapter.rs:293-301 | empties both maps |
| `AdapterManager.Manager.InsertPendingIfCurrent` | crates/fubun-core/src/adapter.rs:538-555 | inserts exactly if the token is current |
| `AdapterManager.Manager.Resolve` | crates/fubun-core/src/adapter.rs:417-451 | takes the entry out, marks its connection as seen now and answers it: with the result exactly for the right action id and an action result, else with a protocol error |
| `AdapterManager.RegisterIsInsertThenDrain` | crates/fubun-core/src/adapter.rs:240-262 | run without interruption, the two steps of a registration do what the method does |
| `AdapterManager.DisconnectIsRemoveThenDrain` | crates/fubun-core/src/adapter.rs:270-291 | the same for a disconnect, stale or not |
| `Versions.InsertApprovalsRows` | crates/fubun-storage/src/lib.rs:888-912 | a successful insert adds exactly these approvals, all new |
| `Versions.VersionsAreNumbered` | crates/fubun-core/src/lib.rs:995-1047 | in every interleaving a ritual's version numbers are exactly 1..n, without repetition, and its current version is n |
| `Versions.UpdateCommitsIffCurrent` | crates/fubun-storage/src/lib.rs:1133-1181 | an update commits exactly when the version it read is still current, its id is new and the number is not saturated |
| `Versions.StaleUpdateRollsBack` | crates/fubun-storage/src/lib.rs:1133-1181 | in every reachable state a stale or saturated update changes no table; a live one adds its version under exactly the next number and makes the ritual a draft under the new name |
| `RitualRuns.RequestsAreAccepted` | crates/fubun-core/src/lib.rs:930-942 | which definitions are accepted: name, one to sixteen valid actions without immediate repetition, a timeout of 1 to 120 seconds |
| `RitualRuns.CreateStores` | crates/fubun-core/src/lib.rs:944-993 | a create stores a draft with version 1, or nothing exactly if an id is taken |
| `RitualRuns.UpdateStores` | crates/fubun-core/src/lib.rs:995-1047 | an uninterrupted update stores its definition as the next version; it changes nothing exactly if the ritual is missing, the numbers are used up or the id is taken |
| `RitualRuns.PauseStores` | crates/fubun-core/src/lib.rs:1300-1324 | an uninterrupted pause leaves the ritual paused unless it is missing or archived |
| `RitualRuns.InsertApprovalsIff` | crates/fubun-storage/src/lib.rs:888-912 | the approvals are inserted exactly if their ids are new and differ |
| `RitualRuns.ActivationStores` | crates/fubun-core/src/lib.rs:1241-1298 | an uninterrupted activation approves each action of the current version and leaves the ritual Active, exactly if its preview is executable and its ids are new; else it changes no table |
| `RitualRuns.RunStartsIff` | crates/fubun-core/src/lib.rs:1326-1410 | in every interleaving a run request starts an execution exactly if the ritual was Active when loaded, each action of the version then current was approved when the approvals were listed, the other checks passed and the lock was free |
| `RitualRuns.ActivatedRitualRuns` | crates/fubun-core/src/lib.rs:1241-1410 | a run directly after a completed activation does start, on the version that was activated |
| `Approvals.StartedRunsAreApproved` | crates/fubun-core/src/lib.rs:1326-1464 | a started execution was loaded, by its own request, while its ritual was Active with that version current, and each action has a matching approval made by an activation that had loaded that version |
| `Approvals.ActiveWithoutApproval` | crates/fubun-core/src/lib.rs:1241-1298 | a concrete interleaving leaves a ritual Active with an unapproved version |
| `Approvals.SomebodyApprovedIff` | crates/fubun-core/src/lib.rs:1258-1289 | a stored version is approved exactly when an approving activation that had loaded it has committed |
| `Approvals.OnlyActivationCanBreakIt` | crates/fubun-core/src/lib.rs:1287-1298 | no other event can make a ritual Active without approvals |
| `Approvals.ActivationApprovesIffStillCurrent` | crates/fubun-core/src/lib.rs:1287-1298 | the status write leaves an approved ritual exactly when some committed activation had loaded the version that is now current, as its own has if that is still the one it loaded |
| `RitualStore.Store.UpdateRitual` | crates/fubun-storage/src/lib.rs:1133-1160 | the row write is rolled back when the version row collides |
| `RitualStore.Store.CreateApprovals` | crates/fubun-storage/src/lib.rs:888-912 | all approvals or none |
| `Preview.PreviewOne` | crates/fubun-core/src/lib.rs:1095-1222 | an action has no warning exactly when it is runnable on this snapshot; which fields and warnings it has otherwise, in order |
| `Preview.BuildPreview` | crates/fubun-core/src/lib.rs:1089-1230 | the preview is executable exactly when every action is runnable; one entry per action, in order, and numbered warnings for exactly those that are not |
| `Preview.PreflightOne` | crates/fubun-core/src/lib.rs:1426-1541 | accepts exactly a runnable and approved action; otherwise the error names the first check that fails |
| `Preview.Preflight` | crates/fubun-core/src/lib.rs:1420-1541 | accepts exactly a runnable ritual whose actions are all approved; otherwise the error is that of the first action that is not |
| `Preview.RunnableMeans` | crates/fubun-core/src/lib.rs:1426-1541 | what a runnable action of each kind is, on the hellos, resources, scopes and the file system |
| `Preview.PreviewThenPreflight` | crates/fubun-core/src/lib.rs:1420-1541 | on one snapshot preflight passes exactly when the preview is executable and the actions are approved |
| `Preview.ActivationLeavesApprovals` | crates/fubun-core/src/lib.rs:1258-1297 | an activation leaves, for good, approvals that satisfy the list a later preflight reads |
| `Preview.ApprovalsReachTheRun` | crates/fubun-core/src/lib.rs:1258-1464 | after an activation and anything the ritual handlers do, a run of the same version lists approvals for all its actions |
| `Preview.ActivateThenRun` | crates/fubun-core/src/lib.rs:1258-1541 | on one world, an activation with an executable preview, then any events, then a run of the same version passes preflight |
| `Preview.DispatchPicksTheSame` | crates/fubun-core/src/adapter.rs:324-345 | dispatch picks the instance preflight found while connections are only touched |
| `Events.EventStore.Insert` | crates/fubun-storage/src/lib.rs:1790-1852 | an insert succeeds exactly on a free id and slot and a 63-bit number; a rejected one leaves both tables as they were |
| `Events.InsertKeepsEventRows` | crates/fubun-storage/src/lib.rs:1790-1852 | an insert keeps slots unique and last_sequence_no the maximum |
| `Events.StoredOnce` | crates/fubun-core/src/lib.rs:552-719 | per instance and sequence number at most one ack says stored, and what it acknowledges is in the table |
| `Events.LastSequenceIsMaximum` | crates/fubun-storage/src/lib.rs:1790-1852 | in every reachable state last_sequence_no is the maximum over the instance's events, and slots are unique |
| `Events.SemanticEventsAreObserved` | crates/fubun-core/src/lib.rs:593-719 | a stored browser or VS Code event came through the adapter path and names an existing resource of the right kind with a matching scope row |
| `Events.EnablementIsStable` | crates/fubun-core/src/lib.rs:790-928 | enabling a locator any number of times, in any interleaving and across pauses, gives one resource id and one scope id |
| `Events.BrowserReportIsStoredIff` | crates/fubun-core/src/lib.rs:593-719 | a page report of a Chromium adapter is refused, stored, or found to be a duplicate, each exactly when; and the event that is stored, field by field |
| `Events.WorkspaceReportIsStoredIff` | crates/fubun-core/src/lib.rs:593-719 | the same for a workspace report of a VS Code adapter |
| `Events.OtherReportsAreRefused` | crates/fubun-core/src/lib.rs:613-622 | no other adapter may report anything |
| `Events.IngestIsStoredIff` | crates/fubun-core/src/lib.rs:552-591 | a client event is stored exactly if it is a valid synthetic one with a free id and slot |
| `Events.PausedIsNotReported` | crates/fubun-storage/src/lib.rs:1005-1028 | while a scope is paused no report of its resource by its source is stored |
| `Events.LocatorIsEnabledIff` | crates/fubun-core/src/lib.rs:790-928 | a locator is enabled exactly if no resource of another kind has it; it then has a resource and an active scope of the source |
| `Framing.HeaderRoundTrip` | packages/fubun-protocol-ts/src/index.ts:53-60 | decoding an encoded length gives it back, and so does reading its bytes with the least significant first |
| `Framing.HeaderIsInjective` | crates/fubun-protocol/src/lib.rs:650-656 | every header is the encoding of the number its bytes stand for, the least significant first |
| `Framing.EncodeUdsFrame` | packages/fubun-protocol-ts/src/index.ts:53-60 | fills a buffer with the length in four bytes, least significant first, and the payload, in place; fails exactly above 262144 bytes |
| `Framing.EncodeJsonFrame` | crates/fubun-protocol/src/lib.rs:635-648 | the other encoder writes the same frame |
| `Framing.LittleEndianDigit` | packages/fubun-protocol-ts/src/index.ts:53-60 | byte i of a number written least significant first is its digit i in base 256 |
| `Framing.FrameIsEncoded` | crates/fubun-protocol/src/lib.rs:635-648 | the bytes of that form are exactly the encoded ones |
| `Framing.UdsFrameDecoder.Push` | extensions/vscode/src/uds.ts:43-60 | one push is a whole-stream parse of buffer and chunk; a bad frame loses the values of that push; what its first four bytes decide |
| `Framing.ParseInParts` | extensions/vscode/src/uds.ts:46-59 | a stream may be parsed in two parts, the leftover carried over |
| `Framing.ChunkingInvariance` | extensions/vscode/src/uds.ts:43-60 | every way of cutting a stream without a bad frame delivers its frames and its leftover; with a bad frame it closes and delivers a prefix |
| `Framing.ByteByByteDeliversAll` | extensions/vscode/src/uds.ts:43-60 | byte by byte, everything before the bad frame is delivered |
| `Framing.DeliveryDependsOnTheCutIff` | extensions/vscode/src/uds.ts:43-60 | with a bad frame the delivery depends on the cut exactly when a good frame comes before it |
| `Framing.GoodFrameBeforeBadHeader` | extensions/vscode/src/uds.ts:43-60 | a stream with a good frame before a bad header |
| `Framing.FramesRoundTrip` | extensions/vscode/src/uds.ts:43-60 | encoded payloads of 1 to 262144 bytes, cut in any way, come out exactly, with an empty buffer |
| `Framing.FrameReader.ReadExact` | crates/fubun-protocol/src/lib.rs:656-666 | reads n bytes or fails at the end of the stream |
| `Framing.FrameReader.ReadFrame` | crates/fubun-protocol/src/lib.rs:650-667 | reads one frame by its four length bytes, least significant first; the clean end is reported only where a frame would begin; which error exactly when |
| `Framing.CleanEndIsFrameBoundary` | crates/fubun-protocol/src/lib.rs:650-667 | a clean end means the stream was a sequence of whole frames |
| `Framing.ReadEncoded` | crates/fubun-protocol/src/lib.rs:635-667 | the reader yields exactly the encoded payloads and a clean end |
| `Framing.ReadersAgree` | crates/fubun-protocol/src/lib.rs:650-667 | on a stream the extension accepts, both readers yield the same frames, and clean end means no leftover |
| `Framing.ReadersSplitIff` | crates/fubun-protocol/src/lib.rs:650-667 | on a stream the extension throws on, the daemon yields other frames exactly when the bad header announces an empty frame, which it reads and goes on; on any other bad header it stops after the same frames as oversized |
| `Framing.EmptyFrameSplitsReaders` | crates/fubun-protocol/src/lib.rs:657-666 | the shortest stream on which the readers differ |
| `Framing.DecodeIsParseOfOne` | packages/fubun-protocol-ts/src/index.ts:62-67 | the one-frame decoder accepts exactly what the streaming decoder reads as one value with nothing left |
| `Bridge.ReachableInv` | extensions/browser/src/native-bridge.ts:32-256 | the bridge invariant holds in every order of calls, continuations, messages, disconnects and timers |
| `Bridge.EnterKeepsTimersIff` | extensions/browser/src/native-bridge.ts:157-163 | timers stay matched to requests exactly when the new request's id is not already pending |
| `Bridge.SettledExactlyOnce` | extensions/browser/src/native-bridge.ts:153-175 | an accepted request is pending and unsettled or settled exactly once; its timer is set exactly while it is pending; never more than the maximum |
| `Bridge.OutcomeIsFinal` | extensions/browser/src/native-bridge.ts:177-202 | an outcome never changes |
| `Bridge.TimerSettles` | extensions/browser/src/native-bridge.ts:157-162 | when its timer goes off, a pending request is settled by that alone |
| `Bridge.MessageSettlesItsRequest` | extensions/browser/src/native-bridge.ts:177-202 | a message settles a request exactly if it comes on the current port, names it and is no action to execute: an error or another type rejects it, each as such, the expected type resolves it |
| `Bridge.NothingPendingAfterLoss` | extensions/browser/src/native-bridge.ts:204-232 | right after the current port is lost or replaced nothing is pending and each request was rejected once, with the reason of the loss |
| `Bridge.ResolvedByItsAnswer` | extensions/browser/src/native-bridge.ts:177-202 | a request is resolved only by a message with its own id and the type it expects |
| `Bridge.ReadyPortWasGreeted` | extensions/browser/src/native-bridge.ts:127-151 | a ready bridge has one open port, and that port itself answered its hello |
| `Bridge.OneAttemptAtATime` | extensions/browser/src/native-bridge.ts:109-125 | two connections are never being made at once |
| `BridgeConnects.HelloDecides` | extensions/browser/src/native-bridge.ts:127-151 | an answered hello makes the bridge ready exactly if its port is still current; otherwise there is no port, and what was pending is rejected with it |
| `BridgeConnects.FailedHelloGivesUp` | extensions/browser/src/native-bridge.ts:138-150 | a hello that cannot be made, is too large or is refused ends the attempt the same way |
| `BridgeConnects.CallOpensPort` | extensions/browser/src/native-bridge.ts:109-136 | with nothing connected a call opens the next port, or fails and schedules a reconnect if one is desired |
| `BridgeConnects.ReconnectReplaces` | extensions/browser/src/native-bridge.ts:65-70 | a reconnect rejects what was pending, clears the alarm and opens the next port unless an attempt is being made |
| `BridgeConnects.ReconnectRings` | extensions/browser/src/native-bridge.ts:234-243 | the alarm opens a port exactly if one is desired and there is none, nor one being made |
| `BridgeConnects.StartConnects` | extensions/browser/src/native-bridge.ts:60-151 | in every reachable state without a connection or an attempt, a start whose hello is acknowledged ends in a ready bridge on the new port |
| `BridgeConnects.RequestIsAnswered` | extensions/browser/src/native-bridge.ts:82-202 | a request made while ready and answered on its port with the expected type is resolved with that message, and nothing else changes |
| `NativeBridge.BrowserNativeBridge.RejectAll` | extensions/browser/src/native-bridge.ts:226-232 | the loop empties the map, clears every timer and rejects each request once |
| `NativeBridge.BrowserNativeBridge.CloseCurrentPort` | extensions/browser/src/native-bridge.ts:212-224 | no port, not ready, nothing pending |
| `Bridge.ScheduleMeans` | extensions/browser/src/native-bridge.ts:234-243 | afterwards a reconnect is scheduled exactly if one was or it is desired, with one alarm; every request timer stays; a new one doubles the next delay, up to 30 seconds |
| `Bridge.CancelMeans` | extensions/browser/src/native-bridge.ts:245-250 | afterwards no reconnect alarm is set, and every request timer still is |
| `Bridge.StopMeans` | extensions/browser/src/native-bridge.ts:72-76 | afterwards no timer of any kind is set, nothing is pending, and each request that was has been rejected once |
| `Bridge.RequestMeans` | extensions/browser/src/native-bridge.ts:153-175 | a request is taken in exactly below the maximum; it is then pending under its own timer, or rejected without one if the port throws |
| `NativeBridge.BrowserNativeBridge.RequestOnPort` | extensions/browser/src/native-bridge.ts:153-175 | accepts exactly below the maximum; a failing write takes entry and timer back and rejects |
| `Bridge.TimeoutMeans` | extensions/browser/src/native-bridge.ts:157-162 | an alarm that goes off ends its own request with the timeout and touches no other |
| `NativeBridge.BrowserNativeBridge.HandleMessage` | extensions/browser/src/native-bridge.ts:177-202 | a message of the current port settles the request it names, by its type |
| `Bridge.DisconnectMeans` | extensions/browser/src/native-bridge.ts:204-210 | losing the current port rejects everything, leaves no request timer, and schedules a reconnect exactly if desired; losing another port changes nothing |
| `Session.ReachableInv` | extensions/vscode/src/adapter-session.ts:34-289 | the session invariant holds in every order of calls, continuations, chunks, closes and timers |
| `Session.SequenceNumbersIncrease` | extensions/vscode/src/adapter-session.ts:88-132 | event frames carry strictly increasing sequence numbers from 1 over all transports |
| `Session.OneUnacknowledgedEvent` | extensions/vscode/src/adapter-session.ts:88-132 | at most one event is pending; all earlier calls have settled, no later one has begun |
| `Session.PromisesSettleOnce` | extensions/vscode/src/adapter-session.ts:97-132 | every hello and event promise is settled exactly once, and its timer is set exactly until then |
| `Session.EmitFollowsItsEvent` | extensions/vscode/src/adapter-session.ts:97-132 | an emit call can settle exactly when its event has, with its result |
| `Session.EmitSettlesForGood` | extensions/vscode/src/adapter-session.ts:88-95 | a settled emit call keeps its result |
| `Session.ChunkOfAcks` | extensions/vscode/src/adapter-session.ts:235-245 | a chunk of acknowledgements settles exactly the pending events it names |
| `Session.FirstFrameAnswersHello` | extensions/vscode/src/adapter-session.ts:216-234 | the first frame of the next chunk answers an unanswered hello, for good or bad |
| `SessionConnects.UnreadableChunkCloses` | extensions/vscode/src/adapter-session.ts:207-247 | a chunk that cannot be decoded or begins with no acknowledgement is treated as the loss of the transport; one on another transport is ignored |
| `SessionConnects.HelloDecides` | extensions/vscode/src/adapter-session.ts:197-205 | an acknowledged hello makes the session connected; a rejected one closes the transport, rejects what was unsettled and schedules a reconnect if desired |
| `SessionConnects.ReconnectRings` | extensions/vscode/src/adapter-session.ts:279-288 | the alarm opens a transport exactly if one is desired and there is none, nor one being made |
| `SessionConnects.StartConnects` | extensions/vscode/src/adapter-session.ts:74-205 | in every reachable state without a transport or an attempt, a start whose hello is acknowledged ends in a connected session |
| `SessionConnects.EmitTakesNextNumber` | extensions/vscode/src/adapter-session.ts:88-95 | emit calls are numbered from one without a gap and queue one behind the other |
| `SessionConnects.EmitWrites` | extensions/vscode/src/adapter-session.ts:97-132 | an event is written on its call's transport under its own number; if the write throws nothing is, and it is rejected |
| `SessionConnects.EmitSucceeds` | extensions/vscode/src/adapter-session.ts:88-132 | while connected, with earlier calls settled, an emit call whose event is acknowledged writes it under the next number and succeeds |
| `StaleFlag.EventsFollowHello` | extensions/vscode/src/adapter-session.ts:134-151 | as long as the hello handler never ran without its transport, events go only to transports whose hello was acknowledged |
| `StaleFlag.GoesStaleIff` | extensions/vscode/src/adapter-session.ts:197-199 | the connected flag goes stale exactly when the handler of an acknowledged hello runs while there is no transport |
| `StaleFlag.StaleFlagLeaks` | extensions/vscode/src/adapter-session.ts:134-205 | from every stale state of every run some continuation writes an event before any acknowledgement |
| `StaleFlag.FlagBecomesStale` | extensions/vscode/src/adapter-session.ts:197-247 | a concrete run makes the flag stale |
| `AdapterSession.VscodeAdapterSession.CloseCurrent` | extensions/vscode/src/adapter-session.ts:255-277 | hello and every pending event are rejected once, all their timers cleared |
| `AdapterSession.VscodeAdapterSession.HandleData` | extensions/vscode/src/adapter-session.ts:207-247 | the frames of a chunk, in order, until one cannot be read |
| `Session.HandleCloseMeans` | extensions/vscode/src/adapter-session.ts:249-253 | losing the current transport rejects hello and events, leaves none of their timers, and schedules a reconnect exactly if desired; losing another changes nothing |
| `Session.ScheduleMeans` | extensions/vscode/src/adapter-session.ts:279-288 | afterwards a reconnect is scheduled exactly if one was or it is desired, with one alarm; every other timer stays; a new one doubles the next delay, up to 30 seconds |
| `Session.StopMeans` | extensions/vscode/src/adapter-session.ts:79-86 | afterwards no timer of any kind is set, and each unsettled promise has been rejected once |
| `Session.WriteMeans` | extensions/vscode/src/adapter-session.ts:97-132 | an event has exactly one timer and is pending if it was written; if the write failed it has none and was rejected once; no other promise is touched |
| `Session.EventTimeoutMeans` | extensions/vscode/src/adapter-session.ts:101-106 | an alarm that goes off ends its own event with the timeout and touches nothing else |
| `Session.HelloTimeoutMeans` | extensions/vscode/src/adapter-session.ts:168-173 | the same for the hello |

## Left out

- SQLite itself: a transaction is atomic, a single statement is atomic, a committed statement survives a crash.
- Foreign keys from executions to rituals and versions: rows are never deleted, so an insert that has loaded them meets them.
- Columns without influence on control flow (timestamps of ritual rows, trigger kind, sensitivity); timestamps are opaque, and no chronological listing is claimed.
- The size limit on a ritual definition's canonical JSON.
- JSON, SHA-256 and URL canonicalisation: opaque functions.
- Socket, file-permission, path-discovery and process-launching code; the command line, popups, service worker wiring, packaging and schema generation.
- The native host's acknowledgement routing and the browser mapping store: the first repeats the registry's pattern, the second keeps no invariant across its awaits.
- Liveness of the reconnect loops and scheduling fairness; the step systems allow more orders of continuations than the JavaScript microtask queue does.
- How long a timer runs: in the two extensions and in a dispatch an alarm may go off at any time while it is set; only the executor's deadline arithmetic uses durations.
- Which socket a response arrives on: `resolve` matches on the two ids only, and so does the model.
- `AdapterManager.Manager.Register`: the outgoing channel and the connection time shown in reports are not modelled.
- `Executor.ReplyWaitsWithinTimeout`: bounds the time spent waiting for replies, not the wall clock; storage awaits and the channel send are outside the timer in the code as well.
- `Executor.ExecuteSteps`: after a storage error the execution stays Running and locked until the next start-up, as in the code; lock release is stated for Ok results.
- `Events.EnablementIsStable`: the candidate's label and its validation are taken as already valid.
- `Bridge.ReachableInv`: `notify` is `ensureConnected` followed by a post that touches no field, and is modelled by the former.
- `Session.ReachableInv`: that every hello carries the same instance id is immediate from its being set once in the constructor and has no lemma.
