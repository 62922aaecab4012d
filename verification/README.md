# Verified model of the personal AI operating system's core

This Dafny project models the stateful parts of the repository and proves what they keep over whole
runs. It has five parts.

**Tools and conversations over one store** (`Store`, `Tool*`, `AuditKinds`, `Conversation*`, `Run*`,
`Platform*`, `Locks`, `WriteLocks`, `Tables`, `Sweeps`, `ReachableDeadlocks`). Both services write the
same tables and the same per-session event streams, so they are one state machine: `Platform.Step` has
one case per transaction, plus the return of an executor or of a model call, the sweeps, process crashes
and changes of device rows, and `Platform.Reach` is the state after any sequence of them. A transaction
is one atomic step on the committed rows, and holds the lock of every row it changes; what it reads from
tables that are not modelled (owner, credential, scopes, capabilities, satellite availability), the clock
and fresh identifiers are inputs of the step and may differ every time. Unique constraints are part of
the steps. `ToolAuthority` and `Conversations` say what each transaction commits; `ToolPlatform` and
`ConversationPlatform` hold the services as classes that rewrite the rows one after another, lock them,
and roll back, proved equal to those functions. `ToolLaws`, `ToolOutcomes` and `RunOutcomes` say what each
check and transaction means in terms of the rows alone, without those functions, and `PlatformTheorems`,
`PlatformBudgets`, `PlatformRates` and `AuditKinds` are the results over all runs.

**History and the event stream** (`History`, `GenerationRequests`, `RunContexts`, `EventStream`):
which messages a run sends to the model, what is stored about that, why the gateway accepts them,
the paged cursor loop of the WebSocket route, and the client that parses and reconnects.

**The satellite** (`ReplayJournal`, `SatelliteAgent`, `SatelliteForgetting`, `SatelliteConnection`): the replay journal as
insertion-ordered dictionaries and a file with sorted keys, the agent between any two of its awaits,
with failing disks, crashes and restarts, and the core's side of the connection.

**The gateway's resilience** (`CircuitBreaker`, `ModelGateway`, `GatewayCallers`): breaker, retry loop
and guard, alone and with many callers between whose steps others take theirs, with the clock as a
parameter.

**The schema subset** (`SchemaValidation`, `SchemaTotality`, `SchemaMeaning`): both recursive checks, Python's
equality on JSON values, what schemas and values mean without either, and which accepted schemas the value
check is total on.

## Where the code does less than is said of it

- The approval budget is meant to be 2 per bucket. The count sees the decision it is about only when
  that column write was flushed, and production sessions do not autoflush
  (`src/personal_ai_os/db/engine.py:33-38`); without it the bound is 3, and 3 is reached, but only
  through such a request.
- `docs/phase_reports/PHASE_08_REPORT.md:21` claims one lock order across all mutations. Recording an
  execution's outcome and the follow-up of an undelivered cancellation lock the call before its
  session, and can deadlock with a cancellation of the same call. The expiry sweep starts over for every
  row, so it is in order only for one row; with two it can deadlock with a request of the second row's
  device that names the first row's run, though that request is about to be refused. The reconciliation
  sweep, which the claim does not name, locks all its calls before their sessions.
- The replay journal is to remember a consequential command until 256 later ones have begun. What is
  true is that it stays as long as its place, counted from the youngest entry, does not pass 256. Until
  a restart that is 255 newcomers: commands that begin, or that finish after they were forgotten. The
  latter make fewer than 256 later commands enough; and because the file is sorted by identifier, a
  restart may put the newest command in the last place, where the next newcomer evicts it. Either way
  that command is executed again when it is delivered again.
- `docs/phases/PHASE_05A_MODEL_GATEWAY.md:71` claims that every admitted half-open probe has a
  terminal transition. An exception outside `Exception` during a probe leaves none, and the circuit
  never admits a call again.
- `validate_schema` accepts a schema whose `enum` is null; `validate_structured_value` then raises a
  `TypeError` on every value that reaches it. `validate_schema` raises one itself when it comes to a
  `type` that is a list or an object.
- CANCELLED is not final: a second dispatch of a running call with a dead run writes the call off, and
  the execution in flight may still record its outcome.

## Model

| member | source | states |
|---|---|---|
| `PlatformTheorems.ApprovalMirrorsCall` | src/personal_ai_os/tools/service.py:442-555 | after every run of all steps an approval is PENDING exactly when its call awaits approval and APPROVED exactly when its call is, calls and approvals name each other, and no call awaits an approval it lacks; this is why deciding needs no check of the call's status |
| `PlatformTheorems.StartsAreAuthorised` | src/personal_ai_os/tools/service.py:654-761 | on every run each call is handed to the executor at most once, and every start of a consequential or critical call (or any call with an approval) was approved before it, by an approval of equal tool, version, risk, digest and policy, decided by a device and consumed before its deadline |
| `PlatformTheorems.ObservationsTellTheTruth` | src/personal_ai_os/tools/service.py:768-874 | a call has SUCCEEDED or FAILED exactly when its one observation says so, and only started calls are observed |
| `PlatformTheorems.FinalStatusesStay` | src/personal_ai_os/tools/service.py:622-652 | no step changes a DENIED, REJECTED, EXPIRED or observed call; a CANCELLED call changes only when its own execution in flight finishes |
| `PlatformTheorems.CallsNeverRegress` | src/personal_ai_os/tools/service.py:622-652 | over any continuation of a run a call keeps its identity, its audit history as a prefix, its observation and every final status |
| `PlatformTheorems.AuditRefinesCalls` | src/personal_ai_os/tools/service.py:1372-1398 | the last audited result of every call is its current status and its audit history is a legal path of the status graph from VALIDATED |
| `PlatformTheorems.KeysAreTakenForever` | src/personal_ai_os/tools/service.py:309-331 | after any continuation a request with a taken idempotency key adds and consumes nothing, and is answered only with the stored call, if digest, version and context match |
| `ToolInvariants.TheOnlyMatch` | src/personal_ai_os/tools/models.py:48-54 | with the uniqueness constraint the idempotency lookup has one possible answer |
| `Platform.RunIsGood` | src/personal_ai_os/tools/service.py:264-440 | the joint invariant of both services holds after every sequence of steps, crashes and authority changes |
| `PlatformBudgets.BudgetsHold` | src/personal_ai_os/tools/service.py:1187-1245 | in every reachable state a bucket has at most 4 calls, at most 3 that run, succeeded or were written off in flight, and at most 2 that required approval, or 3 if some request to that very bucket was counted without its own decision |
| `PlatformBudgets.ThirdApprovalWasUncounted` | src/personal_ai_os/tools/service.py:1203-1220 | a third approval-required call enters a bucket only through a request to that bucket whose decision was not visible to the count, and no bucket ever holds a fourth |
| `PlatformRates.ThreeApprovals` | src/personal_ai_os/db/engine.py:33-38 | a run with unflushed decisions reaches three approval-required calls in one bucket |
| `PlatformRates.RateLimitHolds` | src/personal_ai_os/tools/service.py:1247-1262 | on every run, in whatever order clocks were read, no interval of the policy's length holds more calls of one device and tool than the policy allows |
| `ToolOutcomes.RefusedRequestLeavesNoTrace` | src/personal_ai_os/tools/service.py:264-440 | a refused request changes no row, nor does a repeated one; an unknown tool and arguments that do not fit leave one audit entry about no call, every other refusal none |
| `ToolOutcomes.AdmittedRequestDecides` | src/personal_ai_os/tools/service.py:333-440 | an admitted request inserts exactly one call: APPROVED if and only if nothing speaks against it (enabled, scopes, capabilities, availability, sandbox, risk), its risk is low and no owner has to approve; AWAITING_APPROVAL, with a fresh pending approval that binds it, if and only if nothing speaks against it and the owner has to approve; otherwise DENIED for the first thing that does; with the stored decision, reason, audit entries and events of each case |
| `ToolOutcomes.AdmissionLaw` | src/personal_ai_os/tools/service.py:264-379 | a request adds a call if and only if tool, arguments, authority, device, context, key, rate window and budgets admit it; it is answered with a stored call if and only if principal, tool, key, digest, version and context are that call's |
| `ToolOutcomes.PolicyLaw` | src/personal_ai_os/tools/service.py:1150-1185 | the policy in terms of the tool and the device: when it allows, when it asks the owner, and the first failing test as the reason of a denial |
| `ToolOutcomes.ApprovalDeadlines` | src/personal_ai_os/tools/service.py:381-399 | the owner has three minutes for critical calls and ten for others |
| `ToolOutcomes.DecisionOutcome` | src/personal_ai_os/tools/service.py:442-555 | a decision is recorded if and only if the approval is the owner's, pending and in time, on an active device, in an open context whose run goes on; then approval and call take it, with one audit entry; past the deadline both expire, with a run that is over both are cancelled, otherwise nothing changes |
| `ToolOutcomes.DispatchOutcome` | src/personal_ai_os/tools/service.py:557-766 | a dispatch starts the call if and only if it is an approved call of the caller whose arguments, if given, have its digest, whose registered tool has its risk, is enabled, available and not forbidden, whose policy is current, whose approval covers it and is granted and in time, whose run goes on and which gets a slot; it replays a finished call's observation, ends an overdue call, writes a call of a dead run off, or changes nothing; each with its rows and audit entry |
| `ToolOutcomes.RefusalLaw` | src/personal_ai_os/tools/service.py:622-690 | when a dispatch gets past its refusals, in terms of the call, the tool registered now and the surroundings |
| `ToolOutcomes.CancellationOutcome` | src/personal_ai_os/tools/service.py:876-960 | the owner's cancellation of a running call only requests it, any other unfinished call is cancelled together with its usable approval, finished calls stay; each with its audit entry |
| `ToolOutcomes.UndeliveredOutcome` | src/personal_ai_os/tools/service.py:975-988 | an undelivered cancellation is audited once, as long as the call still waits to be cancelled, and changes nothing else |
| `ToolOutcomes.OutcomeIsNormalised` | src/personal_ai_os/tools/service.py:798-873 | a call SUCCEEDED exactly when the executor reported success, the output fitted its schema and was verified; it is CANCELLED when it reported that, and FAILED otherwise; the audit log grows by one entry of the kind that goes with it, tool.succeeded, tool.cancelled or tool.failed, projected under the same kind and status |
| `ToolOutcomes.SecondOutcomeIsRefused` | src/personal_ai_os/tools/models.py:163-165 | a second observation aborts the whole finishing transaction |
| `ToolOutcomes.WrittenOffCallMaySucceed` | src/personal_ai_os/tools/service.py:645-652 | a second dispatch of a running call with a dead run cancels it, and its execution can still make it SUCCEEDED |
| `ToolOutcomes.ExpirySweepIsExact` | src/personal_ai_os/tools/service.py:991-1046 | the sweep expires exactly the overdue pending approvals and the calls that waited for them, audits each once in the order of the query, and leaves none overdue |
| `ToolOutcomes.ReconciliationSweepIsExact` | src/personal_ai_os/tools/service.py:1102-1148 | the sweep never meets an existing observation, fails exactly the running calls with one observation and one tool.failed entry each, and leaves none running |
| `AuditKinds.KindsTellResults` | src/personal_ai_os/tools/service.py:1372-1441 | over all runs every audit entry about a call, and every event that projects one, has the kind that goes with its result: one table for all fourteen kinds |
| `ToolLaws.BindingLaw` | src/personal_ai_os/tools/service.py:152-203 | a context is accepted if and only if it is an open run of the caller's device that has not ended, of the named conversation, or an open conversation of the owner, or nothing |
| `ToolLaws.ParentLaw` | src/personal_ai_os/tools/service.py:205-262 | a call's parent is alive if and only if its context is open and its run is queued or running, and dead if and only if the context is open and the run ended or is being cancelled |
| `ToolLaws.BudgetLaw` | src/personal_ai_os/tools/service.py:1187-1262 | which calls the three budgets and the rate limit count: the owner's of the same run, or of the same device without a run; and the device's of the same tool within the window |
| `ToolLaws.LookupLaw` | src/personal_ai_os/tools/service.py:1344-1353 | the idempotency lookup finds the call of the same owner, device, tool and key, and nothing else |
| `ToolLaws.AuditLaw` | src/personal_ai_os/tools/service.py:1372-1441 | one entry with the call's status, and one event in the session of the call's run if and only if that session is the owner's, active and of the call's or the run's device |
| `ToolPlatform.ToolPlatformService.RequestTool` | src/personal_ai_os/tools/service.py:264-440 | the transaction, with its savepoint and rollbacks, commits what the specification says; it takes its locks in rank, its device and the named run before any check on the run, holds every row it changes and every stream it extends, and, when it is answered with a call, what serialises the budget it was counted in |
| `ToolPlatform.ToolPlatformService.StageCall` | src/personal_ai_os/tools/service.py:333-421 | counting, inserting and deciding a call row by row commits the staged call or nothing |
| `ToolPlatform.ToolPlatformService.DecideApproval` | src/personal_ai_os/tools/service.py:442-555 | the row-by-row decision commits what the specification says, locks in rank, and holds every row it changes and every stream it extends |
| `ToolPlatform.ToolPlatformService.BeginExecution` | src/personal_ai_os/tools/service.py:557-766 | the first transaction of an execution, with its rollback of an early cancellation or consumption, commits what the specification says, locks in rank, holds every row it changes and every stream it extends, and starts a call only while it holds what serialises its budget |
| `ToolPlatform.ToolPlatformService.FinishExecution` | src/personal_ai_os/tools/service.py:770-873 | the second transaction commits what the specification says, locks the call before its run's session, and holds every row it changes and every stream it extends |
| `ToolPlatform.ToolPlatformService.CancelCall` | src/personal_ai_os/tools/service.py:876-968 | the row-by-row cancellation commits what the specification says, locks in rank device, run, session and call before anything else, and holds every row it changes and every stream it extends |
| `ToolPlatform.ToolPlatformService.CancelUndelivered` | src/personal_ai_os/tools/service.py:975-988 | the follow-up of an undelivered cancellation, that it locks the call before the session, and that it holds what it changes |
| `ToolPlatform.ToolPlatformService.ExpirePending` | src/personal_ai_os/tools/service.py:991-1046 | the loop expires every row of the query, once, counts them, locks device, run, session, call and approval anew for each row, and holds every row it changes and every stream it extends |
| `ToolPlatform.ToolPlatformService.ReconcileStaleExecuting` | src/personal_ai_os/tools/service.py:1102-1148 | the loop fails every row of the query, or, when one already has an observation, is undone as a whole; it locks all the calls first and then a session for each, and holds every row it changes and every stream it extends |
| `ToolPlatform.ToolPlatformService.ValidateContextBinding` | src/personal_ai_os/tools/service.py:152-203 | the checks on conversation and run, and which of their rows are locked |
| `ToolPlatform.ToolPlatformService.RevalidateParentContext` | src/personal_ai_os/tools/service.py:205-262 | a dead parent run cancels the call on the spot, an unavailable one is refused |
| `ToolPlatform.ToolPlatformService.Audit` | src/personal_ai_os/tools/service.py:1372-1441 | one audit entry with the call's status, projected into the run's session if that session may see it |
| `Locks.RankedPlansNeverDeadlock` | src/personal_ai_os/tools/service.py:294-318 | any number of transactions with ranked plans, in any interleaving from their start, never come to wait for each other in a cycle |
| `WriteLocks.DispatchIsGuarded` | src/personal_ai_os/tools/service.py:585-643 | a dispatch that holds its call, its approval and the session its facts are shown to changes and extends nothing it does not hold |
| `WriteLocks.DecisionIsGuarded` | src/personal_ai_os/tools/service.py:459-495 | the same for a decision that holds call, approval and session |
| `WriteLocks.ResponseIsGuarded` | src/personal_ai_os/conversations/service.py:457-503 | the same for the end of a run that holds the run and its session |
| `Locks.NoDeadlock` | src/personal_ai_os/tools/service.py:585-643 | in any state in which no row is locked twice, transactions with ranked plans have no cycle of waits |
| `Locks.SomeoneMoves` | src/personal_ai_os/tools/service.py:459-495 | while some such transaction has not ended, one of them can take its next step |
| `Sweeps.FinishAndCancelOfOneCall` | src/personal_ai_os/tools/service.py:839-842 | for any call whose run has a session of the call's owner: from their start, recording its outcome and any transaction that takes a cancellation's locks first can come to a state in which each waits for the other |
| `ReachableDeadlocks.FinishDeadlockIsReachable` | src/personal_ai_os/tools/service.py:876-904 | a reachable state with a running call its caller may cancel, in which that happens |
| `Sweeps.SweepIsRankedExactly` | src/personal_ai_os/tools/service.py:991-1046 | the expiry sweep takes its locks in rank if and only if its query returns at most one row |
| `Sweeps.SweepAndRequestCanDeadlock` | src/personal_ai_os/tools/service.py:1004-1033 | if the sweep's first row is a call of a run and its second a call of another device, the sweep and that device's request in that run can, from their start, come to wait for each other, since a request locks the run before it looks at whose it is |
| `ReachableDeadlocks.SweepDeadlockIsReachable` | src/personal_ai_os/tools/service.py:159-182 | a reachable state in which that happens, the request being one that is refused for its device |
| `Sweeps.ReconcileIsRankedExactly` | src/personal_ai_os/tools/service.py:1102-1148 | the reconciliation sweep takes its locks in rank if and only if it finds nothing, or one call without a session to project into |
| `Locks.StuckForGood` | src/personal_ai_os/tools/service.py:1004-1033 | no schedule moves two transactions that wait for each other any further |
| `ToolPlatform.FinishIsRankedExactly` | src/personal_ai_os/tools/service.py:1400-1441 | recording an outcome locks in rank if and only if there is no session of the call's owner to project the fact into |
| `RunDevices.RunsHaveOneDevice` | src/personal_ai_os/conversations/service.py:198-206 | in every reachable state a run has one device: its session's, the one that requested it, and that of every call made for it |
| `PlatformTheorems.LifecycleDeterminesStatus` | src/personal_ai_os/conversations/service.py:147-222 | every run's own events read accepted, queued, maybe started, maybe a requested cancellation, at most one outcome; folding them gives the stored status; the stored bounds are their first and last sequence; a run has one answer if it succeeded and none otherwise |
| `PlatformTheorems.RunsNeverRegress` | src/personal_ai_os/conversations/service.py:282-372 | over any continuation a run keeps its identity, events and answer, and a terminal status is final |
| `PlatformTheorems.CancelRequestedNeverSucceeds` | src/personal_ai_os/conversations/service.py:457-518 | a run whose cancellation was ever requested never succeeds and never gets an answer |
| `PlatformTheorems.ConversationsHaveOneLiveRun` | src/personal_ai_os/conversations/repository.py:78-94 | every conversation has at most one live run, its messages are numbered exactly 1..n, and a live run answers its last message |
| `PlatformTheorems.StreamsAreGapless` | src/personal_ai_os/tools/service.py:1400-1441 | though both services append, every session's sequence numbers are exactly 1..n |
| `Store.AppendKeepsGapless` | src/personal_ai_os/conversations/repository.py:156-160 | the next number is one more than the stream is long, so numbering stays gapless |
| `PlatformTheorems.StreamsOnlyGrow` | src/personal_ai_os/conversations/service.py:402-427 | what was read of a stream once stays its beginning |
| `PlatformTheorems.StreamsCanBeFollowed` | src/personal_ai_os/api/routes/conversations.py:361-409 | whatever both services append between the turns of a cursor loop, the loop meets a contiguous, growing stream |
| `RunOutcomes.SubmissionOutcome` | src/personal_ai_os/conversations/service.py:147-248 | a submission that says something, in the caller's own active session, is new if and only if the device did not use its client id before, the conversation is idle and the fresh identifiers are; then one numbered message and one queued run are inserted and announced; it is a repetition if and only if the first message under that client id has its content and its run the model; otherwise it is refused, and only a new one changes anything |
| `RunOutcomes.RunCancellationOutcome` | src/personal_ai_os/conversations/service.py:282-304 | exactly the owner, on the requesting device and in its own session, may cancel: a queued run stops, a running one is asked to stop, any other stays as it is |
| `RunOutcomes.BeginOutcome` | src/personal_ai_os/conversations/service.py:306-322 | only a queued run is begun, and its model call is in flight from there unless its session is missing |
| `RunOutcomes.ResponseOutcome` | src/personal_ai_os/conversations/service.py:457-569 | a run that nobody cancelled succeeds if and only if the response binds it, has a character that is not white space and at most 4000 characters; then exactly that text is its answer, numbered next and announced; any other response fails it without an answer; a requested cancellation wins; a finished run stays |
| `RunOutcomes.FailureOutcome` | src/personal_ai_os/conversations/service.py:505-532 | a failure ends every run that has not ended, except that a requested cancellation wins |
| `RunOutcomes.SessionOutcomes` | src/personal_ai_os/conversations/service.py:74-145 | who may open a session and close it, and that a session's stream starts and ends with the fact |
| `RunOutcomes.InterruptionSweepIsExact` | src/personal_ai_os/conversations/service.py:347-367 | after the sweep no run is live: exactly the live ones failed, each announced once in the order of the query |
| `ConversationPlatform.ConversationService.SubmitMessage` | src/personal_ai_os/conversations/service.py:147-222 | the row-by-row submission commits what the specification says, locks in rank, and holds every row it changes and every stream it extends |
| `ConversationPlatform.ConversationService.CancelRun` | src/personal_ai_os/conversations/service.py:282-304 | the row-by-row cancellation commits what the specification says, locks in rank, and holds every row it changes and every stream it extends |
| `ConversationPlatform.ConversationService.BeginRun` | src/personal_ai_os/conversations/service.py:306-322 | the first transaction of executing a run, also when its session is missing, locks in rank, and holds every row it changes and every stream it extends |
| `ConversationPlatform.ConversationService.FinalizeResponse` | src/personal_ai_os/conversations/service.py:457-503 | recording the model's answer row by row commits what the specification says, locks in rank, and holds every row it changes and every stream it extends |
| `ConversationPlatform.ConversationService.FinalizeFailure` | src/personal_ai_os/conversations/service.py:505-532 | recording a failure commits what the specification says, locks in rank, and holds every row it changes and every stream it extends |
| `ConversationPlatform.ConversationService.ReconcileInterruptedRuns` | src/personal_ai_os/conversations/service.py:347-367 | the loop fails every row of the query |
| `ConversationPlatform.ConversationService.CloseSession` | src/personal_ai_os/conversations/service.py:134-145 | closing is idempotent and announced once |
| `ConversationPlatform.ConversationService.CreateSession` | src/personal_ai_os/conversations/service.py:105-126 | a new session of an active owned conversation starts its stream with one event |
| `ConversationPlatform.ConversationService.Emit` | src/personal_ai_os/conversations/service.py:402-427 | one event with the next sequence number, and the run's bounds extended by it |
| `History.AssembleContext` | src/personal_ai_os/conversations/service.py:429-455 | the loop with its break, skip and final sort selects what the greedy specification selects |
| `History.ContextIsBoundedAndMaximal` | src/personal_ai_os/conversations/service.py:429-455 | the context ends with the trigger, is ordered, has at most 16 messages and 6000 characters, no dropped earlier message would still fit, and it is flagged as truncated exactly when some message is missing |
| `GenerationRequests.LiveRunContext` | src/personal_ai_os/conversations/service.py:306-336 | while a run is live its selection succeeds, is flagged exactly when an earlier message was dropped, and the request passes the gateway's checks if its model is routable |
| `RunContexts.StoredFlagIsExact` | src/personal_ai_os/conversations/service.py:306-345 | over all runs in which each worker carries the flag of the history it selected to its response: the flag stored with a succeeded run is set exactly when a message before its trigger was not sent to the model |
| `RunContexts.WorldIsPlatform` | src/personal_ai_os/conversations/service.py:306-345 | every such run is a run of the platform, so every other theorem holds of it |
| `GenerationRequests.SelectedHistoryPassesTheGateway` | src/personal_ai_os/model_gateway/gateway.py:380-467 | the request from any selected history is accepted by the default gateway if and only if the requested model is routable |
| `GenerationRequests.RequestLaw` | src/personal_ai_os/model_gateway/gateway.py:380-439 | a text request passes if and only if the gateway is enabled, its messages are within count and length and none is blank, and its token and context budgets are those of the model its name is routed to |
| `GenerationRequests.ProfilesAreRouted` | src/personal_ai_os/model_gateway/registry.py:74-131 | both profiles the service offers are routed |
| `EventStream.ConversationEvents` | src/personal_ai_os/api/routes/conversations.py:361-409 | the paged loop sends exactly the events after the cursor, in order, without gap or repetition, wherever it is cut; a turn that finds nothing new means everything was sent |
| `EventStream.PageIsSpan` | src/personal_ai_os/conversations/repository.py:147-154 | a page continues exactly where the cursor stands and stops short only at 100 events |
| `EventStream.ClientState.ParseEvent` | scripts/phase_07/text_client.py:43-67 | an event is accepted if and only if it is well formed and strictly newer, and only then the cursor moves |
| `EventStream.ClientState.Consume` | scripts/phase_07/text_client.py:43-67 | the parser accepts every event of a contiguous stream |
| `EventStream.FollowSession` | src/personal_ai_os/api/routes/conversations.py:361-409 | over any number of connections resumed from the last accepted sequence the client shows every event once and in order |
| `Journals.SurvivesExactly` | src/personal_ai_os/satellites/windows/replay.py:99-103 | a remembered identifier survives n newcomers if and only if its place is not among the overflow; the newest survives exactly maximum - 1 |
| `Journals.ReplayJournal.LookupCommand` | src/personal_ai_os/satellites/windows/replay.py:55-73 | cached frame, conflict, uncertain outcome or unknown, by the journal's contents |
| `Journals.LookupLaw` | src/personal_ai_os/satellites/windows/replay.py:55-73 | a finished command is answered with its frame if it is the same invocation and refused otherwise; one that only began is refused if name or digest differ and uncertain if consequential; everything else is unknown |
| `Journals.FinishedIsReplayed` | src/personal_ai_os/satellites/windows/replay.py:55-97 | round trip: what finished is what the same invocation is answered with, in whatever session it asks |
| `Journals.ReplayJournal.BeginCommand` | src/personal_ai_os/satellites/windows/replay.py:75-85 | a consequential command is recorded, trimmed and persisted, also when the disk fails |
| `Journals.ReplayJournal.FinishCommand` | src/personal_ai_os/satellites/windows/replay.py:87-97 | the frame is cached; only consequential commands are recorded, trimmed and persisted |
| `Journals.ReplayJournal.Trim` | src/personal_ai_os/satellites/windows/replay.py:99-103 | both loops drop the oldest entries until the bound holds |
| `Journals.SortRises` | src/personal_ai_os/satellites/windows/replay.py:46-53 | the file holds the same identifiers, smallest first |
| `SatelliteAgent.DurableStaysBounded` | src/personal_ai_os/satellites/windows/replay.py:75-103 | after any events the durable records and the file stay within the bound |
| `SatelliteAgent.ExecutedOncePerResidence` | src/personal_ai_os/satellites/windows/agent.py:169-205 | over receives, cancellations, disk failures and restarts a consequential command is executed at most once, plus once for each time the journal forgot it |
| `SatelliteAgent.RememberedIsNeverUnknown` | src/personal_ai_os/satellites/windows/replay.py:55-73 | an executed command that was not forgotten is never unknown to a lookup, nor to a restart |
| `SatelliteAgent.FewCommandsExecuteAtMostOnce` | src/personal_ai_os/satellites/windows/agent.py:169-205 | while no more distinct consequential commands were delivered than the journal holds, each is executed at most once, whatever crashes |
| `SatelliteAgent.CommandsAreConserved` | src/personal_ai_os/satellites/windows/agent.py:120-213 | over all events no delivered command is answered twice, and while no disk fails and nothing restarts each is answered, waiting or running |
| `SatelliteAgent.TasksStayWithin` | src/personal_ai_os/satellites/windows/agent.py:125-135 | over all events no more tasks exist than the welcome frame allows |
| `SatelliteAgent.HandlingOutcome` | src/personal_ai_os/satellites/windows/agent.py:169-201 | a command reaches the engine if and only if the journal does not know it, it was not cancelled before and its begin was persisted; otherwise the handler ends with one reply that says why, or none when the disk failed |
| `SatelliteForgetting.RememberedWhileItsPlaceFits` | src/personal_ai_os/satellites/windows/replay.py:75-103 | over any receives, executions, failing disks, crashes and restarts: a command that began stays in the journal if and only if its place never passes the maximum, where each newcomer moves it on by one and a restart makes it the number of identifiers in the file, however stale, that are not smaller; while it stays it is not executed again, and if its begin reached the disk it stays in the file |
| `SatelliteForgetting.WithoutRestartsNewcomersCount` | src/personal_ai_os/satellites/windows/replay.py:75-103 | until a restart the place is one plus the newcomers, so a command survives exactly the maximum minus one of them |
| `SatelliteForgetting.SortedPlace` | src/personal_ai_os/satellites/windows/replay.py:46-53 | in the sorted file an identifier's place is the number of those not smaller |
| `SatelliteForgetting.RestartForgetsTheNewest` | src/personal_ai_os/satellites/windows/replay.py:46-53 | for every maximum of at least 2 there is a run in which the newest command, after a restart and one later command, is executed twice |
| `SatelliteForgetting.LateFinishForgetsEarly` | src/personal_ai_os/satellites/windows/replay.py:87-97 | for every maximum a run without restart in which a command is executed twice though only maximum minus one later commands began, because an evicted command took a place again when it finished |
| `SatelliteAgent.WindowsSatelliteAgent.ReceiveCommand` | src/personal_ai_os/satellites/windows/agent.py:120-135 | a command is admitted or refused as busy |
| `SatelliteAgent.WindowsSatelliteAgent.ReceiveCancel` | src/personal_ai_os/satellites/windows/agent.py:136-144 | a cancellation that reaches no execution marks a command that has a task |
| `SatelliteAgent.WindowsSatelliteAgent.HandleCommand` | src/personal_ai_os/satellites/windows/agent.py:169-201 | a handler's segment from lookup to the start of execution |
| `SatelliteAgent.WindowsSatelliteAgent.CompleteCommand` | src/personal_ai_os/satellites/windows/agent.py:199-213 | a handler's segment from the engine's return to its reply |
| `SatelliteConnections.ObservationsAreBound` | src/personal_ai_os/satellites/windows/connection.py:145-224 | in every run a returned observation is a frame of the same session, command, name, version and digest that reached that session; a dispatcher that has not returned waits in its registered session or can return |
| `SatelliteConnections.AcceptedWhileRegistered` | src/personal_ai_os/satellites/windows/connection.py:204-224 | a frame is accepted by a session only while that session is registered |
| `SatelliteConnections.OutcomesAreFinal` | src/personal_ai_os/satellites/windows/connection.py:145-185 | each dispatcher returns at most once and a future that is done never changes |
| `SatelliteConnections.UnregisterFailsTheUnresolved` | src/personal_ai_os/satellites/windows/connection.py:85-96 | unregistering leaves nothing pending, fails every open command as uncertain, and lets resolved ones return their observation |
| `SatelliteConnections.StaleUnregisterIsHarmless` | src/personal_ai_os/satellites/windows/connection.py:85-96 | only an unregistration that names the current session removes it |
| `SatelliteConnections.SelectionLaw` | src/personal_ai_os/satellites/windows/connection.py:126-161 | a dispatch gets a ticket if and only if it names one capability and exactly one registered session has its owner and capability and was heard of within 45 seconds, where its command is not pending; then the open ticket is that session's and the command pending there only; otherwise nothing changes |
| `SatelliteConnections.AcceptanceLaw` | src/personal_ai_os/satellites/windows/connection.py:204-224 | a frame is accepted if and only if it comes over the device's current session, names it, and answers a command pending there by name, version and digest |
| `SatelliteConnections.ReturnLaw` | src/personal_ai_os/satellites/windows/connection.py:172-185 | how each dispatcher can return, a timeout being uncertain if and only if a consequential command was sent, and that it releases its own command only |
| `SatelliteConnections.SatelliteConnectionManager.RegisterSession` | src/personal_ai_os/satellites/windows/connection.py:66-83 | one session per device |
| `SatelliteConnections.SatelliteConnectionManager.UnregisterSession` | src/personal_ai_os/satellites/windows/connection.py:85-96 | the loop fails exactly the open futures of the removed session |
| `SatelliteConnections.SatelliteConnectionManager.UpdateSessionPrincipal` | src/personal_ai_os/satellites/windows/connection.py:105-111 | only the current session's principal is replaced |
| `SatelliteConnections.SatelliteConnectionManager.BeginDispatch` | src/personal_ai_os/satellites/windows/connection.py:126-161 | the one fresh session with owner and capability is selected and the command becomes pending there |
| `SatelliteConnections.EndedAreReleased` | src/personal_ai_os/satellites/windows/connection.py:172-185 | however a dispatcher ended, with its observation, a disconnection, a timeout, a failed send or a cancellation, its command is not pending and no later step changes what it returned or waited on |
| `SatelliteConnections.SatelliteConnectionManager.EndDispatch` | src/personal_ai_os/satellites/windows/connection.py:172-185 | a dispatcher returns its observation or raises a disconnection, a timeout, a send failure or a cancellation, and in each case releases its command |
| `SatelliteConnections.SatelliteConnectionManager.AcceptObservation` | src/personal_ai_os/satellites/windows/connection.py:204-224 | only a bound frame of the current session resolves the waiting command |
| `CircuitBreakers.AdmissionBound` | src/personal_ai_os/model_gateway/resilience.py:55-108 | if every operation fails transiently and the clock does not go back, a fresh circuit lets at most threshold + floor((t - t0) / cooldown) operations begin by any time t, counting one that is still running at t |
| `CircuitBreakers.BoundIsAttained` | src/personal_ai_os/model_gateway/resilience.py:55-108 | for every n a schedule attains that bound |
| `CircuitBreakers.ClosedCountsTheStreak` | src/personal_ai_os/model_gateway/resilience.py:79-103 | a closed circuit's failure count is exactly the transient failures since the last success or released probe |
| `CircuitBreakers.WedgedForever` | src/personal_ai_os/model_gateway/resilience.py:55-77 | a probe that was never recorded blocks the circuit for good, whatever time passes |
| `CircuitBreakers.WedgedExactlyWhenAProbeWasInterrupted` | src/personal_ai_os/model_gateway/gateway.py:293-360 | between calls a circuit is half-open if and only if a probe was interrupted by an exception no handler catches |
| `ModelGateways.ModelGateway.WithRetry` | src/personal_ai_os/model_gateway/gateway.py:293-360 | at most max_attempts turns, a further one only after an offline, timed-out or transient failure; success leaves the circuit closed at zero; the error raised tells the last turn's failure |
| `ModelGateways.ModelGateway.RecordFailure` | src/personal_ai_os/model_gateway/gateway.py:299-352 | each failure is recorded as transient or not, raises its own error, and may be tried again if and only if it is transient |
| `ModelGateways.ModelGateway.Generate` | src/personal_ai_os/model_gateway/gateway.py:206-211 | one request under the guard, which is released however it ends |
| `ModelGateways.ModelGateway.Persist` | src/personal_ai_os/model_gateway/gateway.py:191-216 | over any number of requests to a dead provider the operations begun by any time stay within the breaker's bound |
| `GatewayCallers.GuardExcludes` | src/personal_ai_os/model_gateway/resilience.py:111-128 | in every interleaving of callers, each gated only by its own phase and the permit, at most one is past the guard |
| `GatewayCallers.GuardPairsAdmissionsWithRecords` | src/personal_ai_os/model_gateway/gateway.py:293-360 | in every interleaving an admission whose operation ended meets exactly one record, of its own caller, circuit and outcome, if and only if neither the operation nor its recording was interrupted, and no other record is ever written |
| `GatewayCallers.GuardSerialises` | src/personal_ai_os/model_gateway/gateway.py:206-211 | in every interleaving each circuit is what its own finished attempts, one after another, make of it, plus the admission of the operation in flight |
| `GatewayCallers.CallersStayWithinTheBound` | src/personal_ai_os/model_gateway/resilience.py:55-108 | if the provider behind a circuit is dead, at most threshold + floor((t - t0) / cooldown) operations begin on it by time t, however many callers interleave, those in flight included |
| `GatewayCallers.CircuitsStaySound` | src/personal_ai_os/model_gateway/resilience.py:55-108 | in every interleaving a half-open circuit has its probe active |
| `ModelGateways.CircuitBreaker.Ask` | src/personal_ai_os/model_gateway/resilience.py:55-77 | a call is permitted, permitted as the probe, or refused |
| `ModelGateways.CircuitBreaker.RecordTransientFailure` | src/personal_ai_os/model_gateway/resilience.py:86-93 | a transient failure reopens a half-open circuit or counts towards the threshold |
| `ModelGateways.CircuitBreaker.RecordNonTransientResult` | src/personal_ai_os/model_gateway/resilience.py:95-103 | an admitted probe is released without counting |
| `SchemaValidation.AcceptedSchemasAreDecided` | src/personal_ai_os/model_gateway/validation.py:46-134 | for every accepted schema a value is accepted if and only if it conforms to the schema's depth-free meaning; without null lists every other value is rejected, so the check is total and its depth guard decides nothing |
| `SchemaValidation.ValuesFaithful` | src/personal_ai_os/model_gateway/validation.py:96-134 | the same for every part of an accepted schema at its depth |
| `SchemaValidation.AcceptedProperty` | src/personal_ai_os/model_gateway/validation.py:70-84 | every property schema of an accepted schema is accepted one level deeper |
| `SchemaTotality.TotalExactlyWhenNoNullIsReachable` | src/personal_ai_os/model_gateway/validation.py:46-134 | for every accepted schema the value check returns or raises its own error on every value if and only if no value can reach a null list, which the schema alone decides; then every verdict is conformance |
| `SchemaTotality.ReachableMeansCrash` | src/personal_ai_os/model_gateway/validation.py:110-113 | from every reachable null list, also inside listed objects and arrays, a value can be built on which the check raises a TypeError |
| `SchemaTotality.CrashMeansReachable` | src/personal_ai_os/model_gateway/validation.py:110-113 | only a reachable null list makes the check of an accepted schema raise a TypeError |
| `SchemaValidation.SchemaCheckEscapesExactly` | src/personal_ai_os/model_gateway/validation.py:46-93 | the schema check itself raises a TypeError if and only if it comes to a type that is a list or an object before it rejects anything: at once when the root passes the tests before it, and never on a schema without such a type |
| `SchemaMeaning.SchemasAreAcceptedExactly` | src/personal_ai_os/model_gateway/validation.py:46-93 | the schema check accepts exactly the schemas of the subset, told without the check, whose nesting fits below its depth |
| `SchemaMeaning.ValuesAreAcceptedExactly` | src/personal_ai_os/model_gateway/validation.py:96-134 | by such a schema the value check accepts exactly the values the schema describes: type, list, keys, parts and lengths |
| `SchemaMeaning.EqualIsSameMeaning` | src/personal_ai_os/model_gateway/validation.py:110-113 | two values are equal as Python compares them if and only if they denote the same, numbers of every kind alike and objects without order |

## Left out

- Authority lookups (owner, credential, scopes, capabilities, satellite availability): each is a fact given to the step that reads it, and may change between steps.
- `executor.execute`, `gateway.generate` and the satellite's engine: their outcomes are nondeterministic inputs.
- Digests, JSON encoding, previews, regular expressions and Pydantic validation: opaque values, or a flag that says whether validation passed.
- `PermissionDecision` rows, redaction metadata, titles, latency and usage columns: written once and never read back by the modelled code.
- Parent rows deleted behind a call's back: no modelled step deletes a row.
- SELECT order and limits of the listing endpoints (`approvals`, `audit`, `get_messages`, `get_runs`): read-only queries.
- Locks.RankedPlansNeverDeadlock: does not cover the finishing, undelivered-cancellation, multi-row expiry and reconciliation transactions, because they lock out of rank; the lemmas of `Sweeps` and `ReachableDeadlocks` say exactly when they do and what that allows. Locks taken implicitly by foreign keys and those of the start-up sweep over interrupted runs are not modelled.
- SchemaValidation.AcceptedSchemasAreDecided: does not model NaN, whose inequality with itself makes Python's membership test depend on object identity.
- `ResidencyCoordinator`, health reporting, embedding requests, image and tool-definition checks: no state of their own that the proved properties depend on.
- Thread locks inside the breaker and the journal: each of their methods is one atomic step.
- The execution engine's own deadline and allowlist checks and the process registry: a cancellation either reaches a running command or it does not.
- The satellite's heartbeats, session freshness updates by `touch`, and backoff of reconnection.
- `request_cancel` and `cancel_sync` of the connection manager: they only send a frame and change no state.
- Identity enrollment, rotation, the OpenJarvis adapter and HTTP or WebSocket framing.
