/** Every audit entry, and every event that projects one, names the kind that goes with its result. */
module AuditKinds {
  import opened Prelude
  import opened Store
  import opened ToolAuthority
  import opened ToolInvariants
  import opened Conversations
  import opened Platform
  import opened ToolOutcomes
  import TL = ToolLaws
  import RS = RunSteps

  /** The one result that each kind of entry reports. */
  function Reports(kind: AuditKind): CallStatus {
    match kind
    case ToolProposed => CallStatus.Validated
    case ToolDenied => CallStatus.Denied
    case ToolAwaitingApproval => CallStatus.AwaitingApproval
    case ApprovalRequired => CallStatus.AwaitingApproval
    case ToolApproved => CallStatus.Approved
    case ApprovalApproved => CallStatus.Approved
    case ApprovalRejected => CallStatus.Rejected
    case ApprovalExpired => CallStatus.Expired
    case ToolStarted => CallStatus.Executing
    case ToolCancelRequested => CallStatus.CancelRequested
    case ToolCancelDeliveryFailed => CallStatus.CancelRequested
    case ToolCancelled => CallStatus.Cancelled
    case ToolSucceeded => CallStatus.Succeeded
    case ToolFailed => CallStatus.Failed
  }

  /** An entry about a call reports its result; one about no call is a denial. */
  ghost predicate EntryFits(e: AuditEvent) {
    if e.call.Some? then e.result == Some(Reports(e.kind)) else e.kind == ToolDenied && e.result.None?
  }

  ghost predicate EventFits(e: Event) {
    e.kind.Tool? ==> e.kind.status == Reports(e.kind.kind)
  }

  ghost predicate LogsFit(audit: seq<AuditEvent>, events: seq<Event>) {
    (forall e :: e in audit ==> EntryFits(e)) && forall e :: e in events ==> EventFits(e)
  }

  ghost predicate EntriesFit(entries: seq<AuditEvent>) {
    forall e :: e in entries ==> EntryFits(e) && e.result.Some?
  }

  lemma LoggedFits(db: Db, after: Db, id: CallId, call: ToolCall, entries: seq<AuditEvent>)
    requires LogsFit(db.audit, db.events) && TL.Logged(db, after, id, call, entries) && EntriesFit(entries)
    ensures LogsFit(after.audit, after.events)
  {
    hide Reports;
    forall e | e in after.events ensures EventFits(e) {
      var i :| 0 <= i < |after.events| && after.events[i] == e;
      if i < |db.events| {
        assert after.events[i] == db.events[i];
      } else {
        var k := i - |db.events|;
        assert TL.Projects(after.events[|db.events| + k], entries[k], id, call.run.value, db.runs[call.run.value]);
        assert entries[k] in entries;
      }
    }
  }

  // --- the steps of the tool platform ---

  lemma RequestFits(db: Db, registry: Registry, p: Principal, r: ToolRequest, w: Surroundings)
    requires LogsFit(db.audit, db.events)
    ensures var after := RequestTool(db, registry, p, r, w).db; LogsFit(after.audit, after.events)
  {
    hide RequestTool, TL.Logged, MayRun, DeniedFor, Records;
    var txn := RequestTool(db, registry, p, r, w);
    if txn.result.Ok? && !txn.result.value.replayed {
      AdmittedRequestDecides(db, registry, p, r, w);
      var call := txn.db.calls[w.freshCall];
      BirthFits(w.freshCall, call, w.freshApproval, w.now);
      hide BirthEntries;
      LoggedFits(db, txn.db, w.freshCall, call, BirthEntries(w.freshCall, call, w.freshApproval, w.now));
    } else {
      RefusedRequestLeavesNoTrace(db, registry, p, r, w);
    }
  }

  lemma BirthFits(id: CallId, call: ToolCall, approval: ApprovalId, now: Time)
    requires call.status in {CallStatus.Approved, CallStatus.Denied, CallStatus.AwaitingApproval}
    ensures EntriesFit(BirthEntries(id, call, approval, now))
  {}

  lemma DecisionFits(
    db: Db, after: Db, aid: ApprovalId, approval: Approval, status: CallStatus, reason: string, kind: AuditKind,
    mention: Option<ApprovalId>, now: Time)
    requires LogsFit(db.audit, db.events) && DecidedAs(db, after, aid, approval, status, reason, kind, mention, now)
    requires status == Reports(kind)
    ensures LogsFit(after.audit, after.events)
  {
    var id := db.approvals[aid].call;
    LoggedFits(db, after, id, db.calls[id], [AuditEvent(Some(id), mention, kind, Some(status), reason, now)]);
  }

  lemma DecideFits(db: Db, p: Principal, authorized: bool, aid: ApprovalId, approve: bool, now: Time)
    requires LogsFit(db.audit, db.events)
    ensures var after := DecideApproval(db, p, authorized, aid, approve, now).db; LogsFit(after.audit, after.events)
  {
    hide DecideApproval, DecidedAs, TL.OpenParent, TL.Active, RunGoesOn, RunIsOver, LogsFit;
    var txn := DecideApproval(db, p, authorized, aid, approve, now);
    DecisionOutcome(db, p, authorized, aid, approve, now);
    if txn.result.Ok? {
      if approve {
        DecisionFits(db, txn.db, aid, txn.result.value, CallStatus.Approved, "owner_approved", ApprovalApproved, Some(aid), now);
      } else {
        DecisionFits(db, txn.db, aid, txn.result.value, CallStatus.Rejected, "owner_rejected", ApprovalRejected, Some(aid), now);
      }
    } else if txn.result == Err("approval_expired") {
      DecisionFits(db, txn.db, aid, db.approvals[aid].(status := ApprovalStatus.Expired), CallStatus.Expired,
                   "approval_expired", ApprovalExpired, Some(aid), now);
    } else if txn.result == Err("parent_run_cancelled") {
      DecisionFits(db, txn.db, aid, db.approvals[aid].(status := ApprovalStatus.Cancelled), CallStatus.Cancelled,
                   "parent_run_cancelled", ToolCancelled, None, now);
    }
  }

  lemma BeginFits(
    db: Db, registry: Registry, p: Principal, id: CallId, arguments: Option<Option<Digest>>, w: Surroundings)
    requires LogsFit(db.audit, db.events)
    ensures var after := BeginExecution(db, registry, p, id, arguments, w).db; LogsFit(after.audit, after.events)
  {
    hide BeginExecution, Dispatchable, Granted, InTime, StillAllowed, OwnCall, TL.OpenParent, RunIsOver, TL.HoldingSlots,
      TL.Logged, LogsFit, DecidedAs;
    var txn := BeginExecution(db, registry, p, id, arguments, w);
    DispatchOutcome(db, registry, p, id, arguments, w);
    if txn.result == Ok(Execution.Started) {
      LoggedFits(db, txn.db, id, db.calls[id],
        [AuditEvent(Some(id), None, ToolStarted, Some(CallStatus.Executing), "authority_consumed", w.now)]);
    } else if txn.result == Err("approval_expired") {
      var aid := db.calls[id].approval.value;
      DecisionFits(db, txn.db, aid, db.approvals[aid].(status := ApprovalStatus.Expired), CallStatus.Expired,
                   "approval_expired", ApprovalExpired, Some(aid), w.now);
    } else if txn.result == Err("parent_run_cancelled") {
      LoggedFits(db, txn.db, id, db.calls[id],
        [AuditEvent(Some(id), None, ToolCancelled, Some(CallStatus.Cancelled), "parent_run_cancelled", w.now)]);
    }
  }

  lemma ConcludedFits(
    db: Db, after: Db, id: CallId, status: CallStatus, observed: ObservationStatus, kind: AuditKind, reason: string,
    now: Time)
    requires LogsFit(db.audit, db.events) && Concluded(db, after, id, status, observed, kind, reason, now)
    requires status == Reports(kind)
    ensures LogsFit(after.audit, after.events)
  {
    LoggedFits(db, after, id, db.calls[id], [AuditEvent(Some(id), None, kind, Some(status), reason, now)]);
  }

  lemma FinishFits(db: Db, id: CallId, raw: RawOutcome, now: Time)
    requires LogsFit(db.audit, db.events)
    ensures var after := FinishExecution(db, id, raw, now).db; LogsFit(after.audit, after.events)
  {
    if id in db.calls && id !in db.observations {
      hide FinishExecution, Concluded, LogsFit;
      OutcomeIsNormalised(db, id, raw, now);
      var after := FinishExecution(db, id, raw, now).db;
      if raw.Returned? && raw.status == ObservationStatus.Cancelled {
        ConcludedFits(db, after, id, CallStatus.Cancelled, ObservationStatus.Cancelled, ToolCancelled, "cancelled", now);
      } else if raw == Returned(ObservationStatus.Succeeded, true, true) {
        ConcludedFits(db, after, id, CallStatus.Succeeded, ObservationStatus.Succeeded, ToolSucceeded, "verified", now);
      } else {
        var reason :=
          if raw.Raised? then "executor_uncertain_outcome"
          else if raw.status == ObservationStatus.Failed then "executor_failed"
          else if !raw.outputValid then "output_schema_invalid" else "verification_failed";
        ConcludedFits(db, after, id, CallStatus.Failed, ObservationStatus.Failed, ToolFailed, reason, now);
      }
    } else {
      hide Observe;
    }
  }

  lemma CancelFits(db: Db, registry: Registry, p: Principal, authorized: bool, id: CallId, now: Time)
    requires LogsFit(db.audit, db.events)
    ensures var after := CancelCall(db, registry, p, authorized, id, now).db; LogsFit(after.audit, after.events)
  {
    hide CancelCall, OwnCall, Unfinished, LogsFit, TL.Logged;
    var after := CancelCall(db, registry, p, authorized, id, now).db;
    CancellationOutcome(db, registry, p, authorized, id, now);
    if id in db.calls && after != db {
      if db.calls[id].status == CallStatus.Executing {
        LoggedFits(db, after, id, db.calls[id],
          [AuditEvent(Some(id), None, ToolCancelRequested, Some(CallStatus.CancelRequested), "caller_cancel_requested", now)]);
      } else {
        LoggedFits(db, after, id, db.calls[id],
          [AuditEvent(Some(id), None, ToolCancelled, Some(CallStatus.Cancelled), "caller_cancelled", now)]);
      }
    }
  }

  lemma UndeliveredFits(db: Db, id: CallId, now: Time)
    requires LogsFit(db.audit, db.events)
    ensures var after := CancelUndelivered(db, id, now); LogsFit(after.audit, after.events)
  {
    hide CancelUndelivered, LogsFit, TL.Logged;
    UndeliveredOutcome(db, id, now);
    if id in db.calls && db.calls[id].status == CallStatus.CancelRequested {
      LoggedFits(db, CancelUndelivered(db, id, now), id, db.calls[id],
        [AuditEvent(Some(id), None, ToolCancelDeliveryFailed, Some(CallStatus.CancelRequested),
                    "cancellation_not_delivered", now)]);
    }
  }

  lemma {:induction false} ExpiryFits(db: Db, ids: seq<ApprovalId>, now: Time)
    requires LogsFit(db.audit, db.events)
    ensures var after := ExpireAll(db, ids, now); LogsFit(after.audit, after.events)
  {
    hide ExpireOne, LogsFit;
    if ids != [] {
      ExpiryFits(db, ids[..|ids| - 1], now);
      OneExpiryFits(ExpireAll(db, ids[..|ids| - 1], now), ids[|ids| - 1], now);
    }
  }

  lemma OneExpiryFits(db: Db, aid: ApprovalId, now: Time)
    requires LogsFit(db.audit, db.events)
    ensures var after := ExpireOne(db, aid, now); LogsFit(after.audit, after.events)
  {
    if aid in db.approvals && db.approvals[aid].call in db.calls {
      var id := db.approvals[aid].call;
      var expired := SetApproval(db, aid, ApprovalStatus.Expired);
      var after := Transition(expired, id, CallStatus.Expired, "approval_expired", ApprovalExpired, "approval_expired",
                              now, Some(aid));
      TL.TransitionLaw(expired, id, CallStatus.Expired, "approval_expired", ApprovalExpired, "approval_expired", now,
                       Some(aid));
      hide Transition, TL.Logged, LogsFit;
      LoggedFits(expired, after, id, expired.calls[id],
        [AuditEvent(Some(id), Some(aid), ApprovalExpired, Some(CallStatus.Expired), "approval_expired", now)]);
    }
  }

  lemma {:induction false} ReconcileFits(db: Db, ids: seq<CallId>, now: Time)
    requires LogsFit(db.audit, db.events)
    ensures ReconcileAll(db, ids, now).Some? ==>
      LogsFit(ReconcileAll(db, ids, now).value.audit, ReconcileAll(db, ids, now).value.events)
  {
    hide Observe, LogsFit;
    if ids != [] {
      var before := ReconcileAll(db, ids[..|ids| - 1], now);
      ReconcileFits(db, ids[..|ids| - 1], now);
      if before.Some? && ids[|ids| - 1] in before.value.calls {
        OneFailureFits(before.value, ids[|ids| - 1], now);
      }
    }
  }

  lemma OneFailureFits(db: Db, id: CallId, now: Time)
    requires LogsFit(db.audit, db.events) && id in db.calls
    ensures var after := Observe(db, id, ObservationStatus.Failed, "stale_execution_reconciled",
                                 "stale_execution_reconciled", now);
      LogsFit(after.audit, after.events)
  {
    var call := db.calls[id].(status := CallStatus.Failed, reason := "stale_execution_reconciled", completedAt := Some(now));
    var written := db.(calls := db.calls[id := call],
                       observations := db.observations[id := Observation(ObservationStatus.Failed, now)]);
    TL.AuditLaw(written, id, ToolFailed, "stale_execution_reconciled", now, None);
    hide Audit, TL.Logged, LogsFit;
    LoggedFits(written, Audit(written, id, ToolFailed, "stale_execution_reconciled", now, None), id, call,
      [AuditEvent(Some(id), None, ToolFailed, Some(CallStatus.Failed), "stale_execution_reconciled", now)]);
  }

  lemma ToolStepFits(db: Db, op: Op)
    requires LogsFit(db.audit, db.events) && ToolOp(op)
    ensures LogsFit(Step(db, op).audit, Step(db, op).events)
  {
    hide LogsFit, RequestTool, DecideApproval, BeginExecution, FinishExecution, CancelCall, CancelUndelivered, ExpireAll,
      ReconcileAll, ExpiryCandidates, StaleCalls;
    match op {
      case Request(registry, p, request, w) => RequestFits(db, registry, p, request, w);
      case Decide(p, authorized, approval, approve, now) => DecideFits(db, p, authorized, approval, approve, now);
      case Begin(registry, p, call, arguments, w) => BeginFits(db, registry, p, call, arguments, w);
      case Finish(call, raw, now) => FinishFits(db, call, raw, now);
      case Cancel(registry, p, authorized, call, now) => CancelFits(db, registry, p, authorized, call, now);
      case CancelLost(call, now) => UndeliveredFits(db, call, now);
      case ExpirePending(ids, now) => ExpiryFits(db, ids, now);
      case ReconcileCalls(calls, now) => ReconcileFits(db, calls, now);
    }
  }

  // --- the steps of the conversation service ---

  /** The same audit log, and only events that project no tool fact are new. */
  ghost predicate Aside(db: Db, after: Db) {
    after.audit == db.audit && forall e :: e in after.events ==> e in db.events || !e.kind.Tool?
  }

  lemma EmitAside(db: Db, id: RunId, kind: EventKind)
    requires id in db.runs && !kind.Tool?
    ensures Aside(db, EmitRun(db, id, kind))
  {
    hide MaxSequence;
  }

  lemma MoveAside(db: Db, id: RunId, status: RunStatus, kind: EventKind)
    requires id in db.runs && !kind.Tool?
    ensures Aside(db, MoveRun(db, id, status, kind))
  {
    EmitAside(db.(runs := db.runs[id := db.runs[id].(status := status)]), id, kind);
    hide EmitRun;
  }

  lemma {:induction false} InterruptAside(db: Db, ids: seq<RunId>)
    ensures Aside(db, InterruptAll(db, ids))
  {
    hide MoveRun;
    if ids != [] {
      var before := InterruptAll(db, ids[..|ids| - 1]);
      InterruptAside(db, ids[..|ids| - 1]);
      if ids[|ids| - 1] in before.runs { MoveAside(before, ids[|ids| - 1], RunStatus.Failed, RunInterrupted); }
    }
  }

  lemma SubmittedAside(
    db: Db, p: Principal, session: SessionId, clientId: nat, content: string, model: string,
    freshMessage: MessageId, freshRun: RunId)
    requires session in db.sessions
    ensures Aside(db, Submitted(db, p, session, clientId, content, model, freshMessage, freshRun))
  {
    var conversation := db.sessions[session].conversation;
    var message := ChatMessage(freshMessage, conversation, freshRun, Some(p.device), Role.User, content,
                               MaxOrdinal(db.messages, conversation) + 1, Some(clientId));
    var run := Run(conversation, session, p.device, freshMessage, model, RunStatus.Queued, false, None, None);
    var inserted := db.(messages := db.messages + [message], runs := db.runs[freshRun := run]);
    EmitAside(inserted, freshRun, MessageAccepted(freshMessage));
    EmitAside(EmitRun(inserted, freshRun, MessageAccepted(freshMessage)), freshRun, RunQueued);
    hide EmitRun, MaxOrdinal;
  }

  lemma SubmitAside(
    db: Db, p: Principal, session: SessionId, clientId: nat, content: string, model: string,
    freshMessage: MessageId, freshRun: RunId)
    ensures Aside(db, SubmitMessage(db, p, session, clientId, content, model, freshMessage, freshRun).db)
  {
    hide ValidText, FindClientMessage, ReplaySubmission, Busy, Submitted;
    if session in db.sessions {
      SubmittedAside(db, p, session, clientId, content, model, freshMessage, freshRun);
    }
  }

  lemma CancelAside(db: Db, p: Principal, id: RunId)
    ensures Aside(db, CancelRun(db, p, id).db)
  {
    hide MoveRun;
    if id in db.runs {
      MoveAside(db, id, RunStatus.Cancelled, RunCancelled);
      MoveAside(db, id, RunStatus.CancelRequested, EventKind.RunCancelRequested);
    }
  }

  lemma BeginAside(db: Db, id: RunId)
    ensures Aside(db, BeginRun(db, id))
  {
    hide MoveRun;
    if id in db.runs { MoveAside(db, id, RunStatus.Running, RunStarted); }
  }

  lemma FailAside(db: Db, id: RunId)
    ensures Aside(db, FinalizeFailure(db, id))
  {
    hide MoveRun;
    if id in db.runs {
      var done := db.(generating := db.generating - {id});
      MoveAside(done, id, RunStatus.Cancelled, RunCancelled);
      MoveAside(done, id, RunStatus.Failed, RunFailed);
    }
  }

  lemma AnsweredAside(db: Db, id: RunId, text: string, truncated: bool, freshMessage: MessageId)
    requires id in db.runs
    ensures Aside(db, Answered(db, id, text, truncated, freshMessage))
  {
    var conversation := db.runs[id].conversation;
    var answer := ChatMessage(freshMessage, conversation, id, None, Role.Assistant, text,
                              MaxOrdinal(db.messages, conversation) + 1, None);
    var answered := db.(messages := db.messages + [answer],
                        runs := db.runs[id := db.runs[id].(truncated := truncated)]);
    MoveAside(answered, id, RunStatus.Succeeded, RunSucceeded);
    EmitAside(MoveRun(answered, id, RunStatus.Succeeded, RunSucceeded), id, AssistantReady(freshMessage));
    hide EmitRun, MoveRun, MaxOrdinal;
  }

  lemma ResponseAside(db: Db, id: RunId, response: Response, truncated: bool, freshMessage: MessageId)
    ensures Aside(db, FinalizeResponse(db, id, response, truncated, freshMessage))
  {
    hide MoveRun, Answered, ValidResponse;
    if id in db.runs {
      var done := db.(generating := db.generating - {id});
      MoveAside(done, id, RunStatus.Cancelled, RunCancelled);
      MoveAside(done, id, RunStatus.Failed, RunFailed);
      AnsweredAside(done, id, response.text, truncated, freshMessage);
    }
  }

  lemma SessionsAside(db: Db, p: Principal, conversation: ConversationId, session: SessionId)
    ensures Aside(db, CreateConversation(db, p, conversation).db)
    ensures Aside(db, CreateSession(db, p, conversation, session).db) && Aside(db, CloseSession(db, p, session).db)
  {
    hide MaxSequence;
  }

  lemma RunStepAside(db: Db, op: Op)
    requires !ToolOp(op)
    ensures Aside(db, Step(db, op))
  {
    hide CreateConversation, CreateSession, CloseSession, SubmitMessage, CancelRun, BeginRun, FinalizeResponse,
      FinalizeFailure, InterruptAll, NonTerminalRuns;
    match op {
      case OpenConversation(p, conversation) => SessionsAside(db, p, conversation, 0);
      case OpenSession(p, conversation, session) => SessionsAside(db, p, conversation, session);
      case ShutSession(p, session) => SessionsAside(db, p, 0, session);
      case Submit(p, session, clientId, content, model, freshMessage, freshRun) =>
        SubmitAside(db, p, session, clientId, content, model, freshMessage, freshRun);
      case StopRun(p, run) => CancelAside(db, p, run);
      case WorkOn(run) => BeginAside(db, run);
      case Respond(run, response, truncated, freshMessage) => ResponseAside(db, run, response, truncated, freshMessage);
      case Fail(run) => FailAside(db, run);
      case InterruptRuns(runs) => InterruptAside(db, runs);
      case _ =>
    }
  }

  lemma AsideFits(db: Db, after: Db)
    requires LogsFit(db.audit, db.events) && Aside(db, after)
    ensures LogsFit(after.audit, after.events)
  {}

  // --- every run ---

  /** In every reachable state each audit entry about a call has the kind that goes with its result, an
      entry about no call is a denial, and so has each event that shows a session what was audited. */
  lemma {:induction false} KindsTellResults(devices: map<DeviceId, Device>, ops: seq<Op>)
    ensures LogsFit(Reach(devices, ops).audit, Reach(devices, ops).events)
  {
    hide Step, LogsFit;
    if ops == [] {
      NothingLogged();
    } else {
      var n := |ops| - 1;
      KindsTellResults(devices, ops[..n]);
      if ToolOp(ops[n]) {
        ToolStepFits(Reach(devices, ops[..n]), ops[n]);
      } else {
        RunStepAside(Reach(devices, ops[..n]), ops[n]);
        AsideFits(Reach(devices, ops[..n]), Step(Reach(devices, ops[..n]), ops[n]));
      }
    }
  }

  lemma NothingLogged()
    ensures LogsFit([], [])
  {}
}
