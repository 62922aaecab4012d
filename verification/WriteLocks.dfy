/** What a transaction writes, it holds: every row it changes and every stream it extends is locked by it.
    That is what makes a transaction one atomic step. */
module WriteLocks {
  import opened Prelude
  import opened Store
  import opened ToolAuthority
  import opened Conversations
  import opened Locks
  import TL = ToolLaws
  import TO = ToolOutcomes
  import RO = RunOutcomes

  /** Every existing row that differs afterwards, and every session whose stream grew, is locked. */
  ghost predicate Guarded(db: Db, after: Db, locks: seq<Lock>) {
    (forall id :: id in db.calls ==> id in after.calls && (after.calls[id] == db.calls[id] || CallRow(id) in locks))
    && (forall aid :: aid in db.approvals ==>
          aid in after.approvals && (after.approvals[aid] == db.approvals[aid] || ApprovalRow(aid) in locks))
    && (forall id :: id in db.runs ==> id in after.runs && (after.runs[id] == db.runs[id] || RunRow(id) in locks))
    && (forall id :: id in db.sessions ==>
          id in after.sessions && (after.sessions[id] == db.sessions[id] || SessionRow(id) in locks))
    && db.events <= after.events
    && forall i :: |db.events| <= i < |after.events| ==> SessionRow(after.events[i].session) in locks
  }

  lemma NothingWritten(db: Db)
    ensures forall locks :: Guarded(db, db, locks)
  {}

  lemma GuardedThen(db: Db, mid: Db, after: Db, first: seq<Lock>, second: seq<Lock>)
    requires Guarded(db, mid, first) && Guarded(mid, after, second)
    ensures Guarded(db, after, first + second)
  {
    forall i | |db.events| <= i < |after.events| ensures SessionRow(after.events[i].session) in first + second {
      if i < |mid.events| { assert after.events[i] == mid.events[i]; }
    }
    assert forall i :: 0 <= i < |db.events| ==> after.events[i] == mid.events[i] == db.events[i];
  }

  lemma MoreLocks(db: Db, after: Db, locks: seq<Lock>, more: seq<Lock>)
    requires Guarded(db, after, locks) && forall lock :: lock in locks ==> lock in more
    ensures Guarded(db, after, more)
  {}

  // --- the tool platform ---

  /** The call is locked, and so is the session that its facts are shown to. */
  ghost predicate CallLocked(db: Db, id: CallId, locks: seq<Lock>) {
    id in db.calls && CallRow(id) in locks && FactsLocked(db, db.calls[id], locks)
  }

  ghost predicate FactsLocked(db: Db, call: ToolCall, locks: seq<Lock>) {
    TL.Visible(db, call) ==> SessionRow(db.runs[call.run.value].session) in locks
  }

  /** One call, perhaps one approval, and the log. */
  ghost predicate WritesCall(db: Db, after: Db, id: CallId, aid: Option<ApprovalId>) {
    id in db.calls && id in after.calls && after.runs == db.runs && after.sessions == db.sessions
    && after.calls == db.calls[id := after.calls[id]]
    && forall a :: a in db.approvals ==>
         a in after.approvals && (after.approvals[a] == db.approvals[a] || aid == Some(a))
  }

  lemma LoggedIsGuarded(db: Db, after: Db, id: CallId, call: ToolCall, entries: seq<AuditEvent>, locks: seq<Lock>)
    requires TL.Logged(db, after, id, call, entries) && FactsLocked(db, call, locks)
    ensures db.events <= after.events
    ensures forall i :: |db.events| <= i < |after.events| ==> SessionRow(after.events[i].session) in locks
  {
    forall i | |db.events| <= i < |after.events| ensures SessionRow(after.events[i].session) in locks {
      var k := i - |db.events|;
      assert TL.Projects(after.events[|db.events| + k], entries[k], id, call.run.value, db.runs[call.run.value]);
    }
  }

  lemma CallIsGuarded(
    db: Db, after: Db, id: CallId, aid: Option<ApprovalId>, entries: seq<AuditEvent>, locks: seq<Lock>)
    requires WritesCall(db, after, id, aid) && TL.Logged(db, after, id, db.calls[id], entries)
    requires CallLocked(db, id, locks) && (aid.Some? ==> ApprovalRow(aid.value) in locks)
    ensures Guarded(db, after, locks)
  {
    LoggedIsGuarded(db, after, id, db.calls[id], entries, locks);
    hide TL.Logged, FactsLocked;
  }

  /** Whatever call of that run: the session of the run is locked. */
  ghost predicate SessionLocked(db: Db, run: Option<RunId>, locks: seq<Lock>) {
    run.Some? && run.value in db.runs && db.runs[run.value].session in db.sessions ==>
      SessionRow(db.runs[run.value].session) in locks
  }

  lemma RequestIsGuarded(
    db: Db, registry: Registry, p: Principal, r: ToolRequest, w: Surroundings, locks: seq<Lock>)
    requires
      var result := RequestTool(db, registry, p, r, w).result;
      result.Ok? && !result.value.replayed ==> SessionLocked(db, r.run, locks)
    ensures Guarded(db, RequestTool(db, registry, p, r, w).db, locks)
  {
    hide RequestTool, TO.MayRun, TO.DeniedFor, TL.Logged, TO.BirthEntries;
    var txn := RequestTool(db, registry, p, r, w);
    if txn.result.Ok? && !txn.result.value.replayed {
      TO.AdmittedRequestDecides(db, registry, p, r, w);
      var id, call := w.freshCall, txn.db.calls[w.freshCall];
      LoggedIsGuarded(db, txn.db, id, call, TO.BirthEntries(id, call, w.freshApproval, w.now), locks);
      ApprovalsStay(db, registry, p, r, w);
    } else {
      TO.RefusedRequestLeavesNoTrace(db, registry, p, r, w);
    }
  }

  lemma ApprovalsStay(db: Db, registry: Registry, p: Principal, r: ToolRequest, w: Surroundings)
    requires RequestTool(db, registry, p, r, w).result.Ok? && !RequestTool(db, registry, p, r, w).result.value.replayed
    ensures
      var after := RequestTool(db, registry, p, r, w).db;
      forall aid :: aid in db.approvals ==> aid in after.approvals && after.approvals[aid] == db.approvals[aid]
  {
    hide RequestTool, TO.MayRun, TO.DeniedFor, TL.Logged, TO.BirthEntries, TO.Records;
    TO.AdmittedRequestDecides(db, registry, p, r, w);
    var call := RequestTool(db, registry, p, r, w).db.calls[w.freshCall];
    match call.status { case Approved => case AwaitingApproval => case Denied => case _ => }
  }

  lemma DecidedIsGuarded(
    db: Db, after: Db, aid: ApprovalId, approval: Approval, status: CallStatus, reason: string, kind: AuditKind,
    mention: Option<ApprovalId>, now: Time, locks: seq<Lock>)
    requires TO.DecidedAs(db, after, aid, approval, status, reason, kind, mention, now)
    requires CallLocked(db, db.approvals[aid].call, locks) && ApprovalRow(aid) in locks
    ensures Guarded(db, after, locks)
  {
    var id := db.approvals[aid].call;
    CallIsGuarded(db, after, id, Some(aid), [AuditEvent(Some(id), mention, kind, Some(status), reason, now)], locks);
    hide TL.Logged;
  }

  lemma DecisionIsGuarded(
    db: Db, p: Principal, authorized: bool, aid: ApprovalId, approve: bool, now: Time, locks: seq<Lock>)
    requires aid in db.approvals && CallLocked(db, db.approvals[aid].call, locks) && ApprovalRow(aid) in locks
    ensures Guarded(db, DecideApproval(db, p, authorized, aid, approve, now).db, locks)
  {
    hide DecideApproval, TO.DecidedAs, TO.Decidable, TO.RunGoesOn, TO.RunIsOver, Guarded, CallLocked;
    NothingWritten(db);
    var txn := DecideApproval(db, p, authorized, aid, approve, now);
    TO.DecisionOutcome(db, p, authorized, aid, approve, now);
    if txn.result.Ok? {
      if approve {
        DecidedIsGuarded(db, txn.db, aid, txn.result.value, CallStatus.Approved, "owner_approved", ApprovalApproved, Some(aid),
                         now, locks);
      } else {
        DecidedIsGuarded(db, txn.db, aid, txn.result.value, CallStatus.Rejected, "owner_rejected", ApprovalRejected, Some(aid),
                         now, locks);
      }
    } else if txn.result == Err("approval_expired") {
      DecidedIsGuarded(db, txn.db, aid, db.approvals[aid].(status := ApprovalStatus.Expired), CallStatus.Expired,
                       "approval_expired", ApprovalExpired, Some(aid), now, locks);
    } else if txn.result == Err("parent_run_cancelled") {
      DecidedIsGuarded(db, txn.db, aid, db.approvals[aid].(status := ApprovalStatus.Cancelled), CallStatus.Cancelled,
                       "parent_run_cancelled", ToolCancelled, None, now, locks);
    }
  }

  /** The approval of the call is locked, if there is one. */
  ghost predicate ApprovalLocked(db: Db, id: CallId, locks: seq<Lock>)
    requires id in db.calls
  {
    var aid := db.calls[id].approval;
    aid.Some? && aid.value in db.approvals ==> ApprovalRow(aid.value) in locks
  }

  lemma DispatchIsGuarded(
    db: Db, registry: Registry, p: Principal, id: CallId, arguments: Option<Option<Digest>>, w: Surroundings,
    locks: seq<Lock>)
    requires CallLocked(db, id, locks) && ApprovalLocked(db, id, locks)
    ensures Guarded(db, BeginExecution(db, registry, p, id, arguments, w).db, locks)
  {
    hide BeginExecution, TO.Dispatchable, TO.StillAllowed, TO.Granted, TO.InTime, TO.OwnCall, TL.OpenParent, TO.RunIsOver,
      TL.HoldingSlots, TL.Logged, TO.DecidedAs, Guarded, CallLocked, TO.Started, TO.WrittenOff, TO.Overran, TO.Unfinished;
    NothingWritten(db);
    TO.DispatchOutcome(db, registry, p, id, arguments, w);
    var txn := BeginExecution(db, registry, p, id, arguments, w);
    if txn.result == Ok(Execution.Started) {
      StartedIsGuarded(db, txn.db, id, w.now, locks);
    } else if txn.result == Err("approval_expired") {
      OverranIsGuarded(db, txn.db, id, w.now, locks);
    } else if txn.result == Err("parent_run_cancelled") {
      WrittenOffIsGuarded(db, txn.db, id, w.now, locks);
    }
  }

  lemma StartedIsGuarded(db: Db, after: Db, id: CallId, now: Time, locks: seq<Lock>)
    requires TO.Started(db, after, id, now) && CallLocked(db, id, locks) && ApprovalLocked(db, id, locks)
    ensures Guarded(db, after, locks)
  {
    hide TL.Logged, Guarded, CallLocked;
    var aid := if db.calls[id].approval.Some? && db.calls[id].approval.value in db.approvals then db.calls[id].approval else None;
    CallIsGuarded(db, after, id, aid,
      [AuditEvent(Some(id), None, ToolStarted, Some(CallStatus.Executing), "authority_consumed", now)], locks);
  }

  lemma OverranIsGuarded(db: Db, after: Db, id: CallId, now: Time, locks: seq<Lock>)
    requires TO.Overran(db, after, id, now) && CallLocked(db, id, locks) && ApprovalLocked(db, id, locks)
    ensures Guarded(db, after, locks)
  {
    hide Guarded, CallLocked, TO.DecidedAs;
    var aid := db.calls[id].approval.value;
    DecidedIsGuarded(db, after, aid, db.approvals[aid].(status := ApprovalStatus.Expired), CallStatus.Expired,
                     "approval_expired", ApprovalExpired, Some(aid), now, locks);
  }

  lemma WrittenOffIsGuarded(db: Db, after: Db, id: CallId, now: Time, locks: seq<Lock>)
    requires TO.WrittenOff(db, after, id, now) && CallLocked(db, id, locks) && ApprovalLocked(db, id, locks)
    ensures Guarded(db, after, locks)
  {
    hide TL.Logged, Guarded, CallLocked;
    var aid := if db.calls[id].approval.Some? && db.calls[id].approval.value in db.approvals then db.calls[id].approval else None;
    CallIsGuarded(db, after, id, aid,
      [AuditEvent(Some(id), None, ToolCancelled, Some(CallStatus.Cancelled), "parent_run_cancelled", now)], locks);
  }

  lemma FinishIsGuarded(db: Db, id: CallId, raw: RawOutcome, now: Time, locks: seq<Lock>)
    requires id in db.calls && id !in db.observations ==> CallLocked(db, id, locks)
    ensures Guarded(db, FinishExecution(db, id, raw, now).db, locks)
  {
    hide TO.Concluded, Guarded, CallLocked, Observe;
    NothingWritten(db);
    if id in db.calls && id !in db.observations {
      hide FinishExecution;
      TO.OutcomeIsNormalised(db, id, raw, now);
      var after := FinishExecution(db, id, raw, now).db;
      if raw.Returned? && raw.status == ObservationStatus.Cancelled {
        ConcludedIsGuarded(db, after, id, CallStatus.Cancelled, ObservationStatus.Cancelled, ToolCancelled, "cancelled", now,
                           locks);
      } else if raw == Returned(ObservationStatus.Succeeded, true, true) {
        ConcludedIsGuarded(db, after, id, CallStatus.Succeeded, ObservationStatus.Succeeded, ToolSucceeded, "verified", now,
                           locks);
      } else {
        var reason :=
          if raw.Raised? then "executor_uncertain_outcome"
          else if raw.status == ObservationStatus.Failed then "executor_failed"
          else if !raw.outputValid then "output_schema_invalid" else "verification_failed";
        ConcludedIsGuarded(db, after, id, CallStatus.Failed, ObservationStatus.Failed, ToolFailed, reason, now, locks);
      }
    } else {
      NotRunning(db, id, locks);
    }
  }

  lemma NotRunning(db: Db, id: CallId, locks: seq<Lock>)
    ensures Guarded(db, db.(executing := db.executing - {id}), locks)
  {}

  lemma ConcludedIsGuarded(
    db: Db, after: Db, id: CallId, status: CallStatus, observed: ObservationStatus, kind: AuditKind, reason: string,
    now: Time, locks: seq<Lock>)
    requires TO.Concluded(db, after, id, status, observed, kind, reason, now) && CallLocked(db, id, locks)
    ensures Guarded(db, after, locks)
  {
    hide TL.Logged, Guarded, CallLocked;
    CallIsGuarded(db, after, id, None, [AuditEvent(Some(id), None, kind, Some(status), reason, now)], locks);
  }

  lemma CancellationIsGuarded(
    db: Db, registry: Registry, p: Principal, authorized: bool, id: CallId, now: Time, locks: seq<Lock>)
    requires CallLocked(db, id, locks)
    requires db.calls[id].status != CallStatus.Executing ==> ApprovalLocked(db, id, locks)
    ensures Guarded(db, CancelCall(db, registry, p, authorized, id, now).db, locks)
  {
    hide CancelCall, TO.OwnCall, TO.Unfinished, TL.Logged, Guarded, CallLocked;
    NothingWritten(db);
    TO.CancellationOutcome(db, registry, p, authorized, id, now);
    var txn := CancelCall(db, registry, p, authorized, id, now);
    if txn.result.Ok? && txn.db != db {
      if db.calls[id].status == CallStatus.Executing {
        CallIsGuarded(db, txn.db, id, None,
          [AuditEvent(Some(id), None, ToolCancelRequested, Some(CallStatus.CancelRequested), "caller_cancel_requested", now)],
          locks);
      } else {
        var aid := if db.calls[id].approval.Some? && db.calls[id].approval.value in db.approvals then db.calls[id].approval else None;
        CallIsGuarded(db, txn.db, id, aid,
          [AuditEvent(Some(id), None, ToolCancelled, Some(CallStatus.Cancelled), "caller_cancelled", now)], locks);
      }
    }
  }

  lemma UndeliveredIsGuarded(db: Db, id: CallId, now: Time, locks: seq<Lock>)
    requires id in db.calls && db.calls[id].status == CallStatus.CancelRequested ==> CallLocked(db, id, locks)
    ensures Guarded(db, CancelUndelivered(db, id, now), locks)
  {
    hide CancelUndelivered, TL.Logged, Guarded, CallLocked;
    NothingWritten(db);
    TO.UndeliveredOutcome(db, id, now);
    if id in db.calls && db.calls[id].status == CallStatus.CancelRequested {
      CallIsGuarded(db, CancelUndelivered(db, id, now), id, None,
        [AuditEvent(Some(id), None, ToolCancelDeliveryFailed, Some(CallStatus.CancelRequested),
                    "cancellation_not_delivered", now)], locks);
    }
  }

  lemma ExpiryIsGuarded(db: Db, aid: ApprovalId, now: Time, locks: seq<Lock>)
    requires aid in db.approvals ==> ApprovalRow(aid) in locks
    requires aid in db.approvals && db.approvals[aid].call in db.calls
             && db.calls[db.approvals[aid].call].status == CallStatus.AwaitingApproval
             && db.approvals[aid].status == ApprovalStatus.Pending && db.approvals[aid].expiresAt <= now ==>
               CallLocked(db, db.approvals[aid].call, locks)
    ensures Guarded(db, ExpireOne(db, aid, now), locks)
  {
    hide Transition, Guarded, CallLocked;
    NothingWritten(db);
    if aid in db.approvals {
      ApprovalIsGuarded(db, aid, locks);
      if CallLocked(db, db.approvals[aid].call, locks) { ExpiredCallIsGuarded(db, aid, now, locks); }
    }
  }

  lemma ExpiredCallIsGuarded(db: Db, aid: ApprovalId, now: Time, locks: seq<Lock>)
    requires aid in db.approvals && ApprovalRow(aid) in locks && CallLocked(db, db.approvals[aid].call, locks)
    ensures
      db.approvals[aid].call in db.calls
      && Guarded(db, Transition(SetApproval(db, aid, ApprovalStatus.Expired), db.approvals[aid].call, CallStatus.Expired,
                                "approval_expired", ApprovalExpired, "approval_expired", now, Some(aid)), locks)
  {
    var id := db.approvals[aid].call;
    var entries := [AuditEvent(Some(id), Some(aid), ApprovalExpired, Some(CallStatus.Expired), "approval_expired", now)];
    var expired := SetApproval(db, aid, ApprovalStatus.Expired);
    TL.TransitionLaw(expired, id, CallStatus.Expired, "approval_expired", ApprovalExpired, "approval_expired", now, Some(aid));
    hide Transition, TL.Logged, Guarded, FactsLocked;
    var after := Transition(expired, id, CallStatus.Expired, "approval_expired", ApprovalExpired, "approval_expired", now,
                            Some(aid));
    TO.LoggedAtApproval(db, expired, after, id, entries);
    CallIsGuarded(db, after, id, Some(aid), entries, locks);
  }

  lemma ApprovalIsGuarded(db: Db, aid: ApprovalId, locks: seq<Lock>)
    requires aid in db.approvals && ApprovalRow(aid) in locks
    ensures Guarded(db, SetApproval(db, aid, ApprovalStatus.Expired), locks)
  {}

  lemma ObservationIsGuarded(
    db: Db, id: CallId, status: ObservationStatus, callReason: string, auditReason: string, now: Time, locks: seq<Lock>)
    requires CallLocked(db, id, locks)
    ensures Guarded(db, Observe(db, id, status, callReason, auditReason, now), locks)
  {
    var call := db.calls[id].(status := StatusOf(status), reason := callReason, completedAt := Some(now));
    var written := db.(calls := db.calls[id := call], observations := db.observations[id := Observation(status, now)]);
    TL.AuditLaw(written, id, OutcomeKind(status), auditReason, now, None);
    TO.SeenAlike(written, Observe(db, id, status, callReason, auditReason, now), id, call, db.calls[id],
      [AuditEvent(Some(id), None, OutcomeKind(status), Some(call.status), auditReason, now)]);
    LoggedIsGuarded(written, Observe(db, id, status, callReason, auditReason, now), id, call,
      [AuditEvent(Some(id), None, OutcomeKind(status), Some(call.status), auditReason, now)], locks);
    hide Audit, TL.Logged, FactsLocked;
  }

  // --- the conversation service ---

  /** The run is locked and so is its session. */
  ghost predicate RunLocked(db: Db, id: RunId, locks: seq<Lock>) {
    id in db.runs && RunRow(id) in locks && SessionRow(db.runs[id].session) in locks
  }

  lemma MovedIsGuarded(db: Db, after: Db, id: RunId, status: RunStatus, kind: EventKind, locks: seq<Lock>)
    requires RO.Moved(db, after, id, status, kind) && RunLocked(db, id, locks)
    ensures Guarded(db, after, locks)
  {
    hide RO.Numbered;
  }

  lemma SubmissionIsGuarded(
    db: Db, p: Principal, session: SessionId, clientId: nat, content: string, model: string, freshMessage: MessageId,
    freshRun: RunId, locks: seq<Lock>)
    requires session in db.sessions ==> SessionRow(session) in locks
    ensures Guarded(db, SubmitMessage(db, p, session, clientId, content, model, freshMessage, freshRun).db, locks)
  {
    hide SubmitMessage, RO.Says, RO.Idle, RO.Numbered, RO.Ordered, RO.Repeats, Busy;
    RO.SubmissionOutcome(db, p, session, clientId, content, model, freshMessage, freshRun);
    NothingWritten(db);
  }

  lemma RunCancellationIsGuarded(db: Db, p: Principal, id: RunId, locks: seq<Lock>)
    requires CancelRun(db, p, id).result.Ok? && CancelRun(db, p, id).db != db ==> RunLocked(db, id, locks)
    ensures Guarded(db, CancelRun(db, p, id).db, locks)
  {
    hide CancelRun, RO.Moved, Guarded, RunLocked;
    NothingWritten(db);
    RO.RunCancellationOutcome(db, p, id);
    var after := CancelRun(db, p, id).db;
    if after != db {
      if db.runs[id].status == RunStatus.Queued {
        MovedIsGuarded(db, after, id, RunStatus.Cancelled, EventKind.RunCancelled, locks);
      } else {
        MovedIsGuarded(db, after, id, RunStatus.CancelRequested, EventKind.RunCancelRequested, locks);
      }
    }
  }

  lemma BeginIsGuarded(db: Db, id: RunId, locks: seq<Lock>)
    requires id in db.runs && db.runs[id].status == RunStatus.Queued ==>
      RunRow(id) in locks && (db.runs[id].session in db.sessions ==> SessionRow(db.runs[id].session) in locks)
    ensures Guarded(db, BeginRun(db, id), locks)
  {
    hide BeginRun, RO.Moved, Guarded;
    NothingWritten(db);
    RO.BeginOutcome(db, id);
    var after := BeginRun(db, id);
    if id in db.runs && db.runs[id].status == RunStatus.Queued {
      if db.runs[id].session in db.sessions {
        MovedIsGuarded(db, after.(generating := db.generating), id, RunStatus.Running, RunStarted, locks);
        GeneratingIsNoRow(db, after.(generating := db.generating), after, locks);
      } else {
        OnlyTheRun(db, id, RunStatus.Running, locks);
      }
    }
  }

  lemma GeneratingIsNoRow(db: Db, after: Db, other: Db, locks: seq<Lock>)
    requires Guarded(db, after, locks) && other == after.(generating := other.generating)
    ensures Guarded(db, other, locks)
  {}

  lemma GeneratingWasNoRow(db: Db, done: Db, after: Db, locks: seq<Lock>)
    requires Guarded(done, after, locks) && done == db.(generating := done.generating)
    ensures Guarded(db, after, locks)
  {}

  lemma GenerationEnds(db: Db, id: RunId)
    ensures forall locks :: Guarded(db, db.(generating := db.generating - {id}), locks)
  {}

  lemma OnlyTheRun(db: Db, id: RunId, status: RunStatus, locks: seq<Lock>)
    requires id in db.runs && RunRow(id) in locks
    ensures Guarded(db, db.(runs := db.runs[id := db.runs[id].(status := status)]), locks)
  {}

  lemma AnswerIsGuarded(
    db: Db, after: Db, id: RunId, text: string, truncated: bool, message: MessageId, locks: seq<Lock>)
    requires RO.GivesAnswer(db, after, id, text, truncated, message) && RunLocked(db, id, locks)
    ensures Guarded(db, after, locks)
  {
    hide RO.Numbered, RO.Ordered;
  }

  lemma ResponseIsGuarded(
    db: Db, id: RunId, response: Response, truncated: bool, freshMessage: MessageId, locks: seq<Lock>)
    requires RO.Unfinished(db, id) ==> RunLocked(db, id, locks)
    ensures Guarded(db, FinalizeResponse(db, id, response, truncated, freshMessage), locks)
  {
    hide FinalizeResponse, RO.Moved, RO.GivesAnswer, RO.Says, Guarded;
    RO.ResponseOutcome(db, id, response, truncated, freshMessage);
    var after := FinalizeResponse(db, id, response, truncated, freshMessage);
    var done := db.(generating := db.generating - {id});
    NothingWritten(done);
    if RO.Unfinished(db, id) && after != done {
      if db.runs[id].status == RunStatus.CancelRequested {
        MovedIsGuarded(done, after, id, RunStatus.Cancelled, EventKind.RunCancelled, locks);
      } else if !response.bindsRun || !RO.Says(response.text) {
        MovedIsGuarded(done, after, id, RunStatus.Failed, EventKind.RunFailed, locks);
      } else {
        AnswerIsGuarded(done, after, id, response.text, truncated, freshMessage, locks);
      }
    }
    GeneratingWasNoRow(db, done, after, locks);
  }

  lemma FailureIsGuarded(db: Db, id: RunId, locks: seq<Lock>)
    requires FinalizeFailure(db, id).events != db.events ==> RunLocked(db, id, locks)
    ensures Guarded(db, FinalizeFailure(db, id), locks)
  {
    hide FinalizeFailure, RO.Moved, Guarded;
    RO.FailureOutcome(db, id);
    var after := FinalizeFailure(db, id);
    var done := db.(generating := db.generating - {id});
    NothingWritten(done);
    if after != done {
      if db.runs[id].status == RunStatus.CancelRequested {
        MovedSays(done, after, id, RunStatus.Cancelled, EventKind.RunCancelled);
        MovedIsGuarded(done, after, id, RunStatus.Cancelled, EventKind.RunCancelled, locks);
      } else {
        MovedSays(done, after, id, RunStatus.Failed, EventKind.RunFailed);
        MovedIsGuarded(done, after, id, RunStatus.Failed, EventKind.RunFailed, locks);
      }
    }
    GeneratingWasNoRow(db, done, after, locks);
  }

  lemma MovedSays(db: Db, after: Db, id: RunId, status: RunStatus, kind: EventKind)
    requires RO.Moved(db, after, id, status, kind)
    ensures after.events != db.events
  {
    assert |after.events| == |db.events| + 1;
  }

  lemma SessionsAreGuarded(db: Db, p: Principal, conversation: ConversationId, session: SessionId, locks: seq<Lock>)
    requires SessionRow(session) in locks
    ensures Guarded(db, CreateSession(db, p, conversation, session).db, locks)
    ensures Guarded(db, CloseSession(db, p, session).db, locks)
  {
    RO.SessionOutcomes(db, p, conversation, session);
    hide CreateSession, CloseSession, RO.Numbered;
  }
}
