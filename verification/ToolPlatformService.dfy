/** The tool platform as it runs: each transaction locks rows, rewrites them one after another, and
    rolls back when it raises. Every method commits exactly what its specification function says,
    and the transactions of a call's life take their locks in rank. */
module ToolPlatform {
  import opened Prelude
  import opened Store
  import opened ToolInvariants
  import opened ToolAuthority
  import opened Locks
  import opened Tables
  import Spec = ToolAuthority
  import W = WriteLocks

  // --- the rows a transaction locks ---

  /** The run of a call, then the run's session. */
  function ParentLocks(runs: map<RunId, Run>, sessions: map<SessionId, Session>, run: Option<RunId>): seq<Lock> {
    if run.None? || run.value !in runs then []
    else Take([RunRow(run.value)], runs[run.value].session in sessions, SessionRow(runs[run.value].session))
  }

  /** The session lock that projecting a tool fact into an event stream takes. */
  function EmitLocks(runs: map<RunId, Run>, sessions: map<SessionId, Session>, call: ToolCall): seq<Lock> {
    if call.run.None? || call.run.value !in runs then []
    else
      var session := runs[call.run.value].session;
      Take([], session in sessions && sessions[session].owner == call.owner, SessionRow(session))
  }

  lemma ParentInRank(
    held: seq<Lock>, runs: map<RunId, Run>, sessions: map<SessionId, Session>, run: Option<RunId>)
    requires Below(held, 1)
    ensures Below(held + ParentLocks(runs, sessions, run), 3) && Below(held + ParentLocks(runs, sessions, run), 5)
  {
    if run.Some? && run.value in runs {
      var session := runs[run.value].session;
      TakeInRank(held, true, RunRow(run.value));
      TakeInRank(held + [RunRow(run.value)], session in sessions, SessionRow(session));
      assert held + ParentLocks(runs, sessions, run)
        == Take(held + [RunRow(run.value)], session in sessions, SessionRow(session));
    } else {
      assert held + [] == held;
    }
  }

  /** Projecting a fact of a call whose run and session are locked locks nothing new. */
  lemma EmitIsRelock(
    held: seq<Lock>, runs: map<RunId, Run>, sessions: map<SessionId, Session>, call: ToolCall, rank: nat)
    requires Below(held, rank)
    requires forall lock :: lock in ParentLocks(runs, sessions, call.run) ==> lock in held
    ensures Below(held + EmitLocks(runs, sessions, call), rank)
  {
    if call.run.Some? && call.run.value in runs {
      var session := runs[call.run.value].session;
      assert session in sessions ==> ParentLocks(runs, sessions, call.run)[1] == SessionRow(session);
    }
    TakeAllAgain(held, EmitLocks(runs, sessions, call), rank);
  }

  lemma ParentPrefixInRank(
    held: seq<Lock>, runs: map<RunId, Run>, sessions: map<SessionId, Session>, run: Option<RunId>, taken: seq<Lock>)
    requires Below(held, 1) && taken <= ParentLocks(runs, sessions, run)
    ensures Below(held + taken, 3) && Below(held + taken, 5)
  {
    ParentInRank(held, runs, sessions, run);
    PrefixInRank(held + ParentLocks(runs, sessions, run), held + taken, 3);
    PrefixInRank(held + ParentLocks(runs, sessions, run), held + taken, 5);
  }

  lemma EmitWithinParent(runs: map<RunId, Run>, sessions: map<SessionId, Session>, call: ToolCall)
    ensures forall lock :: lock in EmitLocks(runs, sessions, call) ==> lock in ParentLocks(runs, sessions, call.run)
  {
    if call.run.Some? && call.run.value in runs {
      var session := runs[call.run.value].session;
      assert session in sessions ==> ParentLocks(runs, sessions, call.run)[1] == SessionRow(session);
    }
  }

  /** The approvals the budget counts: the new row's own decision is among them once it is flushed. */
  lemma VisibleApprovals(db: Db, after: Db, bucket: Bucket, id: CallId, flushed: bool)
    requires id !in db.calls && after.calls.Keys == db.calls.Keys + {id}
    requires forall other :: other in db.calls ==> after.calls[other] == db.calls[other]
    requires CallBucket(after.calls[id]) == bucket
    requires after.calls[id].decision == if flushed then Some(RequireApproval) else None
    ensures |ApprovalRequiredIn(after, bucket)| == |ApprovalRequiredIn(db, bucket)| + if flushed then 1 else 0
  {
    var before, counted := ApprovalRequiredIn(db, bucket), ApprovalRequiredIn(after, bucket);
    hide CallBucket;
    assert id !in before;
    if flushed {
      assert counted == before + {id};
    } else {
      assert counted == before;
    }
  }

  /** Recording an outcome, or following up an undelivered cancellation, locks the call and then what
      projecting the fact locks. That is in rank exactly when there is no session of the call's owner to
      project into. */
  lemma FinishIsRankedExactly(runs: map<RunId, Run>, sessions: map<SessionId, Session>, call: ToolCall, id: CallId)
    ensures Ranked([CallRow(id)] + EmitLocks(runs, sessions, call))
      <==> !(call.run.Some? && call.run.value in runs && runs[call.run.value].session in sessions
             && sessions[runs[call.run.value].session].owner == call.owner)
  {
    var plan := [CallRow(id)] + EmitLocks(runs, sessions, call);
    if |plan| == 2 {
      assert plan[..1] == [CallRow(id)] && plan[1] !in plan[..1];
      assert Rank(plan[0]) > Rank(plan[1]);
    }
  }

  lemma EmitIgnores(runs: map<RunId, Run>, sessions: map<SessionId, Session>, call: ToolCall, other: ToolCall)
    requires call.run == other.run && call.owner == other.owner
    ensures EmitLocks(runs, sessions, call) == EmitLocks(runs, sessions, other)
  {}

  /** A request's binding still holds when a budget checks it again. */
  lemma SameBinding(db: Db, p: Principal, conversation: Option<ConversationId>, run: Option<RunId>)
    requires ContextBinding(db, p, conversation, run).None?
    ensures ContextBinding(db, p, None, run).None? && ContextBinding(db, p, None, None).None?
  {}

  lemma BindingReads(db: Db, after: Db, p: Principal, run: Option<RunId>)
    requires after.runs == db.runs && after.sessions == db.sessions && after.conversations == db.conversations
    ensures ContextBinding(after, p, None, run) == ContextBinding(db, p, None, run)
  {}

  lemma NoBinding(db: Db, p: Principal)
    ensures ContextBinding(db, p, None, None).None?
  {}

  lemma RefusalIgnoresStatus(
    call: ToolCall, cancelled: ToolCall, registry: Registry, dead: bool, arguments: Option<Option<Digest>>,
    w: Surroundings)
    requires cancelled == call || (dead && cancelled == call.(status := cancelled.status, reason := cancelled.reason))
    ensures ExecutionRefusal(cancelled, registry, dead, arguments, w) == ExecutionRefusal(call, registry, dead, arguments, w)
  {}

  predicate Expirable(approvals: map<ApprovalId, Approval>, aid: ApprovalId, now: Time) {
    aid in approvals && approvals[aid].status == ApprovalStatus.Pending && approvals[aid].expiresAt <= now
  }

  /** An aborted sweep stays aborted. */
  lemma {:induction false} ReconcileAborts(db: Db, ids: seq<CallId>, n: nat, now: Time)
    requires n <= |ids| && ReconcileAll(db, ids[..n], now).None?
    ensures ReconcileAll(db, ids, now).None?
    decreases |ids|
  {
    if n == |ids| {
      assert ids[..n] == ids;
    } else {
      assert ids[..|ids| - 1][..n] == ids[..n];
      ReconcileAborts(db, ids[..|ids| - 1], n, now);
    }
  }

  lemma ReconcileWrites(db: Db, ids: seq<CallId>, now: Time)
    requires ReconcileAll(db, ids, now).Some?
    ensures var after := ReconcileAll(db, ids, now).value;
      after.(calls := db.calls, approvals := db.approvals, observations := db.observations, audit := db.audit,
             events := db.events) == db
  {}

  /** A request gets as far as its run: it is known, valid, authorised, from a ready device, and names a
      run that exists. Whose run that is, is only looked at once the run's row is locked. */
  predicate LocksItsRun(db: Db, registry: Registry, p: Principal, r: ToolRequest, w: Surroundings) {
    (r.name, r.version) in registry && r.argumentsValid && w.authorized && DeviceReady(db.devices, p.device, p.owner)
    && r.run.Some? && r.run.value in db.runs
  }

  /** The caller made the call, on a ready device. */
  predicate MayCancel(db: Db, p: Principal, id: CallId) {
    id in db.calls && db.calls[id].owner == p.owner && db.calls[id].device == p.device
    && DeviceReady(db.devices, p.device, p.owner)
  }

  /** The locks a cancellation takes before it looks at the call. */
  function CancelPlan(db: Db, id: CallId): seq<Lock>
    requires id in db.calls
  {
    [DeviceRow(db.calls[id].device)] + ParentLocks(db.runs, db.sessions, db.calls[id].run) + [CallRow(id)]
  }

  /** What serialises everything that counts the calls of a budget: the device, and the run if there is one. */
  ghost predicate AnchorLocked(p: Principal, run: Option<RunId>, locks: seq<Lock>) {
    DeviceRow(p.device) in locks && (run.Some? ==> RunRow(run.value) in locks)
  }

  lemma AnchorIsHeld(db: Db, p: Principal, run: Option<RunId>, locks: seq<Lock>)
    requires DeviceRow(p.device) in locks && (run.Some? ==> run.value in db.runs)
    requires forall lock :: lock in ParentLocks(db.runs, db.sessions, run) ==> lock in locks
    ensures AnchorLocked(p, run, locks)
  {
    if run.Some? { assert ParentLocks(db.runs, db.sessions, run)[0] == RunRow(run.value); }
  }

  lemma BoundRunExists(db: Db, p: Principal, conversation: Option<ConversationId>, run: Option<RunId>)
    requires ContextBinding(db, p, conversation, run).None?
    ensures run.Some? ==> run.value in db.runs
  {}

  lemma StartedRunExists(
    db: Db, registry: Registry, p: Principal, id: CallId, arguments: Option<Option<Digest>>, w: Surroundings)
    requires id in db.calls && Spec.BeginExecution(db, registry, p, id, arguments, w).result == Ok(Started)
    ensures db.calls[id].run.Some? ==> db.calls[id].run.value in db.runs
  {
    hide Spec.BeginExecution;
    W.TO.DispatchOutcome(db, registry, p, id, arguments, w);
  }

  /** Whoever holds the call and its parent's rows holds what its facts are written to. */
  lemma ParentCovers(db: Db, id: CallId, locks: seq<Lock>)
    requires id in db.calls && CallRow(id) in locks
    requires forall lock :: lock in ParentLocks(db.runs, db.sessions, db.calls[id].run) ==> lock in locks
    ensures W.CallLocked(db, id, locks)
  {
    EmitWithinParent(db.runs, db.sessions, db.calls[id]);
    EmitCovers(db, id, locks);
  }

  lemma EmitCovers(db: Db, id: CallId, locks: seq<Lock>)
    requires id in db.calls && CallRow(id) in locks
    requires forall lock :: lock in EmitLocks(db.runs, db.sessions, db.calls[id]) ==> lock in locks
    ensures W.CallLocked(db, id, locks)
  {
    if W.TL.Visible(db, db.calls[id]) {
      assert EmitLocks(db.runs, db.sessions, db.calls[id]) == [SessionRow(db.runs[db.calls[id].run.value].session)];
    }
  }

  lemma ParentCoversRun(db: Db, run: Option<RunId>, locks: seq<Lock>)
    requires forall lock :: lock in ParentLocks(db.runs, db.sessions, run) ==> lock in locks
    ensures W.SessionLocked(db, run, locks)
  {
    if run.Some? && run.value in db.runs && db.runs[run.value].session in db.sessions {
      assert ParentLocks(db.runs, db.sessions, run)[1] == SessionRow(db.runs[run.value].session);
    }
  }

  // --- the rows the sweeps lock ---

  /** What the expiry sweep locks for one row of its query. */
  function RowLocks(db: Db, aid: ApprovalId, now: Time): seq<Lock> {
    if aid !in db.approvals then []
    else
      var id := db.approvals[aid].call;
      if id !in db.calls then [ApprovalRow(aid)]
      else
        var call := db.calls[id];
        Take([], call.device in db.devices, DeviceRow(call.device)) + ParentLocks(db.runs, db.sessions, call.run)
        + [CallRow(id)] + [ApprovalRow(aid)]
        + if Expirable(db.approvals, aid, now) && call.status == CallStatus.AwaitingApproval
          then EmitLocks(db.runs, db.sessions, call) else []
  }

  /** The sweep takes these row after row, and holds them all until it commits. */
  function SweepLocks(db: Db, ids: seq<ApprovalId>, now: Time): seq<Lock> {
    if ids == [] then []
    else
      var n := |ids| - 1;
      SweepLocks(db, ids[..n], now) + RowLocks(ExpireAll(db, ids[..n], now), ids[n], now)
  }

  function CallRows(ids: seq<CallId>): seq<Lock> {
    seq(|ids|, i requires 0 <= i < |ids| => CallRow(ids[i]))
  }

  function EmitAll(db: Db, ids: seq<CallId>): seq<Lock> {
    if ids == [] then []
    else
      var id := ids[|ids| - 1];
      EmitAll(db, ids[..|ids| - 1]) + if id in db.calls then EmitLocks(db.runs, db.sessions, db.calls[id]) else []
  }

  /** The reconciliation query locks every call it returns, and then each fact's session. */
  function ReconcileLocks(db: Db, ids: seq<CallId>): seq<Lock> {
    CallRows(ids) + EmitAll(db, ids)
  }

  /** Nothing that decides which rows are locked differs. */
  ghost predicate SameOwners(db: Db, after: Db) {
    after.runs == db.runs && after.sessions == db.sessions && after.calls.Keys == db.calls.Keys
    && forall id :: id in db.calls ==> after.calls[id].run == db.calls[id].run && after.calls[id].owner == db.calls[id].owner
  }

  /** The locks of one row cover what its expiry writes. */
  lemma RowIsGuarded(db: Db, aid: ApprovalId, now: Time)
    ensures W.Guarded(db, Spec.ExpireOne(db, aid, now), RowLocks(db, aid, now))
  {
    var locks := RowLocks(db, aid, now);
    if aid in db.approvals && db.approvals[aid].call in db.calls {
      var id := db.approvals[aid].call;
      assert forall lock :: lock in ParentLocks(db.runs, db.sessions, db.calls[id].run) ==> lock in locks;
      ParentCovers(db, id, locks);
    }
    hide W.Guarded, W.CallLocked, Spec.Transition, ParentLocks, EmitLocks;
    W.ExpiryIsGuarded(db, aid, now, locks);
  }

  lemma ObservedUnderLocks(saved: Db, mid: Db, locks: seq<Lock>, more: seq<Lock>, ids: seq<CallId>, i: nat, now: Time)
    requires i < |ids| && ids[i] in mid.calls && W.Guarded(saved, mid, locks)
    requires (forall lock :: lock in CallRows(ids) ==> lock in locks)
    requires more == EmitLocks(mid.runs, mid.sessions, mid.calls[ids[i]])
    ensures W.Guarded(saved, Spec.Observe(mid, ids[i], ObservationStatus.Failed, "stale_execution_reconciled",
                                          "stale_execution_reconciled", now), locks + more)
  {
    assert CallRows(ids)[i] == CallRow(ids[i]);
    hide W.Guarded, Spec.Observe, CallRows;
    EmitCovers(mid, ids[i], locks + more);
    W.ObservationIsGuarded(mid, ids[i], ObservationStatus.Failed, "stale_execution_reconciled", "stale_execution_reconciled",
                           now, locks + more);
    var after := Spec.Observe(mid, ids[i], ObservationStatus.Failed, "stale_execution_reconciled",
                              "stale_execution_reconciled", now);
    W.GuardedThen(saved, mid, after, locks, locks + more);
    W.MoreLocks(saved, after, locks + (locks + more), locks + more);
  }

  lemma NothingReconciled(db: Db, locks: seq<Lock>)
    ensures SameOwners(db, db) && locks == locks + EmitAll(db, [])
  {}

  lemma ReconcileLocksOneMore(saved: Db, db: Db, held: seq<Lock>, done: seq<CallId>, id: CallId, now: Time)
    requires SameOwners(saved, db) && id in db.calls
    ensures var after := Spec.Observe(db, id, ObservationStatus.Failed, "stale_execution_reconciled",
                                      "stale_execution_reconciled", now);
      SameOwners(saved, after)
    ensures held + EmitAll(saved, done + [id])
      == held + EmitAll(saved, done) + EmitLocks(db.runs, db.sessions, db.calls[id])
  {
    assert (done + [id])[..|done|] == done;
    EmitIgnores(db.runs, db.sessions, db.calls[id], saved.calls[id]);
    ObservedFields(db, id, now);
    hide Spec.Observe, EmitLocks;
  }

  lemma ObservedFields(db: Db, id: CallId, now: Time)
    requires id in db.calls
    ensures var after := Spec.Observe(db, id, ObservationStatus.Failed, "stale_execution_reconciled",
                                      "stale_execution_reconciled", now);
      after.runs == db.runs && after.sessions == db.sessions && after.calls == db.calls[id := after.calls[id]]
      && after.calls[id].run == db.calls[id].run && after.calls[id].owner == db.calls[id].owner
  {
    hide Spec.EmitLifecycle;
  }

  lemma NothingHeld()
    ensures Below([], 0) && Below([], 5)
  {}

  lemma TakeNone(locks: seq<Lock>)
    ensures locks + [] == locks
  {}

  class ToolPlatformService {
    const db: Database
    const registry: Registry

    constructor (db: Database, registry: Registry)
      ensures this.db == db && this.registry == registry
    {
      this.db, this.registry := db, registry;
    }

    // --- audit and event projection ---

    method EmitLifecycle(id: CallId, kind: AuditKind, approval: Option<ApprovalId>) returns (locks: seq<Lock>)
      requires id in db.calls
      modifies db
      ensures db.Snapshot() == Spec.EmitLifecycle(old(db.Snapshot()), id, kind, approval)
      ensures locks == EmitLocks(old(db.runs), old(db.sessions), old(db.calls[id]))
    {
      locks := [];
      var call := db.calls[id];
      if call.run.None? || call.run.value !in db.runs { return; }
      var run := db.runs[call.run.value];
      if run.session !in db.sessions || db.sessions[run.session].owner != call.owner { return; }
      locks := [SessionRow(run.session)];
      var session := db.sessions[run.session];
      if !session.active { return; }
      if session.device != call.device && run.requestDevice != call.device { return; }
      var latest := MaxSequence(db.events, run.session);
      db.events := db.events + [Event(run.session, run.conversation, call.run, latest + 1,
                                      Tool(kind, id, approval, call.status))];
    }

    method Audit(id: CallId, kind: AuditKind, reason: string, now: Time, approval: Option<ApprovalId>)
      returns (locks: seq<Lock>)
      requires id in db.calls
      modifies db
      ensures db.Snapshot() == Spec.Audit(old(db.Snapshot()), id, kind, reason, now, approval)
      ensures locks == EmitLocks(old(db.runs), old(db.sessions), old(db.calls[id]))
    {
      db.audit := db.audit + [AuditEvent(Some(id), approval, kind, Some(db.calls[id].status), reason, now)];
      locks := EmitLifecycle(id, kind, approval);
    }

    method UnboundAudit(reason: string, now: Time)
      modifies db
      ensures db.Snapshot() == Spec.UnboundAudit(old(db.Snapshot()), reason, now)
    {
      db.audit := db.audit + [AuditEvent(None, None, ToolDenied, None, reason, now)];
    }

    /** Set a call's status and reason, then audit it. */
    method Transition(
      id: CallId, status: CallStatus, reason: string, kind: AuditKind, auditReason: string, now: Time,
      approval: Option<ApprovalId>)
      returns (locks: seq<Lock>)
      requires id in db.calls
      modifies db
      ensures db.Snapshot() == Spec.Transition(old(db.Snapshot()), id, status, reason, kind, auditReason, now, approval)
      ensures locks == EmitLocks(old(db.runs), old(db.sessions), old(db.calls[id]))
    {
      db.calls := db.calls[id := db.calls[id].(status := status)];
      db.calls := db.calls[id := db.calls[id].(reason := reason)];
      locks := Audit(id, kind, auditReason, now, approval);
    }

    method SetApproval(id: ApprovalId, status: ApprovalStatus)
      requires id in db.approvals
      modifies db
      ensures db.Snapshot() == Spec.SetApproval(old(db.Snapshot()), id, status)
    {
      db.approvals := db.approvals[id := db.approvals[id].(status := status)];
    }

    // --- request ---

    method ValidateContextBinding(p: Principal, conversation: Option<ConversationId>, run: Option<RunId>)
      returns (error: Option<string>, locks: seq<Lock>)
      ensures error == ContextBinding(db.Snapshot(), p, conversation, run)
      ensures locks <= ParentLocks(db.runs, db.sessions, run)
      ensures error.None? ==> locks == ParentLocks(db.runs, db.sessions, run)
      ensures run.Some? && run.value in db.runs ==> [RunRow(run.value)] <= locks
    {
      locks := [];
      if run.Some? {
        if run.value !in db.runs { return Some("run_binding_invalid"), locks; }
        locks := [RunRow(run.value)];
        var row := db.runs[run.value];
        if row.conversation !in db.conversations || db.conversations[row.conversation].owner != p.owner {
          return Some("tool_call_not_available"), locks;
        }
        locks := ParentLocks(db.runs, db.sessions, run);
        if row.session !in db.sessions || db.sessions[row.session].owner != p.owner {
          return Some("tool_call_not_available"), locks;
        }
        if db.sessions[row.session].device != p.device && row.requestDevice != p.device {
          return Some("device_session_mismatch"), locks;
        }
        if !db.sessions[row.session].active { return Some("session_closed"), locks; }
        if !db.conversations[row.conversation].active { return Some("conversation_inactive"), locks; }
        if conversation.Some? && conversation.value != row.conversation {
          return Some("conversation_run_mismatch"), locks;
        }
        if row.status in {RunStatus.Succeeded, RunStatus.Failed, RunStatus.Cancelled} {
          return Some("run_terminal"), locks;
        }
        return None, locks;
      }
      if conversation.Some? {
        if conversation.value !in db.conversations || db.conversations[conversation.value].owner != p.owner {
          return Some("tool_call_not_available"), locks;
        }
        if !db.conversations[conversation.value].active { return Some("conversation_inactive"), locks; }
      }
      return None, locks;
    }

    /** Serialise a counter on the device row, and on the run when there is one. */
    method LockBudgetAnchor(p: Principal, run: Option<RunId>) returns (error: Option<string>, locks: seq<Lock>)
      ensures error == if !DeviceReady(db.devices, p.device, p.owner) then Some("device_not_available")
                       else ContextBinding(db.Snapshot(), p, None, run)
      ensures forall lock :: lock in locks ==>
        (lock == DeviceRow(p.device) && p.device in db.devices && db.devices[p.device].owner == p.owner)
        || (run.Some? && lock in ParentLocks(db.runs, db.sessions, run))
    {
      locks := Take([], p.device in db.devices && db.devices[p.device].owner == p.owner, DeviceRow(p.device));
      error := None;
      if !DeviceReady(db.devices, p.device, p.owner) { return Some("device_not_available"), locks; }
      if run.Some? {
        var more;
        error, more := ValidateContextBinding(p, None, run);
        locks := locks + more;
      }
    }

    method FindIdempotent(p: Principal, tool: string, key: string) returns (found: Option<CallId>)
      requires KeysUnique(db.calls)
      ensures found == Spec.FindIdempotent(db.Snapshot(), p, tool, key)
      ensures found.Some? ==> found.value in db.calls
    {
      if exists id :: id in db.calls && SameKey(db.calls[id], p, tool, key) {
        var id :| id in db.calls && SameKey(db.calls[id], p, tool, key);
        TheOnlyMatch(db.Snapshot(), p, tool, key, id);
        return Some(id);
      }
      return None;
    }

    method RequestTool(p: Principal, r: ToolRequest, w: Surroundings) returns (result: Result<Reply>, locks: seq<Lock>)
      requires KeysUnique(db.calls)
      modifies db
      ensures var txn := Spec.RequestTool(old(db.Snapshot()), registry, p, r, w);
        db.Snapshot() == txn.db && result == txn.result
      ensures Below(locks, 5) && W.Guarded(old(db.Snapshot()), db.Snapshot(), locks)
      ensures LocksItsRun(old(db.Snapshot()), registry, p, r, w) ==> [DeviceRow(p.device), RunRow(r.run.value)] <= locks
      ensures result.Ok? ==> AnchorLocked(p, r.run, locks)
    {
      hide Spec.StageCall, ParentLocks, EmitLocks, Below, ContextBinding, Spec.FindIdempotent, W.Guarded, W.SessionLocked;
      ghost var before := db.Snapshot();
      W.NothingWritten(before);
      locks := [];
      NothingHeld();
      if (r.name, r.version) !in registry {
        W.RequestIsGuarded(before, registry, p, r, w, locks);
        UnboundAudit("unknown_tool_version", w.now);
        return Err("unknown_tool_version"), locks;
      }
      if !r.argumentsValid {
        W.RequestIsGuarded(before, registry, p, r, w, locks);
        UnboundAudit("input_schema_invalid", w.now);
        return Err("input_schema_invalid"), locks;
      }
      if !w.authorized { return Err("authority_missing"), locks; }
      var owned := p.device in db.devices && db.devices[p.device].owner == p.owner;
      TakeInRank(locks, owned, DeviceRow(p.device));
      locks := Take(locks, owned, DeviceRow(p.device));
      if !DeviceReady(db.devices, p.device, p.owner) { return Err("device_not_available"), locks; }
      var binding, parent := ValidateContextBinding(p, r.conversation, r.run);
      ParentPrefixInRank(locks, db.runs, db.sessions, r.run, parent);
      if binding.Some? { return Err(binding.value), locks + parent; }
      locks := locks + parent;
      BoundRunExists(before, p, r.conversation, r.run);
      AnchorIsHeld(before, p, r.run, locks);
      var existing := FindIdempotent(p, r.name, r.key);
      if existing.Some? {
        TakeInRank(locks, true, CallRow(existing.value));
        return ReplayReply(db.Snapshot(), existing.value, r), Take(locks, true, CallRow(existing.value));
      }
      var again;
      result, again := StageCall(registry[(r.name, r.version)], p, r, w);
      TakeAllAgain(locks, again, 5);
      ParentCoversRun(before, r.run, locks);
      W.RequestIsGuarded(before, registry, p, r, w, locks);
      W.MoreLocks(before, db.Snapshot(), locks, locks + again);
      locks := locks + again;
    }

    method InsertDecided(d: Descriptor, p: Principal, r: ToolRequest, w: Surroundings) returns (locks: seq<Lock>)
      requires w.freshCall !in db.calls
      modifies db
      ensures db.Snapshot() == Decided(old(db.Snapshot()), d, p, r, w)
      ensures locks == EmitLocks(old(db.runs), old(db.sessions), NewCall(p, d, r, w.now))
    {
      hide Permission, Spec.EmitLifecycle;
      var id := w.freshCall;
      db.calls := db.calls[id := NewCall(p, d, r, w.now).(status := CallStatus.Proposed)];
      db.calls := db.calls[id := db.calls[id].(status := CallStatus.Validated)];
      assert db.calls == old(db.calls)[id := NewCall(p, d, r, w.now)];
      locks := Audit(id, ToolProposed, "validated", w.now, None);
      var (decision, reason) := Permission(d, w);
      db.calls := db.calls[id := db.calls[id].(decision := Some(decision))];
      db.calls := db.calls[id := db.calls[id].(reason := reason)];
      assert db.calls == old(db.calls)[id := DecidedCall(p, d, r, w)];
    }

    method AwaitOwner(id: CallId, aid: ApprovalId, approval: Approval, reason: string, now: Time)
      returns (locks: seq<Lock>)
      requires id in db.calls
      modifies db
      ensures db.Snapshot() == Spec.AwaitOwner(old(db.Snapshot()), id, aid, approval, reason, now)
      ensures forall lock :: lock in locks ==> lock in EmitLocks(old(db.runs), old(db.sessions), old(db.calls[id]))
    {
      hide Spec.Audit, EmitLocks;
      db.approvals := db.approvals[aid := approval];
      db.calls := db.calls[id := db.calls[id].(approval := Some(aid))];
      EmitIgnores(db.runs, db.sessions, old(db.calls[id]), db.calls[id]);
      locks := Transition(id, CallStatus.AwaitingApproval, reason, ToolAwaitingApproval, "owner_approval_required", now,
                          Some(aid));
      EmitIgnores(db.runs, db.sessions, old(db.calls[id]), db.calls[id]);
      var more := Audit(id, AuditKind.ApprovalRequired, "owner_approval_required", now, Some(aid));
      locks := locks + more;
    }

    /** Admit a new call, or roll its rows back. */
    method StageCall(d: Descriptor, p: Principal, r: ToolRequest, w: Surroundings)
      returns (result: Result<Reply>, locks: seq<Lock>)
      requires DeviceReady(db.devices, p.device, p.owner)
      requires ContextBinding(db.Snapshot(), p, r.conversation, r.run).None?
      modifies db
      ensures var txn := Spec.StageCall(old(db.Snapshot()), d, p, r, w);
        db.Snapshot() == txn.db && result == txn.result
      ensures forall lock :: lock in locks ==>
        lock == DeviceRow(p.device) || lock in ParentLocks(old(db.runs), old(db.sessions), r.run)
    {
      hide Spec.Transition, Spec.Audit, Permission, ProposedIn, ApprovalRequiredIn, Recent, ParentLocks, EmitLocks,
        ContextBinding, BucketOf, NewApproval, Spec.AwaitOwner;
      var id := w.freshCall;
      var bucket := BucketOf(p.owner, p.device, r.run);
      SameBinding(db.Snapshot(), p, r.conversation, r.run);
      var anchor, more := LockBudgetAnchor(p, None);
      locks := more;
      if |Recent(db.Snapshot(), p.device, d.name, w.now - d.windowSeconds)| >= d.maxRequests {
        return Err("rate_limit_exhausted"), locks;
      }
      anchor, more := LockBudgetAnchor(p, r.run);
      locks := locks + more;
      assert anchor.None?;
      if |ProposedIn(db.Snapshot(), bucket)| >= MAX_PROPOSALS { return Err("proposal_budget_exhausted"), locks; }
      if id in db.calls { return Err("idempotency_race_conflict"), locks; }
      var saved := db.Snapshot();
      more := InsertDecided(d, p, r, w);
      EmitWithinParent(saved.runs, saved.sessions, NewCall(p, d, r, w.now));
      EmitIgnores(saved.runs, saved.sessions, NewCall(p, d, r, w.now), db.calls[id]);
      locks := locks + more;
      var (decision, reason) := Permission(d, w);
      match decision {
        case Deny => more := Transition(id, CallStatus.Denied, reason, ToolDenied, reason, w.now, None);
        case Allow => more := Transition(id, CallStatus.Approved, reason, ToolApproved, "policy_allow", w.now, None);
        case RequireApproval =>
          result, more := StageApproval(saved, d, p, r, w, reason);
          return result, locks + more;
      }
      return Ok(Replied(id, false)), locks + more;
    }

    /** Create the approval of a call that was just inserted, unless its bucket asked too often. */
    method StageApproval(saved: Db, d: Descriptor, p: Principal, r: ToolRequest, w: Surroundings, reason: string)
      returns (result: Result<Reply>, locks: seq<Lock>)
      requires w.freshCall !in saved.calls && db.Snapshot() == Decided(saved, d, p, r, w)
      requires Permission(d, w).0 == RequireApproval
      requires DeviceReady(db.devices, p.device, p.owner) && ContextBinding(saved, p, None, r.run).None?
      modifies db
      ensures
        var counted := |ApprovalRequiredIn(saved, BucketOf(p.owner, p.device, r.run))|
          + (if w.decisionFlushed then 1 else 0);
        if counted > MAX_APPROVALS then result == Err("approval_budget_exhausted") && db.Snapshot() == saved
        else if w.freshApproval in saved.approvals then
          result == Err("idempotency_race_conflict") && db.Snapshot() == saved
        else
          result == Ok(Replied(w.freshCall, false))
          && db.Snapshot() == Spec.AwaitOwner(old(db.Snapshot()), w.freshCall, w.freshApproval,
                                              NewApproval(p, d, r.digest, w.freshCall, w.now), reason, w.now)
      ensures forall lock :: lock in locks ==>
        lock == DeviceRow(p.device) || lock in ParentLocks(saved.runs, saved.sessions, r.run)
    {
      hide Spec.Audit, Permission, ApprovalRequiredIn, ParentLocks, EmitLocks, ContextBinding, NewApproval,
        Spec.AwaitOwner;
      var id := w.freshCall;
      BindingReads(saved, db.Snapshot(), p, r.run);
      var anchor, more := LockBudgetAnchor(p, r.run);
      locks := more;
      var visible := if w.decisionFlushed then db.calls else db.calls[id := db.calls[id].(decision := None)];
      var bucket := BucketOf(p.owner, p.device, r.run);
      VisibleApprovals(saved, db.Snapshot().(calls := visible), bucket, id, w.decisionFlushed);
      if |ApprovalRequiredIn(db.Snapshot().(calls := visible), bucket)| > MAX_APPROVALS {
        db.RollbackTools(saved);
        return Err("approval_budget_exhausted"), locks;
      }
      if w.freshApproval in db.approvals {
        db.RollbackTools(saved);
        return Err("idempotency_race_conflict"), locks;
      }
      EmitWithinParent(db.runs, db.sessions, db.calls[id]);
      more := AwaitOwner(id, w.freshApproval, NewApproval(p, d, r.digest, id, w.now), reason, w.now);
      return Ok(Replied(id, false)), locks + more;
    }

    // --- decide ---

    /** Check the parent run again; when it is dead the call is cancelled on the spot. */
    method RevalidateParentContext(p: Principal, id: CallId, now: Time) returns (parent: Parent, locks: seq<Lock>)
      requires id in db.calls
      modifies db
      ensures parent == RevalidateParent(old(db.Snapshot()), p, old(db.calls[id]))
      ensures db.Snapshot() == if parent.Dead? then CancelByParent(old(db.Snapshot()), id, now) else old(db.Snapshot())
      ensures locks == if parent.Dead? then EmitLocks(old(db.runs), old(db.sessions), old(db.calls[id])) else []
    {
      hide Spec.Audit;
      locks := [];
      var call := db.calls[id];
      if call.run.Some? {
        if call.run.value !in db.runs { return Refused("parent_run_not_available"), []; }
        var run := db.runs[call.run.value];
        if run.session !in db.sessions || db.sessions[run.session].owner != p.owner
           || (db.sessions[run.session].device != p.device && run.requestDevice != p.device)
           || !db.sessions[run.session].active {
          return Refused("session_not_available"), [];
        }
        if run.conversation !in db.conversations || db.conversations[run.conversation] != Conversation(p.owner, true) {
          return Refused("conversation_not_available"), [];
        }
        if call.conversation.Some? && run.conversation != call.conversation.value {
          return Refused("conversation_run_mismatch"), [];
        }
        if RunDead(run.status) {
          locks := Transition(id, CallStatus.Cancelled, "parent_run_cancelled", ToolCancelled,
                              "parent_run_cancelled", now, None);
          return Dead, locks;
        }
      } else if call.conversation.Some? {
        if call.conversation.value !in db.conversations
           || db.conversations[call.conversation.value] != Conversation(p.owner, true) {
          return Refused("conversation_not_available"), [];
        }
      }
      return Live, [];
    }

    method DecideApproval(p: Principal, authorized: bool, aid: ApprovalId, approve: bool, now: Time)
      returns (result: Result<Approval>, locks: seq<Lock>)
      modifies db
      ensures var txn := Spec.DecideApproval(old(db.Snapshot()), p, authorized, aid, approve, now);
        db.Snapshot() == txn.db && result == txn.result
      ensures Below(locks, 5) && W.Guarded(old(db.Snapshot()), db.Snapshot(), locks)
    {
      hide Spec.DecidePending, ParentLocks, EmitLocks, Below, W.Guarded, W.CallLocked;
      ghost var before := db.Snapshot();
      W.NothingWritten(before);
      locks := [];
      NothingHeld();
      if !authorized { return Err("authority_missing"), locks; }
      if aid !in db.approvals || db.approvals[aid].owner != p.owner { return Err("approval_not_available"), locks; }
      var id := db.approvals[aid].call;
      var device := if id in db.calls then db.calls[id].device else p.device;
      var owned := device in db.devices && db.devices[device].owner == p.owner;
      TakeInRank(locks, owned, DeviceRow(device));
      locks := Take(locks, owned, DeviceRow(device));
      if !DeviceReady(db.devices, device, p.owner) { return Err("device_not_available"), locks; }
      var run := if id in db.calls then db.calls[id].run else None;
      ParentInRank(locks, db.runs, db.sessions, run);
      locks := locks + ParentLocks(db.runs, db.sessions, run);
      TakeInRank(locks, id in db.calls, CallRow(id));
      locks := Take(locks, id in db.calls, CallRow(id));
      if id !in db.calls || db.calls[id].owner != p.owner { return Err("approval_binding_invalid"), locks; }
      TakeInRank(locks, true, ApprovalRow(aid));
      locks := Take(locks, true, ApprovalRow(aid));
      if db.approvals[aid].status != ApprovalStatus.Pending { return Err("approval_not_pending"), locks; }
      EmitIsRelock(locks, db.runs, db.sessions, db.calls[id], 5);
      TakeNone(locks);
      ParentCovers(before, id, locks);
      W.DecisionIsGuarded(before, p, authorized, aid, approve, now, locks);
      var again;
      result, again := DecidePending(p, aid, approve, now);
      W.MoreLocks(before, db.Snapshot(), locks, locks + again);
      locks := locks + again;
    }

    method DecidePending(p: Principal, aid: ApprovalId, approve: bool, now: Time)
      returns (result: Result<Approval>, again: seq<Lock>)
      requires aid in db.approvals && db.approvals[aid].call in db.calls
      modifies db
      ensures var txn := Spec.DecidePending(old(db.Snapshot()), p, aid, approve, now);
        db.Snapshot() == txn.db && result == txn.result
      ensures again == [] || again == EmitLocks(old(db.runs), old(db.sessions), old(db.calls[db.approvals[aid].call]))
    {
      hide Spec.Transition, Spec.RevalidateParent, EmitLocks;
      var approval := db.approvals[aid];
      var id := approval.call;
      var parent;
      parent, again := RevalidateParentContext(p, id, now);
      if parent.Refused? { return Err(parent.error), again; }
      if parent.Dead? {
        SetApproval(aid, ApprovalStatus.Cancelled);
        return Err("parent_run_cancelled"), again;
      }
      if approval.expiresAt <= now {
        SetApproval(aid, ApprovalStatus.Expired);
        again := Transition(id, CallStatus.Expired, "approval_expired", ApprovalExpired, "approval_expired", now, Some(aid));
        return Err("approval_expired"), again;
      }
      db.approvals := db.approvals[aid := db.approvals[aid].(decidedBy := Some(p.device), decidedAt := Some(now))];
      if approve {
        SetApproval(aid, ApprovalStatus.Approved);
        assert db.approvals == old(db.approvals)[aid := db.approvals[aid]];
        again := Transition(id, CallStatus.Approved, "owner_approved", ApprovalApproved, "owner_approved", now, Some(aid));
      } else {
        SetApproval(aid, ApprovalStatus.Rejected);
        assert db.approvals == old(db.approvals)[aid := db.approvals[aid]];
        again := Transition(id, CallStatus.Rejected, "owner_rejected", ApprovalRejected, "owner_rejected", now, Some(aid));
      }
      return Ok(db.approvals[aid]), again;
    }

    // --- execute ---

    method BeginExecution(p: Principal, id: CallId, arguments: Option<Option<Digest>>, w: Surroundings)
      returns (result: Result<Execution>, locks: seq<Lock>)
      modifies db
      ensures var txn := Spec.BeginExecution(old(db.Snapshot()), registry, p, id, arguments, w);
        db.Snapshot() == txn.db && result == txn.result
      ensures Below(locks, 5) && W.Guarded(old(db.Snapshot()), db.Snapshot(), locks)
      ensures result == Ok(Started) ==> AnchorLocked(p, old(db.calls[id].run), locks)
    {
      hide Spec.ConsumeAuthority, CancelDispatch, RevalidateParent, ExecutionRefusal, ParentLocks, EmitLocks, Below,
        CallFinal, W.Guarded, W.CallLocked;
      ghost var before := db.Snapshot();
      W.NothingWritten(before);
      locks := [];
      NothingHeld();
      if id !in db.calls || db.calls[id].owner != p.owner || db.calls[id].device != p.device {
        return Err("tool_call_not_available"), locks;
      }
      var owned := p.device in db.devices && db.devices[p.device].owner == p.owner;
      TakeInRank(locks, owned, DeviceRow(p.device));
      locks := Take(locks, owned, DeviceRow(p.device));
      if !DeviceReady(db.devices, p.device, p.owner) { return Err("device_not_available"), locks; }
      ParentInRank(locks, db.runs, db.sessions, db.calls[id].run);
      locks := locks + ParentLocks(db.runs, db.sessions, db.calls[id].run);
      TakeInRank(locks, true, CallRow(id));
      locks := Take(locks, true, CallRow(id));
      if CallFinal(db.calls[id].status) {
        if id in db.observations { return Ok(Replayed(db.observations[id])), locks; }
        return Err("tool_call_terminal"), locks;
      }
      var aid := db.calls[id].approval;
      if aid.Some? {
        TakeInRank(locks, aid.value in db.approvals, ApprovalRow(aid.value));
        locks := Take(locks, aid.value in db.approvals, ApprovalRow(aid.value));
      }
      ParentCovers(before, id, locks);
      W.DispatchIsGuarded(before, registry, p, id, arguments, w, locks);
      var again;
      result, again := Dispatch(p, id, arguments, w);
      if result == Ok(Started) {
        StartedRunExists(before, registry, p, id, arguments, w);
        AnchorIsHeld(before, p, before.calls[id].run, locks);
      }
      TakeAllAgain(locks, again, 5);
      W.MoreLocks(before, db.Snapshot(), locks, locks + again);
      locks := locks + again;
    }

    /** The rest of the first transaction, its rows locked. */
    method Dispatch(p: Principal, id: CallId, arguments: Option<Option<Digest>>, w: Surroundings)
      returns (result: Result<Execution>, locks: seq<Lock>)
      requires id in db.calls && db.calls[id].owner == p.owner && db.calls[id].device == p.device
      requires DeviceReady(db.devices, p.device, p.owner) && !CallFinal(db.calls[id].status)
      modifies db
      ensures var txn := Spec.BeginExecution(old(db.Snapshot()), registry, p, id, arguments, w);
        db.Snapshot() == txn.db && result == txn.result
      ensures forall lock :: lock in locks ==>
        lock == DeviceRow(p.device) || lock in ParentLocks(old(db.runs), old(db.sessions), old(db.calls[id].run))
    {
      hide Spec.ConsumeAuthority, RevalidateParent, ExecutionRefusal, ParentLocks, EmitLocks, CallFinal,
        Spec.Transition, DeviceReady;
      var saved := db.Snapshot();
      var parent;
      EmitWithinParent(db.runs, db.sessions, db.calls[id]);
      parent, locks := RevalidateParentContext(p, id, w.now);
      if parent.Refused? { return Err(parent.error), locks; }
      var aid := db.calls[id].approval;
      if parent.Dead? && aid.Some? && aid.value in db.approvals {
        SetApproval(aid.value, ApprovalStatus.Cancelled);
      }
      RefusalIgnoresStatus(saved.calls[id], db.calls[id], registry, parent.Dead?, arguments, w);
      var refusal := ExecutionRefusal(db.calls[id], registry, parent.Dead?, arguments, w);
      if refusal.Some? {
        db.RollbackTools(saved);
        return Err(refusal.value), locks;
      }
      if parent.Dead? { return Err("parent_run_cancelled"), locks; }
      var more;
      result, more := ConsumeAuthority(p, id, w.now);
      locks := locks + more;
    }

    method ConsumeAuthority(p: Principal, id: CallId, now: Time) returns (result: Result<Execution>, locks: seq<Lock>)
      requires id in db.calls && db.calls[id].owner == p.owner && db.calls[id].device == p.device
      requires DeviceReady(db.devices, p.device, p.owner)
      modifies db
      ensures var txn := Spec.ConsumeAuthority(old(db.Snapshot()), p, id, now);
        db.Snapshot() == txn.db && result == txn.result
      ensures forall lock :: lock in locks ==>
        lock == DeviceRow(p.device) || lock in ParentLocks(old(db.runs), old(db.sessions), old(db.calls[id].run))
    {
      hide Spec.StartExecution, ParentLocks, EmitLocks, ApprovalBinds, Spec.Transition, DeviceReady;
      locks := [];
      var saved := db.Snapshot();
      var approval := db.calls[id].approval;
      if approval.None? {
        result, locks := StartExecution(saved, p, id, now);
        return;
      }
      var aid := approval.value;
      if aid !in db.approvals || !ApprovalBinds(db.approvals[aid], id, db.calls[id]) {
        return Err("approval_binding_invalid"), locks;
      }
      if db.approvals[aid].status != ApprovalStatus.Approved { return Err("approval_not_consumable"), locks; }
      if db.approvals[aid].expiresAt <= now {
        SetApproval(aid, ApprovalStatus.Expired);
        EmitWithinParent(db.runs, db.sessions, db.calls[id]);
        locks := Transition(id, CallStatus.Expired, "approval_expired", ApprovalExpired, "approval_expired", now, Some(aid));
        return Err("approval_expired"), locks;
      }
      SetApproval(aid, Consumed);
      db.approvals := db.approvals[aid := db.approvals[aid].(consumedAt := Some(now))];
      assert db.approvals == saved.approvals[aid := db.approvals[aid]];
      result, locks := StartExecution(saved, p, id, now);
    }

    /** Hand a call to the executor, or roll its consumption back when its bucket is exhausted. */
    method StartExecution(saved: Db, p: Principal, id: CallId, now: Time)
      returns (result: Result<Execution>, locks: seq<Lock>)
      requires id in db.calls && db.calls[id].owner == p.owner && db.calls[id].device == p.device
      requires DeviceReady(db.devices, p.device, p.owner)
      requires saved == db.Snapshot().(approvals := saved.approvals)
      modifies db
      ensures var txn := Spec.StartExecution(saved, old(db.Snapshot()), p, id, now);
        db.Snapshot() == txn.db && result == txn.result
      ensures forall lock :: lock in locks ==>
        lock == DeviceRow(p.device) || lock in ParentLocks(old(db.runs), old(db.sessions), old(db.calls[id].run))
    {
      hide ParentLocks, EmitLocks, Spec.Audit, ContextBinding, ExecutedIn, DeviceReady;
      var call := db.calls[id];
      var binding;
      binding, locks := LockBudgetAnchor(p, call.run);
      NoBinding(db.Snapshot(), p);
      if binding.Some? {
        db.RollbackTools(saved);
        return Err(binding.value), locks;
      }
      if |ExecutedIn(db.Snapshot(), BucketOf(p.owner, p.device, call.run))| >= MAX_EXECUTIONS {
        db.RollbackTools(saved);
        return Err("execution_budget_exhausted"), locks;
      }
      db.calls := db.calls[id := db.calls[id].(status := CallStatus.Executing)];
      db.calls := db.calls[id := db.calls[id].(startedAt := Some(now))];
      assert db.calls == old(db.calls)[id := db.calls[id]];
      EmitWithinParent(db.runs, db.sessions, db.calls[id]);
      var more := Audit(id, ToolStarted, "authority_consumed", now, None);
      db.executing, db.starts := db.executing + {id}, db.starts + [id];
      return Ok(Started), locks + more;
    }

    /** Record what the executor came back with. The call is locked before its run's session. */
    method FinishExecution(id: CallId, raw: RawOutcome, now: Time)
      returns (result: Result<ObservationStatus>, locks: seq<Lock>)
      modifies db
      ensures var txn := Spec.FinishExecution(old(db.Snapshot()), id, raw, now);
        db.Snapshot() == txn.db && result == txn.result
      ensures id in old(db.calls) && id !in old(db.observations) ==>
        locks == [CallRow(id)] + EmitLocks(old(db.runs), old(db.sessions), old(db.calls[id]))
      ensures W.Guarded(old(db.Snapshot()), db.Snapshot(), locks)
    {
      hide EmitLocks, Spec.EmitLifecycle, W.Guarded, W.CallLocked;
      ghost var before := db.Snapshot();
      if id in db.calls && id !in db.observations {
        EmitCovers(before, id, [CallRow(id)] + EmitLocks(db.runs, db.sessions, db.calls[id]));
        W.FinishIsGuarded(before, id, raw, now, [CallRow(id)] + EmitLocks(db.runs, db.sessions, db.calls[id]));
      } else {
        W.NotRunning(before, id, []);
        W.NotRunning(before, id, [CallRow(id)]);
      }
      locks := [];
      db.executing := db.executing - {id};
      var (status, reason) := Normalize(raw);
      if id !in db.calls {
        return Err(if raw.Raised? then "executor_uncertain_outcome" else "tool_call_disappeared"), locks;
      }
      locks := [CallRow(id)];
      // The uniqueness constraint on observations aborts the transaction before anything else is seen.
      if id in db.observations { return Err("integrity_error"), locks; }
      var more := Observe(id, status, db.calls[id].reason, reason, now);
      return if raw.Raised? then Err(reason) else Ok(status), locks + more;
    }

    /** Write an outcome and its observation, then audit them. */
    method Observe(id: CallId, status: ObservationStatus, callReason: string, auditReason: string, now: Time)
      returns (locks: seq<Lock>)
      requires id in db.calls
      modifies db
      ensures db.Snapshot() == Spec.Observe(old(db.Snapshot()), id, status, callReason, auditReason, now)
      ensures locks == EmitLocks(old(db.runs), old(db.sessions), old(db.calls[id]))
    {
      hide EmitLocks, Spec.EmitLifecycle;
      db.calls := db.calls[id := db.calls[id].(status := StatusOf(status))];
      db.calls := db.calls[id := db.calls[id].(completedAt := Some(now), reason := callReason)];
      db.observations := db.observations[id := Observation(status, now)];
      assert db.calls == old(db.calls)[id := db.calls[id]];
      EmitIgnores(db.runs, db.sessions, old(db.calls[id]), db.calls[id]);
      locks := Audit(id, OutcomeKind(status), auditReason, now, None);
    }

    // --- cancel ---

    method CancelCall(p: Principal, authorized: bool, id: CallId, now: Time)
      returns (result: Result<Reply>, locks: seq<Lock>)
      modifies db
      ensures var txn := Spec.CancelCall(old(db.Snapshot()), registry, p, authorized, id, now);
        db.Snapshot() == txn.db && result == txn.result
      ensures Below(locks, 5) && W.Guarded(old(db.Snapshot()), db.Snapshot(), locks)
      ensures authorized && MayCancel(old(db.Snapshot()), p, id) ==> CancelPlan(old(db.Snapshot()), id) <= locks
    {
      hide Spec.Transition, ParentLocks, EmitLocks, Below, CallFinal, Spec.ReleaseApproval, W.Guarded, W.CallLocked;
      ghost var before := db.Snapshot();
      W.NothingWritten(before);
      locks := [];
      NothingHeld();
      if !authorized { return Err("authority_missing"), locks; }
      if id !in db.calls || db.calls[id].owner != p.owner || db.calls[id].device != p.device {
        return Err("tool_call_not_available"), locks;
      }
      var owned := p.device in db.devices && db.devices[p.device].owner == p.owner;
      TakeInRank(locks, owned, DeviceRow(p.device));
      locks := Take(locks, owned, DeviceRow(p.device));
      if !DeviceReady(db.devices, p.device, p.owner) { return Err("device_not_available"), locks; }
      ParentInRank(locks, db.runs, db.sessions, db.calls[id].run);
      locks := locks + ParentLocks(db.runs, db.sessions, db.calls[id].run);
      TakeInRank(locks, true, CallRow(id));
      locks := Take(locks, true, CallRow(id));
      assert locks == CancelPlan(old(db.Snapshot()), id);
      var call := db.calls[id];
      var again;
      if call.status == CallStatus.Executing {
        if (call.tool, call.version) !in registry { return Err("unknown_tool_version"), locks; }
        EmitIsRelock(locks, db.runs, db.sessions, call, 5);
        ParentCovers(before, id, locks);
        W.CancellationIsGuarded(before, registry, p, authorized, id, now, locks);
        again := Transition(id, CallStatus.CancelRequested, "caller_cancel_requested", ToolCancelRequested,
                            "caller_cancel_requested", now, None);
        W.MoreLocks(before, db.Snapshot(), locks, locks + again);
        return Ok(Replied(id, false)), locks + again;
      }
      if call.status == CallStatus.CancelRequested || CallFinal(call.status) { return Ok(Replied(id, true)), locks; }
      if call.approval.Some? {
        TakeInRank(locks, call.approval.value in db.approvals, ApprovalRow(call.approval.value));
        locks := Take(locks, call.approval.value in db.approvals, ApprovalRow(call.approval.value));
      }
      EmitIsRelock(locks, db.runs, db.sessions, call, 5);
      ParentCovers(before, id, locks);
      W.CancellationIsGuarded(before, registry, p, authorized, id, now, locks);
      ReleaseApproval(call.approval);
      again := Transition(id, CallStatus.Cancelled, "caller_cancelled", ToolCancelled, "caller_cancelled", now, None);
      W.MoreLocks(before, db.Snapshot(), locks, locks + again);
      return Ok(Replied(id, false)), locks + again;
    }

    method ReleaseApproval(approval: Option<ApprovalId>)
      modifies db
      ensures db.Snapshot() == Spec.ReleaseApproval(old(db.Snapshot()), approval)
    {
      if approval.Some? && approval.value in db.approvals
         && db.approvals[approval.value].status in {ApprovalStatus.Pending, ApprovalStatus.Approved} {
        SetApproval(approval.value, ApprovalStatus.Cancelled);
      }
    }

    /** What follows when the executor could not be told to cancel; again the call comes first. */
    method CancelUndelivered(id: CallId, now: Time) returns (locks: seq<Lock>)
      modifies db
      ensures db.Snapshot() == Spec.CancelUndelivered(old(db.Snapshot()), id, now)
      ensures id in old(db.calls) && old(db.calls[id]).status == CallStatus.CancelRequested ==>
        locks == [CallRow(id)] + EmitLocks(old(db.runs), old(db.sessions), old(db.calls[id]))
      ensures W.Guarded(old(db.Snapshot()), db.Snapshot(), locks)
    {
      hide Spec.Transition, EmitLocks, W.Guarded, W.CallLocked;
      ghost var before := db.Snapshot();
      W.NothingWritten(before);
      if id in db.calls {
        EmitCovers(before, id, [CallRow(id)] + EmitLocks(db.runs, db.sessions, db.calls[id]));
        W.UndeliveredIsGuarded(before, id, now, [CallRow(id)] + EmitLocks(db.runs, db.sessions, db.calls[id]));
      }
      locks := [];
      if id in db.calls {
        locks := [CallRow(id)];
        if db.calls[id].status == CallStatus.CancelRequested {
          var more := Transition(id, CallStatus.CancelRequested, "cancellation_not_delivered", ToolCancelDeliveryFailed,
                                 "cancellation_not_delivered", now, None);
          locks := locks + more;
        }
      }
    }

    // --- sweeps over many rows ---

    /** Expire the pending approvals whose deadline has passed; `ids` are the rows of the query. */
    method ExpirePending(ids: seq<ApprovalId>, now: Time) returns (count: nat, locks: seq<Lock>)
      requires ExpiryCandidates(db.Snapshot(), now, ids)
      modifies db
      ensures db.Snapshot() == ExpireAll(old(db.Snapshot()), ids, now)
      ensures count == |ids|
      ensures locks == SweepLocks(old(db.Snapshot()), ids, now) && W.Guarded(old(db.Snapshot()), db.Snapshot(), locks)
    {
      hide Spec.ExpireOne, RowLocks, W.Guarded;
      W.NothingWritten(db.Snapshot());
      count, locks := 0, [];
      var i := 0;
      while i < |ids|
        invariant 0 <= i <= |ids| && count == i
        invariant db.Snapshot() == ExpireAll(old(db.Snapshot()), ids[..i], now)
        invariant locks == SweepLocks(old(db.Snapshot()), ids[..i], now)
        invariant W.Guarded(old(db.Snapshot()), db.Snapshot(), locks)
        invariant forall j :: i <= j < |ids| ==> Expirable(db.approvals, ids[j], now)
      {
        assert ids[..i + 1] == ids[..i] + [ids[i]];
        ghost var mid := db.Snapshot();
        var expired, more := ExpireOne(ids[i], now);
        W.GuardedThen(old(db.Snapshot()), mid, db.Snapshot(), locks, more);
        locks := locks + more;
        if expired { count := count + 1; }
        i := i + 1;
      }
      assert ids[..|ids|] == ids;
    }

    /** Lock a row's device, run, session, call and approval before looking at the approval again. */
    method ExpireOne(aid: ApprovalId, now: Time) returns (expired: bool, locks: seq<Lock>)
      modifies db
      ensures db.Snapshot() == Spec.ExpireOne(old(db.Snapshot()), aid, now)
      ensures locks == RowLocks(old(db.Snapshot()), aid, now) && W.Guarded(old(db.Snapshot()), db.Snapshot(), locks)
      ensures expired <==> old(Expirable(db.approvals, aid, now))
      ensures forall other :: other in old(db.approvals) && other != aid ==>
        other in db.approvals && db.approvals[other] == old(db.approvals)[other]
    {
      hide Spec.Transition, ParentLocks, EmitLocks, W.Guarded, W.CallLocked;
      RowIsGuarded(db.Snapshot(), aid, now);
      locks := [];
      expired := Expirable(db.approvals, aid, now);
      if aid !in db.approvals { return; }
      var id := db.approvals[aid].call;
      if id in db.calls {
        locks := Take([], db.calls[id].device in db.devices, DeviceRow(db.calls[id].device));
        locks := locks + ParentLocks(db.runs, db.sessions, db.calls[id].run) + [CallRow(id)];
      }
      locks := locks + [ApprovalRow(aid)];
      if expired {
        SetApproval(aid, ApprovalStatus.Expired);
        if id in db.calls && db.calls[id].status == CallStatus.AwaitingApproval {
          var more := Transition(id, CallStatus.Expired, "approval_expired", ApprovalExpired, "approval_expired", now, Some(aid));
          locks := locks + more;
        }
      }
    }

    /** Fail every call whose executor may be gone; `ids` are the rows of the query, which locks them all.
        One existing observation would undo the whole sweep. */
    method ReconcileStaleExecuting(ids: seq<CallId>, now: Time) returns (count: nat, locks: seq<Lock>)
      modifies db
      ensures db.Snapshot() == Reconcile(old(db.Snapshot()), ids, now)
      ensures ReconcileAll(old(db.Snapshot()), ids, now).Some? ==>
        count == |ids| && locks == ReconcileLocks(old(db.Snapshot()), ids)
      ensures W.Guarded(old(db.Snapshot()), db.Snapshot(), locks)
    {
      hide Spec.Observe, EmitLocks, EmitAll, CallRows, SameOwners, W.Guarded, W.CallLocked;
      count, locks := 0, CallRows(ids);
      var saved := db.Snapshot();
      W.NothingWritten(saved);
      NothingReconciled(saved, locks);
      var i := 0;
      while i < |ids|
        invariant 0 <= i <= |ids| && count == i
        invariant ReconcileAll(saved, ids[..i], now) == Some(db.Snapshot())
        invariant SameOwners(saved, db.Snapshot())
        invariant locks == CallRows(ids) + EmitAll(saved, ids[..i])
        invariant W.Guarded(saved, db.Snapshot(), locks)
      {
        var id := ids[i];
        assert ids[..i + 1] == ids[..i] + [id];
        if id !in db.calls || id in db.observations {
          ReconcileAborts(saved, ids, i + 1, now);
          ReconcileWrites(saved, ids[..i], now);
          db.RollbackTools(saved);
          return;
        }
        ReconcileLocksOneMore(saved, db.Snapshot(), CallRows(ids), ids[..i], id, now);
        ghost var mid := db.Snapshot();
        var more := Observe(id, ObservationStatus.Failed, "stale_execution_reconciled", "stale_execution_reconciled", now);
        ObservedUnderLocks(saved, mid, locks, more, ids, i, now);
        locks := locks + more;
        count := count + 1;
        i := i + 1;
      }
      assert ids[..|ids|] == ids;
    }
  }
}
