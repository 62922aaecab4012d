/** Each transaction keeps the tool platform's invariant and only makes legal moves. */
module ToolSteps {
  import opened Prelude
  import opened Store
  import opened ToolAuthority
  import opened ToolViews
  import opened ToolInvariants
  import opened ToolMoves

  // --- one call, rewritten together with its approval ---

  /** Transition a call after rewriting its approval row. */
  lemma TransitionWithApproval(
    db: Db, id: CallId, aid: ApprovalId, approval: Approval, status: CallStatus, reason: string,
    kind: AuditKind, auditReason: string, now: Time, mention: Option<ApprovalId>)
    requires Linked(db) && id in db.calls && aid in db.approvals
    requires db.approvals[aid].call == id && approval.call == id
    ensures var marked := db.(approvals := db.approvals[aid := approval]);
      var after := Transition(marked, id, status, reason, kind, auditReason, now, mention);
      Linked(after) && OnlyCall(db, after, id)
      && ViewOf(after, id)
         == Logged(ViewOf(db, id), status, reason, Entry(id, mention, kind, status, auditReason, now))
            .(approval := Some(approval))
  {
    hide Linked, OnlyCall;
    var marked := db.(approvals := db.approvals[aid := approval]);
    ApprovalViews(db, aid, approval);
    TransitionViews(marked, id, status, reason, kind, auditReason, now, mention);
    OnlyCallTransitive(db, marked, Transition(marked, id, status, reason, kind, auditReason, now, mention), id);
  }

  /** Rewriting the approval before or after the call commits the same rows. */
  lemma ApprovalCommutes(
    db: Db, id: CallId, aid: ApprovalId, approval: Approval, status: CallStatus, reason: string,
    kind: AuditKind, auditReason: string, now: Time, mention: Option<ApprovalId>)
    requires id in db.calls && aid in db.approvals
    ensures var marked := db.(approvals := db.approvals[aid := approval]);
      var moved := Transition(db, id, status, reason, kind, auditReason, now, mention);
      Transition(marked, id, status, reason, kind, auditReason, now, mention)
      == moved.(approvals := db.approvals[aid := approval])
  {}

  lemma ViewHasApproval(db: Db, aid: ApprovalId)
    requires ToolsOk(db) && aid in db.approvals
    ensures var id := db.approvals[aid].call;
      id in db.calls && ViewOf(db, id).approval == Some(db.approvals[aid]) && CallOk(ViewOf(db, id))
  {
    hide CallOk;
  }

  lemma CallHasApproval(db: Db, id: CallId)
    requires ToolsOk(db) && id in db.calls && db.calls[id].approval.Some?
    ensures db.calls[id].approval.value in db.approvals
    ensures db.approvals[db.calls[id].approval.value].call == id
    ensures ViewOf(db, id).approval == Some(db.approvals[db.calls[id].approval.value])
  {
    hide CallOk;
  }

  lemma ViewIsOk(db: Db, id: CallId)
    requires ToolsOk(db) && id in db.calls
    ensures CallOk(ViewOf(db, id)) && Linked(db)
    ensures ViewOf(db, id).call == db.calls[id] && ViewOf(db, id).history == History(db.audit, id)
  {
    hide CallOk, Linked;
  }

  // --- decide ---

  lemma PendingLeaves(
    db: Db, aid: ApprovalId, approval: Approval, status: CallStatus, reason: string,
    kind: AuditKind, auditReason: string, now: Time, mention: Option<ApprovalId>)
    requires ToolsOk(db) && aid in db.approvals && db.approvals[aid].status == ApprovalStatus.Pending
    requires approval == db.approvals[aid].(status := approval.status, decidedBy := approval.decidedBy,
                                            decidedAt := approval.decidedAt)
    requires kind != ToolStarted
    requires (approval.status, status) in {
      (ApprovalStatus.Approved, CallStatus.Approved), (ApprovalStatus.Rejected, CallStatus.Rejected),
      (ApprovalStatus.Expired, CallStatus.Expired), (ApprovalStatus.Cancelled, CallStatus.Cancelled)}
    requires status == CallStatus.Approved ==> approval.decidedBy.Some? && kind == ApprovalApproved
    ensures db.approvals[aid].call in db.calls
    ensures var marked := db.(approvals := db.approvals[aid := approval]);
      var after := Transition(marked, db.approvals[aid].call, status, reason, kind, auditReason, now, mention);
      ToolsOk(after) && Evolves(db, after, None)
  {
    hide ToolsOk, Linked, OnlyCall, CallOk, Moves, Evolves, Transition, ViewOf, ParentDead;
    var id := db.approvals[aid].call;
    ViewHasApproval(db, aid);
    ViewIsOk(db, id);
    var v := ViewOf(db, id);
    LeavePending(v, approval, status, reason, Entry(id, mention, kind, status, auditReason, now));
    TransitionWithApproval(db, id, aid, approval, status, reason, kind, auditReason, now, mention);
    var marked := db.(approvals := db.approvals[aid := approval]);
    Settle(db, Transition(marked, id, status, reason, kind, auditReason, now, mention), id, None);
  }

  lemma DecideKeeps(
    db: Db, p: Principal, authorized: bool, aid: ApprovalId, approve: bool, now: Time)
    requires ToolsOk(db)
    ensures var after := DecideApproval(db, p, authorized, aid, approve, now).db;
      ToolsOk(after) && Evolves(db, after, None)
  {
    hide ToolsOk, Evolves, Transition, RevalidateParent, ViewOf, CallOk;
    var after := DecideApproval(db, p, authorized, aid, approve, now).db;
    if after == db {
      EvolvesNot(db, None);
    } else {
      var approval := db.approvals[aid];
      ViewHasApproval(db, aid);
      if RevalidateParent(db, p, db.calls[approval.call]).Dead? {
        var cancelled := approval.(status := ApprovalStatus.Cancelled);
        PendingLeaves(db, aid, cancelled, CallStatus.Cancelled,
          "parent_run_cancelled", ToolCancelled, "parent_run_cancelled", now, None);
        ApprovalCommutes(db, approval.call, aid, cancelled,
          CallStatus.Cancelled, "parent_run_cancelled", ToolCancelled, "parent_run_cancelled", now, None);
      } else if approval.expiresAt <= now {
        PendingLeaves(db, aid, approval.(status := ApprovalStatus.Expired), CallStatus.Expired,
          "approval_expired", ApprovalExpired, "approval_expired", now, Some(aid));
      } else if approve {
        PendingLeaves(db, aid,
          approval.(status := ApprovalStatus.Approved, decidedBy := Some(p.device), decidedAt := Some(now)),
          CallStatus.Approved, "owner_approved", ApprovalApproved, "owner_approved", now, Some(aid));
      } else {
        PendingLeaves(db, aid,
          approval.(status := ApprovalStatus.Rejected, decidedBy := Some(p.device), decidedAt := Some(now)),
          CallStatus.Rejected, "owner_rejected", ApprovalRejected, "owner_rejected", now, Some(aid));
      }
    }
  }

  // --- expiry sweep ---

  lemma ExpireOneKeeps(db: Db, aid: ApprovalId, now: Time)
    requires ToolsOk(db)
    ensures ToolsOk(ExpireOne(db, aid, now)) && Evolves(db, ExpireOne(db, aid, now), None)
  {
    hide ToolsOk, CallOk, Linked, Evolves, Transition, ViewOf;
    if ExpireOne(db, aid, now) == db {
      EvolvesNot(db, None);
    } else {
      ViewHasApproval(db, aid);
      ViewIsOk(db, db.approvals[aid].call);
      OkMeansSynchronised(ViewOf(db, db.approvals[aid].call));
      PendingLeaves(db, aid, db.approvals[aid].(status := ApprovalStatus.Expired), CallStatus.Expired,
        "approval_expired", ApprovalExpired, "approval_expired", now, Some(aid));
    }
  }

  lemma {:induction false} ExpireAllKeeps(db: Db, ids: seq<ApprovalId>, now: Time)
    requires ToolsOk(db)
    ensures ToolsOk(ExpireAll(db, ids, now)) && Evolves(db, ExpireAll(db, ids, now), None)
  {
    hide ToolsOk, Evolves, ExpireOne;
    EvolvesNot(db, None);
    if ids != [] {
      var n := |ids| - 1;
      ExpireAllKeeps(db, ids[..n], now);
      var before := ExpireAll(db, ids[..n], now);
      ExpireOneKeeps(before, ids[n], now);
      EvolvesTransitive(db, before, ExpireOne(before, ids[n], now));
    }
  }

  // --- cancel ---

  /** A plain transition of one call, its approval untouched. */
  lemma TransitionKeeps(
    db: Db, id: CallId, status: CallStatus, reason: string, kind: AuditKind, auditReason: string, now: Time)
    requires ToolsOk(db) && id in db.calls
    requires kind != ToolStarted
    requires
      (db.calls[id].status in {CallStatus.Executing, CallStatus.CancelRequested}
        && status in {CallStatus.CancelRequested, CallStatus.Cancelled})
      || (db.calls[id].status == CallStatus.Approved && db.calls[id].approval.None?
        && status in {CallStatus.Expired, CallStatus.Cancelled})
    requires db.calls[id].status != CallStatus.Approved && status == CallStatus.Cancelled ==>
      ParentDead(db, db.calls[id])
    ensures var after := Transition(db, id, status, reason, kind, auditReason, now, None);
      ToolsOk(after) && Evolves(db, after, None)
  {
    hide ToolsOk, Linked, OnlyCall, CallOk, Moves, Evolves, Transition, ViewOf, ParentDead;
    ViewIsOk(db, id);
    var v := ViewOf(db, id);
    var e := Entry(id, None, kind, status, auditReason, now);
    if db.calls[id].status == CallStatus.Approved {
      OkMeansSynchronised(v);
      Withdraw(v, v.approval, status, reason, e);
    } else {
      Mark(v, v.approval, status, reason, e);
    }
    TransitionViews(db, id, status, reason, kind, auditReason, now, None);
    assert Logged(v, status, reason, e).(approval := v.approval) == Logged(v, status, reason, e);
    Settle(db, Transition(db, id, status, reason, kind, auditReason, now, None), id, None);
  }

  lemma OkMeansSynchronised(v: View)
    requires CallOk(v)
    ensures Synchronised(v)
  {}

  /** A call is cancelled, or expires, together with its approval. */
  lemma WithdrawKeeps(
    db: Db, id: CallId, to: ApprovalStatus, status: CallStatus, reason: string, kind: AuditKind,
    auditReason: string, now: Time, mention: Option<ApprovalId>)
    requires ToolsOk(db) && id in db.calls && db.calls[id].approval.Some?
    requires kind != ToolStarted
    requires
      (db.calls[id].status in {CallStatus.AwaitingApproval, CallStatus.Approved}
        && (to, status) in {(ApprovalStatus.Cancelled, CallStatus.Cancelled), (ApprovalStatus.Expired, CallStatus.Expired)})
      || (db.calls[id].status in {CallStatus.Executing, CallStatus.CancelRequested}
          && (to, status) == (ApprovalStatus.Cancelled, CallStatus.Cancelled)
          && ParentDead(db, db.calls[id]))
    ensures db.calls[id].approval.value in db.approvals
    ensures
      var after := Transition(SetApproval(db, db.calls[id].approval.value, to), id, status, reason, kind,
                              auditReason, now, mention);
      ToolsOk(after) && Evolves(db, after, None)
      && after == SetApproval(Transition(db, id, status, reason, kind, auditReason, now, mention),
                              db.calls[id].approval.value, to)
  {
    hide ToolsOk, Linked, OnlyCall, CallOk, Moves, Evolves, Transition, ViewOf, ParentDead;
    ViewIsOk(db, id);
    CallHasApproval(db, id);
    var aid := db.calls[id].approval.value;
    var approval := db.approvals[aid].(status := to);
    var v := ViewOf(db, id);
    var e := Entry(id, mention, kind, status, auditReason, now);
    OkMeansSynchronised(v);
    if db.calls[id].status == CallStatus.AwaitingApproval {
      LeavePending(v, approval, status, reason, e);
    } else if db.calls[id].status == CallStatus.Approved {
      Withdraw(v, Some(approval), status, reason, e);
    } else {
      Mark(v, Some(approval), status, reason, e);
    }
    TransitionWithApproval(db, id, aid, approval, status, reason, kind, auditReason, now, mention);
    var marked := SetApproval(db, aid, to);
    Settle(db, Transition(marked, id, status, reason, kind, auditReason, now, mention), id, None);
    MarkCommutes(db, id, aid, to, status, reason, kind, auditReason, now, mention);
  }

  lemma MarkCommutes(
    db: Db, id: CallId, aid: ApprovalId, to: ApprovalStatus, status: CallStatus, reason: string, kind: AuditKind,
    auditReason: string, now: Time, mention: Option<ApprovalId>)
    requires id in db.calls && aid in db.approvals
    ensures Transition(SetApproval(db, aid, to), id, status, reason, kind, auditReason, now, mention)
      == SetApproval(Transition(db, id, status, reason, kind, auditReason, now, mention), aid, to)
  {
    ApprovalCommutes(db, id, aid, db.approvals[aid].(status := to), status, reason, kind, auditReason, now, mention);
    hide Audit;
  }

  lemma CancelKeeps(
    db: Db, registry: Registry, p: Principal, authorized: bool, id: CallId, now: Time)
    requires ToolsOk(db)
    ensures var after := CancelCall(db, registry, p, authorized, id, now).db;
      ToolsOk(after) && Evolves(db, after, None)
  {
    hide ToolsOk, Evolves, Transition, ViewOf, CallOk, Linked;
    var after := CancelCall(db, registry, p, authorized, id, now).db;
    if after == db {
      EvolvesNot(db, None);
    } else {
      ViewIsOk(db, id);
      OkMeansSynchronised(ViewOf(db, id));
      if db.calls[id].status == CallStatus.Executing {
        TransitionKeeps(db, id, CallStatus.CancelRequested, "caller_cancel_requested",
          ToolCancelRequested, "caller_cancel_requested", now);
      } else if db.calls[id].approval.Some? {
        CallHasApproval(db, id);
        WithdrawKeeps(db, id, ApprovalStatus.Cancelled, CallStatus.Cancelled, "caller_cancelled",
          ToolCancelled, "caller_cancelled", now, None);
      } else {
        TransitionKeeps(db, id, CallStatus.Cancelled, "caller_cancelled", ToolCancelled,
          "caller_cancelled", now);
      }
    }
  }

  lemma UndeliveredKeeps(db: Db, id: CallId, now: Time)
    requires ToolsOk(db)
    ensures ToolsOk(CancelUndelivered(db, id, now)) && Evolves(db, CancelUndelivered(db, id, now), None)
  {
    hide ToolsOk, Evolves, Transition;
    if id in db.calls && db.calls[id].status == CallStatus.CancelRequested {
      TransitionKeeps(db, id, CallStatus.CancelRequested, "cancellation_not_delivered",
        ToolCancelDeliveryFailed, "cancellation_not_delivered", now);
    } else {
      EvolvesNot(db, None);
    }
  }

  // --- execute: begin ---

  lemma DispatchViews(db: Db, id: CallId)
    requires Linked(db) && id in db.calls
    ensures var after := db.(executing := db.executing + {id}, starts := db.starts + [id]);
      Linked(after) && OnlyCall(db, after, id)
      && ViewOf(after, id) == ViewOf(db, id).(running := true, starts := ViewOf(db, id).starts + 1)
  {
    forall e | e in db.starts + [id] ensures e in db.calls {}
  }

  /** The rows of a call that starts executing. */
  function Running(db: Db, id: CallId, now: Time): Db
    requires id in db.calls
  {
    var running := db.(calls := db.calls[id := db.calls[id].(status := CallStatus.Executing, startedAt := Some(now))]);
    Audit(running, id, ToolStarted, "authority_consumed", now, None)
      .(executing := db.executing + {id}, starts := db.starts + [id])
  }

  lemma RunningViews(db: Db, id: CallId, now: Time)
    requires Linked(db) && id in db.calls
    ensures Linked(Running(db, id, now)) && OnlyCall(db, Running(db, id, now), id)
    ensures ViewOf(Running(db, id, now), id) == ViewOf(db, id).(
        call := db.calls[id].(status := CallStatus.Executing, startedAt := Some(now)),
        history := History(db.audit, id)
          + [Entry(id, None, ToolStarted, CallStatus.Executing, "authority_consumed", now)],
        running := true, starts := ViewOf(db, id).starts + 1)
  {
    hide OnlyCall, Linked;
    var call := db.calls[id].(status := CallStatus.Executing, startedAt := Some(now));
    var rewritten := db.(calls := db.calls[id := call]);
    var audited := Audit(rewritten, id, ToolStarted, "authority_consumed", now, None);
    CallViews(db, id, call);
    AuditViews(rewritten, id, ToolStarted, "authority_consumed", now, None);
    OnlyCallTransitive(db, rewritten, audited, id);
    DispatchViews(audited, id);
    OnlyCallTransitive(db, audited, Running(db, id, now), id);
  }

  lemma StartPlainKeeps(db: Db, id: CallId, now: Time)
    requires ToolsOk(db) && id in db.calls && db.calls[id].status == CallStatus.Approved
    requires db.calls[id].approval.None? && db.calls[id].risk !in {Consequential, Critical}
    ensures ToolsOk(Running(db, id, now)) && Evolves(db, Running(db, id, now), None)
  {
    hide ToolsOk, Linked, OnlyCall, CallOk, Moves, Evolves, ViewOf, Running;
    ViewIsOk(db, id);
    OkMeansSynchronised(ViewOf(db, id));
    Start(ViewOf(db, id), None, now,
          Entry(id, None, ToolStarted, CallStatus.Executing, "authority_consumed", now));
    RunningViews(db, id, now);
    Settle(db, Running(db, id, now), id, None);
  }

  lemma StartApprovedKeeps(db: Db, id: CallId, now: Time)
    requires ToolsOk(db) && id in db.calls && db.calls[id].status == CallStatus.Approved
    requires db.calls[id].approval.Some? && db.calls[id].approval.value in db.approvals
    requires db.approvals[db.calls[id].approval.value].status == ApprovalStatus.Approved
    requires now < db.approvals[db.calls[id].approval.value].expiresAt
    ensures
      var aid := db.calls[id].approval.value;
      var consumed := db.approvals[aid].(status := Consumed, consumedAt := Some(now));
      var after := Running(db.(approvals := db.approvals[aid := consumed]), id, now);
      ToolsOk(after) && Evolves(db, after, None)
  {
    hide ToolsOk, Linked, OnlyCall, CallOk, Moves, Evolves, ViewOf, Running;
    var aid := db.calls[id].approval.value;
    var consumed := db.approvals[aid].(status := Consumed, consumedAt := Some(now));
    var marked := db.(approvals := db.approvals[aid := consumed]);
    ViewIsOk(db, id);
    CallHasApproval(db, id);
    Start(ViewOf(db, id), Some(consumed), now,
          Entry(id, None, ToolStarted, CallStatus.Executing, "authority_consumed", now));
    ApprovalViews(db, aid, consumed);
    RunningViews(marked, id, now);
    OnlyCallTransitive(db, marked, Running(marked, id, now), id);
    Settle(db, Running(marked, id, now), id, None);
  }

  lemma CancelDispatchKeeps(db: Db, id: CallId, now: Time)
    requires ToolsOk(db) && id in db.calls && !CallFinal(db.calls[id].status)
    requires ParentDead(db, db.calls[id])
    ensures ToolsOk(CancelDispatch(db, id, now)) && Evolves(db, CancelDispatch(db, id, now), None)
  {
    hide ToolsOk, Evolves, Transition, ViewOf, CallOk, Linked;
    ViewIsOk(db, id);
    OkMeansSynchronised(ViewOf(db, id));
    if db.calls[id].approval.Some? {
      CallHasApproval(db, id);
      WithdrawKeeps(db, id, ApprovalStatus.Cancelled, CallStatus.Cancelled, "parent_run_cancelled",
        ToolCancelled, "parent_run_cancelled", now, None);
    } else {
      TransitionKeeps(db, id, CallStatus.Cancelled, "parent_run_cancelled", ToolCancelled,
        "parent_run_cancelled", now);
    }
  }

  lemma ConsumeKeeps(db: Db, p: Principal, id: CallId, now: Time)
    requires ToolsOk(db) && id in db.calls && db.calls[id].status == CallStatus.Approved
    requires db.calls[id].risk in {Consequential, Critical} ==> db.calls[id].approval.Some?
    ensures var after := ConsumeAuthority(db, p, id, now).db;
      ToolsOk(after) && Evolves(db, after, None)
  {
    hide ToolsOk, Evolves, Transition, ContextBinding, ExecutedIn;
    var after := ConsumeAuthority(db, p, id, now).db;
    if after == db {
      EvolvesNot(db, None);
    } else if db.calls[id].approval.None? {
      StartPlainKeeps(db, id, now);
    } else if db.approvals[db.calls[id].approval.value].expiresAt <= now {
      WithdrawKeeps(db, id, ApprovalStatus.Expired, CallStatus.Expired, "approval_expired",
        ApprovalExpired, "approval_expired", now, db.calls[id].approval);
    } else {
      StartApprovedKeeps(db, id, now);
    }
  }

  lemma DeadMeansParentDead(db: Db, p: Principal, call: ToolCall)
    requires RevalidateParent(db, p, call).Dead?
    ensures ParentDead(db, call)
  {}

  lemma BeginKeeps(
    db: Db, registry: Registry, p: Principal, id: CallId, arguments: Option<Option<Digest>>, w: Surroundings)
    requires ToolsOk(db)
    ensures var after := BeginExecution(db, registry, p, id, arguments, w).db;
      ToolsOk(after) && Evolves(db, after, None)
  {
    hide ToolsOk, Evolves, CancelDispatch, ConsumeAuthority, RevalidateParent;
    var after := BeginExecution(db, registry, p, id, arguments, w).db;
    if after == db {
      EvolvesNot(db, None);
    } else if RevalidateParent(db, p, db.calls[id]).Dead? {
      DeadMeansParentDead(db, p, db.calls[id]);
      CancelDispatchKeeps(db, id, w.now);
    } else {
      ConsumeKeeps(db, p, id, w.now);
    }
  }

  // --- execute: finish, lost executions, reconciliation ---

  lemma StopViews(db: Db, id: CallId)
    requires Linked(db) && id in db.calls
    ensures var after := db.(executing := db.executing - {id});
      Linked(after) && OnlyCall(db, after, id)
      && ViewOf(after, id) == ViewOf(db, id).(running := false)
  {}

  lemma FinishKeeps(db: Db, id: CallId, raw: RawOutcome, now: Time)
    requires ToolsOk(db) && id in db.executing
    ensures var after := FinishExecution(db, id, raw, now).db;
      ToolsOk(after) && Evolves(db, after, Some(id))
  {
    assert id in db.calls;
    hide ToolsOk, Linked, OnlyCall, CallOk, Moves, Evolves, ViewOf, Observe;
    var done := db.(executing := db.executing - {id});
    var (status, reason) := Normalize(raw);
    ViewIsOk(db, id);
    ViewFacts(db, id);
    StopViews(db, id);
    if id in db.observations {
      Stop(ViewOf(db, id));
      Settle(db, done, id, Some(id));
    } else {
      Conclude(ViewOf(db, id), status, db.calls[id].reason, now,
               Entry(id, None, OutcomeKind(status), StatusOf(status), reason, now), true);
      ObserveViews(done, id, status, db.calls[id].reason, reason, now);
      OnlyCallTransitive(db, done, Observe(done, id, status, db.calls[id].reason, reason, now), id);
      Settle(db, Observe(done, id, status, db.calls[id].reason, reason, now), id, Some(id));
    }
  }

  lemma ViewFacts(db: Db, id: CallId)
    requires id in db.calls
    ensures ViewOf(db, id).observation.None? <==> id !in db.observations
    ensures ViewOf(db, id).running <==> id in db.executing
    ensures ViewOf(db, id).starts == multiset(db.starts)[id]
    ensures ViewOf(db, id).call == db.calls[id] && ViewOf(db, id).history == History(db.audit, id)
  {}

  lemma CrashKeeps(db: Db)
    requires ToolsOk(db)
    ensures ToolsOk(db.(executing := {})) && Evolves(db, db.(executing := {}), None)
  {
    hide CallOk, Moves, KeysUnique, ParentDead;
    var after := db.(executing := {});
    forall id | id in db.calls
      ensures CallOk(ViewOf(after, id)) && Moves(ViewOf(db, id), ViewOf(after, id), false)
      ensures NoNewOrphan(db, after, id)
    {
      Stop(ViewOf(db, id));
      assert ViewOf(after, id) == ViewOf(db, id).(running := false);
    }
  }

  lemma ReconcileOneKeeps(db: Db, id: CallId, now: Time)
    requires ToolsOk(db) && id in db.calls
    requires db.calls[id].status in {CallStatus.Executing, CallStatus.CancelRequested}
    ensures id !in db.observations
    ensures var after := Observe(db, id, ObservationStatus.Failed, "stale_execution_reconciled",
                                 "stale_execution_reconciled", now);
      ToolsOk(after) && Evolves(db, after, None) && OnlyCall(db, after, id)
      && after.calls[id].status == CallStatus.Failed && id in after.observations
  {
    hide ToolsOk, Linked, OnlyCall, CallOk, Moves, Evolves, ViewOf, Observe;
    ViewIsOk(db, id);
    ViewFacts(db, id);
    ActiveMeansUnobserved(ViewOf(db, id));
    var reason := "stale_execution_reconciled";
    Conclude(ViewOf(db, id), ObservationStatus.Failed, reason, now,
             Entry(id, None, ToolFailed, CallStatus.Failed, reason, now), false);
    ObserveViews(db, id, ObservationStatus.Failed, reason, reason, now);
    var after := Observe(db, id, ObservationStatus.Failed, reason, reason, now);
    Settle(db, after, id, None);
    ViewFacts(after, id);
  }

  lemma EvolvesKeepsCalls(db: Db, after: Db)
    requires Evolves(db, after, None)
    ensures db.calls.Keys <= after.calls.Keys
  {}

  lemma ActiveMeansUnobserved(v: View)
    requires CallOk(v) && v.call.status in {CallStatus.Executing, CallStatus.CancelRequested}
    ensures v.observation.None?
  {}

  /** The sweep never meets an existing observation, so it never rolls back; afterwards every
      listed call is FAILED and every other call is as it was. */
  lemma {:induction false} ReconcileAllKeeps(db: Db, ids: seq<CallId>, now: Time)
    requires ToolsOk(db)
    requires forall id :: id in ids ==>
      id in db.calls && db.calls[id].status in {CallStatus.Executing, CallStatus.CancelRequested}
    requires forall i, j :: 0 <= i < j < |ids| ==> ids[i] != ids[j]
    ensures ReconcileAll(db, ids, now).Some?
    ensures var after := ReconcileAll(db, ids, now).value;
      ToolsOk(after) && Evolves(db, after, None)
      && (forall id :: id in db.calls && id !in ids ==> ViewOf(after, id) == ViewOf(db, id))
      && (forall id :: id in ids ==> id in after.calls && after.calls[id].status == CallStatus.Failed)
  {
    hide ToolsOk, Evolves, Observe, ViewOf;
    EvolvesNot(db, None);
    if ids != [] {
      var n := |ids| - 1;
      var id := ids[n];
      ReconcileAllKeeps(db, ids[..n], now);
      var before := ReconcileAll(db, ids[..n], now).value;
      assert id in db.calls && id !in ids[..n];
      EvolvesKeepsCalls(db, before);
      ViewFacts(db, id);
      ViewFacts(before, id);
      ReconcileOneKeeps(before, id, now);
      var after := ReconcileAll(db, ids, now).value;
      EvolvesTransitive(db, before, after);
      forall other | other in db.calls && other !in ids
        ensures ViewOf(after, other) == ViewOf(db, other)
      {
        EvolvesKeepsCalls(db, before);
      }
      forall other | other in ids
        ensures other in after.calls && after.calls[other].status == CallStatus.Failed
      {
        if other != id {
          assert other in ids[..n];
          ViewFacts(before, other);
          ViewFacts(after, other);
        }
      }
    }
  }
}
