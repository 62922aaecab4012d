/** Staging a new call keeps the invariant: the call is born with a legal audit history, and with
    a pending approval exactly when it awaits one. */
module ToolRequestSteps {
  import opened Prelude
  import opened Store
  import opened ToolAuthority
  import opened ToolViews
  import opened ToolInvariants
  import opened ToolMoves

  lemma InsertViews(db: Db, id: CallId, call: ToolCall)
    requires Linked(db) && id !in db.calls && call.approval.None?
    ensures var after := db.(calls := db.calls[id := call]);
      Linked(after) && OnlyCall(db, after, id) && ViewOf(after, id) == View(call, None, None, false, 0, [])
  {
    ProjectsNot(db.events, db.runs.Keys);
    hide Projects;
    SelectNone(db.audit, OfCall(id));
    InsertKeepsLinks(db.calls, db.approvals, id, call);
    var after := db.(calls := db.calls[id := call]);
    assert after.calls.Keys == db.calls.Keys + {id};
    assert id !in db.starts;
    hide ApprovalsLinked;
    forall other | other in db.calls && other != id
      ensures ViewOf(after, other) == ViewOf(db, other)
    {
      assert after.calls[other] == db.calls[other];
    }
  }

  lemma InsertKeepsLinks(
    calls: map<CallId, ToolCall>, approvals: map<ApprovalId, Approval>, id: CallId, call: ToolCall)
    requires ApprovalsLinked(calls, approvals) && id !in calls && call.approval.None?
    ensures ApprovalsLinked(calls[id := call], approvals)
  {}

  lemma LinkViews(db: Db, id: CallId, aid: ApprovalId, approval: Approval)
    requires Linked(db) && id in db.calls && db.calls[id].approval.None?
    requires aid !in db.approvals && approval.call == id
    ensures var after := db.(approvals := db.approvals[aid := approval],
                             calls := db.calls[id := db.calls[id].(approval := Some(aid))]);
      Linked(after) && OnlyCall(db, after, id)
      && ViewOf(after, id) == ViewOf(db, id).(call := db.calls[id].(approval := Some(aid)),
                                              approval := Some(approval))
  {
    ProjectsNot(db.events, db.runs.Keys);
    hide Projects;
    LinkKeepsLinks(db.calls, db.approvals, id, aid, approval);
    var after := db.(approvals := db.approvals[aid := approval],
                     calls := db.calls[id := db.calls[id].(approval := Some(aid))]);
    assert after.calls.Keys == db.calls.Keys + {id};
    NobodyLinks(db.calls, db.approvals, aid);
    LinkKeepsViews(db, after, id, aid, approval);
    hide ApprovalsLinked, RowsLinked, ViewOf;
  }

  lemma LinkKeepsViews(db: Db, after: Db, id: CallId, aid: ApprovalId, approval: Approval)
    requires id in db.calls && db.calls[id].approval.None?
    requires forall other :: other in db.calls ==> db.calls[other].approval != Some(aid)
    requires after == db.(approvals := db.approvals[aid := approval],
                          calls := db.calls[id := db.calls[id].(approval := Some(aid))])
    ensures ViewOf(after, id) == ViewOf(db, id).(call := db.calls[id].(approval := Some(aid)),
                                                 approval := Some(approval))
    ensures forall other :: other in db.calls && other != id ==> ViewOf(after, other) == ViewOf(db, other)
  {
    hide History;
  }

  lemma NobodyLinks(calls: map<CallId, ToolCall>, approvals: map<ApprovalId, Approval>, aid: ApprovalId)
    requires ApprovalsLinked(calls, approvals) && aid !in approvals
    ensures forall id :: id in calls ==> calls[id].approval != Some(aid)
  {}

  lemma LinkKeepsLinks(
    calls: map<CallId, ToolCall>, approvals: map<ApprovalId, Approval>, id: CallId, aid: ApprovalId,
    approval: Approval)
    requires ApprovalsLinked(calls, approvals) && id in calls && calls[id].approval.None?
    requires aid !in approvals && approval.call == id
    ensures ApprovalsLinked(calls[id := calls[id].(approval := Some(aid))], approvals[aid := approval])
  {}

  // --- the views of a newborn call ---

  lemma DecidedViews(db: Db, d: Descriptor, p: Principal, r: ToolRequest, w: Surroundings)
    requires Linked(db) && w.freshCall !in db.calls
    ensures var after := Decided(db, d, p, r, w);
      Linked(after) && OnlyCall(db, after, w.freshCall) && after.approvals == db.approvals
      && after.calls[w.freshCall] == DecidedCall(p, d, r, w)
      && ViewOf(after, w.freshCall) == View(DecidedCall(p, d, r, w), None, None, false, 0,
           [Entry(w.freshCall, None, ToolProposed, CallStatus.Validated, "validated", w.now)])
  {
    hide Linked, OnlyCall, Permission;
    var id := w.freshCall;
    var inserted := db.(calls := db.calls[id := NewCall(p, d, r, w.now)]);
    InsertViews(db, id, NewCall(p, d, r, w.now));
    AuditViews(inserted, id, ToolProposed, "validated", w.now, None);
    var staged := Audit(inserted, id, ToolProposed, "validated", w.now, None);
    OnlyCallTransitive(db, inserted, staged, id);
    CallViews(staged, id, DecidedCall(p, d, r, w));
    OnlyCallTransitive(db, staged, Decided(db, d, p, r, w), id);
  }

  lemma BirthWithoutApproval(call: ToolCall, status: CallStatus, proposed: AuditEvent, e: AuditEvent)
    requires call.approval.None? && status in {CallStatus.Denied, CallStatus.Approved}
    requires proposed.result == Some(CallStatus.Validated) && proposed.kind == ToolProposed
    requires e.result == Some(status) && e.kind != ToolStarted
    ensures CallOk(View(call.(status := status), None, None, false, 0, [proposed, e]))
  {
    HistoryGrows([proposed], e);
    assert [proposed] + [e] == [proposed, e];
  }

  lemma BirthWithApproval(
    call: ToolCall, approval: Approval, proposed: AuditEvent, e: AuditEvent, f: AuditEvent)
    requires call.approval.Some? && approval.status == ApprovalStatus.Pending
    requires ApprovalBinds(approval, approval.call, call)
    requires proposed.result == Some(CallStatus.Validated) && proposed.kind == ToolProposed
    requires e.result == f.result == Some(CallStatus.AwaitingApproval)
    requires e.kind != ToolStarted && f.kind != ToolStarted
    ensures CallOk(View(call.(status := CallStatus.AwaitingApproval), Some(approval), None, false, 0,
                        [proposed, e, f]))
  {
    HistoryGrows([proposed], e);
    HistoryGrows([proposed] + [e], f);
    assert [proposed] + [e] + [f] == [proposed, e, f];
  }

  /** A newborn call with a sound view and an unused key joins a sound table. */
  lemma SettleNew(db: Db, after: Db, id: CallId)
    requires ToolsOk(db) && Linked(after) && OnlyCall(db, after, id) && id !in db.calls
    requires CallOk(ViewOf(after, id)) && !ViewOf(after, id).running
    requires var call := ViewOf(after, id).call; forall other :: other in db.calls ==>
      !SameKey(db.calls[other], Principal(call.owner, call.device), call.tool, call.key)
    ensures ToolsOk(after) && EvolvesWith(db, after, None, {id})
  {
    hide Moves, CallOk, Linked, ParentDead, KeysUnique, ViewOf, Projects;
    LinkedExecuting(db);
    LinkedExecuting(after);
    Projections(after, id);
    forall other | other in db.calls
      ensures CallOk(ViewOf(after, other)) && Moves(ViewOf(db, other), ViewOf(after, other), false)
      ensures after.calls[other] == db.calls[other] && NoNewOrphan(db, after, other)
    {
      assert ViewOf(after, other) == ViewOf(db, other);
      MovesNot(ViewOf(db, other));
      Projections(db, other);
      Projections(after, other);
    }
    KeysGrow(db.calls, after.calls, id);
  }

  lemma KeysGrow(calls: map<CallId, ToolCall>, after: map<CallId, ToolCall>, id: CallId)
    requires KeysUnique(calls) && after.Keys == calls.Keys + {id} && id !in calls
    requires forall other :: other in calls ==> after[other] == calls[other]
    requires forall other :: other in calls ==>
      !SameKey(calls[other], Principal(after[id].owner, after[id].device), after[id].tool, after[id].key)
    ensures KeysUnique(after)
  {
    forall i, j | i in after && j in after && i != j
      ensures !SameKey(after[i], Principal(after[j].owner, after[j].device), after[j].tool, after[j].key)
    {
      if i == id {
        assert !SameKey(calls[j], Principal(after[id].owner, after[id].device), after[id].tool, after[id].key);
      } else if j != id {
        assert !SameKey(calls[i], Principal(calls[j].owner, calls[j].device), calls[j].tool, calls[j].key);
      }
    }
  }

  ghost predicate KeyUnused(db: Db, p: Principal, tool: string, key: string) {
    forall other :: other in db.calls ==> !SameKey(db.calls[other], p, tool, key)
  }

  /** A request adds one call or none. */
  ghost predicate MayAdd(db: Db, after: Db, id: CallId) {
    Evolves(db, after, None) || (id !in db.calls && EvolvesWith(db, after, None, {id}))
  }

  lemma StageCallKeeps(db: Db, d: Descriptor, p: Principal, r: ToolRequest, w: Surroundings)
    requires ToolsOk(db) && d.name == r.name && d.version == r.version
    requires KeyUnused(db, p, r.name, r.key)
    ensures var after := StageCall(db, d, p, r, w).db; ToolsOk(after) && MayAdd(db, after, w.freshCall)
  {
    hide ToolsOk, Evolves, EvolvesWith, CallOk, Audit, Transition, Permission, Recent, ProposedIn, ApprovalRequiredIn,
      AwaitOwner, NewApproval, Linked, OnlyCall, ViewOf, KeyUnused, SameKey;
    var after := StageCall(db, d, p, r, w).db;
    if after == db {
      EvolvesNot(db, None);
    } else {
      var id := w.freshCall;
      var (decision, reason) := Permission(d, w);
      if decision == RequireApproval {
        StageApproval(db, d, p, r, w);
      } else {
        StagePlain(db, d, p, r, w);
      }
    }
  }

  lemma StagePlain(db: Db, d: Descriptor, p: Principal, r: ToolRequest, w: Surroundings)
    requires ToolsOk(db) && d.name == r.name && w.freshCall !in db.calls
    requires KeyUnused(db, p, r.name, r.key) && Permission(d, w).0 != RequireApproval
    ensures
      var (decision, reason) := Permission(d, w);
      var status := if decision == Deny then CallStatus.Denied else CallStatus.Approved;
      var kind := if decision == Deny then ToolDenied else ToolApproved;
      var auditReason := if decision == Deny then reason else "policy_allow";
      var after := Transition(Decided(db, d, p, r, w), w.freshCall, status, reason, kind, auditReason, w.now, None);
      ToolsOk(after) && EvolvesWith(db, after, None, {w.freshCall})
  {
    hide Evolves, EvolvesWith, CallOk, Audit, Transition, Permission, OnlyCall, ViewOf, Decided, ToolsOk,
      Linked, SameKey;
    OkIsLinked(db);
    var id := w.freshCall;
    var (decision, reason) := Permission(d, w);
    var status := if decision == Deny then CallStatus.Denied else CallStatus.Approved;
    var kind := if decision == Deny then ToolDenied else ToolApproved;
    var auditReason := if decision == Deny then reason else "policy_allow";
    var decided := Decided(db, d, p, r, w);
    var proposed := Entry(id, None, ToolProposed, CallStatus.Validated, "validated", w.now);
    var e := Entry(id, None, kind, status, auditReason, w.now);
    DecidedViews(db, d, p, r, w);
    TransitionViews(decided, id, status, reason, kind, auditReason, w.now, None);
    var after := Transition(decided, id, status, reason, kind, auditReason, w.now, None);
    OnlyCallTransitive(db, decided, after, id);
    ViewHistory(decided, id);
    assert [proposed] + [e] == [proposed, e];
    BirthWithoutApproval(DecidedCall(p, d, r, w), status, proposed, e);
    SettleNew(db, after, id);
  }

  lemma ViewHistory(db: Db, id: CallId)
    requires id in db.calls
    ensures ViewOf(db, id).history == History(db.audit, id) && ViewOf(db, id).call == db.calls[id]
  {}

  lemma StageApproval(db: Db, d: Descriptor, p: Principal, r: ToolRequest, w: Surroundings)
    requires ToolsOk(db) && d.name == r.name && w.freshCall !in db.calls && w.freshApproval !in db.approvals
    requires KeyUnused(db, p, r.name, r.key) && Permission(d, w).0 == RequireApproval
    ensures
      var after := AwaitOwner(Decided(db, d, p, r, w), w.freshCall, w.freshApproval,
        NewApproval(p, d, r.digest, w.freshCall, w.now), Permission(d, w).1, w.now);
      ToolsOk(after) && EvolvesWith(db, after, None, {w.freshCall})
  {
    hide Evolves, EvolvesWith, CallOk, Audit, Transition, Permission, OnlyCall, ViewOf, Decided, ToolsOk,
      Linked, SameKey;
    OkIsLinked(db);
    var id, aid := w.freshCall, w.freshApproval;
    var reason := Permission(d, w).1;
    var decided := Decided(db, d, p, r, w);
    var approval := NewApproval(p, d, r.digest, id, w.now);
    var linked := decided.(approvals := decided.approvals[aid := approval],
                           calls := decided.calls[id := decided.calls[id].(approval := Some(aid))]);
    var awaiting := Transition(linked, id, CallStatus.AwaitingApproval, reason,
                               ToolAwaitingApproval, "owner_approval_required", w.now, Some(aid));
    var after := Audit(awaiting, id, AuditKind.ApprovalRequired, "owner_approval_required", w.now, Some(aid));
    var proposed := Entry(id, None, ToolProposed, CallStatus.Validated, "validated", w.now);
    var e := Entry(id, Some(aid), ToolAwaitingApproval, CallStatus.AwaitingApproval, "owner_approval_required", w.now);
    var f := Entry(id, Some(aid), AuditKind.ApprovalRequired, CallStatus.AwaitingApproval, "owner_approval_required", w.now);
    DecidedViews(db, d, p, r, w);
    LinkViews(decided, id, aid, approval);
    OnlyCallTransitive(db, decided, linked, id);
    TransitionViews(linked, id, CallStatus.AwaitingApproval, reason, ToolAwaitingApproval,
      "owner_approval_required", w.now, Some(aid));
    OnlyCallTransitive(db, linked, awaiting, id);
    AuditViews(awaiting, id, AuditKind.ApprovalRequired, "owner_approval_required", w.now, Some(aid));
    OnlyCallTransitive(db, awaiting, after, id);
    ViewHistory(linked, id);
    ViewHistory(awaiting, id);
    assert [proposed] + [e] + [f] == [proposed, e, f];
    BirthWithApproval(DecidedCall(p, d, r, w).(approval := Some(aid)), approval, proposed, e, f);
    SettleNew(db, after, id);
  }

  lemma RequestKeeps(db: Db, registry: Registry, p: Principal, r: ToolRequest, w: Surroundings)
    requires ToolsOk(db)
    ensures var after := RequestTool(db, registry, p, r, w).db; ToolsOk(after) && MayAdd(db, after, w.freshCall)
  {
    hide ToolsOk, Evolves, EvolvesWith, StageCall, ContextBinding;
    UnboundKeeps(db, "unknown_tool_version", w.now);
    UnboundKeeps(db, "input_schema_invalid", w.now);
    EvolvesNot(db, None);
    if (r.name, r.version) in registry && FindIdempotent(db, p, r.name, r.key).None? {
      StageCallKeeps(db, registry[(r.name, r.version)], p, r, w);
    }
  }

  lemma UnboundKeeps(db: Db, reason: string, now: Time)
    requires ToolsOk(db)
    ensures ToolsOk(UnboundAudit(db, reason, now)) && Evolves(db, UnboundAudit(db, reason, now), None)
  {
    hide CallOk, Moves, KeysUnique;
    var after := UnboundAudit(db, reason, now);
    forall id | id in db.calls
      ensures CallOk(ViewOf(after, id)) && Moves(ViewOf(db, id), ViewOf(after, id), false)
    {
      SelectSnoc(db.audit, AuditEvent(None, None, ToolDenied, None, reason, now), OfCall(id));
      MovesNot(ViewOf(db, id));
      assert ViewOf(after, id) == ViewOf(db, id);
    }
  }
}
