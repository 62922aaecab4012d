/** Everything the platform knows about one call, gathered from the tables, and what the
    elementary row writes do to it. Each write touches the view of one call only. */
module ToolViews {
  import opened Prelude
  import opened Store
  import opened ToolAuthority

  function OfCall(id: CallId): AuditEvent -> bool {
    (e: AuditEvent) => e.call == Some(id)
  }

  function History(audit: seq<AuditEvent>, id: CallId): seq<AuditEvent> {
    Select(audit, OfCall(id))
  }

  datatype View = View(
    call: ToolCall, approval: Option<Approval>, observation: Option<Observation>,
    running: bool, starts: nat, history: seq<AuditEvent>)

  ghost function ViewOf(db: Db, id: CallId): View
    requires id in db.calls
  {
    var call := db.calls[id];
    View(call,
         if call.approval.Some? && call.approval.value in db.approvals
         then Some(db.approvals[call.approval.value]) else None,
         if id in db.observations then Some(db.observations[id]) else None,
         id in db.executing, multiset(db.starts)[id], History(db.audit, id))
  }

  /** Approvals and calls point at each other. */
  ghost predicate ApprovalsLinked(calls: map<CallId, ToolCall>, approvals: map<ApprovalId, Approval>) {
    (forall id :: id in calls && calls[id].approval.Some? ==>
      calls[id].approval.value in approvals && approvals[calls[id].approval.value].call == id)
    && (forall aid :: aid in approvals ==>
      approvals[aid].call in calls && calls[approvals[aid].call].approval == Some(aid))
  }

  /** Every dependent row belongs to a stored call. */
  ghost predicate RowsLinked(
    calls: set<CallId>, observed: set<CallId>, executing: set<CallId>, starts: seq<CallId>,
    audit: seq<AuditEvent>)
  {
    observed <= calls && executing <= calls
    && (forall id :: id in starts ==> id in calls)
    && (forall e :: e in audit && e.call.Some? ==> e.call.value in calls)
  }

  ghost predicate Linked(db: Db) {
    ApprovalsLinked(db.calls, db.approvals)
    && RowsLinked(db.calls.Keys, db.observations.Keys, db.executing, db.starts, db.audit)
  }

  /** The event streams only gained projections of tool facts, each in a run's session, and are
      numbered without gaps if they were before. */
  ghost predicate Projects(events: seq<Event>, after: seq<Event>, runs: set<RunId>) {
    events <= after
    && (forall i :: |events| <= i < |after| ==>
      after[i].kind.Tool? && after[i].run.Some? && after[i].run.value in runs)
    && (Gapless(events) ==> Gapless(after))
  }

  lemma ProjectsTransitive(events: seq<Event>, mid: seq<Event>, after: seq<Event>, runs: set<RunId>)
    requires Projects(events, mid, runs) && Projects(mid, after, runs)
    ensures Projects(events, after, runs)
  {
    hide Gapless;
  }

  lemma ProjectsNot(events: seq<Event>, runs: set<RunId>)
    ensures Projects(events, events, runs)
  {}

  lemma EmitProjects(db: Db, id: CallId, kind: AuditKind, approval: Option<ApprovalId>)
    requires id in db.calls
    ensures Projects(db.events, EmitLifecycle(db, id, kind, approval).events, db.runs.Keys)
  {
    var call := db.calls[id];
    if EmitLifecycle(db, id, kind, approval).events != db.events {
      if Gapless(db.events) {
        var run := db.runs[call.run.value];
        AppendKeepsGapless(db.events, run.session, run.conversation, call.run,
                           Tool(kind, id, approval, call.status));
      }
    }
  }

  /** Only the tables of the tool platform differ, no call disappears, and every call except
      `id` keeps its view. */
  ghost predicate OnlyCall(db: Db, after: Db, id: CallId) {
    after.calls.Keys == db.calls.Keys + {id}
    && after.devices == db.devices && after.conversations == db.conversations
    && after.sessions == db.sessions && after.runs == db.runs
    && after.messages == db.messages && after.generating == db.generating
    && Projects(db.events, after.events, db.runs.Keys)
    && forall other :: other in db.calls && other != id ==> ViewOf(after, other) == ViewOf(db, other)
  }

  lemma AuditViews(
    db: Db, id: CallId, kind: AuditKind, reason: string, now: Time, approval: Option<ApprovalId>)
    requires id in db.calls && Linked(db)
    ensures var after := Audit(db, id, kind, reason, now, approval);
      Linked(after) && OnlyCall(db, after, id)
      && ViewOf(after, id) == ViewOf(db, id).(
        history := History(db.audit, id)
          + [AuditEvent(Some(id), approval, kind, Some(db.calls[id].status), reason, now)])
  {
    var entry := AuditEvent(Some(id), approval, kind, Some(db.calls[id].status), reason, now);
    var after := Audit(db, id, kind, reason, now, approval);
    assert after.audit == db.audit + [entry];
    EmitProjects(db.(audit := db.audit + [entry]), id, kind, approval);
    hide Projects, EmitLifecycle;
    forall other ensures History(after.audit, other)
        == History(db.audit, other) + if other == id then [entry] else []
    {
      SelectSnoc(db.audit, entry, OfCall(other));
    }
  }

  lemma RewriteKeepsLinks(
    calls: map<CallId, ToolCall>, approvals: map<ApprovalId, Approval>, id: CallId, call: ToolCall)
    requires ApprovalsLinked(calls, approvals) && id in calls && call.approval == calls[id].approval
    ensures ApprovalsLinked(calls[id := call], approvals)
  {}

  /** The view of a call depends on its own rows only. */
  lemma RewriteKeepsViews(db: Db, after: Db, id: CallId, call: ToolCall)
    requires id in db.calls && call.approval == db.calls[id].approval
    requires after == db.(calls := db.calls[id := call])
    ensures ViewOf(after, id) == ViewOf(db, id).(call := call)
    ensures forall other :: other in db.calls && other != id ==> ViewOf(after, other) == ViewOf(db, other)
  {
    hide History;
  }

  /** Rewriting a call row, without relinking it, changes the view of that call only. */
  lemma CallViews(db: Db, id: CallId, call: ToolCall)
    requires id in db.calls && Linked(db) && call.approval == db.calls[id].approval
    ensures var after := db.(calls := db.calls[id := call]);
      Linked(after) && OnlyCall(db, after, id) && ViewOf(after, id) == ViewOf(db, id).(call := call)
  {
    hide Projects, ViewOf, ApprovalsLinked, RowsLinked;
    ProjectsNot(db.events, db.runs.Keys);
    var after := db.(calls := db.calls[id := call]);
    assert after.calls.Keys == db.calls.Keys;
    RewriteKeepsLinks(db.calls, db.approvals, id, call);
    RewriteKeepsViews(db, after, id, call);
  }

  lemma TransitionViews(
    db: Db, id: CallId, status: CallStatus, reason: string, kind: AuditKind, auditReason: string,
    now: Time, approval: Option<ApprovalId>)
    requires id in db.calls && Linked(db)
    ensures var after := Transition(db, id, status, reason, kind, auditReason, now, approval);
      Linked(after) && OnlyCall(db, after, id)
      && ViewOf(after, id) == ViewOf(db, id).(
        call := db.calls[id].(status := status, reason := reason),
        history := History(db.audit, id)
          + [AuditEvent(Some(id), approval, kind, Some(status), auditReason, now)])
  {
    var call := db.calls[id].(status := status, reason := reason);
    var moved := db.(calls := db.calls[id := call]);
    CallViews(db, id, call);
    AuditViews(moved, id, kind, auditReason, now, approval);
    OnlyCallTransitive(db, moved, Audit(moved, id, kind, auditReason, now, approval), id);
  }

  lemma ApprovalKeepsLinks(
    calls: map<CallId, ToolCall>, approvals: map<ApprovalId, Approval>, aid: ApprovalId, approval: Approval)
    requires ApprovalsLinked(calls, approvals) && aid in approvals && approval.call == approvals[aid].call
    ensures ApprovalsLinked(calls, approvals[aid := approval])
    ensures approval.call in calls
    ensures forall id :: id in calls ==> (calls[id].approval == Some(aid) <==> id == approval.call)
  {}

  /** Rewriting an approval row changes the view of its own call and of no other. */
  lemma ApprovalViews(db: Db, aid: ApprovalId, approval: Approval)
    requires Linked(db) && aid in db.approvals && approval.call == db.approvals[aid].call
    ensures var after := db.(approvals := db.approvals[aid := approval]);
      Linked(after) && OnlyCall(db, after, approval.call)
      && ViewOf(after, approval.call) == ViewOf(db, approval.call).(approval := Some(approval))
  {
    ProjectsNot(db.events, db.runs.Keys);
    ApprovalKeepsLinks(db.calls, db.approvals, aid, approval);
    hide Projects, History, ApprovalsLinked, RowsLinked;
  }

  lemma ObservationViews(db: Db, id: CallId, observation: Observation)
    requires id in db.calls && Linked(db)
    ensures var after := db.(observations := db.observations[id := observation]);
      Linked(after) && OnlyCall(db, after, id)
      && ViewOf(after, id) == ViewOf(db, id).(observation := Some(observation))
  {}

  lemma ObserveViews(
    db: Db, id: CallId, status: ObservationStatus, callReason: string, auditReason: string, now: Time)
    requires id in db.calls && Linked(db)
    ensures var after := Observe(db, id, status, callReason, auditReason, now);
      Linked(after) && OnlyCall(db, after, id)
      && ViewOf(after, id) == ViewOf(db, id).(
        call := db.calls[id].(status := StatusOf(status), reason := callReason, completedAt := Some(now)),
        observation := Some(Observation(status, now)),
        history := History(db.audit, id)
          + [AuditEvent(Some(id), None, OutcomeKind(status), Some(StatusOf(status)), auditReason, now)])
  {
    var call := db.calls[id].(status := StatusOf(status), reason := callReason, completedAt := Some(now));
    var rewritten := db.(calls := db.calls[id := call]);
    var observed := rewritten.(observations := rewritten.observations[id := Observation(status, now)]);
    CallViews(db, id, call);
    ObservationViews(rewritten, id, Observation(status, now));
    OnlyCallTransitive(db, rewritten, observed, id);
    AuditViews(observed, id, OutcomeKind(status), auditReason, now, None);
    OnlyCallTransitive(db, observed, Audit(observed, id, OutcomeKind(status), auditReason, now, None), id);
  }

  lemma OnlyCallTransitive(db: Db, mid: Db, after: Db, id: CallId)
    requires OnlyCall(db, mid, id) && OnlyCall(mid, after, id)
    ensures OnlyCall(db, after, id)
  {
    ProjectsTransitive(db.events, mid.events, after.events, db.runs.Keys);
    hide Projects;
    forall other | other in db.calls && other != id
      ensures ViewOf(after, other) == ViewOf(db, other)
    {
      assert other in mid.calls;
    }
  }
}
