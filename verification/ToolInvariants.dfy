/** The inductive invariant of one call's view, and the only ways a step may change a view.
    Neither `DecideApproval` nor `FinishExecution` checks the call's status; that they never do
    harm is what this invariant shows. */
module ToolInvariants {
  import opened Prelude
  import opened Store
  import opened ToolAuthority
  import opened ToolViews

  // --- the status graph and the audit history as a path in it ---

  ghost predicate Edge(from: CallStatus, to: CallStatus) {
    match from
    case Validated => to in {CallStatus.Denied, CallStatus.AwaitingApproval, CallStatus.Approved}
    case AwaitingApproval => to in {CallStatus.AwaitingApproval, CallStatus.Approved,
      CallStatus.Rejected, CallStatus.Expired, CallStatus.Cancelled}
    case Approved => to in {CallStatus.Executing, CallStatus.Expired, CallStatus.Cancelled}
    case Executing => to in {CallStatus.CancelRequested, CallStatus.Succeeded, CallStatus.Failed,
      CallStatus.Cancelled}
    case CancelRequested => to in {CallStatus.CancelRequested, CallStatus.Succeeded,
      CallStatus.Failed, CallStatus.Cancelled}
    case Cancelled => to in {CallStatus.Succeeded, CallStatus.Failed, CallStatus.Cancelled}
    case _ => false
  }

  ghost predicate LegalHistory(h: seq<AuditEvent>) {
    |h| > 0
    && (forall i :: 0 <= i < |h| ==> h[i].result.Some?)
    && h[0].result.value == CallStatus.Validated
    && forall i :: 0 < i < |h| ==> Edge(h[i - 1].result.value, h[i].result.value)
  }

  ghost predicate Has(h: seq<AuditEvent>, kind: AuditKind) {
    exists i :: 0 <= i < |h| && h[i].kind == kind
  }

  /** Every `tool.started` entry comes after an `approval.approved` entry of the same call. */
  ghost predicate ApprovedBeforeStart(h: seq<AuditEvent>) {
    forall j :: 0 <= j < |h| && h[j].kind == ToolStarted ==> Has(h[..j], ApprovalApproved)
  }

  lemma HistoryGrows(h: seq<AuditEvent>, e: AuditEvent)
    requires LegalHistory(h) && e.result.Some?
    requires Edge(h[|h| - 1].result.value, e.result.value)
    ensures LegalHistory(h + [e])
    ensures forall kind :: Has(h + [e], kind) <==> Has(h, kind) || e.kind == kind
    ensures ApprovedBeforeStart(h) && (e.kind == ToolStarted ==> Has(h, ApprovalApproved))
      ==> ApprovedBeforeStart(h + [e])
  {
    var grown := h + [e];
    forall kind ensures Has(grown, kind) <==> Has(h, kind) || e.kind == kind {
      if Has(h, kind) {
        var i :| 0 <= i < |h| && h[i].kind == kind;
        assert grown[i].kind == kind;
      }
      if e.kind == kind {
        assert grown[|h|].kind == kind;
      }
    }
    forall j | 0 <= j < |grown| && grown[j].kind == ToolStarted
      ensures grown[..j] == if j < |h| then h[..j] else h
    {}
  }

  // --- the invariant of one call ---

  /** A pending approval is exactly a call that awaits one, and a usable approval is exactly an
      approved call that has not started. */
  ghost predicate Synchronised(v: View) {
    (v.approval.Some? <==> v.call.approval.Some?)
    && (v.approval.Some? ==>
      (v.approval.value.status == ApprovalStatus.Pending <==> v.call.status == CallStatus.AwaitingApproval)
      && (v.approval.value.status == ApprovalStatus.Approved <==> v.call.status == CallStatus.Approved))
    && (v.approval.None? ==> v.call.status != CallStatus.AwaitingApproval)
    && v.call.status != CallStatus.Validated && v.call.status != CallStatus.Proposed
  }

  /** The approval names exactly what the call would execute. */
  ghost predicate Bound(v: View) {
    v.approval.Some? ==> ApprovalBinds(v.approval.value, v.approval.value.call, v.call)
  }

  /** One observation at most, and success or failure is exactly an observation saying so. */
  ghost predicate ObservedTruth(v: View) {
    (v.observation.Some? ==> v.call.status == StatusOf(v.observation.value.status))
    && (v.call.status in {CallStatus.Succeeded, CallStatus.Failed} ==> v.observation.Some?)
  }

  /** Where an execution in flight may find its call when it comes back. */
  ghost predicate InFlight(v: View) {
    v.running ==>
      if v.observation.Some? then v.call.status == CallStatus.Failed
      else v.call.status in {CallStatus.Executing, CallStatus.CancelRequested, CallStatus.Cancelled}
  }

  ghost predicate StartedOnce(v: View) {
    v.starts <= 1
    && (v.starts == 1 ==> v.call.status in {CallStatus.Executing, CallStatus.CancelRequested,
         CallStatus.Succeeded, CallStatus.Failed, CallStatus.Cancelled})
    && (v.call.status in {CallStatus.Executing, CallStatus.CancelRequested} ==> v.starts == 1)
    && (v.observation.Some? || v.running ==> v.starts == 1)
    && (v.starts == 1 <==> Has(v.history, ToolStarted))
  }

  /** A start is covered by an owner's decision, consumed before its deadline. */
  ghost predicate Authorised(v: View) {
    (v.approval.Some? ==> ApprovedBeforeStart(v.history))
    && (v.approval.Some? && v.approval.value.status == ApprovalStatus.Approved ==>
      v.approval.value.decidedBy.Some? && Has(v.history, ApprovalApproved))
    && (v.approval.Some? && v.starts == 1 ==>
      v.approval.value.decidedBy.Some? && v.approval.value.consumedAt.Some?
      && v.approval.value.consumedAt.value < v.approval.value.expiresAt)
    && (v.starts == 1 && v.call.risk in {Consequential, Critical} ==> v.approval.Some?)
  }

  ghost predicate Audited(v: View) {
    LegalHistory(v.history)
    && v.history[|v.history| - 1].result == Some(v.call.status)
  }

  ghost predicate CallOk(v: View) {
    Synchronised(v) && Bound(v) && ObservedTruth(v) && InFlight(v) && StartedOnce(v)
    && Authorised(v) && Audited(v)
  }

  ghost predicate KeysUnique(calls: map<CallId, ToolCall>) {
    forall i, j :: i in calls && j in calls && i != j ==>
      !SameKey(calls[i], Principal(calls[j].owner, calls[j].device), calls[j].tool, calls[j].key)
  }

  /** With unique keys the idempotency lookup is a function of the rows. */
  lemma TheOnlyMatch(db: Db, p: Principal, tool: string, key: string, id: CallId)
    requires KeysUnique(db.calls) && id in db.calls && SameKey(db.calls[id], p, tool, key)
    ensures FindIdempotent(db, p, tool, key) == Some(id)
  {
    forall other | other in db.calls && other != id ensures !SameKey(db.calls[other], p, tool, key) {
      assert !SameKey(db.calls[other], Principal(db.calls[id].owner, db.calls[id].device), db.calls[id].tool,
                      db.calls[id].key);
    }
  }

  ghost predicate ToolsOk(db: Db) {
    Linked(db) && KeysUnique(db.calls)
    && forall id :: id in db.calls ==> CallOk(ViewOf(db, id))
  }

  // --- the ways a step may change a view ---

  ghost predicate SameIdentity(before: ToolCall, after: ToolCall) {
    after == before.(status := after.status, reason := after.reason, startedAt := after.startedAt,
                     completedAt := after.completedAt)
  }

  /** A call that holds one of its bucket's execution slots: it runs, it succeeded, or it was
      written off as CANCELLED while its execution is still in flight and may yet succeed. */
  ghost predicate HoldsSlot(v: View) {
    v.call.status in {CallStatus.Executing, CallStatus.CancelRequested, CallStatus.Succeeded}
    || (v.running && v.call.status == CallStatus.Cancelled)
  }

  /** `finishing` says that the step is the finish of this very call's execution. */
  ghost predicate Moves(before: View, after: View, finishing: bool) {
    SameIdentity(before.call, after.call)
    && before.history <= after.history && before.starts <= after.starts
    && (before.call.status in {CallStatus.Denied, CallStatus.Rejected, CallStatus.Expired} ==>
      after.call.status == before.call.status)
    && (before.observation.Some? ==>
      after.observation == before.observation && after.call.status == before.call.status)
    && (before.call.status == CallStatus.Cancelled && after.call.status != CallStatus.Cancelled ==>
      finishing && before.running)
    && (HoldsSlot(after) && after.starts == before.starts ==> HoldsSlot(before))
  }

  ghost predicate ParentDead(db: Db, call: ToolCall) {
    call.run.Some? && call.run.value in db.runs && RunDead(db.runs[call.run.value].status)
  }

  /** An execution in flight loses its call to CANCELLED only when its parent run is dead. */
  ghost predicate NoNewOrphan(db: Db, after: Db, id: CallId)
    requires id in db.calls && id in after.calls
  {
    id in after.executing && after.calls[id].status == CallStatus.Cancelled ==>
      (id in db.executing && db.calls[id].status == CallStatus.Cancelled) || ParentDead(db, db.calls[id])
  }

  /** Only the tool tables differ, the calls `born` are new and not running, and every older call
      made a legal move. */
  ghost predicate EvolvesWith(db: Db, after: Db, finishing: Option<CallId>, born: set<CallId>) {
    after.calls.Keys == db.calls.Keys + born
    && after.executing <= db.calls.Keys
    && after.devices == db.devices && after.conversations == db.conversations
    && after.sessions == db.sessions && after.runs == db.runs
    && after.messages == db.messages && after.generating == db.generating
    && Projects(db.events, after.events, db.runs.Keys)
    && forall id :: id in db.calls ==>
         Moves(ViewOf(db, id), ViewOf(after, id), finishing == Some(id)) && NoNewOrphan(db, after, id)
  }

  ghost predicate Evolves(db: Db, after: Db, finishing: Option<CallId>) {
    EvolvesWith(db, after, finishing, {})
  }

  lemma EvolvesTransitive(db: Db, mid: Db, after: Db)
    requires Evolves(db, mid, None) && Evolves(mid, after, None)
    ensures Evolves(db, after, None)
  {
    hide Moves, ViewOf, Projects;
    ProjectsTransitive(db.events, mid.events, after.events, db.runs.Keys);
    assert after.calls.Keys == mid.calls.Keys == db.calls.Keys;
    forall id | id in db.calls
      ensures Moves(ViewOf(db, id), ViewOf(after, id), false) && NoNewOrphan(db, after, id)
    {
      assert Moves(ViewOf(db, id), ViewOf(mid, id), false);
      SameRun(ViewOf(db, id), ViewOf(mid, id));
      Projections(db, id);
      Projections(mid, id);
      assert NoNewOrphan(db, mid, id) && NoNewOrphan(mid, after, id);
      MovesTransitive(ViewOf(db, id), ViewOf(mid, id), ViewOf(after, id));
    }
  }

  lemma SameRun(before: View, after: View)
    requires Moves(before, after, false)
    ensures after.call.run == before.call.run
  {}

  lemma MovesTransitive(before: View, mid: View, after: View)
    requires Moves(before, mid, false) && Moves(mid, after, false)
    ensures Moves(before, after, false)
  {}

  lemma OkIsLinked(db: Db)
    requires ToolsOk(db)
    ensures Linked(db) && db.executing <= db.calls.Keys
  {
    assert Linked(db) by { hide Linked, CallOk, KeysUnique, ViewOf; }
    hide ToolsOk;
    LinkedExecuting(db);
  }

  lemma EvolvesNot(db: Db, finishing: Option<CallId>)
    requires ToolsOk(db)
    ensures Evolves(db, db, finishing)
  {
    hide ToolsOk, Moves, ParentDead, ViewOf, Projects;
    OkIsLinked(db);
    ProjectsNot(db.events, db.runs.Keys);
    forall id | id in db.calls
      ensures Moves(ViewOf(db, id), ViewOf(db, id), finishing == Some(id))
    {
      MovesNot(ViewOf(db, id));
    }
  }

  lemma IdentityKeepsKeys(calls: map<CallId, ToolCall>, after: map<CallId, ToolCall>)
    requires KeysUnique(calls) && after.Keys == calls.Keys
    requires forall id :: id in calls ==> SameIdentity(calls[id], after[id])
    ensures KeysUnique(after)
  {
    forall i, j | i in after && j in after && i != j
      ensures !SameKey(after[i], Principal(after[j].owner, after[j].device), after[j].tool, after[j].key)
    {
      assert !SameKey(calls[i], Principal(calls[j].owner, calls[j].device), calls[j].tool, calls[j].key);
    }
  }

  lemma MoveKeepsIdentity(before: View, after: View, finishing: bool)
    requires Moves(before, after, finishing)
    ensures SameIdentity(before.call, after.call)
  {}

  /** A step that only touches one call needs to be checked on that call's view alone. */
  lemma Settle(db: Db, after: Db, id: CallId, finishing: Option<CallId>)
    requires ToolsOk(db) && Linked(after) && OnlyCall(db, after, id) && id in db.calls
    requires CallOk(ViewOf(after, id))
    requires Moves(ViewOf(db, id), ViewOf(after, id), finishing == Some(id))
    requires ViewOf(after, id).running && ViewOf(after, id).call.status == CallStatus.Cancelled ==>
      ParentDead(db, db.calls[id])
    ensures ToolsOk(after) && Evolves(db, after, finishing)
  {
    hide Moves, CallOk, SameIdentity, KeysUnique, Linked, ParentDead, ViewOf, Projects;
    LinkedExecuting(after);
    forall other | other in db.calls
      ensures CallOk(ViewOf(after, other))
      ensures Moves(ViewOf(db, other), ViewOf(after, other), finishing == Some(other))
      ensures NoNewOrphan(db, after, other)
    {
      if other != id {
        assert ViewOf(after, other) == ViewOf(db, other);
        MovesNot(ViewOf(db, other));
      }
      Projections(db, other);
      Projections(after, other);
    }
    forall other | other in db.calls ensures SameIdentity(db.calls[other], after.calls[other]) {
      Projections(db, other);
      Projections(after, other);
      MoveKeepsIdentity(ViewOf(db, other), ViewOf(after, other), finishing == Some(other));
    }
    IdentityKeepsKeys(db.calls, after.calls);
  }

  lemma LinkedExecuting(db: Db)
    requires Linked(db)
    ensures db.executing <= db.calls.Keys
  {}

  lemma Projections(db: Db, id: CallId)
    requires id in db.calls
    ensures ViewOf(db, id).call == db.calls[id] && (ViewOf(db, id).running <==> id in db.executing)
  {}

  lemma MovesNot(v: View)
    ensures Moves(v, v, false)
    ensures Moves(v, v, true)
  {}
}
