/** What the checks and the bookkeeping of the tool platform mean, in terms of the rows alone: whom a
    context admits, when a parent is alive, which calls share a budget, and what an audit entry and its
    projection into a session say. */
module ToolLaws {
  import opened Prelude
  import opened Store
  import opened ToolAuthority
  import opened ToolInvariants

  // --- devices, runs and conversations ---

  ghost predicate Active(db: Db, device: DeviceId, owner: OwnerId) {
    device in db.devices && db.devices[device].owner == owner && db.devices[device].active
  }

  lemma ReadyIsActive(db: Db, device: DeviceId, owner: OwnerId)
    ensures DeviceReady(db.devices, device, owner) <==> Active(db, device, owner)
  {}

  /** An open conversation of the owner. */
  ghost predicate OpenTo(db: Db, conversation: ConversationId, owner: OwnerId) {
    conversation in db.conversations && db.conversations[conversation].owner == owner
    && db.conversations[conversation].active
  }

  /** A run in an open conversation and an open session of the owner, of the caller's device. */
  ghost predicate OpenRun(db: Db, p: Principal, run: RunId) {
    run in db.runs && OpenTo(db, db.runs[run].conversation, p.owner)
    && db.runs[run].session in db.sessions
    && db.sessions[db.runs[run].session].owner == p.owner && db.sessions[db.runs[run].session].active
    && (db.sessions[db.runs[run].session].device == p.device || db.runs[run].requestDevice == p.device)
  }

  /** The context a request may name: an open run that has not ended, of the conversation named, if any;
      or an open conversation; or nothing. */
  ghost predicate Admits(db: Db, p: Principal, conversation: Option<ConversationId>, run: Option<RunId>) {
    match run
    case Some(id) =>
      OpenRun(db, p, id) && db.runs[id].status in {RunStatus.Queued, RunStatus.Running, RunStatus.CancelRequested}
      && (conversation.Some? ==> db.runs[id].conversation == conversation.value)
    case None => conversation.Some? ==> OpenTo(db, conversation.value, p.owner)
  }

  /** A request's context is accepted if and only if it is such a context. */
  lemma BindingLaw(db: Db, p: Principal, conversation: Option<ConversationId>, run: Option<RunId>)
    ensures ContextBinding(db, p, conversation, run).None? <==> Admits(db, p, conversation, run)
  {
    if run.Some? && run.value in db.runs { StatusesAre(db.runs[run.value].status); }
  }

  lemma StatusesAre(status: RunStatus)
    ensures status in {RunStatus.Queued, RunStatus.Running, RunStatus.CancelRequested, RunStatus.Succeeded,
                       RunStatus.Failed, RunStatus.Cancelled}
  {
    match status { case Queued => case _ => }
  }

  /** The context of a call is still open to its caller. */
  ghost predicate OpenParent(db: Db, p: Principal, call: ToolCall) {
    match call.run
    case Some(id) => OpenRun(db, p, id) && (call.conversation.Some? ==> db.runs[id].conversation == call.conversation.value)
    case None => call.conversation.Some? ==> OpenTo(db, call.conversation.value, p.owner)
  }

  /** A call's parent is alive if and only if its context is open and its run, if any, is queued or
      running; it is dead if and only if the context is open and the run ended or is being cancelled. */
  lemma ParentLaw(db: Db, p: Principal, call: ToolCall)
    ensures RevalidateParent(db, p, call).Live? <==>
      OpenParent(db, p, call)
      && (call.run.Some? ==> db.runs[call.run.value].status in {RunStatus.Queued, RunStatus.Running})
    ensures RevalidateParent(db, p, call).Dead? <==>
      OpenParent(db, p, call) && call.run.Some?
      && db.runs[call.run.value].status in {RunStatus.Succeeded, RunStatus.Failed, RunStatus.Cancelled,
                                            RunStatus.CancelRequested}
  {
    if call.run.Some? && call.run.value in db.runs { StatusesAre(db.runs[call.run.value].status); }
  }

  // --- budgets ---

  /** The owner's calls that share a budget with a request: those of its run, or, without one, those of
      the device that have no run. */
  ghost predicate Shares(call: ToolCall, p: Principal, run: Option<RunId>) {
    call.owner == p.owner && call.run == run && (run.None? ==> call.device == p.device)
  }

  ghost function Sharing(db: Db, p: Principal, run: Option<RunId>): set<CallId> {
    set id | id in db.calls && Shares(db.calls[id], p, run)
  }

  ghost function NeedingOwner(db: Db, p: Principal, run: Option<RunId>): set<CallId> {
    set id | id in Sharing(db, p, run) && db.calls[id].decision == Some(RequireApproval)
  }

  ghost function HoldingSlots(db: Db, p: Principal, run: Option<RunId>): set<CallId> {
    set id | id in Sharing(db, p, run)
             && db.calls[id].status in {CallStatus.Executing, CallStatus.CancelRequested, CallStatus.Succeeded}
  }

  /** The calls of one device and tool created at `since` or later. */
  ghost function Lately(db: Db, device: DeviceId, tool: string, since: Time): set<CallId> {
    set id | id in db.calls && db.calls[id].device == device && db.calls[id].tool == tool
             && since <= db.calls[id].createdAt
  }

  /** Which calls the three budgets and the rate limit count. */
  lemma BudgetLaw(db: Db, p: Principal, run: Option<RunId>, tool: string, since: Time)
    ensures
      var bucket := BucketOf(p.owner, p.device, run);
      ProposedIn(db, bucket) == Sharing(db, p, run) && ApprovalRequiredIn(db, bucket) == NeedingOwner(db, p, run)
      && ExecutedIn(db, bucket) == HoldingSlots(db, p, run)
      && Recent(db, p.device, tool, since) == Lately(db, p.device, tool, since)
  {
    var bucket := BucketOf(p.owner, p.device, run);
    forall id | id in db.calls ensures CallBucket(db.calls[id]) == bucket <==> Shares(db.calls[id], p, run) {}
    hide CallBucket, BucketOf, Shares;
    assert ProposedIn(db, bucket) == Sharing(db, p, run);
    assert ApprovalRequiredIn(db, bucket) == NeedingOwner(db, p, run);
    assert ExecutedIn(db, bucket) == HoldingSlots(db, p, run);
    assert Recent(db, p.device, tool, since) == Lately(db, p.device, tool, since);
  }

  /** The principal already used this key for this tool. */
  ghost predicate Taken(db: Db, p: Principal, tool: string, key: string, id: CallId) {
    id in db.calls && db.calls[id].owner == p.owner && db.calls[id].device == p.device && db.calls[id].tool == tool
    && db.calls[id].key == key
  }

  /** The idempotency lookup finds the call with that key, if there is one. */
  lemma LookupLaw(db: Db, p: Principal, tool: string, key: string)
    requires KeysUnique(db.calls)
    ensures forall id: CallId :: FindIdempotent(db, p, tool, key) == Some(id) <==> Taken(db, p, tool, key, id)
    ensures FindIdempotent(db, p, tool, key).None? <==> forall id: CallId :: !Taken(db, p, tool, key, id)
  {
    hide KeysUnique;
    forall id: CallId | Taken(db, p, tool, key, id) ensures FindIdempotent(db, p, tool, key) == Some(id) {
      TheOnlyMatch(db, p, tool, key, id);
    }
  }

  // --- the audit log and its projection ---

  /** The session of a call's run may see its facts. */
  ghost predicate Visible(db: Db, call: ToolCall) {
    call.run.Some? && call.run.value in db.runs
    && var run := db.runs[call.run.value];
       run.session in db.sessions && db.sessions[run.session].owner == call.owner && db.sessions[run.session].active
       && (db.sessions[run.session].device == call.device || run.requestDevice == call.device)
  }

  /** An event that projects one audit entry of a call. */
  ghost predicate Projects(e: Event, entry: AuditEvent, id: CallId, run: RunId, row: Run) {
    e.session == row.session && e.conversation == row.conversation && e.run == Some(run)
    && entry.result.Some? && e.kind == Tool(entry.kind, id, entry.approval, entry.result.value)
  }

  /** The audit log grew by exactly `entries`, and the session of the call's run, if it may see them, by
      one event for each, in order. */
  ghost predicate Logged(db: Db, after: Db, id: CallId, call: ToolCall, entries: seq<AuditEvent>) {
    after.audit == db.audit + entries
    && if !Visible(db, call) then after.events == db.events
       else
         |after.events| == |db.events| + |entries| && db.events <= after.events
         && forall i :: 0 <= i < |entries| ==>
              Projects(after.events[|db.events| + i], entries[i], id, call.run.value, db.runs[call.run.value])
  }

  /** Rows that decide who sees a call. */
  ghost predicate SameContext(db: Db, after: Db, call: ToolCall, later: ToolCall) {
    after.runs == db.runs && after.sessions == db.sessions
    && later.run == call.run && later.owner == call.owner && later.device == call.device
  }

  lemma LoggedThen(db: Db, mid: Db, after: Db, id: CallId, call: ToolCall, later: ToolCall,
                   first: seq<AuditEvent>, second: seq<AuditEvent>)
    requires Logged(db, mid, id, call, first) && Logged(mid, after, id, later, second)
    requires SameContext(db, mid, call, later)
    ensures Logged(db, after, id, call, first + second)
  {
    assert db.audit + first + second == db.audit + (first + second);
    if Visible(db, call) {
      forall i | 0 <= i < |first + second|
        ensures Projects(after.events[|db.events| + i], (first + second)[i], id, call.run.value, db.runs[call.run.value])
      {
        if i < |first| {
          assert after.events[|db.events| + i] == mid.events[|db.events| + i];
        } else {
          assert after.events[|db.events| + i] == after.events[|mid.events| + (i - |first|)];
        }
      }
    }
  }

  /** One entry with the call's status, projected if the session may see it. */
  lemma AuditLaw(db: Db, id: CallId, kind: AuditKind, reason: string, now: Time, approval: Option<ApprovalId>)
    requires id in db.calls
    ensures Logged(db, Audit(db, id, kind, reason, now, approval), id, db.calls[id],
                   [AuditEvent(Some(id), approval, kind, Some(db.calls[id].status), reason, now)])
  {
    hide MaxSequence;
  }

  /** A change of status is written and audited under the same status. */
  lemma TransitionLaw(
    db: Db, id: CallId, status: CallStatus, reason: string, kind: AuditKind, auditReason: string, now: Time,
    approval: Option<ApprovalId>)
    requires id in db.calls
    ensures Logged(db, Transition(db, id, status, reason, kind, auditReason, now, approval), id, db.calls[id],
                   [AuditEvent(Some(id), approval, kind, Some(status), auditReason, now)])
  {
    var call := db.calls[id].(status := status, reason := reason);
    AuditLaw(db.(calls := db.calls[id := call]), id, kind, auditReason, now, approval);
    hide Audit;
  }
}
