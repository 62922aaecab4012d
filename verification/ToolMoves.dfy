/** The elementary moves of one call's view: each keeps the call's invariant. */
module ToolMoves {
  import opened Prelude
  import opened Store
  import opened ToolAuthority
  import opened ToolViews
  import opened ToolInvariants

  function Entry(id: CallId, approval: Option<ApprovalId>, kind: AuditKind, status: CallStatus,
                 reason: string, now: Time): AuditEvent {
    AuditEvent(Some(id), approval, kind, Some(status), reason, now)
  }

  function Logged(v: View, status: CallStatus, reason: string, e: AuditEvent): View {
    v.(call := v.call.(status := status, reason := reason), history := v.history + [e])
  }

  /** An approval leaves PENDING together with its call: approved, rejected, expired or cancelled. */
  lemma LeavePending(v: View, approval: Approval, status: CallStatus, reason: string, e: AuditEvent)
    requires CallOk(v) && v.approval.Some? && v.approval.value.status == ApprovalStatus.Pending
    requires approval == v.approval.value.(status := approval.status, decidedBy := approval.decidedBy,
                                           decidedAt := approval.decidedAt)
    requires e.result == Some(status) && e.kind != ToolStarted
    requires (approval.status, status) in {
      (ApprovalStatus.Approved, CallStatus.Approved), (ApprovalStatus.Rejected, CallStatus.Rejected),
      (ApprovalStatus.Expired, CallStatus.Expired), (ApprovalStatus.Cancelled, CallStatus.Cancelled)}
    requires status == CallStatus.Approved ==> approval.decidedBy.Some? && e.kind == ApprovalApproved
    ensures var w := Logged(v, status, reason, e).(approval := Some(approval));
      CallOk(w) && Moves(v, w, false) && !w.running
  {
    HistoryGrows(v.history, e);
  }

  /** An approved call that never started is withdrawn, with its approval when it has one. */
  lemma Withdraw(v: View, approval: Option<Approval>, status: CallStatus, reason: string, e: AuditEvent)
    requires CallOk(v) && v.call.status == CallStatus.Approved
    requires v.approval.Some? <==> approval.Some?
    requires approval.Some? ==>
      approval.value == v.approval.value.(status := approval.value.status)
      && approval.value.status in {ApprovalStatus.Expired, ApprovalStatus.Cancelled}
    requires status in {CallStatus.Expired, CallStatus.Cancelled}
    requires e.result == Some(status) && e.kind != ToolStarted
    ensures var w := Logged(v, status, reason, e).(approval := approval);
      CallOk(w) && Moves(v, w, false) && !w.running
  {
    HistoryGrows(v.history, e);
  }

  /** A started call is marked: cancel requested (again), or cancelled because its run is dead. The
      approval may be rewritten to CANCELLED; what it says about consumption stays. */
  lemma Mark(v: View, approval: Option<Approval>, status: CallStatus, reason: string, e: AuditEvent)
    requires CallOk(v)
    requires v.call.status in {CallStatus.Executing, CallStatus.CancelRequested}
    requires approval == v.approval
      || (v.approval.Some? && approval == Some(v.approval.value.(status := ApprovalStatus.Cancelled)))
    requires status in {CallStatus.CancelRequested, CallStatus.Cancelled}
    requires e.result == Some(status) && e.kind != ToolStarted
    ensures var w := Logged(v, status, reason, e).(approval := approval);
      CallOk(w) && Moves(v, w, false)
  {
    HistoryGrows(v.history, e);
  }

  /** Execution authority is consumed. */
  lemma Start(v: View, approval: Option<Approval>, now: Time, e: AuditEvent)
    requires CallOk(v) && v.call.status == CallStatus.Approved
    requires v.approval.Some? <==> approval.Some?
    requires v.approval.Some? ==>
      v.approval.value.status == ApprovalStatus.Approved && now < v.approval.value.expiresAt
      && approval.value == v.approval.value.(status := Consumed, consumedAt := Some(now))
    requires v.call.risk in {Consequential, Critical} ==> v.approval.Some?
    requires e.result == Some(CallStatus.Executing) && e.kind == ToolStarted
    ensures var w := v.(call := v.call.(status := CallStatus.Executing, startedAt := Some(now)),
                        approval := approval, history := v.history + [e], running := true,
                        starts := v.starts + 1);
      CallOk(w) && Moves(v, w, false)
  {
    HistoryGrows(v.history, e);
  }

  /** An outcome is written, by the execution itself or by reconciliation. */
  lemma Conclude(
    v: View, status: ObservationStatus, reason: string, now: Time, e: AuditEvent, finishing: bool)
    requires CallOk(v) && v.observation.None?
    requires if finishing then v.running
             else status == ObservationStatus.Failed
                  && v.call.status in {CallStatus.Executing, CallStatus.CancelRequested}
    requires e.result == Some(StatusOf(status)) && e.kind == OutcomeKind(status)
    ensures var w := v.(call := v.call.(status := StatusOf(status), reason := reason, completedAt := Some(now)),
                        observation := Some(Observation(status, now)), history := v.history + [e],
                        running := v.running && !finishing);
      CallOk(w) && Moves(v, w, finishing) && (w.running ==> w.call.status != CallStatus.Cancelled)
  {
    HistoryGrows(v.history, e);
  }

  /** An execution that is lost, or whose second observation was refused, changes nothing else. */
  lemma Stop(v: View)
    requires CallOk(v)
    ensures CallOk(v.(running := false)) && Moves(v, v.(running := false), true)
      && Moves(v, v.(running := false), false)
  {}
}
