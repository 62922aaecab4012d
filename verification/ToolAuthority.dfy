/** What each transaction of the tool platform commits, as a function of the committed rows.
    Authority that lives in other tables (owner, credential, scopes, capabilities, satellite
    availability) is an input of the step, so it may change between any two steps. */
module ToolAuthority {
  import opened Prelude
  import opened Store

  const MAX_PROPOSALS := 4
  const MAX_EXECUTIONS := 3
  const MAX_APPROVALS := 2

  datatype Descriptor = Descriptor(
    name: string, version: nat, risk: Risk, exactOwner: bool, enabled: bool,
    sandboxForbidden: bool, maxRequests: nat, windowSeconds: nat)

  /** Exact name/version lookup: every entry is filed under its own name and version. */
  type Registry = r: map<(string, nat), Descriptor>
    | forall k :: k in r ==> (r[k].name, r[k].version) == k
    witness map[]

  datatype ToolRequest = ToolRequest(
    name: string, version: nat, argumentsValid: bool, digest: Digest, key: string,
    conversation: Option<ConversationId>, run: Option<RunId>)

  /** Facts a request reads from its surroundings: the clock, the authority tables, the fresh
      ids, and whether pending column writes are visible to the approval count. */
  datatype Surroundings = Surroundings(
    now: Time, authorized: bool, scopesHeld: bool, capabilitiesHeld: bool, available: bool,
    freshCall: CallId, freshApproval: ApprovalId, decisionFlushed: bool)

  datatype Reply = Replied(call: CallId, replayed: bool)

  datatype Execution =
    | Started
    | Replayed(observation: Observation)

  /** What `executor.execute` came back with, after the output was checked against its schema. */
  datatype RawOutcome =
    | Raised
    | Returned(status: ObservationStatus, outputValid: bool, verified: bool)

  // --- audit and event projection ---

  function EmitLifecycle(db: Db, id: CallId, kind: AuditKind, approval: Option<ApprovalId>): (r: Db)
    requires id in db.calls
    ensures r == db.(events := r.events)
  {
    var call := db.calls[id];
    if call.run.None? || call.run.value !in db.runs then db
    else
      var run := db.runs[call.run.value];
      if run.session !in db.sessions || db.sessions[run.session].owner != call.owner then db
      else
        var session := db.sessions[run.session];
        if !session.active then db
        else if session.device != call.device && run.requestDevice != call.device then db
        else
          db.(events := AppendEvent(db.events, run.session, run.conversation, call.run,
                                    Tool(kind, id, approval, call.status)))
  }

  function Audit(
    db: Db, id: CallId, kind: AuditKind, reason: string, now: Time, approval: Option<ApprovalId>)
    : (r: Db)
    requires id in db.calls
    ensures r == db.(audit := r.audit, events := r.events)
  {
    var entry := AuditEvent(Some(id), approval, kind, Some(db.calls[id].status), reason, now);
    EmitLifecycle(db.(audit := db.audit + [entry]), id, kind, approval)
  }

  /** Move one call to `status` and audit it. */
  function Transition(
    db: Db, id: CallId, status: CallStatus, reason: string, kind: AuditKind, auditReason: string,
    now: Time, approval: Option<ApprovalId>): (r: Db)
    requires id in db.calls
    ensures r == db.(calls := r.calls, audit := r.audit, events := r.events)
    ensures r.calls == db.calls[id := db.calls[id].(status := status, reason := reason)]
  {
    Audit(db.(calls := db.calls[id := db.calls[id].(status := status, reason := reason)]),
          id, kind, auditReason, now, approval)
  }

  function SetApproval(db: Db, id: ApprovalId, status: ApprovalStatus): (r: Db)
    requires id in db.approvals
    ensures r == db.(approvals := r.approvals)
  {
    db.(approvals := db.approvals[id := db.approvals[id].(status := status)])
  }

  function UnboundAudit(db: Db, reason: string, now: Time): Db {
    db.(audit := db.audit + [AuditEvent(None, None, ToolDenied, None, reason, now)])
  }

  // --- context checks ---

  function ContextBinding(
    db: Db, p: Principal, conversation: Option<ConversationId>, run: Option<RunId>)
    : Option<string>
  {
    if run.Some? then
      if run.value !in db.runs then Some("run_binding_invalid")
      else
        var row := db.runs[run.value];
        if row.conversation !in db.conversations
           || db.conversations[row.conversation].owner != p.owner then
          Some("tool_call_not_available")
        else if row.session !in db.sessions || db.sessions[row.session].owner != p.owner then
          Some("tool_call_not_available")
        else if db.sessions[row.session].device != p.device && row.requestDevice != p.device then
          Some("device_session_mismatch")
        else if !db.sessions[row.session].active then Some("session_closed")
        else if !db.conversations[row.conversation].active then Some("conversation_inactive")
        else if conversation.Some? && conversation.value != row.conversation then
          Some("conversation_run_mismatch")
        else if row.status in {RunStatus.Succeeded, RunStatus.Failed, RunStatus.Cancelled} then
          Some("run_terminal")
        else None
    else if conversation.Some? then
      if conversation.value !in db.conversations
         || db.conversations[conversation.value].owner != p.owner then
        Some("tool_call_not_available")
      else if !db.conversations[conversation.value].active then Some("conversation_inactive")
      else None
    else None
  }

  datatype Parent = Live | Dead | Refused(error: string)

  function RevalidateParent(db: Db, p: Principal, call: ToolCall): Parent {
    if call.run.Some? then
      if call.run.value !in db.runs then Refused("parent_run_not_available")
      else
        var run := db.runs[call.run.value];
        if run.session !in db.sessions || db.sessions[run.session].owner != p.owner
           || (db.sessions[run.session].device != p.device && run.requestDevice != p.device)
           || !db.sessions[run.session].active then
          Refused("session_not_available")
        else if run.conversation !in db.conversations
                || db.conversations[run.conversation] != Conversation(p.owner, true) then
          Refused("conversation_not_available")
        else if call.conversation.Some? && run.conversation != call.conversation.value then
          Refused("conversation_run_mismatch")
        else if RunDead(run.status) then Dead
        else Live
    else if call.conversation.Some? then
      if call.conversation.value !in db.conversations
         || db.conversations[call.conversation.value] != Conversation(p.owner, true) then
        Refused("conversation_not_available")
      else Live
    else Live
  }

  function CancelByParent(db: Db, id: CallId, now: Time): Db
    requires id in db.calls
  {
    Transition(db, id, CallStatus.Cancelled, "parent_run_cancelled", ToolCancelled,
               "parent_run_cancelled", now, None)
  }

  // --- budgets ---

  /** Calls of one run share a budget; calls without a run share one per device. */
  datatype Bucket = RunBucket(owner: OwnerId, run: RunId) | DeviceBucket(owner: OwnerId, device: DeviceId)

  function BucketOf(owner: OwnerId, device: DeviceId, run: Option<RunId>): Bucket {
    if run.Some? then RunBucket(owner, run.value) else DeviceBucket(owner, device)
  }

  function CallBucket(call: ToolCall): Bucket {
    BucketOf(call.owner, call.device, call.run)
  }

  function ProposedIn(db: Db, bucket: Bucket): set<CallId> {
    set id | id in db.calls && CallBucket(db.calls[id]) == bucket
  }

  function ApprovalRequiredIn(db: Db, bucket: Bucket): set<CallId> {
    set id | id in db.calls && CallBucket(db.calls[id]) == bucket
             && db.calls[id].decision == Some(RequireApproval)
  }

  function ExecutedIn(db: Db, bucket: Bucket): set<CallId> {
    set id | id in db.calls && CallBucket(db.calls[id]) == bucket
             && db.calls[id].status in
                {CallStatus.Executing, CallStatus.CancelRequested, CallStatus.Succeeded}
  }

  function Recent(db: Db, device: DeviceId, tool: string, since: Time): set<CallId> {
    set id | id in db.calls && db.calls[id].device == device && db.calls[id].tool == tool
             && db.calls[id].createdAt >= since
  }

  // --- request ---

  predicate SameKey(call: ToolCall, p: Principal, tool: string, key: string) {
    call.owner == p.owner && call.device == p.device && call.tool == tool && call.key == key
  }

  ghost function FindIdempotent(db: Db, p: Principal, tool: string, key: string): Option<CallId> {
    if id :| id in db.calls && SameKey(db.calls[id], p, tool, key) then Some(id) else None
  }

  function Permission(d: Descriptor, w: Surroundings): (Decision, string) {
    if !d.enabled then (Deny, "tool_disabled")
    else if !w.scopesHeld then (Deny, "scope_missing")
    else if !w.capabilitiesHeld then (Deny, "capability_missing")
    else if !w.available then (Deny, "availability")
    else if d.risk == ForbiddenAutonomous || d.sandboxForbidden then (Deny, "forbidden_autonomous")
    else if d.risk in {Consequential, Critical} then
      if !d.exactOwner then (Deny, "invalid_risk_approval_policy")
      else (RequireApproval, "owner_approval_required")
    else if d.exactOwner then (RequireApproval, "owner_approval_required")
    else (Allow, "policy_allow")
  }

  function NewCall(p: Principal, d: Descriptor, r: ToolRequest, now: Time): ToolCall {
    ToolCall(p.owner, p.device, r.conversation, r.run, d.name, d.version, d.risk,
             CallStatus.Validated, r.digest, r.key, POLICY_VERSION, None, "", None, now, None, None)
  }

  function NewApproval(p: Principal, d: Descriptor, digest: Digest, id: CallId, now: Time): Approval {
    Approval(id, p.owner, p.device, d.name, d.version, d.risk, digest, POLICY_VERSION,
             ApprovalStatus.Pending, now + 60 * (if d.risk == Critical then 3 else 10),
             None, None, None)
  }

  function DecidedCall(p: Principal, d: Descriptor, r: ToolRequest, w: Surroundings): ToolCall {
    NewCall(p, d, r, w.now).(decision := Some(Permission(d, w).0), reason := Permission(d, w).1)
  }

  /** The rows after a call was inserted, its proposal audited and its decision written. */
  function Decided(db: Db, d: Descriptor, p: Principal, r: ToolRequest, w: Surroundings): (after: Db)
    ensures after == db.(calls := db.calls[w.freshCall := DecidedCall(p, d, r, w)],
                         audit := after.audit, events := after.events)
  {
    var id := w.freshCall;
    var staged := Audit(db.(calls := db.calls[id := NewCall(p, d, r, w.now)]),
                        id, ToolProposed, "validated", w.now, None);
    var decided := staged.(calls := staged.calls[id := staged.calls[id].(
      decision := Some(Permission(d, w).0), reason := Permission(d, w).1)]);
    assert decided.calls == db.calls[id := DecidedCall(p, d, r, w)];
    decided
  }

  /** The row a request stages, whatever was decided. */
  function StagedCall(d: Descriptor, p: Principal, r: ToolRequest, w: Surroundings): ToolCall {
    var born := DecidedCall(p, d, r, w);
    match Permission(d, w).0
    case Deny => born.(status := CallStatus.Denied)
    case Allow => born.(status := CallStatus.Approved)
    case RequireApproval =>
      born.(approval := Some(w.freshApproval), status := CallStatus.AwaitingApproval)
  }

  /** Insert a call's approval, link it and let the call wait for the owner. */
  function AwaitOwner(
    db: Db, id: CallId, aid: ApprovalId, approval: Approval, reason: string, now: Time): (after: Db)
    requires id in db.calls
    ensures after == db.(approvals := db.approvals[aid := approval], calls := after.calls,
                         audit := after.audit, events := after.events)
    ensures after.calls == db.calls[id := db.calls[id].(
      approval := Some(aid), status := CallStatus.AwaitingApproval, reason := reason)]
  {
    var linked := db.(approvals := db.approvals[aid := approval],
                      calls := db.calls[id := db.calls[id].(approval := Some(aid))]);
    var awaiting := Transition(linked, id, CallStatus.AwaitingApproval, reason, ToolAwaitingApproval,
                               "owner_approval_required", now, Some(aid));
    Audit(awaiting, id, AuditKind.ApprovalRequired, "owner_approval_required", now, Some(aid))
  }

  ghost function RequestTool(
    db: Db, registry: Registry, p: Principal, r: ToolRequest, w: Surroundings): Txn<Reply>
  {
    if (r.name, r.version) !in registry then
      Txn(UnboundAudit(db, "unknown_tool_version", w.now), Err("unknown_tool_version"))
    else if !r.argumentsValid then
      Txn(UnboundAudit(db, "input_schema_invalid", w.now), Err("input_schema_invalid"))
    else if !w.authorized then Txn(db, Err("authority_missing"))
    else if !DeviceReady(db.devices, p.device, p.owner) then Txn(db, Err("device_not_available"))
    else
      var binding := ContextBinding(db, p, r.conversation, r.run);
      if binding.Some? then Txn(db, Err(binding.value))
      else
        var existing := FindIdempotent(db, p, r.name, r.key);
        if existing.Some? then Txn(db, ReplayReply(db, existing.value, r))
        else StageCall(db, registry[(r.name, r.version)], p, r, w)
  }

  function ReplayReply(db: Db, id: CallId, r: ToolRequest): Result<Reply>
    requires id in db.calls
  {
    var call := db.calls[id];
    if call.digest != r.digest || call.version != r.version then
      Err("idempotency_argument_mismatch")
    else if call.conversation != r.conversation || call.run != r.run then
      Err("idempotency_context_mismatch")
    else Ok(Replied(id, true))
  }

  /** Admit a new call: it either commits the staged row and nothing else of the tables below, or
      leaves every row alone. */
  function StageCall(db: Db, d: Descriptor, p: Principal, r: ToolRequest, w: Surroundings)
    : (staged: Txn<Reply>)
    ensures staged.db == db.(calls := staged.db.calls, approvals := staged.db.approvals,
                             audit := staged.db.audit, events := staged.db.events)
    ensures staged.result.Err? ==> staged.db == db
    ensures staged.result.Ok? ==> staged.db.calls == db.calls[w.freshCall := StagedCall(d, p, r, w)]
  {
    var bucket := BucketOf(p.owner, p.device, r.run);
    if |Recent(db, p.device, d.name, w.now - d.windowSeconds)| >= d.maxRequests then
      Txn(db, Err("rate_limit_exhausted"))
    else if |ProposedIn(db, bucket)| >= MAX_PROPOSALS then Txn(db, Err("proposal_budget_exhausted"))
    else if w.freshCall in db.calls then Txn(db, Err("idempotency_race_conflict"))
    else
      var id := w.freshCall;
      var (decision, reason) := Permission(d, w);
      var decided := Decided(db, d, p, r, w);
      match decision
      case Deny =>
        Txn(Transition(decided, id, CallStatus.Denied, reason, ToolDenied, reason, w.now, None),
             Ok(Replied(id, false)))
      case Allow =>
        Txn(Transition(decided, id, CallStatus.Approved, reason, ToolApproved, "policy_allow", w.now, None),
             Ok(Replied(id, false)))
      case RequireApproval =>
        var counted := |ApprovalRequiredIn(db, bucket)| + (if w.decisionFlushed then 1 else 0);
        if counted > MAX_APPROVALS then Txn(db, Err("approval_budget_exhausted"))
        else if w.freshApproval in db.approvals then Txn(db, Err("idempotency_race_conflict"))
        else
          Txn(AwaitOwner(decided, id, w.freshApproval, NewApproval(p, d, r.digest, id, w.now), reason, w.now),
               Ok(Replied(id, false)))
  }

  // --- decide ---

  function DecideApproval(
    db: Db, p: Principal, authorized: bool, aid: ApprovalId, approve: bool, now: Time): Txn<Approval>
  {
    if !authorized then Txn(db, Err("authority_missing"))
    else if aid !in db.approvals || db.approvals[aid].owner != p.owner then
      Txn(db, Err("approval_not_available"))
    else
      var approval := db.approvals[aid];
      var id := approval.call;
      var device := if id in db.calls then db.calls[id].device else p.device;
      if !DeviceReady(db.devices, device, p.owner) then Txn(db, Err("device_not_available"))
      else if id !in db.calls || db.calls[id].owner != p.owner then
        Txn(db, Err("approval_binding_invalid"))
      else if approval.status != ApprovalStatus.Pending then Txn(db, Err("approval_not_pending"))
      else DecidePending(db, p, aid, approve, now)
  }

  /** Decide an approval that was found PENDING, its rows locked. The call's status is never read. */
  function DecidePending(db: Db, p: Principal, aid: ApprovalId, approve: bool, now: Time): Txn<Approval>
    requires aid in db.approvals && db.approvals[aid].call in db.calls
  {
    var approval := db.approvals[aid];
    var id := approval.call;
    match RevalidateParent(db, p, db.calls[id])
    case Refused(error) => Txn(db, Err(error))
    case Dead =>
      Txn(SetApproval(CancelByParent(db, id, now), aid, ApprovalStatus.Cancelled),
           Err("parent_run_cancelled"))
    case Live =>
      if approval.expiresAt <= now then
        Txn(Transition(SetApproval(db, aid, ApprovalStatus.Expired), id, CallStatus.Expired,
                        "approval_expired", ApprovalExpired, "approval_expired", now, Some(aid)),
             Err("approval_expired"))
      else
        var decided := approval.(
          status := if approve then ApprovalStatus.Approved else ApprovalStatus.Rejected,
          decidedBy := Some(p.device), decidedAt := Some(now));
        var marked := db.(approvals := db.approvals[aid := decided]);
        var settled :=
          if approve then
            Transition(marked, id, CallStatus.Approved, "owner_approved", ApprovalApproved,
                       "owner_approved", now, Some(aid))
          else
            Transition(marked, id, CallStatus.Rejected, "owner_rejected", ApprovalRejected,
                       "owner_rejected", now, Some(aid));
        Txn(settled, Ok(decided))
  }

  // --- execute: the first transaction consumes authority, the second records the outcome ---

  predicate CallFinal(status: CallStatus) {
    status in {CallStatus.Succeeded, CallStatus.Failed, CallStatus.Cancelled,
               CallStatus.Rejected, CallStatus.Denied, CallStatus.Expired}
  }

  predicate ApprovalBinds(approval: Approval, id: CallId, call: ToolCall) {
    approval.call == id && approval.owner == call.owner && approval.requestingDevice == call.device
    && approval.tool == call.tool && approval.version == call.version && approval.risk == call.risk
    && approval.digest == call.digest && approval.policy == call.policy
  }

  predicate NeedsApproval(d: Descriptor) {
    d.risk in {Consequential, Critical} || d.exactOwner
  }

  /** Everything the execute transaction refuses before it looks at the approval itself. */
  function ExecutionRefusal(
    call: ToolCall, registry: Registry, parentDead: bool, arguments: Option<Option<Digest>>,
    w: Surroundings): Option<string>
  {
    if (call.tool, call.version) !in registry then Some("unknown_tool_version")
    else
      var d := registry[(call.tool, call.version)];
      if call.risk != d.risk then Some("descriptor_binding_mismatch")
      else if call.policy != POLICY_VERSION then Some("policy_version_mismatch")
      else if NeedsApproval(d) && call.approval.None? then Some("approval_required_by_current_policy")
      else if arguments == Some(None) then Some("input_schema_invalid")
      else if arguments.Some? && arguments.value.value != call.digest then
        Some("argument_binding_mismatch")
      else if !parentDead && call.status != CallStatus.Approved then Some("execution_not_approved")
      else if !w.authorized then Some("authority_missing")
      else if !d.enabled then Some("tool_disabled")
      else if d.risk == ForbiddenAutonomous || d.sandboxForbidden then Some("forbidden_autonomous")
      else if !w.available then Some("availability")
      else None
  }

  function BeginExecution(
    db: Db, registry: Registry, p: Principal, id: CallId, arguments: Option<Option<Digest>>,
    w: Surroundings): Txn<Execution>
  {
    if id !in db.calls || db.calls[id].owner != p.owner || db.calls[id].device != p.device then
      Txn(db, Err("tool_call_not_available"))
    else if !DeviceReady(db.devices, p.device, p.owner) then Txn(db, Err("device_not_available"))
    else
      var call := db.calls[id];
      if CallFinal(call.status) then
        Txn(db, if id in db.observations then Ok(Replayed(db.observations[id]))
                 else Err("tool_call_terminal"))
      else
        var parent := RevalidateParent(db, p, call);
        if parent.Refused? then Txn(db, Err(parent.error))
        else
          var refusal := ExecutionRefusal(call, registry, parent.Dead?, arguments, w);
          if refusal.Some? then Txn(db, Err(refusal.value))
          else if parent.Dead? then Txn(CancelDispatch(db, id, w.now), Err("parent_run_cancelled"))
          else ConsumeAuthority(db, p, id, w.now)
  }

  /** A dispatch whose run is dead rewrites the call, and its approval whatever its status. */
  function CancelDispatch(db: Db, id: CallId, now: Time): Db
    requires id in db.calls
  {
    var cancelled := CancelByParent(db, id, now);
    var aid := db.calls[id].approval;
    if aid.Some? && aid.value in db.approvals
    then SetApproval(cancelled, aid.value, ApprovalStatus.Cancelled) else cancelled
  }

  function ConsumeAuthority(db: Db, p: Principal, id: CallId, now: Time): Txn<Execution>
    requires id in db.calls
  {
    var call := db.calls[id];
    if call.approval.None? then StartExecution(db, db, p, id, now)
    else
      var aid := call.approval.value;
      if aid !in db.approvals || !ApprovalBinds(db.approvals[aid], id, call) then
        Txn(db, Err("approval_binding_invalid"))
      else if db.approvals[aid].status != ApprovalStatus.Approved then
        Txn(db, Err("approval_not_consumable"))
      else if db.approvals[aid].expiresAt <= now then
        Txn(Transition(SetApproval(db, aid, ApprovalStatus.Expired), id, CallStatus.Expired,
                        "approval_expired", ApprovalExpired, "approval_expired", now, Some(aid)),
             Err("approval_expired"))
      else
        var consumed := db.approvals[aid].(status := Consumed, consumedAt := Some(now));
        StartExecution(db, db.(approvals := db.approvals[aid := consumed]), p, id, now)
  }

  function StartExecution(before: Db, db: Db, p: Principal, id: CallId, now: Time): Txn<Execution>
    requires id in db.calls
  {
    var call := db.calls[id];
    var binding := ContextBinding(db, p, None, call.run);
    if binding.Some? then Txn(before, Err(binding.value))
    else if |ExecutedIn(db, BucketOf(p.owner, p.device, call.run))| >= MAX_EXECUTIONS then
      Txn(before, Err("execution_budget_exhausted"))
    else
      var running := db.(calls := db.calls[id := call.(status := CallStatus.Executing, startedAt := Some(now))]);
      Txn(Audit(running, id, ToolStarted, "authority_consumed", now, None)
             .(executing := db.executing + {id}, starts := db.starts + [id]),
           Ok(Started))
  }

  function Normalize(raw: RawOutcome): (ObservationStatus, string) {
    match raw
    case Raised => (ObservationStatus.Failed, "executor_uncertain_outcome")
    case Returned(Cancelled, _, _) => (ObservationStatus.Cancelled, "cancelled")
    case Returned(Failed, _, _) => (ObservationStatus.Failed, "executor_failed")
    case Returned(Succeeded, valid, verified) =>
      if !valid then (ObservationStatus.Failed, "output_schema_invalid")
      else if !verified then (ObservationStatus.Failed, "verification_failed")
      else (ObservationStatus.Succeeded, "verified")
  }

  function StatusOf(status: ObservationStatus): CallStatus {
    match status
    case Succeeded => CallStatus.Succeeded
    case Failed => CallStatus.Failed
    case Cancelled => CallStatus.Cancelled
  }

  function OutcomeKind(status: ObservationStatus): AuditKind {
    match status
    case Succeeded => ToolSucceeded
    case Failed => ToolFailed
    case Cancelled => ToolCancelled
  }

  /** Write a call's outcome and its observation row. */
  function Observe(
    db: Db, id: CallId, status: ObservationStatus, callReason: string, auditReason: string, now: Time): (r: Db)
    requires id in db.calls
    ensures r == db.(calls := r.calls, observations := r.observations, audit := r.audit, events := r.events)
  {
    var call := db.calls[id].(status := StatusOf(status), reason := callReason, completedAt := Some(now));
    Audit(db.(calls := db.calls[id := call],
              observations := db.observations[id := Observation(status, now)]),
          id, OutcomeKind(status), auditReason, now, None)
  }

  /** The second transaction of an execution. It never looks at the call's status; a second
      observation for the same call violates a uniqueness constraint and rolls it back. */
  function FinishExecution(db: Db, id: CallId, raw: RawOutcome, now: Time): Txn<ObservationStatus> {
    var done := db.(executing := db.executing - {id});
    var (status, reason) := Normalize(raw);
    if id !in db.calls then
      Txn(done, Err(if raw.Raised? then "executor_uncertain_outcome" else "tool_call_disappeared"))
    else if id in db.observations then Txn(done, Err("integrity_error"))
    else
      Txn(Observe(done, id, status, db.calls[id].reason, reason, now),
           if raw.Raised? then Err(reason) else Ok(status))
  }

  // --- cancel ---

  function CancelCall(
    db: Db, registry: Registry, p: Principal, authorized: bool, id: CallId, now: Time): Txn<Reply>
  {
    if !authorized then Txn(db, Err("authority_missing"))
    else if id !in db.calls || db.calls[id].owner != p.owner || db.calls[id].device != p.device then
      Txn(db, Err("tool_call_not_available"))
    else if !DeviceReady(db.devices, p.device, p.owner) then Txn(db, Err("device_not_available"))
    else
      var call := db.calls[id];
      if call.status == CallStatus.Executing then
        if (call.tool, call.version) !in registry then Txn(db, Err("unknown_tool_version"))
        else
          Txn(Transition(db, id, CallStatus.CancelRequested, "caller_cancel_requested",
                          ToolCancelRequested, "caller_cancel_requested", now, None),
               Ok(Replied(id, false)))
      else if call.status == CallStatus.CancelRequested || CallFinal(call.status) then
        Txn(db, Ok(Replied(id, true)))
      else
        Txn(Transition(ReleaseApproval(db, call.approval), id, CallStatus.Cancelled, "caller_cancelled",
                        ToolCancelled, "caller_cancelled", now, None),
             Ok(Replied(id, false)))
  }

  function ReleaseApproval(db: Db, approval: Option<ApprovalId>): (after: Db)
    ensures after == db.(approvals := after.approvals)
  {
    if approval.Some? && approval.value in db.approvals
       && db.approvals[approval.value].status in {ApprovalStatus.Pending, ApprovalStatus.Approved}
    then SetApproval(db, approval.value, ApprovalStatus.Cancelled) else db
  }

  /** The follow-up transaction when the executor could not be told to cancel. */
  function CancelUndelivered(db: Db, id: CallId, now: Time): Db {
    if id in db.calls && db.calls[id].status == CallStatus.CancelRequested then
      Transition(db, id, CallStatus.CancelRequested, "cancellation_not_delivered",
                 ToolCancelDeliveryFailed, "cancellation_not_delivered", now, None)
    else db
  }

  // --- expiry and reconciliation sweeps ---

  /** The rows the expiry query returns: every pending approval whose deadline has passed. */
  ghost predicate ExpiryCandidates(db: Db, now: Time, ids: seq<ApprovalId>) {
    (forall aid :: aid in ids <==>
      aid in db.approvals && db.approvals[aid].status == ApprovalStatus.Pending
      && db.approvals[aid].expiresAt <= now)
    && forall i, j :: 0 <= i < j < |ids| ==> ids[i] != ids[j]
  }

  function ExpireOne(db: Db, aid: ApprovalId, now: Time): (r: Db)
    ensures r == db.(calls := r.calls, approvals := r.approvals, audit := r.audit, events := r.events)
  {
    if aid in db.approvals && db.approvals[aid].status == ApprovalStatus.Pending
       && db.approvals[aid].expiresAt <= now then
      var expired := SetApproval(db, aid, ApprovalStatus.Expired);
      var id := db.approvals[aid].call;
      if id in db.calls && db.calls[id].status == CallStatus.AwaitingApproval then
        Transition(expired, id, CallStatus.Expired, "approval_expired", ApprovalExpired,
                   "approval_expired", now, Some(aid))
      else expired
    else db
  }

  function ExpireAll(db: Db, ids: seq<ApprovalId>, now: Time): (r: Db)
    ensures r == db.(calls := r.calls, approvals := r.approvals, audit := r.audit, events := r.events)
  {
    if ids == [] then db else ExpireOne(ExpireAll(db, ids[..|ids| - 1], now), ids[|ids| - 1], now)
  }

  /** The rows the reconciliation query returns: every call an executor may have been lost for. */
  ghost predicate StaleCalls(db: Db, ids: seq<CallId>) {
    (forall id :: id in ids <==>
      id in db.calls && db.calls[id].status in {CallStatus.Executing, CallStatus.CancelRequested})
    && forall i, j :: 0 <= i < j < |ids| ==> ids[i] != ids[j]
  }

  /** Fail every listed call; an observation that already exists would abort the whole sweep. */
  function ReconcileAll(db: Db, ids: seq<CallId>, now: Time): (swept: Option<Db>)
    ensures swept.Some? ==> swept.value == db.(
      calls := swept.value.calls, observations := swept.value.observations,
      audit := swept.value.audit, events := swept.value.events)
  {
    if ids == [] then Some(db)
    else
      var before := ReconcileAll(db, ids[..|ids| - 1], now);
      var id := ids[|ids| - 1];
      if before.None? || id !in before.value.calls || id in before.value.observations then None
      else Some(Observe(before.value, id, ObservationStatus.Failed, "stale_execution_reconciled",
                        "stale_execution_reconciled", now))
  }

  function Reconcile(db: Db, ids: seq<CallId>, now: Time): Db {
    var swept := ReconcileAll(db, ids, now);
    if swept.Some? then swept.value else db
  }
}
