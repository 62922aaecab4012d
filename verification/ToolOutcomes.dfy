/** What each tool transaction leaves behind, told by its outcome: refusals leave no trace except the
    ones that say why a call ended, grants have exactly their stated effect, and the two sweeps
    rewrite exactly the rows they are meant for. */
module ToolOutcomes {
  import opened Prelude
  import opened Store
  import opened ToolAuthority
  import opened ToolViews
  import opened ToolInvariants
  import TL = ToolLaws
  import TS = ToolSteps

  // --- refusals and grants ---

  /** A refused request changes no row. An unknown tool and arguments that do not fit leave one audit
      entry about no call; every other refusal leaves none; and neither does a request that is answered
      with a stored call. */
  lemma RefusedRequestLeavesNoTrace(db: Db, registry: Registry, p: Principal, r: ToolRequest, w: Surroundings)
    requires var result := RequestTool(db, registry, p, r, w).result; result.Err? || result.value.replayed
    ensures
      RequestTool(db, registry, p, r, w).db
      == if (r.name, r.version) !in registry then
           db.(audit := db.audit + [AuditEvent(None, None, ToolDenied, None, "unknown_tool_version", w.now)])
         else if !r.argumentsValid then
           db.(audit := db.audit + [AuditEvent(None, None, ToolDenied, None, "input_schema_invalid", w.now)])
         else db
  {
    hide ContextBinding, FindIdempotent, DeviceReady, StageCall;
    if (r.name, r.version) in registry { StagedExactly(db, registry[(r.name, r.version)], p, r, w); }
  }

  /** Nothing speaks against the call: the tool is enabled, the device has its scopes and capabilities,
      someone can run it, and it is neither sandboxed away nor forbidden. */
  ghost predicate MayRun(d: Descriptor, w: Surroundings) {
    d.enabled && w.scopesHeld && w.capabilitiesHeld && w.available && !d.sandboxForbidden
    && d.risk in {Read, Reversible, Consequential, Critical}
  }

  /** The first thing that speaks against a call. */
  ghost predicate DeniedFor(d: Descriptor, w: Surroundings, reason: string) {
    match reason
    case "tool_disabled" => !d.enabled
    case "scope_missing" => d.enabled && !w.scopesHeld
    case "capability_missing" => d.enabled && w.scopesHeld && !w.capabilitiesHeld
    case "availability" => d.enabled && w.scopesHeld && w.capabilitiesHeld && !w.available
    case "forbidden_autonomous" =>
      d.enabled && w.scopesHeld && w.capabilitiesHeld && w.available
      && (d.sandboxForbidden || d.risk == ForbiddenAutonomous)
    case "invalid_risk_approval_policy" => MayRun(d, w) && d.risk in {Consequential, Critical} && !d.exactOwner
    case _ => false
  }

  /** The audit entries of a new call: its proposal, its decision, and the request for an approval. */
  ghost function BirthEntries(id: CallId, call: ToolCall, approval: ApprovalId, now: Time): seq<AuditEvent> {
    [AuditEvent(Some(id), None, ToolProposed, Some(CallStatus.Validated), "validated", now)]
    + match call.status
      case Approved => [AuditEvent(Some(id), None, ToolApproved, Some(CallStatus.Approved), "policy_allow", now)]
      case Denied => [AuditEvent(Some(id), None, ToolDenied, Some(CallStatus.Denied), call.reason, now)]
      case _ =>
        [AuditEvent(Some(id), Some(approval), ToolAwaitingApproval, Some(CallStatus.AwaitingApproval),
                    "owner_approval_required", now)]
        + [AuditEvent(Some(id), Some(approval), AuditKind.ApprovalRequired, Some(CallStatus.AwaitingApproval),
                      "owner_approval_required", now)]
  }

  /** What the request asked for, as a row. */
  ghost predicate Records(call: ToolCall, d: Descriptor, p: Principal, r: ToolRequest, now: Time) {
    (call.owner, call.device, call.conversation, call.run) == (p.owner, p.device, r.conversation, r.run)
    && (call.tool, call.version, call.risk, call.policy) == (r.name, r.version, d.risk, "phase8-v1")
    && (call.digest, call.key, call.createdAt) == (r.digest, r.key, now)
    && call.startedAt.None? && call.completedAt.None?
  }

  /** An admitted request inserts one call and decides it: it is approved at once if and only if nothing
      speaks against it, its risk is low and no owner has to approve; it waits for its owner, with a fresh
      pending approval that binds it, if and only if nothing speaks against it and the owner has to
      approve; otherwise it is denied for the first thing that speaks against it. */
  lemma AdmittedRequestDecides(db: Db, registry: Registry, p: Principal, r: ToolRequest, w: Surroundings)
    requires RequestTool(db, registry, p, r, w).result.Ok? && !RequestTool(db, registry, p, r, w).result.value.replayed
    ensures
      var after := RequestTool(db, registry, p, r, w).db;
      var id, aid := w.freshCall, w.freshApproval;
      id !in db.calls && (r.name, r.version) in registry && id in after.calls
      && after == db.(calls := db.calls[id := after.calls[id]], approvals := after.approvals, audit := after.audit,
                      events := after.events)
      && var call, d := after.calls[id], registry[(r.name, r.version)];
         Records(call, d, p, r, w.now) && TL.Logged(db, after, id, call, BirthEntries(id, call, aid, w.now))
         && (call.status == CallStatus.Approved
             <==> MayRun(d, w) && d.risk in {Read, Reversible} && !d.exactOwner)
         && (call.status == CallStatus.AwaitingApproval <==> MayRun(d, w) && d.exactOwner)
         && match call.status
            case Approved =>
              call.decision == Some(Allow) && call.reason == "policy_allow" && call.approval.None?
              && after.approvals == db.approvals
            case AwaitingApproval =>
              call.decision == Some(RequireApproval) && call.reason == "owner_approval_required"
              && call.approval == Some(aid) && aid !in db.approvals
              && after.approvals == db.approvals[aid := Approval(
                   id, p.owner, p.device, r.name, r.version, d.risk, r.digest, "phase8-v1", ApprovalStatus.Pending,
                   w.now + (if d.risk == Critical then 180 else 600), None, None, None)]
            case Denied =>
              call.decision == Some(Deny) && DeniedFor(d, w, call.reason) && call.approval.None?
              && after.approvals == db.approvals
            case _ => false
  {
    hide ContextBinding, FindIdempotent, DeviceReady, StageCall, StagedCall, Permission, MayRun, DeniedFor, BirthEntries,
      Records, TL.Logged;
    var d := registry[(r.name, r.version)];
    StagedApprovals(db, d, p, r, w);
    StagedPolicy(d, p, r, w);
    StagedEntries(db, d, p, r, w);
  }

  lemma StagedApprovals(db: Db, d: Descriptor, p: Principal, r: ToolRequest, w: Surroundings)
    requires StageCall(db, d, p, r, w).result.Ok?
    ensures
      var after := StageCall(db, d, p, r, w).db;
      w.freshCall !in db.calls && StageCall(db, d, p, r, w).result.value == Replied(w.freshCall, false)
      && (Permission(d, w).0 != RequireApproval ==> after.approvals == db.approvals)
      && (Permission(d, w).0 == RequireApproval ==>
            w.freshApproval !in db.approvals
            && after.approvals == db.approvals[w.freshApproval := NewApproval(p, d, r.digest, w.freshCall, w.now)])
  {
    hide Permission, Decided, NewApproval, StagedCall, Recent, ProposedIn, ApprovalRequiredIn, BucketOf, AwaitOwner,
      Transition;
  }

  /** The policy, case by case. */
  lemma PolicyLaw(d: Descriptor, w: Surroundings)
    ensures
      var (decision, reason) := Permission(d, w);
      (decision == Allow <==> MayRun(d, w) && d.risk in {Read, Reversible} && !d.exactOwner)
      && (decision == RequireApproval <==> MayRun(d, w) && d.exactOwner)
      && (decision == Deny <==> DeniedFor(d, w, reason))
      && (decision == Allow ==> reason == "policy_allow")
      && (decision == RequireApproval ==> reason == "owner_approval_required")
  {
    RisksAre(d.risk);
  }

  lemma RisksAre(risk: Risk)
    ensures risk in {Read, Reversible, Consequential, Critical, ForbiddenAutonomous}
  {
    match risk { case Read => case _ => }
  }

  lemma StagedPolicy(d: Descriptor, p: Principal, r: ToolRequest, w: Surroundings)
    requires (d.name, d.version) == (r.name, r.version)
    ensures
      var call := StagedCall(d, p, r, w);
      var approval := NewApproval(p, d, r.digest, w.freshCall, w.now);
      Records(call, d, p, r, w.now)
      && call.decision == Some(Permission(d, w).0) && call.reason == Permission(d, w).1
      && (call.status == CallStatus.Approved
          <==> MayRun(d, w) && d.risk in {Read, Reversible} && !d.exactOwner)
      && (call.status == CallStatus.AwaitingApproval <==> MayRun(d, w) && d.exactOwner)
      && (match call.status
          case Approved =>
            Permission(d, w) == (Allow, "policy_allow") && call.approval.None?
          case AwaitingApproval =>
            Permission(d, w) == (RequireApproval, "owner_approval_required") && call.approval == Some(w.freshApproval)
          case Denied => Permission(d, w).0 == Deny && DeniedFor(d, w, call.reason) && call.approval.None?
          case _ => false)
      && approval == Approval(
           w.freshCall, p.owner, p.device, r.name, r.version, d.risk, r.digest, "phase8-v1", ApprovalStatus.Pending,
           w.now + (if d.risk == Critical then 180 else 600), None, None, None)
  {
    PolicyLaw(d, w);
    hide Permission, MayRun, DeniedFor;
    var decision := Permission(d, w).0;
    match decision { case Allow => case RequireApproval => case Deny => }
  }

  lemma DecidedEntries(db: Db, d: Descriptor, p: Principal, r: ToolRequest, w: Surroundings)
    requires w.freshCall !in db.calls
    ensures
      var after := Decided(db, d, p, r, w);
      var id := w.freshCall;
      TL.Logged(db, after, id, after.calls[id],
                [AuditEvent(Some(id), None, ToolProposed, Some(CallStatus.Validated), "validated", w.now)])
  {
    var inserted := db.(calls := db.calls[w.freshCall := NewCall(p, d, r, w.now)]);
    TL.AuditLaw(inserted, w.freshCall, ToolProposed, "validated", w.now, None);
    hide Audit;
  }

  /** What a new call writes to the audit log, and to the session of its run. */
  lemma StagedEntries(db: Db, d: Descriptor, p: Principal, r: ToolRequest, w: Surroundings)
    requires StageCall(db, d, p, r, w).result.Ok?
    ensures
      var after := StageCall(db, d, p, r, w).db;
      var id := w.freshCall;
      TL.Logged(db, after, id, after.calls[id], BirthEntries(id, after.calls[id], w.freshApproval, w.now))
  {
    var id, aid := w.freshCall, w.freshApproval;
    var decided := Decided(db, d, p, r, w);
    var (decision, reason) := Permission(d, w);
    StagedIsNew(db, d, p, r, w);
    DecidedEntries(db, d, p, r, w);
    hide Permission, Decided, DecidedCall, NewApproval, Recent, ProposedIn, ApprovalRequiredIn, BucketOf, Transition,
      Audit, TL.Logged, TL.Visible;
    var first := [AuditEvent(Some(id), None, ToolProposed, Some(CallStatus.Validated), "validated", w.now)];
    var after := StageCall(db, d, p, r, w).db;
    match decision {
      case Deny =>
        TL.TransitionLaw(decided, id, CallStatus.Denied, reason, ToolDenied, reason, w.now, None);
        TL.LoggedThen(db, decided, after, id, decided.calls[id], decided.calls[id], first,
                      [AuditEvent(Some(id), None, ToolDenied, Some(CallStatus.Denied), reason, w.now)]);
        SeenAlike(db, after, id, decided.calls[id], after.calls[id], BirthEntries(id, after.calls[id], aid, w.now));
      case Allow =>
        TL.TransitionLaw(decided, id, CallStatus.Approved, reason, ToolApproved, "policy_allow", w.now, None);
        TL.LoggedThen(db, decided, after, id, decided.calls[id], decided.calls[id], first,
                      [AuditEvent(Some(id), None, ToolApproved, Some(CallStatus.Approved), "policy_allow", w.now)]);
        SeenAlike(db, after, id, decided.calls[id], after.calls[id], BirthEntries(id, after.calls[id], aid, w.now));
      case RequireApproval =>
        var second := [AuditEvent(Some(id), Some(aid), ToolAwaitingApproval, Some(CallStatus.AwaitingApproval),
                                  "owner_approval_required", w.now)]
          + [AuditEvent(Some(id), Some(aid), AuditKind.ApprovalRequired, Some(CallStatus.AwaitingApproval),
                        "owner_approval_required", w.now)];
        AwaitEntries(decided, id, aid, NewApproval(p, d, r.digest, id, w.now), reason, w.now);
        TL.LoggedThen(db, decided, after, id, decided.calls[id], decided.calls[id], first, second);
        SeenAlike(db, after, id, decided.calls[id], after.calls[id], BirthEntries(id, after.calls[id], aid, w.now));
    }
  }

  lemma StagedIsNew(db: Db, d: Descriptor, p: Principal, r: ToolRequest, w: Surroundings)
    requires StageCall(db, d, p, r, w).result.Ok?
    ensures w.freshCall !in db.calls
  {
    hide Permission, Decided, NewApproval, StagedCall, Recent, ProposedIn, ApprovalRequiredIn, BucketOf, AwaitOwner,
      Transition;
  }

  lemma SeenAlike(db: Db, after: Db, id: CallId, call: ToolCall, later: ToolCall, entries: seq<AuditEvent>)
    requires TL.Logged(db, after, id, call, entries)
    requires later.run == call.run && later.owner == call.owner && later.device == call.device
    ensures TL.Logged(db, after, id, later, entries)
  {}

  lemma AwaitEntries(db: Db, id: CallId, aid: ApprovalId, approval: Approval, reason: string, now: Time)
    requires id in db.calls
    ensures TL.Logged(db, AwaitOwner(db, id, aid, approval, reason, now), id, db.calls[id],
      [AuditEvent(Some(id), Some(aid), ToolAwaitingApproval, Some(CallStatus.AwaitingApproval),
                  "owner_approval_required", now)]
      + [AuditEvent(Some(id), Some(aid), AuditKind.ApprovalRequired, Some(CallStatus.AwaitingApproval),
                    "owner_approval_required", now)])
  {
    var linked := db.(approvals := db.approvals[aid := approval],
                      calls := db.calls[id := db.calls[id].(approval := Some(aid))]);
    var awaiting := Transition(linked, id, CallStatus.AwaitingApproval, reason, ToolAwaitingApproval,
                               "owner_approval_required", now, Some(aid));
    TL.TransitionLaw(linked, id, CallStatus.AwaitingApproval, reason, ToolAwaitingApproval, "owner_approval_required",
                     now, Some(aid));
    TL.AuditLaw(awaiting, id, AuditKind.ApprovalRequired, "owner_approval_required", now, Some(aid));
    hide Transition, Audit, TL.Logged, TL.Visible;
    LoggedAtLink(db, linked, awaiting, id, aid,
      [AuditEvent(Some(id), Some(aid), ToolAwaitingApproval, Some(CallStatus.AwaitingApproval),
                  "owner_approval_required", now)]);
    TL.LoggedThen(db, awaiting, AwaitOwner(db, id, aid, approval, reason, now), id, db.calls[id], awaiting.calls[id],
      [AuditEvent(Some(id), Some(aid), ToolAwaitingApproval, Some(CallStatus.AwaitingApproval),
                  "owner_approval_required", now)],
      [AuditEvent(Some(id), Some(aid), AuditKind.ApprovalRequired, Some(CallStatus.AwaitingApproval),
                  "owner_approval_required", now)]);
  }

  /** Rows of the tool tables written before the log do not show in it. */
  lemma LoggedAtLink(db: Db, linked: Db, after: Db, id: CallId, aid: ApprovalId, entries: seq<AuditEvent>)
    requires id in db.calls && id in linked.calls && linked == db.(approvals := linked.approvals, calls := linked.calls)
    requires linked.calls[id] == db.calls[id].(approval := Some(aid))
    requires TL.Logged(linked, after, id, linked.calls[id], entries)
    ensures TL.Logged(db, after, id, db.calls[id], entries)
  {}

  /** Everything a new call needs: a known tool, valid arguments, authority, an active device, an open
      context, an unused key, room in the rate window of its tool and among the four calls of its budget,
      and, if the owner has to approve, room for it as the count sees it among two; fresh identifiers. */
  ghost predicate Admissible(db: Db, registry: Registry, p: Principal, r: ToolRequest, w: Surroundings) {
    (r.name, r.version) in registry && r.argumentsValid && w.authorized && TL.Active(db, p.device, p.owner)
    && TL.Admits(db, p, r.conversation, r.run) && (forall id: CallId :: !TL.Taken(db, p, r.name, r.key, id))
    && var d := registry[(r.name, r.version)];
       |TL.Lately(db, p.device, r.name, w.now - d.windowSeconds)| < d.maxRequests
       && |TL.Sharing(db, p, r.run)| < 4 && w.freshCall !in db.calls
       && (MayRun(d, w) && d.exactOwner ==>
             |TL.NeedingOwner(db, p, r.run)| + (if w.decisionFlushed then 1 else 0) <= 2
             && w.freshApproval !in db.approvals)
  }

  lemma StagedExactly(db: Db, d: Descriptor, p: Principal, r: ToolRequest, w: Surroundings)
    ensures StageCall(db, d, p, r, w).result.Ok? <==>
      |Recent(db, p.device, d.name, w.now - d.windowSeconds)| < d.maxRequests
      && |ProposedIn(db, BucketOf(p.owner, p.device, r.run))| < 4 && w.freshCall !in db.calls
      && (Permission(d, w).0 == RequireApproval ==>
            |ApprovalRequiredIn(db, BucketOf(p.owner, p.device, r.run))| + (if w.decisionFlushed then 1 else 0) <= 2
            && w.freshApproval !in db.approvals)
    ensures StageCall(db, d, p, r, w).result.Ok? ==> StageCall(db, d, p, r, w).result.value == Replied(w.freshCall, false)
  {
    hide Permission, Decided, NewApproval, StagedCall, Recent, ProposedIn, ApprovalRequiredIn, BucketOf, AwaitOwner,
      Transition;
  }

  /** A request adds a call if and only if it is admissible; it is answered with a stored call if and only
      if it comes from the same principal with the same tool, key, arguments, version and context. */
  lemma AdmissionLaw(db: Db, registry: Registry, p: Principal, r: ToolRequest, w: Surroundings)
    requires KeysUnique(db.calls)
    ensures
      var txn := RequestTool(db, registry, p, r, w);
      (txn.result.Ok? && !txn.result.value.replayed <==> Admissible(db, registry, p, r, w))
      && (txn.result.Ok? && !txn.result.value.replayed ==> txn.result.value.call == w.freshCall)
      && forall id: CallId :: (txn.result == Ok(Replied(id, true)) <==>
           (r.name, r.version) in registry && r.argumentsValid && w.authorized && TL.Active(db, p.device, p.owner)
           && TL.Admits(db, p, r.conversation, r.run) && TL.Taken(db, p, r.name, r.key, id)
           && db.calls[id].digest == r.digest && db.calls[id].version == r.version
           && db.calls[id].conversation == r.conversation && db.calls[id].run == r.run)
  {
    hide ContextBinding, FindIdempotent, DeviceReady, StageCall, Permission, TL.Admits, TL.Active, TL.Taken, MayRun,
      Recent, ProposedIn, ApprovalRequiredIn, BucketOf, KeysUnique, TL.Lately, TL.Sharing, TL.NeedingOwner;
    TL.BindingLaw(db, p, r.conversation, r.run);
    TL.ReadyIsActive(db, p.device, p.owner);
    TL.LookupLaw(db, p, r.name, r.key);
    if (r.name, r.version) in registry {
      var d := registry[(r.name, r.version)];
      PolicyLaw(d, w);
      TL.BudgetLaw(db, p, r.run, r.name, w.now - d.windowSeconds);
      StagedExactly(db, d, p, r, w);
    }
  }

  /** How long the owner has: three minutes for critical calls, ten otherwise. */
  lemma ApprovalDeadlines(p: Principal, d: Descriptor, digest: Digest, id: CallId, now: Time)
    ensures
      var approval := NewApproval(p, d, digest, id, now);
      approval.status == ApprovalStatus.Pending && approval.call == id && approval.digest == digest
      && approval.expiresAt == now + (if d.risk == Critical then 180 else 600)
  {}

  /** Only this approval and its call change, and one audit entry says how. */
  ghost predicate DecidedAs(
    db: Db, after: Db, aid: ApprovalId, approval: Approval, status: CallStatus, reason: string, kind: AuditKind,
    mention: Option<ApprovalId>, now: Time)
  {
    aid in db.approvals && db.approvals[aid].call in db.calls
    && var id := db.approvals[aid].call;
       after == db.(approvals := db.approvals[aid := approval],
                    calls := db.calls[id := db.calls[id].(status := status, reason := reason)],
                    audit := after.audit, events := after.events)
       && TL.Logged(db, after, id, db.calls[id], [AuditEvent(Some(id), mention, kind, Some(status), reason, now)])
  }

  /** What ends with a decision, an expiry or a cancellation: the approval is rewritten, the call moved. */
  lemma DecisionIs(
    db: Db, aid: ApprovalId, approval: Approval, status: CallStatus, reason: string, kind: AuditKind,
    mention: Option<ApprovalId>, now: Time)
    requires aid in db.approvals && db.approvals[aid].call in db.calls
    ensures
      var id := db.approvals[aid].call;
      DecidedAs(db, Transition(db.(approvals := db.approvals[aid := approval]), id, status, reason, kind, reason, now, mention),
               aid, approval, status, reason, kind, mention, now)
  {
    var id := db.approvals[aid].call;
    var marked := db.(approvals := db.approvals[aid := approval]);
    var after := Transition(marked, id, status, reason, kind, reason, now, mention);
    TL.TransitionLaw(marked, id, status, reason, kind, reason, now, mention);
    LoggedAtApproval(db, marked, after, id, [AuditEvent(Some(id), mention, kind, Some(status), reason, now)]);
    hide Transition, TL.Logged;
  }

  /** A pending approval of the owner, who asks with authority, for a call on an active device whose
      context is open. */
  ghost predicate Decidable(db: Db, p: Principal, authorized: bool, aid: ApprovalId) {
    authorized && aid in db.approvals && db.approvals[aid].owner == p.owner
    && db.approvals[aid].status == ApprovalStatus.Pending
    && db.approvals[aid].call in db.calls
    && var call := db.calls[db.approvals[aid].call];
       call.owner == p.owner && TL.Active(db, call.device, p.owner) && TL.OpenParent(db, p, call)
  }

  /** A decision is recorded if and only if the approval can be decided, its run goes on and its deadline
      has not passed; then approval and call both take it, and the deciding device is written down. Past
      the deadline both expire instead, and with a run that is over both are cancelled; otherwise nothing
      changes. */
  lemma DecisionOutcome(db: Db, p: Principal, authorized: bool, aid: ApprovalId, approve: bool, now: Time)
    ensures
      var txn := DecideApproval(db, p, authorized, aid, approve, now);
      (txn.result.Ok? <==>
        Decidable(db, p, authorized, aid) && RunGoesOn(db, db.calls[db.approvals[aid].call])
        && now < db.approvals[aid].expiresAt)
      && (txn.result.Ok? ==>
            var decided := db.approvals[aid].(
              status := if approve then ApprovalStatus.Approved else ApprovalStatus.Rejected,
              decidedBy := Some(p.device), decidedAt := Some(now));
            txn.result.value == decided
            && if approve
               then DecidedAs(db, txn.db, aid, decided, CallStatus.Approved, "owner_approved", ApprovalApproved, Some(aid), now)
               else DecidedAs(db, txn.db, aid, decided, CallStatus.Rejected, "owner_rejected", ApprovalRejected, Some(aid), now))
      && (txn.result == Err("approval_expired") <==>
            Decidable(db, p, authorized, aid) && RunGoesOn(db, db.calls[db.approvals[aid].call])
            && db.approvals[aid].expiresAt <= now)
      && (txn.result == Err("approval_expired") ==>
            DecidedAs(db, txn.db, aid, db.approvals[aid].(status := ApprovalStatus.Expired), CallStatus.Expired,
                     "approval_expired", ApprovalExpired, Some(aid), now))
      && (txn.result == Err("parent_run_cancelled") <==>
            Decidable(db, p, authorized, aid) && RunIsOver(db, db.calls[db.approvals[aid].call]))
      && (txn.result == Err("parent_run_cancelled") ==>
            DecidedAs(db, txn.db, aid, db.approvals[aid].(status := ApprovalStatus.Cancelled), CallStatus.Cancelled,
                     "parent_run_cancelled", ToolCancelled, None, now))
      && (txn.result.Err? && txn.result.error !in {"approval_expired", "parent_run_cancelled"} ==> txn.db == db)
  {
    hide RevalidateParent, DeviceReady, DecidePending, DecidedAs, TL.OpenParent, TL.Active, RunGoesOn, RunIsOver;
    if aid in db.approvals && db.approvals[aid].call in db.calls {
      var call := db.calls[db.approvals[aid].call];
      TL.ReadyIsActive(db, call.device, p.owner);
      LiveOrOver(db, p, call);
      GoesOnOrOver(db, call);
      PendingOutcome(db, p, aid, approve, now);
    }
  }

  lemma GoesOnOrOver(db: Db, call: ToolCall)
    ensures !(RunGoesOn(db, call) && RunIsOver(db, call))
  {}

  lemma PendingOutcome(db: Db, p: Principal, aid: ApprovalId, approve: bool, now: Time)
    requires aid in db.approvals && db.approvals[aid].call in db.calls
    ensures
      var txn := DecidePending(db, p, aid, approve, now);
      var parent := RevalidateParent(db, p, db.calls[db.approvals[aid].call]);
      (txn.result.Ok? <==> parent.Live? && now < db.approvals[aid].expiresAt)
      && (txn.result.Ok? ==>
            var decided := db.approvals[aid].(
              status := if approve then ApprovalStatus.Approved else ApprovalStatus.Rejected,
              decidedBy := Some(p.device), decidedAt := Some(now));
            txn.result.value == decided
            && if approve
               then DecidedAs(db, txn.db, aid, decided, CallStatus.Approved, "owner_approved", ApprovalApproved, Some(aid), now)
               else DecidedAs(db, txn.db, aid, decided, CallStatus.Rejected, "owner_rejected", ApprovalRejected, Some(aid), now))
      && (txn.result == Err("approval_expired") <==> parent.Live? && db.approvals[aid].expiresAt <= now)
      && (txn.result == Err("approval_expired") ==>
            DecidedAs(db, txn.db, aid, db.approvals[aid].(status := ApprovalStatus.Expired), CallStatus.Expired,
                     "approval_expired", ApprovalExpired, Some(aid), now))
      && (txn.result == Err("parent_run_cancelled") <==> parent.Dead?)
      && (txn.result == Err("parent_run_cancelled") ==>
            DecidedAs(db, txn.db, aid, db.approvals[aid].(status := ApprovalStatus.Cancelled), CallStatus.Cancelled,
                     "parent_run_cancelled", ToolCancelled, None, now))
      && (parent.Refused? ==> txn == Txn(db, Err(parent.error)))
      && (txn.result.Err? && txn.result.error !in {"approval_expired", "parent_run_cancelled"} ==> txn.db == db)
  {
    var approval := db.approvals[aid];
    var id := approval.call;
    ParentErrors(db, p, db.calls[id]);
    DecisionIs(db, aid, approval.(status := ApprovalStatus.Expired), CallStatus.Expired, "approval_expired",
               ApprovalExpired, Some(aid), now);
    DecisionIs(db, aid, approval.(status := ApprovalStatus.Cancelled), CallStatus.Cancelled, "parent_run_cancelled",
               ToolCancelled, None, now);
    TS.ApprovalCommutes(db, id, aid, approval.(status := ApprovalStatus.Cancelled), CallStatus.Cancelled,
                        "parent_run_cancelled", ToolCancelled, "parent_run_cancelled", now, None);
    var decided := approval.(
      status := if approve then ApprovalStatus.Approved else ApprovalStatus.Rejected,
      decidedBy := Some(p.device), decidedAt := Some(now));
    if approve {
      DecisionIs(db, aid, decided, CallStatus.Approved, "owner_approved", ApprovalApproved, Some(aid), now);
    } else {
      DecisionIs(db, aid, decided, CallStatus.Rejected, "owner_rejected", ApprovalRejected, Some(aid), now);
    }
    hide RevalidateParent, Transition, DecidedAs;
  }

  /** A running call was asked to stop; nothing else changed, but for one audit entry. */
  ghost predicate AskedToStop(db: Db, after: Db, id: CallId, now: Time) {
    id in db.calls
    && after == db.(calls := db.calls[id := db.calls[id].(status := CallStatus.CancelRequested,
                                                          reason := "caller_cancel_requested")],
                    audit := after.audit, events := after.events)
    && TL.Logged(db, after, id, db.calls[id],
                 [AuditEvent(Some(id), None, ToolCancelRequested, Some(CallStatus.CancelRequested),
                             "caller_cancel_requested", now)])
  }

  /** A call that did not run was cancelled, and its approval with it unless that was settled already. */
  ghost predicate CalledOff(db: Db, after: Db, id: CallId, now: Time) {
    id in db.calls
    && after == db.(calls := db.calls[id := db.calls[id].(status := CallStatus.Cancelled, reason := "caller_cancelled")],
                    approvals := after.approvals, audit := after.audit, events := after.events)
    && TL.Logged(db, after, id, db.calls[id],
                 [AuditEvent(Some(id), None, ToolCancelled, Some(CallStatus.Cancelled), "caller_cancelled", now)])
    && after.approvals.Keys == db.approvals.Keys
    && forall aid :: aid in db.approvals ==>
         after.approvals[aid]
         == if db.calls[id].approval == Some(aid)
               && db.approvals[aid].status in {ApprovalStatus.Pending, ApprovalStatus.Approved}
            then db.approvals[aid].(status := ApprovalStatus.Cancelled) else db.approvals[aid]
  }

  /** A cancellation is accepted if and only if the caller has authority and made the call on a device
      that is active, and, while the call runs, its tool is still known. It asks a running call to stop,
      calls any other unfinished call off, and repeats itself on one that was asked or has ended. */
  lemma CancellationOutcome(db: Db, registry: Registry, p: Principal, authorized: bool, id: CallId, now: Time)
    ensures
      var txn := CancelCall(db, registry, p, authorized, id, now);
      (txn.result.Ok? <==>
        authorized && OwnCall(db, p, id)
        && (db.calls[id].status == CallStatus.Executing ==> (db.calls[id].tool, db.calls[id].version) in registry))
      && (txn.result.Err? ==> txn.db == db)
      && (txn.result.Ok? ==>
            txn.result.value.call == id
            && (txn.result.value.replayed <==>
                  db.calls[id].status == CallStatus.CancelRequested || !Unfinished(db.calls[id].status))
            && if db.calls[id].status == CallStatus.Executing then AskedToStop(db, txn.db, id, now)
               else if txn.result.value.replayed then txn.db == db
               else CalledOff(db, txn.db, id, now))
  {
    hide Transition, DeviceReady, CallFinal, ReleaseApproval, TL.Active, TL.Logged, AskedToStop, CalledOff;
    TL.ReadyIsActive(db, p.device, p.owner);
    if id in db.calls {
      FinalLaw(db.calls[id].status);
      RequestedEffect(db, id, now);
      CancelledEffect(db, id, now);
    }
  }

  lemma RequestedEffect(db: Db, id: CallId, now: Time)
    requires id in db.calls
    ensures AskedToStop(db, Transition(db, id, CallStatus.CancelRequested, "caller_cancel_requested",
                                       ToolCancelRequested, "caller_cancel_requested", now, None), id, now)
  {
    TL.TransitionLaw(db, id, CallStatus.CancelRequested, "caller_cancel_requested", ToolCancelRequested,
                     "caller_cancel_requested", now, None);
    hide Transition, TL.Logged;
  }

  lemma CancelledEffect(db: Db, id: CallId, now: Time)
    requires id in db.calls
    ensures CalledOff(db, Transition(ReleaseApproval(db, db.calls[id].approval), id, CallStatus.Cancelled,
                                     "caller_cancelled", ToolCancelled, "caller_cancelled", now, None), id, now)
  {
    var released := ReleaseApproval(db, db.calls[id].approval);
    var after := Transition(released, id, CallStatus.Cancelled, "caller_cancelled", ToolCancelled, "caller_cancelled",
                            now, None);
    TL.TransitionLaw(released, id, CallStatus.Cancelled, "caller_cancelled", ToolCancelled, "caller_cancelled", now, None);
    LoggedAtApproval(db, released, after, id,
      [AuditEvent(Some(id), None, ToolCancelled, Some(CallStatus.Cancelled), "caller_cancelled", now)]);
    hide Transition, TL.Logged;
  }

  /** When the executor could not be told, only a call that is still asked to stop is touched: its status
      stays, and the failed delivery is written down. */
  lemma UndeliveredOutcome(db: Db, id: CallId, now: Time)
    ensures
      var after := CancelUndelivered(db, id, now);
      if id in db.calls && db.calls[id].status == CallStatus.CancelRequested then
        after == db.(calls := db.calls[id := db.calls[id].(reason := "cancellation_not_delivered")],
                     audit := after.audit, events := after.events)
        && TL.Logged(db, after, id, db.calls[id],
                     [AuditEvent(Some(id), None, ToolCancelDeliveryFailed, Some(CallStatus.CancelRequested),
                                 "cancellation_not_delivered", now)])
      else after == db
  {
    if id in db.calls {
      TL.TransitionLaw(db, id, CallStatus.CancelRequested, "cancellation_not_delivered", ToolCancelDeliveryFailed,
                       "cancellation_not_delivered", now, None);
    }
    hide Transition, TL.Logged;
  }

  /** The approval covers exactly what the call would execute. */
  ghost predicate Covers(approval: Approval, id: CallId, call: ToolCall) {
    approval.call == id && approval.owner == call.owner && approval.requestingDevice == call.device
    && (approval.tool, approval.version, approval.risk) == (call.tool, call.version, call.risk)
    && approval.digest == call.digest && approval.policy == call.policy
  }

  lemma CoversLaw(approval: Approval, id: CallId, call: ToolCall)
    ensures ApprovalBinds(approval, id, call) <==> Covers(approval, id, call)
  {}

  /** The call's approval, if it has one, is there, covers it and was granted. */
  ghost predicate Granted(db: Db, id: CallId)
    requires id in db.calls
  {
    var aid := db.calls[id].approval;
    aid.Some? ==>
      aid.value in db.approvals && Covers(db.approvals[aid.value], id, db.calls[id])
      && db.approvals[aid.value].status == ApprovalStatus.Approved
  }

  ghost predicate InTime(db: Db, id: CallId, now: Time)
    requires id in db.calls
  {
    var aid := db.calls[id].approval;
    aid.Some? && aid.value in db.approvals ==> now < db.approvals[aid.value].expiresAt
  }

  ghost predicate Unfinished(status: CallStatus) {
    status !in {CallStatus.Succeeded, CallStatus.Failed, CallStatus.Cancelled, CallStatus.Rejected, CallStatus.Denied,
                CallStatus.Expired}
  }

  /** The caller made the call, on a device that is active. */
  ghost predicate OwnCall(db: Db, p: Principal, id: CallId) {
    id in db.calls && db.calls[id].owner == p.owner && db.calls[id].device == p.device && TL.Active(db, p.device, p.owner)
  }

  /** The tool is still what the call was made for, may still run, and the arguments, if they come with
      the dispatch, are valid and the ones the call was made with. */
  ghost predicate StillAllowed(
    call: ToolCall, registry: Registry, arguments: Option<Option<Digest>>, w: Surroundings)
  {
    (call.tool, call.version) in registry
    && var d := registry[(call.tool, call.version)];
       call.risk == d.risk && call.policy == "phase8-v1"
       && (d.risk in {Consequential, Critical} || d.exactOwner ==> call.approval.Some?)
       && (arguments == None || arguments == Some(Some(call.digest)))
       && w.authorized && d.enabled && d.risk != ForbiddenAutonomous && !d.sandboxForbidden && w.available
  }

  /** The run of the call, if any, is queued or running. */
  ghost predicate RunGoesOn(db: Db, call: ToolCall) {
    call.run.Some? ==>
      call.run.value in db.runs && db.runs[call.run.value].status in {RunStatus.Queued, RunStatus.Running}
  }

  /** The run of the call ended, or was asked to. */
  ghost predicate RunIsOver(db: Db, call: ToolCall) {
    call.run.Some? && call.run.value in db.runs
    && db.runs[call.run.value].status in {RunStatus.Succeeded, RunStatus.Failed, RunStatus.Cancelled,
                                          RunStatus.CancelRequested}
  }

  /** An approved call of the caller, still allowed, in an open context whose run goes on. */
  ghost predicate Dispatchable(
    db: Db, registry: Registry, p: Principal, id: CallId, arguments: Option<Option<Digest>>, w: Surroundings)
  {
    OwnCall(db, p, id) && db.calls[id].status == CallStatus.Approved && StillAllowed(db.calls[id], registry, arguments, w)
    && TL.OpenParent(db, p, db.calls[id]) && RunGoesOn(db, db.calls[id])
  }

  /** The call now runs: its approval, if it has one, is consumed, and it was handed to the executor once
      more; one audit entry says so. */
  ghost predicate Started(db: Db, after: Db, id: CallId, now: Time) {
    id in db.calls
    && after == db.(calls := after.calls, approvals := after.approvals, audit := after.audit, events := after.events,
                    executing := db.executing + {id}, starts := db.starts + [id])
    && after.calls == db.calls[id := db.calls[id].(status := CallStatus.Executing, startedAt := Some(now))]
    && TL.Logged(db, after, id, db.calls[id],
                 [AuditEvent(Some(id), None, ToolStarted, Some(CallStatus.Executing), "authority_consumed", now)])
    && match db.calls[id].approval
       case None => after.approvals == db.approvals
       case Some(aid) => (aid in db.approvals
                          && after.approvals
                             == db.approvals[aid := db.approvals[aid].(status := Consumed, consumedAt := Some(now))])
  }

  lemma StartOutcome(before: Db, db: Db, p: Principal, id: CallId, now: Time)
    requires id in db.calls && before == db.(approvals := before.approvals)
    ensures
      var txn := StartExecution(before, db, p, id, now);
      (txn.result.Ok? <==>
        TL.Admits(db, p, None, db.calls[id].run) && |TL.HoldingSlots(db, p, db.calls[id].run)| < 3)
      && (txn.result.Err? ==> txn.db == before && txn.result.error != "approval_expired"
                              && txn.result.error != "parent_run_cancelled")
      && (txn.result.Ok? ==>
            txn.result.value.Started?
            && txn.db == db.(calls := db.calls[id := db.calls[id].(status := CallStatus.Executing, startedAt := Some(now))],
                             audit := txn.db.audit, events := txn.db.events,
                             executing := db.executing + {id}, starts := db.starts + [id])
            && TL.Logged(db, txn.db, id, db.calls[id],
                 [AuditEvent(Some(id), None, ToolStarted, Some(CallStatus.Executing), "authority_consumed", now)]))
  {
    TL.BindingLaw(db, p, None, db.calls[id].run);
    TL.BudgetLaw(db, p, db.calls[id].run, "", 0);
    BindingErrors(db, p, None, db.calls[id].run);
    var running := db.(calls := db.calls[id := db.calls[id].(status := CallStatus.Executing, startedAt := Some(now))]);
    TL.AuditLaw(running, id, ToolStarted, "authority_consumed", now, None);
    hide ContextBinding, Audit, ExecutedIn, BucketOf, ProposedIn, ApprovalRequiredIn, Recent, TL.HoldingSlots, TL.Admits;
  }

  lemma BindingErrors(db: Db, p: Principal, conversation: Option<ConversationId>, run: Option<RunId>)
    ensures ContextBinding(db, p, conversation, run).Some? ==>
      ContextBinding(db, p, conversation, run).value !in {"approval_expired", "parent_run_cancelled"}
  {}

  lemma SlotsIgnoreApprovals(db: Db, approvals: map<ApprovalId, Approval>, p: Principal, run: Option<RunId>)
    ensures TL.HoldingSlots(db.(approvals := approvals), p, run) == TL.HoldingSlots(db, p, run)
    ensures TL.Admits(db.(approvals := approvals), p, None, run) == TL.Admits(db, p, None, run)
  {}

  /** The call's approval and the call expired. */
  ghost predicate Overran(db: Db, after: Db, id: CallId, now: Time) {
    id in db.calls && db.calls[id].approval.Some?
    && var aid := db.calls[id].approval.value;
       aid in db.approvals && db.approvals[aid].call == id
       && DecidedAs(db, after, aid, db.approvals[aid].(status := ApprovalStatus.Expired), CallStatus.Expired,
                   "approval_expired", ApprovalExpired, Some(aid), now)
  }

  lemma ConsumptionOutcome(db: Db, p: Principal, id: CallId, now: Time)
    requires id in db.calls
    ensures
      var txn := ConsumeAuthority(db, p, id, now);
      (txn.result.Ok? <==>
        Granted(db, id) && InTime(db, id, now) && TL.Admits(db, p, None, db.calls[id].run)
        && |TL.HoldingSlots(db, p, db.calls[id].run)| < 3)
      && (txn.result.Ok? ==> txn.result.value.Started? && Started(db, txn.db, id, now))
      && (txn.result == Err("approval_expired") <==> Granted(db, id) && !InTime(db, id, now))
      && (txn.result == Err("approval_expired") ==> Overran(db, txn.db, id, now))
      && (txn.result.Err? && txn.result.error != "approval_expired" ==>
            txn.db == db && txn.result.error != "parent_run_cancelled")
  {
    hide StartExecution, Transition, ApprovalBinds, TL.Admits, TL.HoldingSlots, TL.Logged, TL.Visible, Covers, DecidedAs;
    if db.calls[id].approval.None? {
      StartOutcome(db, db, p, id, now);
    } else {
      var aid := db.calls[id].approval.value;
      if aid in db.approvals {
        CoversLaw(db.approvals[aid], id, db.calls[id]);
        var consumed := db.approvals[aid].(status := Consumed, consumedAt := Some(now));
        var taken := db.(approvals := db.approvals[aid := consumed]);
        StartOutcome(db, taken, p, id, now);
        SlotsIgnoreApprovals(db, db.approvals[aid := consumed], p, db.calls[id].run);
        LoggedAtApproval(db, taken, StartExecution(db, taken, p, id, now).db, id,
          [AuditEvent(Some(id), None, ToolStarted, Some(CallStatus.Executing), "authority_consumed", now)]);
        if Covers(db.approvals[aid], id, db.calls[id]) {
          CoveredIsItsCall(db.approvals[aid], id, db.calls[id]);
          DecisionIs(db, aid, db.approvals[aid].(status := ApprovalStatus.Expired), CallStatus.Expired,
                     "approval_expired", ApprovalExpired, Some(aid), now);
        }
      }
    }
  }

  lemma CoveredIsItsCall(approval: Approval, id: CallId, call: ToolCall)
    requires Covers(approval, id, call)
    ensures approval.call == id
  {}

  /** An approval written before the log does not show in it. */
  lemma LoggedAtApproval(db: Db, marked: Db, after: Db, id: CallId, entries: seq<AuditEvent>)
    requires id in db.calls && marked == db.(approvals := marked.approvals)
    ensures TL.Logged(marked, after, id, db.calls[id], entries) ==> TL.Logged(db, after, id, db.calls[id], entries)
  {}

  /** The call is written off: it and its approval are CANCELLED, whatever they were, with every other
      field as it was, the consumption included; one audit entry says so; an execution in flight goes on. */
  ghost predicate WrittenOff(db: Db, after: Db, id: CallId, now: Time) {
    id in db.calls
    && after == db.(calls := after.calls, approvals := after.approvals, audit := after.audit, events := after.events)
    && after.calls == db.calls[id := db.calls[id].(status := CallStatus.Cancelled, reason := "parent_run_cancelled")]
    && TL.Logged(db, after, id, db.calls[id],
                 [AuditEvent(Some(id), None, ToolCancelled, Some(CallStatus.Cancelled), "parent_run_cancelled", now)])
    && after.approvals.Keys == db.approvals.Keys
    && forall aid :: aid in db.approvals ==>
         after.approvals[aid]
         == if db.calls[id].approval == Some(aid) then db.approvals[aid].(status := ApprovalStatus.Cancelled)
            else db.approvals[aid]
  }

  lemma WriteOffEffect(db: Db, id: CallId, now: Time)
    requires id in db.calls
    ensures WrittenOff(db, CancelDispatch(db, id, now), id, now)
  {
    TL.TransitionLaw(db, id, CallStatus.Cancelled, "parent_run_cancelled", ToolCancelled, "parent_run_cancelled", now, None);
    hide Transition;
  }

  /** What the dispatch refuses before it looks at the approval, and what it lets pass. */
  lemma RefusalLaw(
    call: ToolCall, registry: Registry, dead: bool, arguments: Option<Option<Digest>>, w: Surroundings)
    ensures
      var refusal := ExecutionRefusal(call, registry, dead, arguments, w);
      (refusal.None? <==> StillAllowed(call, registry, arguments, w) && (dead || call.status == CallStatus.Approved))
      && (refusal.Some? ==> refusal.value !in {"approval_expired", "parent_run_cancelled"})
  {
    if arguments.Some? && arguments.value.Some? {
      assert arguments == Some(Some(arguments.value.value));
    } else if arguments.Some? {
      assert arguments == Some(None);
    }
  }

  lemma FinalLaw(status: CallStatus)
    ensures CallFinal(status) <==> !Unfinished(status)
  {}

  lemma ParentErrors(db: Db, p: Principal, call: ToolCall)
    ensures RevalidateParent(db, p, call).Refused? ==>
      RevalidateParent(db, p, call).error !in {"approval_expired", "parent_run_cancelled"}
  {}

  lemma LiveOrOver(db: Db, p: Principal, call: ToolCall)
    ensures RevalidateParent(db, p, call).Live? <==> TL.OpenParent(db, p, call) && RunGoesOn(db, call)
    ensures RevalidateParent(db, p, call).Dead? <==> TL.OpenParent(db, p, call) && RunIsOver(db, call)
  {
    TL.ParentLaw(db, p, call);
    hide RevalidateParent;
  }

  /** In an open context whose run goes on, a run is admitted. */
  lemma GoesOnIsAdmitted(db: Db, p: Principal, call: ToolCall)
    requires TL.OpenParent(db, p, call) && RunGoesOn(db, call)
    ensures TL.Admits(db, p, None, call.run)
  {}

  /** A dispatch starts the call if and only if it is dispatchable, its approval, if it has one, covers it
      and is granted and in time, and one of the three slots of its budget is free; it replays the stored
      observation exactly for the caller's finished and observed calls; it ends an otherwise dispatchable
      call exactly when its granted approval is overdue, and writes a call off exactly when its run is
      over; and in every other case nothing changes. */
  lemma DispatchOutcome(
    db: Db, registry: Registry, p: Principal, id: CallId, arguments: Option<Option<Digest>>, w: Surroundings)
    ensures
      var txn := BeginExecution(db, registry, p, id, arguments, w);
      (txn.result == Ok(Execution.Started) <==>
        Dispatchable(db, registry, p, id, arguments, w) && Granted(db, id) && InTime(db, id, w.now)
        && |TL.HoldingSlots(db, p, db.calls[id].run)| < 3)
      && (txn.result == Ok(Execution.Started) ==> Started(db, txn.db, id, w.now))
      && (txn.result.Ok? && txn.result.value.Replayed? <==>
            OwnCall(db, p, id) && !Unfinished(db.calls[id].status) && id in db.observations)
      && (txn.result.Ok? && txn.result.value.Replayed? ==>
            txn.db == db && txn.result.value.observation == db.observations[id])
      && (txn.result == Err("approval_expired") <==>
            Dispatchable(db, registry, p, id, arguments, w) && Granted(db, id) && !InTime(db, id, w.now))
      && (txn.result == Err("approval_expired") ==> Overran(db, txn.db, id, w.now))
      && (txn.result == Err("parent_run_cancelled") <==>
            OwnCall(db, p, id) && Unfinished(db.calls[id].status) && StillAllowed(db.calls[id], registry, arguments, w)
            && TL.OpenParent(db, p, db.calls[id]) && RunIsOver(db, db.calls[id]))
      && (txn.result == Err("parent_run_cancelled") ==> WrittenOff(db, txn.db, id, w.now))
      && (txn.result.Err? && txn.result.error !in {"approval_expired", "parent_run_cancelled"} ==> txn.db == db)
  {
    hide ConsumeAuthority, CancelDispatch, WrittenOff, RevalidateParent, Started, Overran, DeviceReady, CallFinal,
      ExecutionRefusal, TL.Logged, TL.OpenParent, TL.Active, TL.HoldingSlots, TL.Admits, StillAllowed, Granted, InTime,
      Unfinished, RunGoesOn, RunIsOver;
    TL.ReadyIsActive(db, p.device, p.owner);
    if id in db.calls {
      var call := db.calls[id];
      var parent := RevalidateParent(db, p, call);
      WriteOffEffect(db, id, w.now);
      LiveOrOver(db, p, call);
      ParentErrors(db, p, call);
      RefusalLaw(call, registry, parent.Dead?, arguments, w);
      FinalLaw(call.status);
      ApprovedIsUnfinished();
      ConsumptionOutcome(db, p, id, w.now);
      if TL.OpenParent(db, p, call) && RunGoesOn(db, call) { GoesOnIsAdmitted(db, p, call); }
    }
  }

  lemma ApprovedIsUnfinished()
    ensures Unfinished(CallStatus.Approved)
  {}

  /** The outcome of a call is stored, observed and audited under one status, once. */
  ghost predicate Concluded(
    db: Db, after: Db, id: CallId, status: CallStatus, observed: ObservationStatus, kind: AuditKind, reason: string,
    now: Time)
  {
    id in db.calls
    && after == db.(calls := db.calls[id := db.calls[id].(status := status, completedAt := Some(now))],
                    observations := db.observations[id := Observation(observed, now)],
                    executing := db.executing - {id}, audit := after.audit, events := after.events)
    && TL.Logged(db, after, id, db.calls[id], [AuditEvent(Some(id), None, kind, Some(status), reason, now)])
  }

  /** What an execution reports is what is stored, observed, audited and shown: success, if and only if
      the executor succeeded with an output that fits its schema and was verified; cancellation, if and
      only if it says so; and failure in every other case, with the first thing that was wrong. */
  lemma OutcomeIsNormalised(db: Db, id: CallId, raw: RawOutcome, now: Time)
    requires id in db.calls && id !in db.observations
    ensures
      var txn := FinishExecution(db, id, raw, now);
      (txn.result.Err? <==> raw.Raised?)
      && match raw
         case Raised =>
           Concluded(db, txn.db, id, CallStatus.Failed, ObservationStatus.Failed, ToolFailed,
                     "executor_uncertain_outcome", now)
         case Returned(status, valid, verified) =>
           (if status == ObservationStatus.Cancelled then
              Concluded(db, txn.db, id, CallStatus.Cancelled, ObservationStatus.Cancelled, ToolCancelled, "cancelled", now)
            else if status == ObservationStatus.Succeeded && valid && verified then
              Concluded(db, txn.db, id, CallStatus.Succeeded, ObservationStatus.Succeeded, ToolSucceeded, "verified", now)
            else
              Concluded(db, txn.db, id, CallStatus.Failed, ObservationStatus.Failed, ToolFailed,
                        if status == ObservationStatus.Failed then "executor_failed"
                        else if !valid then "output_schema_invalid" else "verification_failed", now))
  {
    hide Observe, Concluded;
    var (status, reason) := Normalize(raw);
    ConclusionIs(db, id, status, reason, now);
  }

  lemma ConclusionIs(db: Db, id: CallId, status: ObservationStatus, reason: string, now: Time)
    requires id in db.calls
    ensures
      var observed := Observe(db.(executing := db.executing - {id}), id, status, db.calls[id].reason, reason, now);
      match status
      case Succeeded => Concluded(db, observed, id, CallStatus.Succeeded, status, ToolSucceeded, reason, now)
      case Failed => Concluded(db, observed, id, CallStatus.Failed, status, ToolFailed, reason, now)
      case Cancelled => Concluded(db, observed, id, CallStatus.Cancelled, status, ToolCancelled, reason, now)
  {
    var call := db.calls[id].(status := StatusOf(status), completedAt := Some(now));
    var written := db.(executing := db.executing - {id}, calls := db.calls[id := call],
                       observations := db.observations[id := Observation(status, now)]);
    TL.AuditLaw(written, id, OutcomeKind(status), reason, now, None);
    hide Audit;
  }

  /** A second outcome for the same call is refused as a whole. */
  lemma SecondOutcomeIsRefused(db: Db, id: CallId, raw: RawOutcome, now: Time)
    requires id in db.calls && id in db.observations
    ensures FinishExecution(db, id, raw, now).db == db.(executing := db.executing - {id})
    ensures FinishExecution(db, id, raw, now).result == Err("integrity_error")
  {}

  /** A second dispatch of a running call whose run is over writes the call off as CANCELLED; the
      execution in flight may still come back and turn it into SUCCEEDED. */
  lemma WrittenOffCallMaySucceed(
    db: Db, registry: Registry, p: Principal, id: CallId, arguments: Option<Option<Digest>>, w: Surroundings, now: Time)
    requires OwnCall(db, p, id) && db.calls[id].status == CallStatus.Executing && id !in db.observations
    requires TL.OpenParent(db, p, db.calls[id]) && RunIsOver(db, db.calls[id])
    requires StillAllowed(db.calls[id], registry, arguments, w)
    ensures
      var written := BeginExecution(db, registry, p, id, arguments, w).db;
      var finished := FinishExecution(written, id, Returned(ObservationStatus.Succeeded, true, true), now).db;
      id in written.calls && written.calls[id].status == CallStatus.Cancelled
      && (id in db.executing ==> id in written.executing)
      && id in finished.calls && finished.calls[id].status == CallStatus.Succeeded
      && id in finished.observations && finished.observations[id].status == ObservationStatus.Succeeded
  {
    hide BeginExecution, FinishExecution, OwnCall, TL.OpenParent, RunIsOver, StillAllowed, TL.Logged;
    ExecutingIsUnfinished();
    DispatchOutcome(db, registry, p, id, arguments, w);
    OutcomeIsNormalised(BeginExecution(db, registry, p, id, arguments, w).db, id,
                        Returned(ObservationStatus.Succeeded, true, true), now);
  }

  lemma ExecutingIsUnfinished()
    ensures Unfinished(CallStatus.Executing)
  {}

  // --- the sweeps ---

  predicate Overdue(approvals: map<ApprovalId, Approval>, aid: ApprovalId, now: Time) {
    aid in approvals && approvals[aid].status == ApprovalStatus.Pending && approvals[aid].expiresAt <= now
  }

  function OverdueIn(approvals: map<ApprovalId, Approval>, now: Time): set<ApprovalId> {
    set aid | aid in approvals && Overdue(approvals, aid, now)
  }

  /** Exactly the approvals `gone`, and the calls that waited for them, expired. */
  ghost predicate Expired(
    calls: map<CallId, ToolCall>, approvals: map<ApprovalId, Approval>, callsAfter: map<CallId, ToolCall>,
    approvalsAfter: map<ApprovalId, Approval>, gone: set<ApprovalId>)
  {
    approvalsAfter.Keys == approvals.Keys && callsAfter.Keys == calls.Keys
    && (forall aid :: aid in approvals ==>
          approvalsAfter[aid]
          == if aid in gone then approvals[aid].(status := ApprovalStatus.Expired) else approvals[aid])
    && forall id :: id in calls ==>
         callsAfter[id]
         == if calls[id].approval.Some? && calls[id].approval.value in gone
            then calls[id].(status := CallStatus.Expired, reason := "approval_expired") else calls[id]
  }

  lemma ExpireOneIs(db: Db, aid: ApprovalId, now: Time)
    requires Overdue(db.approvals, aid, now) && db.approvals[aid].call in db.calls
    requires db.calls[db.approvals[aid].call].status == CallStatus.AwaitingApproval
    ensures
      var after, id := ExpireOne(db, aid, now), db.approvals[aid].call;
      after.approvals == db.approvals[aid := db.approvals[aid].(status := ApprovalStatus.Expired)]
      && after.calls == db.calls[id := db.calls[id].(status := CallStatus.Expired, reason := "approval_expired")]
  {
    hide Audit;
  }

  lemma ExpireOneMore(db: Db, before: Db, gone: set<ApprovalId>, aid: ApprovalId, now: Time)
    requires ToolsOk(db) && Expired(db.calls, db.approvals, before.calls, before.approvals, gone)
    requires aid !in gone && Overdue(db.approvals, aid, now)
    ensures var after := ExpireOne(before, aid, now);
      Expired(db.calls, db.approvals, after.calls, after.approvals, gone + {aid})
  {
    hide ToolsOk, ViewOf, CallOk, ExpireOne, Synchronised;
    WaitsForIt(db, aid);
    OthersKeepTheirs(db, aid);
    ExpireOneIs(before, aid, now);
  }

  lemma WaitsForIt(db: Db, aid: ApprovalId)
    requires ToolsOk(db) && aid in db.approvals && db.approvals[aid].status == ApprovalStatus.Pending
    ensures var id := db.approvals[aid].call;
      id in db.calls && db.calls[id].approval == Some(aid) && db.calls[id].status == CallStatus.AwaitingApproval
  {
    hide CallOk, RowsLinked;
    TS.ViewHasApproval(db, aid);
    TS.OkMeansSynchronised(ViewOf(db, db.approvals[aid].call));
  }

  lemma OthersKeepTheirs(db: Db, aid: ApprovalId)
    requires ToolsOk(db) && aid in db.approvals
    ensures forall id :: id in db.calls && db.calls[id].approval == Some(aid) ==> id == db.approvals[aid].call
  {
    hide CallOk;
  }

  lemma {:induction false} ExpireAllExpires(db: Db, ids: seq<ApprovalId>, now: Time)
    requires ToolsOk(db) && (forall aid :: aid in ids ==> Overdue(db.approvals, aid, now))
    requires forall i, j :: 0 <= i < j < |ids| ==> ids[i] != ids[j]
    ensures var after := ExpireAll(db, ids, now);
      Expired(db.calls, db.approvals, after.calls, after.approvals, Elements(ids))
  {
    hide ToolsOk, ExpireOne, Expired, Elements;
    ElementsSnoc(ids);
    if ids == [] {
      NoneExpired(db);
    } else {
      var n := |ids| - 1;
      assert ids == ids[..n] + [ids[n]] && ids[n] !in ids[..n];
      ElementsAre(ids[..n]);
      ExpireAllExpires(db, ids[..n], now);
      ExpireOneMore(db, ExpireAll(db, ids[..n], now), Elements(ids[..n]), ids[n], now);
    }
  }

  lemma ElementsAre<T>(rows: seq<T>)
    ensures forall row :: row in Elements(rows) <==> row in rows
  {}

  lemma NoneExpired(db: Db)
    ensures Expired(db.calls, db.approvals, db.calls, db.approvals, {})
  {}

  function CallOf(approvals: map<ApprovalId, Approval>, aid: ApprovalId): Option<CallId> {
    if aid in approvals then Some(approvals[aid].call) else None
  }

  /** One entry for each expired approval and its call, in the order of the query. */
  function ExpiryEntries(approvals: map<ApprovalId, Approval>, ids: seq<ApprovalId>, now: Time): seq<AuditEvent> {
    seq(|ids|, i requires 0 <= i < |ids| =>
      AuditEvent(CallOf(approvals, ids[i]), Some(ids[i]), ApprovalExpired, Some(CallStatus.Expired), "approval_expired", now))
  }

  lemma {:induction false} ExpiryIsAudited(db: Db, ids: seq<ApprovalId>, now: Time)
    requires ToolsOk(db) && (forall aid :: aid in ids ==> Overdue(db.approvals, aid, now))
    requires forall i, j :: 0 <= i < j < |ids| ==> ids[i] != ids[j]
    ensures ExpireAll(db, ids, now).audit == db.audit + ExpiryEntries(db.approvals, ids, now)
  {
    hide ToolsOk, ExpireOne, Expired, Elements, CallOf, Overdue;
    if ids != [] {
      var n := |ids| - 1;
      assert ids == ids[..n] + [ids[n]] && ids[n] !in ids[..n];
      ExpiryIsAudited(db, ids[..n], now);
      NextIsAudited(db, ids[..n], ids[n], now);
      assert ExpiryEntries(db.approvals, ids, now)
        == ExpiryEntries(db.approvals, ids[..n], now)
           + [AuditEvent(CallOf(db.approvals, ids[n]), Some(ids[n]), ApprovalExpired, Some(CallStatus.Expired),
                         "approval_expired", now)];
    }
  }

  lemma NextIsAudited(db: Db, done: seq<ApprovalId>, aid: ApprovalId, now: Time)
    requires ToolsOk(db) && (forall a :: a in done ==> Overdue(db.approvals, a, now)) && Overdue(db.approvals, aid, now)
    requires aid !in done && forall i, j :: 0 <= i < j < |done| ==> done[i] != done[j]
    ensures
      var before := ExpireAll(db, done, now);
      ExpireOne(before, aid, now).audit
      == before.audit + [AuditEvent(CallOf(db.approvals, aid), Some(aid), ApprovalExpired, Some(CallStatus.Expired),
                                    "approval_expired", now)]
  {
    ExpireAllExpires(db, done, now);
    ElementsAre(done);
    OverdueWaits(db, aid, now);
    hide ToolsOk, ExpireOne, ExpireAll, Expired, Elements;
    var before := ExpireAll(db, done, now);
    StillOverdue(db, before, Elements(done), aid, now);
    ExpireOneIsAudited(before, aid, now);
  }

  lemma OverdueWaits(db: Db, aid: ApprovalId, now: Time)
    requires ToolsOk(db) && Overdue(db.approvals, aid, now)
    ensures aid in db.approvals && db.approvals[aid].call in db.calls
    ensures db.calls[db.approvals[aid].call].status == CallStatus.AwaitingApproval
    ensures db.calls[db.approvals[aid].call].approval == Some(aid)
  {
    hide ToolsOk;
    WaitsForIt(db, aid);
  }

  lemma StillOverdue(db: Db, before: Db, gone: set<ApprovalId>, aid: ApprovalId, now: Time)
    requires Expired(db.calls, db.approvals, before.calls, before.approvals, gone) && aid !in gone
    requires Overdue(db.approvals, aid, now) && db.approvals[aid].call in db.calls
    requires db.calls[db.approvals[aid].call].status == CallStatus.AwaitingApproval
    requires db.calls[db.approvals[aid].call].approval == Some(aid)
    ensures aid in before.approvals && before.approvals[aid] == db.approvals[aid] && Overdue(before.approvals, aid, now)
    ensures db.approvals[aid].call in before.calls
      && before.calls[db.approvals[aid].call].status == CallStatus.AwaitingApproval
  {}

  lemma ExpireOneIsAudited(db: Db, aid: ApprovalId, now: Time)
    requires Overdue(db.approvals, aid, now) && db.approvals[aid].call in db.calls
    requires db.calls[db.approvals[aid].call].status == CallStatus.AwaitingApproval
    ensures ExpireOne(db, aid, now).audit
      == db.audit + [AuditEvent(Some(db.approvals[aid].call), Some(aid), ApprovalExpired, Some(CallStatus.Expired),
                                "approval_expired", now)]
  {
    TL.TransitionLaw(SetApproval(db, aid, ApprovalStatus.Expired), db.approvals[aid].call, CallStatus.Expired,
                     "approval_expired", ApprovalExpired, "approval_expired", now, Some(aid));
    hide Transition;
  }

  /** The expiry sweep expires exactly the overdue pending approvals and the calls that waited for
      them, in one transaction, and touches no other row of the two tables; each is audited once. */
  lemma ExpirySweepIsExact(db: Db, ids: seq<ApprovalId>, now: Time)
    requires ToolsOk(db) && ExpiryCandidates(db, now, ids)
    ensures var after := ExpireAll(db, ids, now);
      Expired(db.calls, db.approvals, after.calls, after.approvals, OverdueIn(db.approvals, now))
      && (forall aid :: !Overdue(after.approvals, aid, now))
      && (forall aid :: aid in ids ==> aid in db.approvals)
      && after.audit == db.audit + ExpiryEntries(db.approvals, ids, now)
  {
    hide ToolsOk;
    ExpiryIsAudited(db, ids, now);
    ExpireAllExpires(db, ids, now);
    var gone := OverdueIn(db.approvals, now);
    assert Elements(ids) == gone;
    var after := ExpireAll(db, ids, now);
    NothingOverdue(db.calls, db.approvals, after.calls, after.approvals, gone, now);
  }

  lemma NothingOverdue(
    calls: map<CallId, ToolCall>, approvals: map<ApprovalId, Approval>, callsAfter: map<CallId, ToolCall>,
    approvalsAfter: map<ApprovalId, Approval>, gone: set<ApprovalId>, now: Time)
    requires Expired(calls, approvals, callsAfter, approvalsAfter, gone)
    requires gone == OverdueIn(approvals, now)
    ensures forall aid :: !Overdue(approvalsAfter, aid, now)
  {}

  predicate Stale(call: ToolCall) {
    call.status in {CallStatus.Executing, CallStatus.CancelRequested}
  }

  function StaleIn(calls: map<CallId, ToolCall>): set<CallId> {
    set id | id in calls && Stale(calls[id])
  }

  function FailedCall(call: ToolCall, now: Time): ToolCall {
    call.(status := CallStatus.Failed, reason := "stale_execution_reconciled", completedAt := Some(now))
  }

  /** `after` differs from `db` in that exactly the calls `lost` failed, each with an observation. */
  ghost predicate Reconciled(db: Db, after: Db, lost: set<CallId>, now: Time) {
    after.calls.Keys == db.calls.Keys && after.approvals == db.approvals
    && after.observations.Keys == db.observations.Keys + lost
    && (forall id :: id in db.calls ==>
          after.calls[id] == if id in lost then FailedCall(db.calls[id], now) else db.calls[id])
    && forall id :: id in after.observations ==>
         after.observations[id]
         == if id in lost then Observation(ObservationStatus.Failed, now)
            else if id in db.observations then db.observations[id] else after.observations[id]
  }

  lemma ReconcileOneMore(db: Db, before: Db, lost: set<CallId>, id: CallId, now: Time)
    requires Reconciled(db, before, lost, now) && id !in lost && id in db.calls && id !in db.observations
    ensures
      var after := Observe(before, id, ObservationStatus.Failed, "stale_execution_reconciled",
                           "stale_execution_reconciled", now);
      Reconciled(db, after, lost + {id}, now)
  {
    hide Audit;
  }

  lemma {:induction false} ReconcileAllFails(db: Db, ids: seq<CallId>, now: Time)
    requires forall id :: id in ids ==> id in db.calls && id !in db.observations
    requires forall i, j :: 0 <= i < j < |ids| ==> ids[i] != ids[j]
    ensures ReconcileAll(db, ids, now).Some?
    ensures Reconciled(db, ReconcileAll(db, ids, now).value, Elements(ids), now)
  {
    hide Observe, Reconciled, ReconcileAll, Elements;
    ElementsSnoc(ids);
    if ids == [] {
      NoneReconciled(db, now);
      ReconcileNone(db, now);
    } else {
      var n := |ids| - 1;
      assert ids == ids[..n] + [ids[n]] && ids[n] !in ids[..n];
      ElementsAre(ids[..n]);
      ReconcileAllFails(db, ids[..n], now);
      var before := ReconcileAll(db, ids[..n], now).value;
      var lost := Elements(ids[..n]);
      ReconciledRows(db, before, lost, now);
      ReconcileNext(db, ids, now);
      ReconcileOneMore(db, before, lost, ids[n], now);
    }
  }

  lemma ReconcileNext(db: Db, ids: seq<CallId>, now: Time)
    requires ids != [] && ReconcileAll(db, ids[..|ids| - 1], now).Some?
    ensures
      var before := ReconcileAll(db, ids[..|ids| - 1], now).value;
      var id := ids[|ids| - 1];
      id in before.calls && id !in before.observations ==>
        ReconcileAll(db, ids, now)
        == Some(Observe(before, id, ObservationStatus.Failed, "stale_execution_reconciled",
                        "stale_execution_reconciled", now))
  {
    hide Observe;
  }

  lemma ReconcileNone(db: Db, now: Time)
    ensures ReconcileAll(db, [], now) == Some(db)
  {}

  lemma NoneReconciled(db: Db, now: Time)
    ensures Reconciled(db, db, {}, now)
  {}

  lemma ReconciledRows(db: Db, after: Db, lost: set<CallId>, now: Time)
    requires Reconciled(db, after, lost, now)
    ensures after.calls.Keys == db.calls.Keys && after.observations.Keys == db.observations.Keys + lost
  {}

  /** One failure for each call, in the order of the query. */
  function FailureEntries(ids: seq<CallId>, now: Time): seq<AuditEvent> {
    seq(|ids|, i requires 0 <= i < |ids| =>
      AuditEvent(Some(ids[i]), None, ToolFailed, Some(CallStatus.Failed), "stale_execution_reconciled", now))
  }

  lemma FailureIsAudited(db: Db, id: CallId, now: Time)
    requires id in db.calls
    ensures Observe(db, id, ObservationStatus.Failed, "stale_execution_reconciled", "stale_execution_reconciled", now).audit
      == db.audit + [AuditEvent(Some(id), None, ToolFailed, Some(CallStatus.Failed), "stale_execution_reconciled", now)]
  {
    var call := db.calls[id].(status := CallStatus.Failed, reason := "stale_execution_reconciled", completedAt := Some(now));
    TL.AuditLaw(db.(calls := db.calls[id := call],
                    observations := db.observations[id := Observation(ObservationStatus.Failed, now)]),
                id, ToolFailed, "stale_execution_reconciled", now, None);
    hide Audit;
  }

  lemma {:induction false} FailuresAreAudited(db: Db, ids: seq<CallId>, now: Time)
    requires ReconcileAll(db, ids, now).Some?
    ensures ReconcileAll(db, ids, now).value.audit == db.audit + FailureEntries(ids, now)
  {
    hide Observe;
    if ids != [] {
      var n := |ids| - 1;
      FailuresAreAudited(db, ids[..n], now);
      FailureIsAudited(ReconcileAll(db, ids[..n], now).value, ids[n], now);
      assert FailureEntries(ids, now) == FailureEntries(ids[..n], now)
        + [AuditEvent(Some(ids[n]), None, ToolFailed, Some(CallStatus.Failed), "stale_execution_reconciled", now)];
    }
  }

  /** The reconciliation sweep never trips over an existing observation; it fails exactly the calls an
      executor may have been lost for, each with one observation and one audited failure, and leaves none
      behind. */
  lemma ReconciliationSweepIsExact(db: Db, ids: seq<CallId>, now: Time)
    requires ToolsOk(db) && StaleCalls(db, ids)
    ensures ReconcileAll(db, ids, now).Some?
    ensures
      var after := Reconcile(db, ids, now);
      Reconciled(db, after, StaleIn(db.calls), now)
      && (forall id :: id in after.calls ==> !Stale(after.calls[id]))
      && after.audit == db.audit + FailureEntries(ids, now)
  {
    hide FailureEntries, ToolsOk, ReconcileAll, Stale, Reconciled, Elements, StaleIn;
    StaleOnes(db, ids);
    forall id | id in ids ensures id in db.calls && id !in db.observations {
      StaleIsUnobserved(db, id);
    }
    ReconcileAllFails(db, ids, now);
    FailuresAreAudited(db, ids, now);
    NoneStale(db, ReconcileAll(db, ids, now).value, Elements(ids), now);
  }

  lemma StaleOnes(db: Db, ids: seq<CallId>)
    requires StaleCalls(db, ids)
    ensures forall id :: id in ids ==> id in db.calls && Stale(db.calls[id])
    ensures Elements(ids) == StaleIn(db.calls)
  {}

  lemma NoneStale(db: Db, after: Db, lost: set<CallId>, now: Time)
    requires Reconciled(db, after, lost, now) && lost == StaleIn(db.calls)
    ensures forall id :: id in after.calls ==> !Stale(after.calls[id])
  {}

  lemma StaleIsUnobserved(db: Db, id: CallId)
    requires ToolsOk(db) && id in db.calls && Stale(db.calls[id])
    ensures id !in db.observations
  {
    hide ToolsOk, CallOk, ViewOf;
    TS.ViewIsOk(db, id);
    UnobservedView(ViewOf(db, id));
    ViewObserves(db, id);
  }

  lemma UnobservedView(v: View)
    requires CallOk(v) && Stale(v.call)
    ensures v.observation.None?
  {}

  lemma ViewObserves(db: Db, id: CallId)
    requires id in db.calls
    ensures ViewOf(db, id).observation.Some? <==> id in db.observations
  {}
}
