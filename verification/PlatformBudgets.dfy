/** Counting bounds that hold in every reachable state: proposals, executions, approvals per
    bucket, and requests per sliding window. */
module PlatformBudgets {
  import opened Prelude
  import opened Store
  import opened ToolAuthority
  import opened ToolViews
  import opened ToolInvariants
  import opened Conversations
  import opened RunInvariants
  import opened Platform
  import RS = RunSteps

  /** The calls of a bucket that hold one of its execution slots. */
  ghost function Slots(db: Db, bucket: Bucket): set<CallId> {
    set id | id in db.calls && CallBucket(db.calls[id]) == bucket && HoldsSlot(ViewOf(db, id))
  }

  /** One more approval-required call fits a bucket for which some request was counted unflushed. */
  ghost function ApprovalCap(loose: iset<Bucket>, bucket: Bucket): nat {
    if bucket in loose then 3 else 2
  }

  /** At most 4 calls per bucket, at most 3 of them holding a slot, at most 2 of them having required
      approval, or 3 in a loose bucket. */
  ghost predicate WithinBudgets(db: Db, loose: iset<Bucket>) {
    forall bucket {:trigger ProposedIn(db, bucket)} ::
      |ProposedIn(db, bucket)| <= 4 && |Slots(db, bucket)| <= 3 && |ApprovalRequiredIn(db, bucket)| <= ApprovalCap(loose, bucket)
  }

  // --- what a request may add ---

  /** `after` holds one more call, which the counts of `db` left room for. */
  ghost predicate AddsCall(db: Db, after: Db, d: Descriptor, p: Principal, r: ToolRequest, w: Surroundings) {
    var id := w.freshCall;
    var bucket := BucketOf(p.owner, p.device, r.run);
    id !in db.calls && after.calls.Keys == db.calls.Keys + {id}
    && (forall other :: other in db.calls ==> after.calls[other] == db.calls[other])
    && var call := after.calls[id];
       call.owner == p.owner && call.device == p.device && call.run == r.run
       && call.tool == d.name && call.key == r.key && call.createdAt == w.now
       && call.status in {CallStatus.Denied, CallStatus.Approved, CallStatus.AwaitingApproval}
       && |Recent(db, p.device, d.name, w.now - d.windowSeconds)| < d.maxRequests
       && |ProposedIn(db, bucket)| < MAX_PROPOSALS
       && (call.decision == Some(RequireApproval) ==>
             |ApprovalRequiredIn(db, bucket)| + (if w.decisionFlushed then 1 else 0) <= MAX_APPROVALS)
  }

  /** What the guards of a request established before anything was written. */
  lemma StageAdmits(db: Db, d: Descriptor, p: Principal, r: ToolRequest, w: Surroundings)
    requires StageCall(db, d, p, r, w).db != db
    ensures w.freshCall !in db.calls
    ensures |Recent(db, p.device, d.name, w.now - d.windowSeconds)| < d.maxRequests
    ensures |ProposedIn(db, BucketOf(p.owner, p.device, r.run))| < MAX_PROPOSALS
    ensures Permission(d, w).0 == RequireApproval ==>
      |ApprovalRequiredIn(db, BucketOf(p.owner, p.device, r.run))| + (if w.decisionFlushed then 1 else 0)
        <= MAX_APPROVALS
  {
    hide Recent, ProposedIn, ApprovalRequiredIn, Permission, Audit, Transition, Decided, DecidedCall, BucketOf;
  }

  lemma StagedFields(d: Descriptor, p: Principal, r: ToolRequest, w: Surroundings)
    ensures var call := StagedCall(d, p, r, w);
      call.owner == p.owner && call.device == p.device && call.run == r.run
      && call.tool == d.name && call.key == r.key && call.createdAt == w.now
      && call.status in {CallStatus.Denied, CallStatus.Approved, CallStatus.AwaitingApproval}
      && call.decision == Some(Permission(d, w).0)
  {
    hide Permission;
  }

  lemma StageFacts(db: Db, d: Descriptor, p: Principal, r: ToolRequest, w: Surroundings)
    ensures var after := StageCall(db, d, p, r, w).db;
      after.starts == db.starts && after.executing == db.executing
      && (after == db || AddsCall(db, after, d, p, r, w))
  {
    hide StageCall, StagedCall, Recent, ProposedIn, ApprovalRequiredIn, Permission, BucketOf;
    if StageCall(db, d, p, r, w).db != db {
      StageAdmits(db, d, p, r, w);
      StagedFields(d, p, r, w);
    }
  }

  /** A request adds a call only after the counts left room for it. */
  lemma RequestFacts(db: Db, registry: Registry, p: Principal, r: ToolRequest, w: Surroundings)
    ensures
      var after := RequestTool(db, registry, p, r, w).db;
      after.starts == db.starts && after.executing == db.executing
      && (after.calls == db.calls
        || ((r.name, r.version) in registry && AddsCall(db, after, registry[(r.name, r.version)], p, r, w)
            && StageCall(db, registry[(r.name, r.version)], p, r, w).db == after))
  {
    hide ContextBinding, FindIdempotent, DeviceReady, StageCall, AddsCall;
    if (r.name, r.version) in registry {
      StageFacts(db, registry[(r.name, r.version)], p, r, w);
    }
  }

  /** An execution starts only while its bucket has a free slot and its parent run is alive. */
  lemma BeginFacts(
    db: Db, registry: Registry, p: Principal, id: CallId, arguments: Option<Option<Digest>>, w: Surroundings)
    ensures
      var after := BeginExecution(db, registry, p, id, arguments, w).db;
      after.starts == db.starts
      || (after.starts == db.starts + [id] && id in db.calls && !ParentDead(db, db.calls[id])
          && |ExecutedIn(db, CallBucket(db.calls[id]))| < MAX_EXECUTIONS)
  {
    hide BeginExecution, ContextBinding, Audit, Transition, ApprovalBinds, ExecutedIn, RevalidateParent;
    var after := BeginExecution(db, registry, p, id, arguments, w).db;
    if after.starts != db.starts {
      BeginIsConsume(db, registry, p, id, arguments, w);
      var call := db.calls[id];
      LiveMeansNotDead(db, p, call);
      if call.approval.Some? {
        var aid := call.approval.value;
        var consumed := db.approvals[aid].(status := Consumed, consumedAt := Some(w.now));
        ApprovalsDoNotCount(db, db.approvals[aid := consumed], CallBucket(call));
      }
    }
  }

  lemma BeginIsConsume(
    db: Db, registry: Registry, p: Principal, id: CallId, arguments: Option<Option<Digest>>, w: Surroundings)
    ensures
      var after := BeginExecution(db, registry, p, id, arguments, w).db;
      after.starts == db.starts
      || (id in db.calls && db.calls[id].owner == p.owner && db.calls[id].device == p.device
          && RevalidateParent(db, p, db.calls[id]).Live?
          && after == ConsumeAuthority(db, p, id, w.now).db)
  {
    hide ExecutionRefusal, Transition, DeviceReady, CallFinal, RevalidateParent, ConsumeAuthority, CancelDispatch;
    if id in db.calls {
      DispatchStartsNothing(db, id, w.now);
    }
  }

  lemma DispatchStartsNothing(db: Db, id: CallId, now: Time)
    requires id in db.calls
    ensures CancelDispatch(db, id, now).starts == db.starts
  {
    hide Transition;
  }

  lemma LiveMeansNotDead(db: Db, p: Principal, call: ToolCall)
    requires RevalidateParent(db, p, call).Live?
    ensures !ParentDead(db, call)
  {}

  lemma ApprovalsDoNotCount(db: Db, approvals: map<ApprovalId, Approval>, bucket: Bucket)
    ensures ExecutedIn(db.(approvals := approvals), bucket) == ExecutedIn(db, bucket)
  {}

  // --- the sets under each kind of step ---

  lemma SameCalls(db: Db, after: Db, loose: iset<Bucket>)
    requires WithinBudgets(db, loose) && after.calls == db.calls && after.executing <= db.executing
    ensures WithinBudgets(after, loose)
  {
    forall bucket
      ensures |ProposedIn(after, bucket)| <= MAX_PROPOSALS && |Slots(after, bucket)| <= MAX_EXECUTIONS
        && |ApprovalRequiredIn(after, bucket)| <= ApprovalCap(loose, bucket)
    {
      assert ProposedIn(after, bucket) == ProposedIn(db, bucket);
      assert ApprovalRequiredIn(after, bucket) == ApprovalRequiredIn(db, bucket);
      assert Slots(after, bucket) <= Slots(db, bucket);
      CardinalityMonotone(Slots(after, bucket), Slots(db, bucket));
    }
  }

  lemma OldCallFacts(before: View, after: View, finishing: bool)
    requires Moves(before, after, finishing)
    ensures CallBucket(after.call) == CallBucket(before.call) && after.call.decision == before.call.decision
    ensures after.call.createdAt == before.call.createdAt && after.call.tool == before.call.tool
      && after.call.device == before.call.device && after.call.key == before.call.key
      && after.call.owner == before.call.owner
    ensures HoldsSlot(after) && after.starts == before.starts ==> HoldsSlot(before)
  {}

  /** Calls that were there before stay in their bucket; only `started` may take a new slot. */
  lemma OldMembers(
    db: Db, after: Db, finishing: Option<CallId>, born: set<CallId>, bucket: Bucket, started: set<CallId>)
    requires EvolvesWith(db, after, finishing, born)
    requires forall id :: id in db.calls && id !in started ==>
      multiset(after.starts)[id] == multiset(db.starts)[id]
    ensures ProposedIn(after, bucket) - born <= ProposedIn(db, bucket)
    ensures ApprovalRequiredIn(after, bucket) - born <= ApprovalRequiredIn(db, bucket)
    ensures Slots(after, bucket) - born <= Slots(db, bucket) + started
    ensures forall id :: id in Slots(after, bucket) - born ==>
      id in db.calls && CallBucket(db.calls[id]) == bucket
  {
    hide Moves, NoNewOrphan, Projects, HoldsSlot;
    forall id | id in db.calls
      ensures CallBucket(after.calls[id]) == CallBucket(db.calls[id])
      ensures after.calls[id].decision == db.calls[id].decision
      ensures HoldsSlot(ViewOf(after, id)) && id !in started ==> HoldsSlot(ViewOf(db, id))
    {
      OldCallFacts(ViewOf(db, id), ViewOf(after, id), finishing == Some(id));
    }
  }

  lemma QuietStep(db: Db, after: Db, finishing: Option<CallId>, loose: iset<Bucket>)
    requires WithinBudgets(db, loose) && Evolves(db, after, finishing) && after.starts == db.starts
    ensures WithinBudgets(after, loose)
  {
    hide EvolvesWith;
    forall bucket
      ensures |ProposedIn(after, bucket)| <= MAX_PROPOSALS && |Slots(after, bucket)| <= MAX_EXECUTIONS
        && |ApprovalRequiredIn(after, bucket)| <= ApprovalCap(loose, bucket)
    {
      OldMembers(db, after, finishing, {}, bucket, {});
      hide Slots, ProposedIn, ApprovalRequiredIn;
      CardinalityMonotone(ProposedIn(after, bucket), ProposedIn(db, bucket));
      CardinalityMonotone(Slots(after, bucket), Slots(db, bucket));
      CardinalityMonotone(ApprovalRequiredIn(after, bucket), ApprovalRequiredIn(db, bucket));
    }
  }

  /** While the parent of a call is alive, its bucket's slots are exactly what the budget counts. */
  lemma LiveBucketCounts(db: Db, id: CallId)
    requires Orphans(db) && id in db.calls && !ParentDead(db, db.calls[id])
    ensures Slots(db, CallBucket(db.calls[id])) <= ExecutedIn(db, CallBucket(db.calls[id]))
  {}

  lemma BeginStep(
    db: Db, registry: Registry, p: Principal, id: CallId, arguments: Option<Option<Digest>>, w: Surroundings,
    loose: iset<Bucket>)
    requires Good(db) && WithinBudgets(db, loose)
    ensures WithinBudgets(BeginExecution(db, registry, p, id, arguments, w).db, loose)
  {
    hide ToolsOk, Evolves, EvolvesWith, BeginExecution, HoldsSlot, RS.Sound, Orphans, WithinBudgets, ParentDead,
      Slots, ProposedIn, ApprovalRequiredIn, ExecutedIn;
    var after := BeginExecution(db, registry, p, id, arguments, w).db;
    ToolStep(db, Begin(registry, p, id, arguments, w));
    BeginFacts(db, registry, p, id, arguments, w);
    if after.starts == db.starts {
      QuietStep(db, after, None, loose);
    } else {
      var own := CallBucket(db.calls[id]);
      LiveBucketCounts(db, id);
      CardinalityMonotone(Slots(db, own), ExecutedIn(db, own));
      EvolvesIs(db, after);
      forall bucket
        ensures |ProposedIn(after, bucket)| <= MAX_PROPOSALS && |Slots(after, bucket)| <= MAX_EXECUTIONS
          && |ApprovalRequiredIn(after, bucket)| <= ApprovalCap(loose, bucket)
      {
        OldMembers(db, after, None, {}, bucket, {id});
        InBudget(db, loose, bucket);
        CardinalityMonotone(ProposedIn(after, bucket), ProposedIn(db, bucket));
        CardinalityMonotone(ApprovalRequiredIn(after, bucket), ApprovalRequiredIn(db, bucket));
        assert Slots(after, bucket) - {} == Slots(after, bucket);
        if bucket == own {
          CardinalityGrowth(Slots(db, bucket), Slots(after, bucket), id);
        } else {
          CardinalityMonotone(Slots(after, bucket), Slots(db, bucket));
        }
      }
      BudgetsAre(after, loose);
    }
  }

  lemma BudgetsAre(db: Db, loose: iset<Bucket>)
    requires forall bucket {:trigger ProposedIn(db, bucket)} ::
      |ProposedIn(db, bucket)| <= MAX_PROPOSALS && |Slots(db, bucket)| <= MAX_EXECUTIONS
      && |ApprovalRequiredIn(db, bucket)| <= ApprovalCap(loose, bucket)
    ensures WithinBudgets(db, loose)
  {
    hide ProposedIn, ApprovalRequiredIn, Slots, ApprovalCap;
    forall bucket
      ensures |ProposedIn(db, bucket)| <= 4 && |Slots(db, bucket)| <= 3
        && |ApprovalRequiredIn(db, bucket)| <= ApprovalCap(loose, bucket)
    {}
  }

  lemma EvolvesIs(db: Db, after: Db)
    requires Evolves(db, after, None)
    ensures EvolvesWith(db, after, None, {})
  {}

  /** With one more call that the counts left room for, every bucket stays within its budgets. */
  lemma NewcomerFits(
    db: Db, after: Db, d: Descriptor, p: Principal, r: ToolRequest, w: Surroundings, loose: iset<Bucket>, bucket: Bucket)
    requires ToolsOk(db) && WithinBudgets(db, loose) && AddsCall(db, after, d, p, r, w)
    requires EvolvesWith(db, after, None, {w.freshCall})
    requires after.starts == db.starts && after.executing == db.executing
    requires w.decisionFlushed || BucketOf(p.owner, p.device, r.run) in loose
    ensures |ProposedIn(after, bucket)| <= MAX_PROPOSALS && |Slots(after, bucket)| <= MAX_EXECUTIONS
    ensures |ApprovalRequiredIn(after, bucket)| <= ApprovalCap(loose, bucket)
  {
    hide ToolsOk, EvolvesWith, WithinBudgets, Slots, ProposedIn, ApprovalRequiredIn, HoldsSlot, ViewOf;
    var id := w.freshCall;
    NewbornIdle(db, after, id);
    OldMembers(db, after, None, {id}, bucket, {});
    NewMember(db, after, id, bucket);
    InBudget(db, loose, bucket);
    if bucket == BucketOf(p.owner, p.device, r.run) {
      CardinalityGrowth(ProposedIn(db, bucket), ProposedIn(after, bucket), id);
      CardinalityGrowth(ApprovalRequiredIn(db, bucket), ApprovalRequiredIn(after, bucket), id);
      if after.calls[id].decision != Some(RequireApproval) {
        CardinalityMonotone(ApprovalRequiredIn(after, bucket), ApprovalRequiredIn(db, bucket));
      }
    } else {
      CardinalityMonotone(ProposedIn(after, bucket), ProposedIn(db, bucket));
      CardinalityMonotone(ApprovalRequiredIn(after, bucket), ApprovalRequiredIn(db, bucket));
    }
    CardinalityMonotone(Slots(after, bucket), Slots(db, bucket));
  }

  lemma RequestStep(
    db: Db, registry: Registry, p: Principal, r: ToolRequest, w: Surroundings, loose: iset<Bucket>)
    requires Good(db) && WithinBudgets(db, loose)
    requires w.decisionFlushed || BucketOf(p.owner, p.device, r.run) in loose
    ensures WithinBudgets(RequestTool(db, registry, p, r, w).db, loose)
  {
    hide ToolsOk, Evolves, EvolvesWith, RequestTool, StageCall, RS.Sound, Orphans, WithinBudgets, Slots, ProposedIn,
      ApprovalRequiredIn, AddsCall;
    var after := RequestTool(db, registry, p, r, w).db;
    RequestFacts(db, registry, p, r, w);
    if after.calls == db.calls {
      SameCalls(db, after, loose);
    } else {
      var d := registry[(r.name, r.version)];
      ToolStep(db, Request(registry, p, r, w));
      OneIsBorn(db, after, d, p, r, w);
      forall bucket
        ensures |ProposedIn(after, bucket)| <= MAX_PROPOSALS && |Slots(after, bucket)| <= MAX_EXECUTIONS
          && |ApprovalRequiredIn(after, bucket)| <= ApprovalCap(loose, bucket)
      {
        NewcomerFits(db, after, d, p, r, w, loose, bucket);
      }
      BudgetsAre(after, loose);
    }
  }

  lemma OneIsBorn(db: Db, after: Db, d: Descriptor, p: Principal, r: ToolRequest, w: Surroundings)
    requires AddsCall(db, after, d, p, r, w)
    ensures Born(db, after) == {w.freshCall}
  {
    hide ProposedIn, ApprovalRequiredIn, Recent;
  }

  lemma InBudget(db: Db, loose: iset<Bucket>, bucket: Bucket)
    requires WithinBudgets(db, loose)
    ensures |ProposedIn(db, bucket)| <= MAX_PROPOSALS && |Slots(db, bucket)| <= MAX_EXECUTIONS
    ensures |ApprovalRequiredIn(db, bucket)| <= ApprovalCap(loose, bucket)
  {}

  lemma NewbornIdle(db: Db, after: Db, id: CallId)
    requires ToolsOk(db) && id !in db.calls && after.executing == db.executing && id in after.calls
    requires after.calls[id].status in {CallStatus.Denied, CallStatus.Approved, CallStatus.AwaitingApproval}
    ensures !HoldsSlot(ViewOf(after, id))
  {
    hide CallOk;
  }

  lemma NewMember(db: Db, after: Db, id: CallId, bucket: Bucket)
    requires id in after.calls && !HoldsSlot(ViewOf(after, id))
    ensures id in ProposedIn(after, bucket) <==> CallBucket(after.calls[id]) == bucket
    ensures id in ApprovalRequiredIn(after, bucket) <==>
      CallBucket(after.calls[id]) == bucket && after.calls[id].decision == Some(RequireApproval)
    ensures id !in Slots(after, bucket)
  {}

  lemma OtherToolsStartNothing(db: Db, op: Op)
    requires ToolOp(op) && !op.Begin? && !op.Request?
    ensures Step(db, op).starts == db.starts
  {
    hide DecideApproval, CancelCall, FinishExecution, CancelUndelivered, ExpireAll, Reconcile, ExpiryCandidates,
      StaleCalls;
    match op {
      case Decide(p, authorized, approval, approve, now) =>
        DecideStartsNothing(db, p, authorized, approval, approve, now);
      case Finish(call, raw, now) => FinishStartsNothing(db, call, raw, now);
      case Cancel(registry, p, authorized, call, now) =>
        CancelStartsNothing(db, registry, p, authorized, call, now);
      case CancelLost(call, now) => UndeliveredStartsNothing(db, call, now);
      case ExpirePending(ids, now) =>
      case ReconcileCalls(calls, now) => ReconcileStartsNothing(db, calls, now);
    }
  }

  lemma DecideStartsNothing(
    db: Db, p: Principal, authorized: bool, aid: ApprovalId, approve: bool, now: Time)
    ensures DecideApproval(db, p, authorized, aid, approve, now).db.starts == db.starts
  {
    hide RevalidateParent, Transition, DeviceReady, SetApproval, CancelByParent;
    CancelByParentRows(db, aid, now);
  }

  lemma CancelByParentRows(db: Db, aid: ApprovalId, now: Time)
    ensures aid in db.approvals && db.approvals[aid].call in db.calls ==>
      var after := CancelByParent(db, db.approvals[aid].call, now);
      after.starts == db.starts && after.approvals == db.approvals
  {
    hide Transition;
  }

  lemma FinishStartsNothing(db: Db, id: CallId, raw: RawOutcome, now: Time)
    ensures FinishExecution(db, id, raw, now).db.starts == db.starts
  {
    hide Observe, Normalize;
  }

  lemma CancelStartsNothing(
    db: Db, registry: Registry, p: Principal, authorized: bool, id: CallId, now: Time)
    ensures CancelCall(db, registry, p, authorized, id, now).db.starts == db.starts
  {
    hide Transition, DeviceReady;
  }

  lemma UndeliveredStartsNothing(db: Db, id: CallId, now: Time)
    ensures CancelUndelivered(db, id, now).starts == db.starts
  {
    hide Transition;
  }

  lemma ReconcileStartsNothing(db: Db, ids: seq<CallId>, now: Time)
    ensures Reconcile(db, ids, now).starts == db.starts
  {
    hide ReconcileAll;
  }

  lemma ConversationsStartNothing(db: Db, after: Db)
    requires RunsEvolve(db, after)
    ensures after.calls == db.calls && after.executing == db.executing
  {}

  /** The bucket of a request whose decision is not visible to the count. */
  ghost function Unflushed(op: Op): iset<Bucket> {
    if op.Request? && !op.w.decisionFlushed then iset{BucketOf(op.p.owner, op.p.device, op.request.run)} else iset{}
  }

  lemma BudgetStep(db: Db, op: Op, loose: iset<Bucket>)
    requires Good(db) && WithinBudgets(db, loose)
    requires Unflushed(op) <= loose
    ensures WithinBudgets(Step(db, op), loose)
  {
    hide ToolsOk, WithinBudgets, Evolves, EvolvesWith, RunsEvolve, Orphans;
    match op {
      case Request(registry, p, r, w) => RequestStep(db, registry, p, r, w, loose);
      case Begin(registry, p, id, arguments, w) => BeginStep(db, registry, p, id, arguments, w, loose);
      case Crash => SameCalls(db, Step(db, op), loose);
      case ChangeDevices(devices) => SameCalls(db, Step(db, op), loose);
      case _ => OrdinaryBudgetStep(db, op, loose);
    }
  }

  lemma OrdinaryBudgetStep(db: Db, op: Op, loose: iset<Bucket>)
    requires Good(db) && WithinBudgets(db, loose)
    requires !op.Request? && !op.Begin? && !op.Crash? && !op.ChangeDevices?
    ensures WithinBudgets(Step(db, op), loose)
  {
    hide ToolsOk, WithinBudgets, Evolves, EvolvesWith, RunsEvolve, Orphans, Step;
    if ToolOp(op) {
      ToolStep(db, op);
      OtherToolsStartNothing(db, op);
      QuietStep(db, Step(db, op), Finishing(op), loose);
    } else {
      RunStep(db, op);
      ConversationsStartNothing(db, Step(db, op));
      SameCalls(db, Step(db, op), loose);
    }
  }

  // --- budgets over whole runs ---

  /** The buckets that some request of a run addressed with its decision unflushed. */
  ghost function Loose(ops: seq<Op>): iset<Bucket> {
    if ops == [] then iset{} else Loose(ops[..|ops| - 1]) + Unflushed(ops[|ops| - 1])
  }

  /** In every reachable state: at most 4 calls per bucket, never more than 3 calls that run, succeeded,
      or were written off in flight, and at most 2 approval-required ones, or 3 in a bucket that was ever
      addressed with an unflushed decision. */
  lemma {:induction false} BudgetsHold(devices: map<DeviceId, Device>, ops: seq<Op>)
    ensures WithinBudgets(Reach(devices, ops), Loose(ops))
  {
    hide WithinBudgets, Step, Good;
    if ops == [] {
      EmptyBudgets(devices, iset{});
    } else {
      var n := |ops| - 1;
      RunIsGood(devices, ops[..n]);
      BudgetsHold(devices, ops[..n]);
      LooserHolds(Reach(devices, ops[..n]), Loose(ops[..n]), Loose(ops));
      BudgetStep(Reach(devices, ops[..n]), ops[n], Loose(ops));
    }
  }

  lemma LooserHolds(db: Db, loose: iset<Bucket>, looser: iset<Bucket>)
    requires WithinBudgets(db, loose) && loose <= looser
    ensures WithinBudgets(db, looser)
  {
    hide WithinBudgets, ProposedIn, ApprovalRequiredIn, Slots;
    forall bucket
      ensures |ProposedIn(db, bucket)| <= MAX_PROPOSALS && |Slots(db, bucket)| <= MAX_EXECUTIONS
        && |ApprovalRequiredIn(db, bucket)| <= ApprovalCap(looser, bucket)
    {
      InBudget(db, loose, bucket);
    }
    BudgetsAre(db, looser);
  }

  /** A third approval-required call enters a bucket only through a request to that very bucket whose
      decision was not visible to the count; and no bucket ever holds a fourth. */
  lemma ThirdApprovalWasUncounted(devices: map<DeviceId, Device>, ops: seq<Op>, op: Op, bucket: Bucket)
    ensures
      var before, after := Reach(devices, ops), Reach(devices, ops + [op]);
      |ApprovalRequiredIn(before, bucket)| <= 2 < |ApprovalRequiredIn(after, bucket)| ==>
        op.Request? && !op.w.decisionFlushed && BucketOf(op.p.owner, op.p.device, op.request.run) == bucket
    ensures |ApprovalRequiredIn(Reach(devices, ops), bucket)| <= 3
  {
    hide WithinBudgets, Step, Good, ApprovalRequiredIn;
    var before := Reach(devices, ops);
    assert (ops + [op])[..|ops|] == ops;
    RunIsGood(devices, ops);
    BudgetsHold(devices, ops);
    InBudget(before, Loose(ops), bucket);
    if |ApprovalRequiredIn(before, bucket)| <= 2 {
      var others := Loose(ops) - iset{bucket};
      OnlyThisIsTight(before, Loose(ops), bucket);
      LooserHolds(before, others, others + Unflushed(op));
      BudgetStep(before, op, others + Unflushed(op));
      InBudget(Step(before, op), others + Unflushed(op), bucket);
    }
  }

  lemma OnlyThisIsTight(db: Db, loose: iset<Bucket>, bucket: Bucket)
    requires WithinBudgets(db, loose) && |ApprovalRequiredIn(db, bucket)| <= 2
    ensures WithinBudgets(db, loose - iset{bucket})
  {
    hide WithinBudgets, ProposedIn, ApprovalRequiredIn, Slots;
    forall b
      ensures |ProposedIn(db, b)| <= MAX_PROPOSALS && |Slots(db, b)| <= MAX_EXECUTIONS
        && |ApprovalRequiredIn(db, b)| <= ApprovalCap(loose - iset{bucket}, b)
    {
      InBudget(db, loose, b);
    }
    BudgetsAre(db, loose - iset{bucket});
  }

  lemma EmptyBudgets(devices: map<DeviceId, Device>, loose: iset<Bucket>)
    ensures WithinBudgets(Initial(devices), loose)
  {
    var db := Initial(devices);
    forall bucket
      ensures ProposedIn(db, bucket) == {} && Slots(db, bucket) == {} && ApprovalRequiredIn(db, bucket) == {}
    {}
  }
}
