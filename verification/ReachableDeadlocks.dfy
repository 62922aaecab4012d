/** The deadlocks outside the lock order are the program's own: reachable states in which the expiry sweep
    and a request that is about to be refused, or the recording of an outcome and a cancellation, can block
    each other for good. */
module ReachableDeadlocks {
  import opened Prelude
  import opened Store
  import opened ToolAuthority
  import opened ToolViews
  import opened ToolInvariants
  import opened Conversations
  import opened Platform
  import opened Locks
  import opened ToolPlatform
  import opened Sweeps
  import PR = PlatformRates
  import TO = ToolOutcomes
  import RS = RunSteps

  const FIRST := Principal(0, 0)

  const SECOND := Principal(0, 1)

  const TWO_DEVICES := map[0 := Device(0, true), 1 := Device(0, true)]

  /** The owner's second device asks in a run of the first. */
  const FOREIGN := ToolRequest("files.delete", 1, true, "digest", "c", None, Some(0))

  function At(n: nat): Surroundings {
    Surroundings(0, true, true, true, true, n, n, true)
  }

  const OPEN := OpenConversation(FIRST, 0)

  const JOIN := OpenSession(FIRST, 0, 0)

  const HELLO := Submit(FIRST, 0, 0, "hello", "fast", 0, 0)

  /** The first device asks in its run, the second one besides it. */
  const IN_RUN := Request(PR.ASKING, FIRST, ToolRequest("files.delete", 1, true, "digest", "a", None, Some(0)), At(0))

  const BESIDES := Request(PR.ASKING, SECOND, ToolRequest("files.delete", 1, true, "digest", "b", None, None), At(1))

  /** The rows of the conversation: one run, live, in the first device's session. */
  ghost predicate Talking(db: Db) {
    db.devices == TWO_DEVICES && db.conversations == map[0 := Conversation(0, true)]
    && db.sessions == map[0 := Session(0, 0, 0, true)]
    && db.runs.Keys == {0} && db.runs[0].conversation == 0 && db.runs[0].session == 0
    && db.runs[0].requestDevice == 0 && db.runs[0].status == RunStatus.Queued
  }

  lemma HelloIsText()
    ensures ValidText("hello")
  {
    assert !IsSpace("hello"[0]);
  }

  ghost predicate Joined(db: Db) {
    db.devices == TWO_DEVICES && db.conversations == map[0 := Conversation(0, true)]
    && db.sessions == map[0 := Session(0, 0, 0, true)] && db.runs == map[] && db.messages == []
    && db.calls == map[] && db.approvals == map[]
  }

  lemma JoinedState()
    ensures Joined(Step(Step(Initial(TWO_DEVICES), OPEN), JOIN))
  {
    hide AppendEvent;
  }

  lemma HelloState(db: Db)
    requires Joined(db)
    ensures var after := Step(db, HELLO); Talking(after) && after.calls == map[] && after.approvals == map[]
  {
    HelloIsText();
    hide ValidText, AppendEvent, MaxSequence;
  }

  /** A request for approval on an almost empty table adds one call that waits for its owner. */
  lemma AskedOnce(db: Db, op: Op)
    requires op.Request? && op.registry == PR.ASKING && op.request.name == "files.delete" && op.request.version == 1
    requires op.request.argumentsValid && DeviceReady(db.devices, op.p.device, op.p.owner)
    requires ContextBinding(db, op.p, op.request.conversation, op.request.run).None?
    requires |db.calls| <= 1 && op.w == At(op.w.freshCall)
    requires op.w.freshCall !in db.calls && op.w.freshApproval !in db.approvals
    requires forall id :: id in db.calls ==> !SameKey(db.calls[id], op.p, op.request.name, op.request.key)
    ensures
      var after := Step(db, op);
      var id := op.w.freshCall;
      after == db.(calls := after.calls, approvals := after.approvals, audit := after.audit, events := after.events)
      && after.calls == db.calls[id := StagedCall(PR.ASK, op.p, op.request, op.w)]
      && after.approvals == db.approvals[id := NewApproval(op.p, PR.ASK, op.request.digest, id, 0)]
  {
    hide StageCall, SameKey, DeviceReady, ContextBinding, StagedCall, NewApproval, Recent, ProposedIn, ApprovalRequiredIn,
      BucketOf;
    var r := op.request;
    assert |db.calls.Keys| <= 1 by { assert |db.calls.Keys| == |db.calls|; }
    PR.AtMostAll(db, op.p.device, "files.delete", op.w.now - 60, BucketOf(op.p.owner, op.p.device, r.run));
    NeedsOwner(op.w);
    PR.FittingRequestIsAdmitted(db, PR.ASK, op.p, r, op.w);
    TO.StagedApprovals(db, PR.ASK, op.p, r, op.w);
  }

  lemma NeedsOwner(w: Surroundings)
    requires w == At(w.freshCall)
    ensures Permission(PR.ASK, w).0 == RequireApproval
  {}

  lemma AskedRow(p: Principal, r: ToolRequest, w: Surroundings)
    ensures
      var call, approval := StagedCall(PR.ASK, p, r, w), NewApproval(p, PR.ASK, r.digest, w.freshCall, 0);
      call.device == p.device && call.run == r.run && call.owner == p.owner && call.key == r.key && call.tool == "files.delete"
      && approval.call == w.freshCall && approval.status == ApprovalStatus.Pending && approval.expiresAt == 600
  {}

  /** The state after both calls. */
  ghost predicate Waiting(db: Db) {
    Talking(db) && db.calls.Keys == {0, 1} && db.approvals.Keys == {0, 1}
    && db.calls[0].run == Some(0) && db.calls[0].device == 0 && db.calls[1].device == 1 && db.calls[1].run.None?
    && forall aid :: aid in db.approvals ==>
         db.approvals[aid].call == aid && db.approvals[aid].status == ApprovalStatus.Pending
         && db.approvals[aid].expiresAt == 600
  }

  ghost predicate OneWaits(db: Db) {
    Talking(db) && db.calls.Keys == {0} && db.approvals.Keys == {0}
    && db.calls[0].run == Some(0) && db.calls[0].device == 0
    && db.approvals[0].call == 0 && db.approvals[0].status == ApprovalStatus.Pending && db.approvals[0].expiresAt == 600
  }

  lemma FirstAsks(db: Db)
    requires Talking(db) && db.calls == map[] && db.approvals == map[]
    ensures OneWaits(Step(db, IN_RUN))
  {
    hide Step, StagedCall, NewApproval, ContextBinding;
    MayAsk(db);
    AskedOnce(db, IN_RUN);
    AskedRow(FIRST, IN_RUN.request, IN_RUN.w);
  }

  lemma NowBothWait(db: Db, after: Db, call: ToolCall, approval: Approval)
    requires OneWaits(db)
    requires after == db.(calls := db.calls[1 := call], approvals := db.approvals[1 := approval],
                          audit := after.audit, events := after.events)
    requires call.device == 1 && call.run.None?
    requires approval.call == 1 && approval.status == ApprovalStatus.Pending && approval.expiresAt == 600
    ensures Waiting(after)
  {}

  lemma SecondMayAsk(db: Db)
    requires OneWaits(db)
    ensures ContextBinding(db, SECOND, None, None).None? && DeviceReady(db.devices, 1, 0) && |db.calls| <= 1
    ensures 1 !in db.calls && 1 !in db.approvals
    ensures forall id :: id in db.calls ==> !SameKey(db.calls[id], SECOND, "files.delete", "b")
  {
    assert |db.calls| == |db.calls.Keys| == 1;
  }

  lemma SecondAsks(db: Db)
    requires OneWaits(db)
    ensures Waiting(Step(db, BESIDES))
  {
    hide Step, StagedCall, NewApproval, ContextBinding, Waiting, OneWaits, SameKey, DeviceReady;
    SecondMayAsk(db);
    AskedOnce(db, BESIDES);
    AskedRow(SECOND, BESIDES.request, BESIDES.w);
    NowBothWait(db, Step(db, BESIDES), StagedCall(PR.ASK, SECOND, BESIDES.request, BESIDES.w),
                NewApproval(SECOND, PR.ASK, "digest", 1, 0));
  }

  const BOTH_WAIT := [OPEN] + [JOIN] + [HELLO] + [IN_RUN] + [BESIDES]

  lemma WaitingState()
    ensures Waiting(Reach(TWO_DEVICES, BOTH_WAIT))
  {
    hide Step, Joined, Talking, OneWaits, Waiting;
    JoinedState();
    HelloState(Step(Step(Initial(TWO_DEVICES), OPEN), JOIN));
    FirstAsks(Step(Step(Step(Initial(TWO_DEVICES), OPEN), JOIN), HELLO));
    SecondAsks(Step(Step(Step(Step(Initial(TWO_DEVICES), OPEN), JOIN), HELLO), IN_RUN));
    assert [] + [OPEN] == [OPEN];
    OneMoreOp([], OPEN);
    OneMoreOp([OPEN], JOIN);
    OneMoreOp([OPEN] + [JOIN], HELLO);
    OneMoreOp([OPEN] + [JOIN] + [HELLO], IN_RUN);
    OneMoreOp([OPEN] + [JOIN] + [HELLO] + [IN_RUN], BESIDES);
  }

  lemma OneMoreOp(ops: seq<Op>, op: Op)
    ensures Reach(TWO_DEVICES, ops + [op]) == Step(Reach(TWO_DEVICES, ops), op)
  {
    hide Step;
    assert (ops + [op])[..|ops|] == ops;
  }

  lemma MayAsk(db: Db)
    requires Talking(db)
    ensures ContextBinding(db, FIRST, None, Some(0)).None? && DeviceReady(db.devices, 0, 0) && DeviceReady(db.devices, 1, 0)
    ensures ContextBinding(db, SECOND, None, None).None?
    ensures ContextBinding(db, SECOND, None, Some(0)) == Some("device_session_mismatch")
  {}

  /** The deadlock is one of the program: in this reachable state the sweep finds two rows, the second
      device's request in the first device's run is refused for that very reason, and any plan that
      begins with the locks such a request takes first can get stuck with the sweep's. */
  lemma SweepDeadlockIsReachable(request: seq<Lock>) returns (ops: seq<Op>, ids: seq<ApprovalId>, schedule: seq<nat>)
    requires [DeviceRow(1), RunRow(0)] <= request
    ensures
      var db := Reach(TWO_DEVICES, ops);
      ExpiryCandidates(db, 600, ids) && LocksItsRun(db, PR.ASKING, SECOND, FOREIGN, At(2))
      && RequestTool(db, PR.ASKING, SECOND, FOREIGN, At(2)) == Txn(db, Err("device_session_mismatch"))
      && Stuck(Scheduled(Begun([SweepLocks(db, ids, 600), request]), schedule))
  {
    ops, ids := BOTH_WAIT, [0, 1];
    hide Reach, Step, Stuck, Scheduled, SweepLocks, ContextBinding;
    WaitingState();
    var db := Reach(TWO_DEVICES, ops);
    MayAsk(db);
    TwoCandidates(db);
    RunIsGood(TWO_DEVICES, ops);
    GoodIsLinked(db);
    schedule := SweepAndRequestCanDeadlock(db, ids, 600, request, 0, 1);
  }

  lemma TwoCandidates(db: Db)
    requires Waiting(db)
    ensures ExpiryCandidates(db, 600, [0, 1])
  {
    forall aid ensures aid in [0, 1] <==> aid in {0, 1} {}
  }

  lemma GoodIsLinked(db: Db)
    requires Good(db)
    ensures ApprovalsLinked(db.calls, db.approvals)
  {
    hide RS.Sound, Orphans, KeysUnique, CallOk;
  }
  // --- an execution and its cancellation ---

  const LIST := Descriptor("files.list", 1, Read, false, true, false, 100, 60)

  const LISTING: Registry := map[("files.list", 1) := LIST]

  const LOOK := Request(LISTING, FIRST, ToolRequest("files.list", 1, true, "digest", "l", None, Some(0)), At(0))

  const GO := Begin(LISTING, FIRST, 0, None, At(0))

  /** A call of the run is approved at once, and then runs. */
  const RUNS := [OPEN] + [JOIN] + [HELLO] + [LOOK] + [GO]

  lemma NeedsNobody(p: Principal, r: ToolRequest, w: Surroundings)
    requires w == At(w.freshCall)
    ensures Permission(LIST, w).0 == Allow
    ensures var call := StagedCall(LIST, p, r, w);
      call.device == p.device && call.owner == p.owner && call.run == r.run && call.status == CallStatus.Approved
      && call.approval.None? && call.tool == "files.list" && call.version == 1 && call.risk == Read
      && call.policy == POLICY_VERSION && call.conversation == r.conversation
  {}

  ghost predicate Ready(db: Db) {
    Talking(db) && db.calls.Keys == {0}
    && var call := db.calls[0];
       call.device == 0 && call.owner == 0 && call.run == Some(0) && call.status == CallStatus.Approved
       && call.approval.None? && call.tool == "files.list" && call.version == 1 && call.risk == Read
       && call.policy == POLICY_VERSION && call.conversation.None?
  }

  lemma LooksOnce(db: Db)
    requires Talking(db) && db.calls == map[] && db.approvals == map[]
    ensures Ready(Step(db, LOOK))
  {
    hide StagedCall, ContextBinding, DeviceReady, Recent, ProposedIn, ApprovalRequiredIn, BucketOf, Permission, Transition,
      Decided;
    MayAsk(db);
    NeedsNobody(FIRST, LOOK.request, LOOK.w);
    PR.AtMostAll(db, 0, "files.list", -60, BucketOf(0, 0, Some(0)));
  }

  lemma MayGo(db: Db)
    requires Ready(db)
    ensures RevalidateParent(db, FIRST, db.calls[0]).Live? && DeviceReady(db.devices, 0, 0)
    ensures ExecutionRefusal(db.calls[0], LISTING, false, None, At(0)).None?
    ensures ContextBinding(db, FIRST, None, Some(0)).None? && |ExecutedIn(db, BucketOf(0, 0, Some(0)))| <= 1
    ensures !CallFinal(db.calls[0].status)
  {
    assert |db.calls| == |db.calls.Keys| == 1;
    CardinalityMonotone(ExecutedIn(db, BucketOf(0, 0, Some(0))), db.calls.Keys);
  }

  lemma Goes(db: Db)
    requires Ready(db)
    ensures var after := Step(db, GO);
      Talking(after) && 0 in after.executing && 0 in after.calls && after.calls[0].status == CallStatus.Executing
      && after.calls[0].run == Some(0) && after.calls[0].owner == 0 && after.calls[0].device == 0
  {
    hide RevalidateParent, DeviceReady, ExecutionRefusal, ContextBinding, ExecutedIn, BucketOf, CallFinal, AppendEvent;
    MayGo(db);
  }

  lemma RunningState()
    ensures var db := Reach(TWO_DEVICES, RUNS);
      Talking(db) && 0 in db.executing && 0 in db.calls && db.calls[0].status == CallStatus.Executing
      && db.calls[0].run == Some(0) && db.calls[0].owner == 0 && db.calls[0].device == 0
  {
    hide Step, Joined, Talking, Ready;
    JoinedState();
    HelloState(Step(Step(Initial(TWO_DEVICES), OPEN), JOIN));
    LooksOnce(Step(Step(Step(Initial(TWO_DEVICES), OPEN), JOIN), HELLO));
    Goes(Step(Step(Step(Step(Initial(TWO_DEVICES), OPEN), JOIN), HELLO), LOOK));
    assert [] + [OPEN] == [OPEN];
    OneMoreOp([], OPEN);
    OneMoreOp([OPEN], JOIN);
    OneMoreOp([OPEN] + [JOIN], HELLO);
    OneMoreOp([OPEN] + [JOIN] + [HELLO], LOOK);
    OneMoreOp([OPEN] + [JOIN] + [HELLO] + [LOOK], GO);
  }

  /** So is this one: in this reachable state a call runs, its caller may cancel it, and recording its
      outcome and any plan that begins like that cancellation can get stuck. */
  lemma FinishDeadlockIsReachable(cancel: seq<Lock>) returns (ops: seq<Op>, schedule: seq<nat>)
    requires [DeviceRow(0), RunRow(0), SessionRow(0), CallRow(0)] <= cancel
    ensures
      var db := Reach(TWO_DEVICES, ops);
      0 in db.executing && MayCancel(db, FIRST, 0) && db.calls[0].status == CallStatus.Executing
      && CancelPlan(db, 0) <= cancel
      && Stuck(Scheduled(Begun([[CallRow(0)] + EmitLocks(db.runs, db.sessions, db.calls[0]), cancel]), schedule))
  {
    ops := RUNS;
    hide Reach, Step, Stuck, Scheduled;
    RunningState();
    var db := Reach(TWO_DEVICES, ops);
    assert CancelPlan(db, 0) == [DeviceRow(0), RunRow(0), SessionRow(0), CallRow(0)];
    schedule := FinishAndCancelOfOneCall(db, 0, cancel);
  }
}
