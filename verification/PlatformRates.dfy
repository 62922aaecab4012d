/** The rate limit as a bound on every window of time, and how far the approval budget can be
    overrun when the count does not see the decision it is about. */
module PlatformRates {
  import opened Prelude
  import opened Store
  import opened ToolAuthority
  import opened ToolViews
  import opened ToolInvariants
  import opened Conversations
  import opened RunInvariants
  import opened Platform
  import opened PlatformBudgets
  import RS = RunSteps

  // --- the sliding window ---

  /** The calls of one tool on one device that were created between `lo` and `lo + width`. */
  ghost function Window(calls: map<CallId, ToolCall>, device: DeviceId, tool: string, lo: Time, width: nat)
    : set<CallId>
  {
    set id | id in calls && calls[id].device == device && calls[id].tool == tool
             && lo <= calls[id].createdAt <= lo + width
  }

  /** Every window of length `width` holds at most `limit` calls. */
  ghost predicate RateHolds(calls: map<CallId, ToolCall>, device: DeviceId, tool: string, limit: nat, width: nat) {
    forall lo :: |Window(calls, device, tool, lo, width)| <= limit
  }

  /** Every registry in force at a request allows `tool` at most `limit` calls, over a window of at
      least `width`. */
  ghost predicate Limited(op: Op, tool: string, limit: nat, width: nat) {
    op.Request? ==> forall k :: k in op.registry && op.registry[k].name == tool ==>
      op.registry[k].maxRequests <= limit && width <= op.registry[k].windowSeconds
  }

  /** The rate limit is a true sliding window: whatever order the clock was read in, no closed
      interval of the policy's length ever holds more calls than the policy allows. */
  lemma {:induction false} RateLimitHolds(
    devices: map<DeviceId, Device>, ops: seq<Op>, device: DeviceId, tool: string, limit: nat, width: nat)
    requires forall op :: op in ops ==> Limited(op, tool, limit, width)
    ensures RateHolds(Reach(devices, ops).calls, device, tool, limit, width)
  {
    hide RateHolds, Step, Good, Limited;
    if ops == [] {
      EmptyRate(device, tool, limit, width);
    } else {
      var n := |ops| - 1;
      assert ops[n] in ops;
      RunIsGood(devices, ops[..n]);
      RateLimitHolds(devices, ops[..n], device, tool, limit, width);
      RateStep(Reach(devices, ops[..n]), ops[n], device, tool, limit, width);
    }
  }

  lemma EmptyRate(device: DeviceId, tool: string, limit: nat, width: nat)
    ensures RateHolds(map[], device, tool, limit, width)
  {
    forall lo: Time ensures Window(map[], device, tool, lo, width) == {} {}
  }

  lemma RateStep(db: Db, op: Op, device: DeviceId, tool: string, limit: nat, width: nat)
    requires Good(db) && RateHolds(db.calls, device, tool, limit, width) && Limited(op, tool, limit, width)
    ensures RateHolds(Step(db, op).calls, device, tool, limit, width)
  {
    hide RateHolds, ToolsOk, RS.Sound, Orphans, Evolves, EvolvesWith, RunsEvolve, RequestTool, AddsCall;
    var after := Step(db, op);
    if op.Request? {
      RequestFacts(db, op.registry, op.p, op.request, op.w);
      if after.calls != db.calls {
        RequestRate(db, after, op, device, tool, limit, width);
      }
    } else {
      QuietCalls(db, op);
      SameTimes(db.calls, after.calls, device, tool, limit, width);
    }
  }

  /** Any other step keeps every call's device, tool and creation time. */
  lemma QuietCalls(db: Db, op: Op)
    requires Good(db) && !op.Request?
    ensures var after := Step(db, op);
      after.calls.Keys == db.calls.Keys
      && forall id :: id in db.calls ==>
           after.calls[id].device == db.calls[id].device && after.calls[id].tool == db.calls[id].tool
           && after.calls[id].createdAt == db.calls[id].createdAt
  {
    hide ToolsOk, RS.Sound, Orphans, Evolves, EvolvesWith, RunsEvolve, Step;
    if op.Crash? || op.ChangeDevices? {
      SurroundingsKeepCalls(db, op);
    } else if ToolOp(op) {
      ToolStep(db, op);
      EvolvedTimes(db, Step(db, op), Finishing(op));
    } else {
      RunStep(db, op);
      ConversationsStartNothing(db, Step(db, op));
    }
  }

  lemma SurroundingsKeepCalls(db: Db, op: Op)
    requires op.Crash? || op.ChangeDevices?
    ensures Step(db, op).calls == db.calls
  {}

  lemma EvolvedTimes(db: Db, after: Db, finishing: Option<CallId>)
    requires Evolves(db, after, finishing)
    ensures after.calls.Keys == db.calls.Keys
    ensures forall id :: id in db.calls ==>
      after.calls[id].device == db.calls[id].device && after.calls[id].tool == db.calls[id].tool
      && after.calls[id].createdAt == db.calls[id].createdAt
  {
    hide Moves, Projects, NoNewOrphan;
    forall id | id in db.calls
      ensures after.calls[id].device == db.calls[id].device && after.calls[id].tool == db.calls[id].tool
        && after.calls[id].createdAt == db.calls[id].createdAt
    {
      OldCallFacts(ViewOf(db, id), ViewOf(after, id), finishing == Some(id));
    }
  }

  lemma SameTimes(
    calls: map<CallId, ToolCall>, after: map<CallId, ToolCall>, device: DeviceId, tool: string, limit: nat,
    width: nat)
    requires RateHolds(calls, device, tool, limit, width) && after.Keys == calls.Keys
    requires forall id :: id in calls ==>
      after[id].device == calls[id].device && after[id].tool == calls[id].tool
      && after[id].createdAt == calls[id].createdAt
    ensures RateHolds(after, device, tool, limit, width)
  {
    forall lo: Time ensures Window(after, device, tool, lo, width) == Window(calls, device, tool, lo, width)
    {}
  }

  lemma RequestRate(db: Db, after: Db, op: Op, device: DeviceId, tool: string, limit: nat, width: nat)
    requires op.Request? && (op.request.name, op.request.version) in op.registry
    requires AddsCall(db, after, op.registry[(op.request.name, op.request.version)], op.p, op.request, op.w)
    requires RateHolds(db.calls, device, tool, limit, width) && Limited(op, tool, limit, width)
    ensures RateHolds(after.calls, device, tool, limit, width)
  {
    hide ProposedIn, ApprovalRequiredIn, BucketOf, Window, Recent;
    var call := after.calls[op.w.freshCall];
    var d := op.registry[(op.request.name, op.request.version)];
    forall lo: Time ensures |Window(after.calls, device, tool, lo, width)| <= limit {
      assert |Window(db.calls, device, tool, lo, width)| <= limit;
      if call.device == device && call.tool == tool && lo <= call.createdAt <= lo + width {
        assert d.maxRequests <= limit && width <= d.windowSeconds;
        WindowIsRecent(db, device, tool, lo, width, op.w.now - d.windowSeconds);
        WindowMayGrow(db.calls, after.calls, op.w.freshCall, device, tool, lo, width);
      } else {
        WindowStays(db.calls, after.calls, op.w.freshCall, device, tool, lo, width);
      }
    }
  }

  lemma WindowIsRecent(db: Db, device: DeviceId, tool: string, lo: Time, width: nat, since: Time)
    requires since <= lo
    ensures |Window(db.calls, device, tool, lo, width)| <= |Recent(db, device, tool, since)|
  {
    CardinalityMonotone(Window(db.calls, device, tool, lo, width), Recent(db, device, tool, since));
  }

  lemma WindowMayGrow(
    calls: map<CallId, ToolCall>, after: map<CallId, ToolCall>, id: CallId, device: DeviceId, tool: string,
    lo: Time, width: nat)
    requires after.Keys == calls.Keys + {id} && forall other :: other in calls ==> after[other] == calls[other]
    ensures |Window(after, device, tool, lo, width)| <= |Window(calls, device, tool, lo, width)| + 1
  {
    CardinalityGrowth(Window(calls, device, tool, lo, width), Window(after, device, tool, lo, width), id);
  }

  lemma WindowStays(
    calls: map<CallId, ToolCall>, after: map<CallId, ToolCall>, id: CallId, device: DeviceId, tool: string,
    lo: Time, width: nat)
    requires after.Keys == calls.Keys + {id} && forall other :: other in calls ==> after[other] == calls[other]
    requires !(after[id].device == device && after[id].tool == tool && lo <= after[id].createdAt <= lo + width)
    ensures |Window(after, device, tool, lo, width)| <= |Window(calls, device, tool, lo, width)|
  {
    CardinalityMonotone(Window(after, device, tool, lo, width), Window(calls, device, tool, lo, width));
  }

  // --- three approvals where two were meant ---

  const ASK := Descriptor("files.delete", 1, Consequential, true, true, false, 100, 60)

  const ASKING: Registry := map[("files.delete", 1) := ASK]

  const OWNER := Principal(0, 0)

  function Key(n: nat): string {
    seq(n, _ => 'k')
  }

  /** A request whose decision is still unwritten when the approvals are counted. */
  function Ask(n: nat): Op {
    Request(ASKING, OWNER, ToolRequest("files.delete", 1, true, "digest", Key(n), None, None),
            Surroundings(n, true, true, true, true, n, n, false))
  }

  function Asks(n: nat): seq<Op> {
    if n == 0 then [] else Asks(n - 1) + [Ask(n - 1)]
  }

  const HOME := map[0 := Device(0, true)]

  /** The numbers below `n`. */
  function FirstIds(n: nat): set<nat> {
    if n == 0 then {} else FirstIds(n - 1) + {n - 1}
  }

  /** After `n` of these requests: `n` calls in one bucket, each waiting for the owner. */
  ghost predicate Asked(db: Db, n: nat) {
    db.devices == HOME
    && db.calls.Keys == FirstIds(n) && db.approvals.Keys == FirstIds(n)
    && forall i :: i in db.calls ==>
         db.calls[i].owner == 0 && db.calls[i].device == 0 && db.calls[i].run.None?
         && db.calls[i].tool == "files.delete" && db.calls[i].key == Key(i)
         && db.calls[i].decision == Some(RequireApproval)
  }

  lemma {:induction false} AskedState(n: nat)
    requires n <= 3
    ensures Asked(Reach(HOME, Asks(n)), n)
  {
    hide Step, Asked;
    if n == 0 {
      NoneAsked();
    } else {
      AskedState(n - 1);
      assert Asks(n)[..|Asks(n)| - 1] == Asks(n - 1);
      AskOnce(Reach(HOME, Asks(n - 1)), n - 1);
    }
  }

  lemma NoneAsked()
    ensures Asked(Initial(HOME), 0)
  {}

  lemma AskOnce(db: Db, n: nat)
    requires n < 3 && Asked(db, n)
    ensures Asked(Step(db, Ask(n)), n + 1)
  {
    hide StageCall, StagedCall, Key, Asked, Step;
    AskIsStaged(db, n);
    AskIsAdmitted(db, n);
    AskedRow(n);
    AskedMore(db, Step(db, Ask(n)), n, StagedCall(ASK, OWNER, Ask(n).request, Ask(n).w));
  }

  lemma AskedMore(db: Db, after: Db, n: nat, call: ToolCall)
    requires Asked(db, n) && after.devices == db.devices && after.calls == db.calls[n := call]
    requires after.approvals.Keys == db.approvals.Keys + {n}
    requires
      call.owner == 0 && call.device == 0 && call.run.None? && call.tool == "files.delete" && call.key == Key(n)
      && call.decision == Some(RequireApproval)
    ensures Asked(after, n + 1)
  {}

  lemma AskIsStaged(db: Db, n: nat)
    requires Asked(db, n)
    ensures Step(db, Ask(n)) == StageCall(db, ASK, OWNER, Ask(n).request, Ask(n).w).db
  {
    hide StageCall, Step;
    KeyIsNew(db, n);
    NewKeyIsStaged(db, Ask(n));
  }

  lemma KeyIsNew(db: Db, n: nat)
    requires Asked(db, n)
    ensures forall i :: i in db.calls ==> !SameKey(db.calls[i], OWNER, "files.delete", Key(n))
  {
    FirstIdsCount(n);
    forall i | i in db.calls ensures !SameKey(db.calls[i], OWNER, "files.delete", Key(n)) {
      assert |Key(i)| == i && |Key(n)| == n;
    }
  }

  lemma NewKeyIsStaged(db: Db, op: Op)
    requires op.Request? && op.request.argumentsValid && op.w.authorized && op.request.run.None?
    requires op.request.conversation.None? && (op.request.name, op.request.version) in op.registry
    requires DeviceReady(db.devices, op.p.device, op.p.owner)
    requires forall i :: i in db.calls ==> !SameKey(db.calls[i], op.p, op.request.name, op.request.key)
    ensures Step(db, op)
      == StageCall(db, op.registry[(op.request.name, op.request.version)], op.p, op.request, op.w).db
  {
    hide StageCall, SameKey, DeviceReady;
  }

  lemma AskedRow(n: nat)
    ensures
      var call := StagedCall(ASK, OWNER, Ask(n).request, Ask(n).w);
      call.owner == 0 && call.device == 0 && call.run.None? && call.tool == "files.delete" && call.key == Key(n)
      && call.decision == Some(RequireApproval)
  {}

  /** A request for approval that fits every count is admitted. */
  lemma FittingRequestIsAdmitted(db: Db, d: Descriptor, p: Principal, r: ToolRequest, w: Surroundings)
    requires |Recent(db, p.device, d.name, w.now - d.windowSeconds)| < d.maxRequests
    requires |ProposedIn(db, BucketOf(p.owner, p.device, r.run))| < MAX_PROPOSALS
    requires |ApprovalRequiredIn(db, BucketOf(p.owner, p.device, r.run))| + (if w.decisionFlushed then 1 else 0)
      <= MAX_APPROVALS
    requires w.freshCall !in db.calls && w.freshApproval !in db.approvals
    requires Permission(d, w).0 == RequireApproval
    ensures StageCall(db, d, p, r, w).result.Ok?
    ensures StageCall(db, d, p, r, w).db.approvals.Keys == db.approvals.Keys + {w.freshApproval}
  {
    hide Recent, ProposedIn, ApprovalRequiredIn, Permission, Decided, NewApproval, StagedCall, BucketOf, AwaitOwner;
  }

  lemma AtMostAll(db: Db, device: DeviceId, tool: string, since: Time, bucket: Bucket)
    ensures |Recent(db, device, tool, since)| <= |db.calls.Keys|
    ensures |ProposedIn(db, bucket)| <= |db.calls.Keys|
    ensures |ApprovalRequiredIn(db, bucket)| <= |db.calls.Keys|
  {
    CardinalityMonotone(Recent(db, device, tool, since), db.calls.Keys);
    CardinalityMonotone(ProposedIn(db, bucket), db.calls.Keys);
    CardinalityMonotone(ApprovalRequiredIn(db, bucket), db.calls.Keys);
  }

  lemma AskFits(db: Db, n: nat)
    requires n < 3 && Asked(db, n)
    ensures |Recent(db, 0, "files.delete", n - 60)| < 100 && |ProposedIn(db, DeviceBucket(0, 0))| < MAX_PROPOSALS
    ensures |ApprovalRequiredIn(db, DeviceBucket(0, 0))| <= MAX_APPROVALS
    ensures n !in db.calls && n !in db.approvals
  {
    hide Recent, ProposedIn, ApprovalRequiredIn, Key;
    FirstIdsCount(n);
    AtMostAll(db, 0, "files.delete", n - 60, DeviceBucket(0, 0));
  }

  lemma AskIsAdmitted(db: Db, n: nat)
    requires n < 3 && Asked(db, n)
    ensures
      var staged := StageCall(db, ASK, OWNER, Ask(n).request, Ask(n).w);
      staged.result.Ok? && staged.db.approvals.Keys == db.approvals.Keys + {n}
  {
    hide StageCall, Key, Recent, ProposedIn, ApprovalRequiredIn, Asked;
    AskFits(db, n);
    FittingRequestIsAdmitted(db, ASK, OWNER, Ask(n).request, Ask(n).w);
  }

  lemma {:induction false} FirstIdsCount(n: nat)
    ensures |FirstIds(n)| == n && forall i: nat :: i in FirstIds(n) <==> i < n
  {
    if n > 0 { FirstIdsCount(n - 1); }
  }

  /** The bound of 2 fails when the count is blind to the new decision: this reachable state has
      three calls of one bucket that required approval. */
  lemma ThreeApprovals()
    ensures |ApprovalRequiredIn(Reach(HOME, Asks(3)), DeviceBucket(0, 0))| == 3
  {
    hide Reach;
    AskedState(3);
    FirstIdsCount(3);
    var db := Reach(HOME, Asks(3));
    assert ApprovalRequiredIn(db, DeviceBucket(0, 0)) == db.calls.Keys;
  }
}
