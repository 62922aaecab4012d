/** What holds after every sequence of steps of both services, and what no continuation of such a
    sequence can undo. */
module PlatformTheorems {
  import opened Prelude
  import opened Store
  import opened ToolAuthority
  import opened ToolViews
  import opened ToolInvariants
  import opened Conversations
  import opened RunViews
  import opened RunInvariants
  import opened Platform
  import RS = RunSteps
  import ES = EventStream
  import TL = ToolLaws
  import TO = ToolOutcomes

  // --- reading the invariant of one call ---

  lemma Known(devices: map<DeviceId, Device>, ops: seq<Op>, id: CallId)
    ensures var db := Reach(devices, ops); id in db.calls ==> CallOk(ViewOf(db, id))
  {
    RunIsGood(devices, ops);
    hide CallOk, RS.Sound, Orphans, Reach;
  }

  lemma ApprovalsAreLinked(devices: map<DeviceId, Device>, ops: seq<Op>)
    ensures var db := Reach(devices, ops); ApprovalsLinked(db.calls, db.approvals)
  {
    RunIsGood(devices, ops);
    hide CallOk, RS.Sound, Orphans, Reach, ApprovalsLinked, ViewOf;
  }

  lemma StartsAreLinked(devices: map<DeviceId, Device>, ops: seq<Op>)
    ensures var db := Reach(devices, ops);
      (forall id :: id in db.starts ==> id in db.calls)
      && db.observations.Keys <= db.calls.Keys
      && (forall e :: e in db.audit && e.call.Some? ==> e.call.value in db.calls)
  {
    RunIsGood(devices, ops);
    hide CallOk, RS.Sound, Orphans, Reach, ApprovalsLinked, ViewOf;
  }

  /** An approval is PENDING exactly when its call awaits approval, and APPROVED exactly when its
      call is; approvals and calls name each other, and no call awaits an approval it lacks. */
  lemma ApprovalMirrorsCall(devices: map<DeviceId, Device>, ops: seq<Op>)
    ensures
      var db := Reach(devices, ops);
      (forall aid :: aid in db.approvals ==>
        var approval := db.approvals[aid];
        approval.call in db.calls && db.calls[approval.call].approval == Some(aid)
        && (approval.status == ApprovalStatus.Pending
            <==> db.calls[approval.call].status == CallStatus.AwaitingApproval)
        && (approval.status == ApprovalStatus.Approved
            <==> db.calls[approval.call].status == CallStatus.Approved))
      && forall id :: id in db.calls && db.calls[id].status == CallStatus.AwaitingApproval ==>
           db.calls[id].approval.Some?
  {
    hide CallOk, Reach;
    var db := Reach(devices, ops);
    ApprovalsAreLinked(devices, ops);
    forall aid | aid in db.approvals
      ensures (db.approvals[aid].status == ApprovalStatus.Pending
               <==> db.calls[db.approvals[aid].call].status == CallStatus.AwaitingApproval)
      ensures (db.approvals[aid].status == ApprovalStatus.Approved
               <==> db.calls[db.approvals[aid].call].status == CallStatus.Approved)
    {
      Known(devices, ops, db.approvals[aid].call);
      SynchronisedFacts(ViewOf(db, db.approvals[aid].call));
    }
    forall id | id in db.calls && db.calls[id].status == CallStatus.AwaitingApproval
      ensures db.calls[id].approval.Some?
    {
      Known(devices, ops, id);
      SynchronisedFacts(ViewOf(db, id));
    }
  }

  lemma SynchronisedFacts(v: View)
    requires CallOk(v)
    ensures Synchronised(v)
  {}

  /** The approval that covers a start: an owner decided it for exactly this call's tool, version,
      risk, digest and policy, before the start, and it was consumed before its deadline. */
  ghost predicate Covered(db: Db, id: CallId)
    requires id in db.calls
  {
    var call := db.calls[id];
    call.approval.Some? && call.approval.value in db.approvals
    && var approval := db.approvals[call.approval.value];
       TO.Covers(approval, id, call) && approval.decidedBy.Some?
       && approval.consumedAt.Some? && approval.consumedAt.value < approval.expiresAt
       && ApprovedBeforeStart(History(db.audit, id)) && Has(History(db.audit, id), ToolStarted)
  }

  /** The executor is handed each call at most once, and every start of a consequential or
      critical call, indeed of any call with an approval, is covered by that approval. */
  lemma StartsAreAuthorised(devices: map<DeviceId, Device>, ops: seq<Op>)
    ensures
      var db := Reach(devices, ops);
      forall id :: id in db.starts ==>
        multiset(db.starts)[id] == 1 && id in db.calls
        && (db.calls[id].risk in {Consequential, Critical} || db.calls[id].approval.Some? ==> Covered(db, id))
  {
    hide CallOk, Reach, ApprovalBinds, TO.Covers;
    var db := Reach(devices, ops);
    StartsAreLinked(devices, ops);
    ApprovalsAreLinked(devices, ops);
    forall id | id in db.starts
      ensures multiset(db.starts)[id] == 1
      ensures (db.calls[id].risk in {Consequential, Critical} || db.calls[id].approval.Some?) ==> Covered(db, id)
    {
      Known(devices, ops, id);
      StartFacts(ViewOf(db, id));
      if db.calls[id].approval.Some? { TO.CoversLaw(ViewOf(db, id).approval.value, id, db.calls[id]); }
    }
  }

  lemma StartFacts(v: View)
    requires CallOk(v)
    ensures v.starts <= 1
    ensures v.starts == 1 && v.call.risk in {Consequential, Critical} ==> v.call.approval.Some?
    ensures v.starts == 1 && v.approval.Some? ==>
      ApprovalBinds(v.approval.value, v.approval.value.call, v.call) && v.approval.value.decidedBy.Some?
      && v.approval.value.consumedAt.Some? && v.approval.value.consumedAt.value < v.approval.value.expiresAt
      && ApprovedBeforeStart(v.history) && Has(v.history, ToolStarted)
  {}

  /** A call has succeeded, or failed, exactly when its one observation says so. */
  lemma ObservationsTellTheTruth(devices: map<DeviceId, Device>, ops: seq<Op>)
    ensures
      var db := Reach(devices, ops);
      forall id :: id in db.calls ==>
        (db.calls[id].status == CallStatus.Succeeded <==>
          (id in db.observations && db.observations[id].status == ObservationStatus.Succeeded))
        && (db.calls[id].status == CallStatus.Failed <==>
          (id in db.observations && db.observations[id].status == ObservationStatus.Failed))
        && (id in db.observations ==> id in db.starts)
  {
    hide CallOk, Reach;
    var db := Reach(devices, ops);
    forall id | id in db.calls
      ensures ObservedTruth(ViewOf(db, id)) && (id in db.observations ==> id in db.starts)
    {
      Known(devices, ops, id);
      ObservationFacts(ViewOf(db, id));
    }
  }

  lemma ObservationFacts(v: View)
    requires CallOk(v)
    ensures ObservedTruth(v) && (v.observation.Some? ==> v.starts == 1)
  {}

  /** The audit log refines the call table: the last audited result of every call is its status,
      and its results form a legal path of the status graph from VALIDATED. */
  lemma AuditRefinesCalls(devices: map<DeviceId, Device>, ops: seq<Op>)
    ensures
      var db := Reach(devices, ops);
      (forall id :: id in db.calls ==>
        var h := History(db.audit, id);
        LegalHistory(h) && h[|h| - 1].result == Some(db.calls[id].status))
      && forall e :: e in db.audit && e.call.Some? ==> e.call.value in db.calls
  {
    hide CallOk, Reach, LegalHistory;
    var db := Reach(devices, ops);
    StartsAreLinked(devices, ops);
    forall id | id in db.calls
      ensures var h := History(db.audit, id);
        LegalHistory(h) && |h| > 0 && h[|h| - 1].result == Some(db.calls[id].status)
    {
      Known(devices, ops, id);
      AuditFacts(ViewOf(db, id));
    }
  }

  lemma AuditFacts(v: View)
    requires CallOk(v)
    ensures LegalHistory(v.history) && |v.history| > 0
    ensures v.history[|v.history| - 1].result == Some(v.call.status)
  {}

  // --- what one step may do to a call, and what no continuation undoes ---

  /** Every step after a reachable state moves every call legally. */
  lemma StepMovesCalls(devices: map<DeviceId, Device>, ops: seq<Op>, op: Op)
    ensures
      var db, after := Reach(devices, ops), Step(Reach(devices, ops), op);
      forall id :: id in db.calls ==>
        id in after.calls && Moves(ViewOf(db, id), ViewOf(after, id), Finishing(op) == Some(id))
  {
    hide Reach, Step, ToolsOk, RS.Sound, Orphans, Moves, ViewOf, RunsEvolve, Evolves;
    var db := Reach(devices, ops);
    RunIsGood(devices, ops);
    if op.Crash? {
      CrashMoves(db);
    } else if op.ChangeDevices? {
      DevicesStep(db, op.devices);
      DevicesAre(db, op.devices);
      forall id | id in db.calls
        ensures Moves(ViewOf(db, id), ViewOf(Step(db, op), id), Finishing(op) == Some(id))
      {
        MovesNot(ViewOf(db, id));
      }
    } else if ToolOp(op) {
      ToolStep(db, op);
    } else {
      RunStep(db, op);
      RunStepKeepsTools(db, Step(db, op));
      SameCallIds(db, Step(db, op));
      forall id | id in db.calls
        ensures Moves(ViewOf(db, id), ViewOf(Step(db, op), id), Finishing(op) == Some(id))
      {
        MovesNot(ViewOf(db, id));
      }
    }
  }

  lemma SameCallIds(db: Db, after: Db)
    requires RunsEvolve(db, after)
    ensures after.calls == db.calls
  {
    hide RunMoves, RunViewOf;
  }

  lemma CrashMoves(db: Db)
    requires Good(db)
    ensures var after := Step(db, Crash);
      forall id :: id in db.calls ==> id in after.calls && Moves(ViewOf(db, id), ViewOf(after, id), false)
  {
    hide ToolsOk, RS.Sound, Orphans, Moves;
    CrashStep(db);
    var half := db.(executing := {});
    forall id | id in db.calls ensures Moves(ViewOf(db, id), ViewOf(Step(db, Crash), id), false) {
      assert ViewOf(Step(db, Crash), id) == ViewOf(half, id);
    }
  }

  /** A call that was CANCELLED leaves that status only when its own execution, still in flight,
      comes back; DENIED, REJECTED and EXPIRED are final, and so is every observed status. */
  lemma FinalStatusesStay(devices: map<DeviceId, Device>, ops: seq<Op>, op: Op)
    ensures
      var db, after := Reach(devices, ops), Step(Reach(devices, ops), op);
      forall id :: id in db.calls && id in after.calls && after.calls[id].status != db.calls[id].status ==>
        db.calls[id].status !in {CallStatus.Denied, CallStatus.Rejected, CallStatus.Expired,
                                 CallStatus.Succeeded, CallStatus.Failed}
        && id !in db.observations
        && (db.calls[id].status == CallStatus.Cancelled ==>
              op.Finish? && op.call == id && id in db.executing)
  {
    hide Reach, Step, Moves, CallOk;
    var db := Reach(devices, ops);
    StepMovesCalls(devices, ops, op);
    forall id | id in db.calls
      ensures Synchronised(ViewOf(db, id)) && ObservedTruth(ViewOf(db, id))
      ensures Frozen(ViewOf(db, id), ViewOf(Step(db, op), id), Finishing(op) == Some(id))
    {
      Known(devices, ops, id);
      SynchronisedFacts(ViewOf(db, id));
      ObservationFacts(ViewOf(db, id));
      FrozenFacts(ViewOf(db, id), ViewOf(Step(db, op), id), Finishing(op) == Some(id));
    }
  }

  ghost predicate Frozen(before: View, after: View, finishing: bool) {
    (before.call.status in {CallStatus.Denied, CallStatus.Rejected, CallStatus.Expired} ==>
      after.call.status == before.call.status)
    && (before.observation.Some? ==>
      after.observation == before.observation && after.call.status == before.call.status)
    && (before.call.status == CallStatus.Cancelled && after.call.status != CallStatus.Cancelled ==>
      finishing && before.running)
  }

  lemma FrozenFacts(before: View, after: View, finishing: bool)
    requires Moves(before, after, finishing)
    ensures Frozen(before, after, finishing)
  {}

  /** What any continuation of a run leaves of one call. */
  ghost predicate CallLater(before: View, after: View) {
    SameIdentity(before.call, after.call)
    && before.history <= after.history && before.starts <= after.starts
    && (before.call.status in {CallStatus.Denied, CallStatus.Rejected, CallStatus.Expired} ==>
      after.call.status == before.call.status)
    && (before.observation.Some? ==>
      after.observation == before.observation && after.call.status == before.call.status)
  }

  lemma CallLaterStep(first: View, before: View, after: View, finishing: bool)
    requires CallLater(first, before) && Moves(before, after, finishing)
    ensures CallLater(first, after)
  {}

  lemma CallLaterNot(v: View)
    ensures CallLater(v, v)
  {}

  /** Over any continuation a call keeps its identity, its recorded history, its observation and
      every final status; nothing that was audited is ever taken back. */
  lemma {:induction false} CallsNeverRegress(
    devices: map<DeviceId, Device>, ops: seq<Op>, more: seq<Op>, id: CallId)
    ensures
      var db, after := Reach(devices, ops), Reach(devices, ops + more);
      id in db.calls ==> id in after.calls && CallLater(ViewOf(db, id), ViewOf(after, id))
  {
    hide Step, ViewOf, CallLater, Moves;
    var db := Reach(devices, ops);
    if id in db.calls {
      if more == [] {
        assert ops + more == ops;
        CallLaterNot(ViewOf(db, id));
      } else {
        var n := |more| - 1;
        var before := Reach(devices, ops + more[..n]);
        Extend(devices, ops, more);
        CallsNeverRegress(devices, ops, more[..n], id);
        StepMovesCalls(devices, ops + more[..n], more[n]);
        CallLaterStep(ViewOf(db, id), ViewOf(before, id), ViewOf(Step(before, more[n]), id),
                      Finishing(more[n]) == Some(id));
      }
    }
  }

  lemma Extend(devices: map<DeviceId, Device>, ops: seq<Op>, more: seq<Op>)
    requires more != []
    ensures Reach(devices, ops + more)
      == Step(Reach(devices, ops + more[..|more| - 1]), more[|more| - 1])
  {
    hide Step;
    var n := |more| - 1;
    assert (ops + more)[..|ops + more| - 1] == ops + more[..n];
  }

  // --- idempotency ---

  /** A call's idempotency key is taken for good: after any continuation, a request by the same
      principal with the same tool and key adds no call, no approval and no start, and it is
      answered, if it is answered, with that call, provided its arguments and context match. */
  lemma KeysAreTakenForever(
    devices: map<DeviceId, Device>, ops: seq<Op>, more: seq<Op>, id: CallId,
    registry: Registry, p: Principal, r: ToolRequest, w: Surroundings)
    ensures
      var first, db := Reach(devices, ops), Reach(devices, ops + more);
      TL.Taken(first, p, r.name, r.key, id) ==>
        var txn := RequestTool(db, registry, p, r, w);
        txn.db == db.(audit := txn.db.audit)
        && (txn.result.Ok? ==>
              txn.result.value == Replied(id, true) && txn.db == db
              && r.digest == db.calls[id].digest && r.version == db.calls[id].version
              && r.run == db.calls[id].run && r.conversation == db.calls[id].conversation)
  {
    hide Reach, ContextBinding, DeviceReady, StageCall, FindIdempotent;
    KeyIsFound(devices, ops, more, id, p, r.name, r.key);
  }

  lemma KeyIsFound(
    devices: map<DeviceId, Device>, ops: seq<Op>, more: seq<Op>, id: CallId, p: Principal, tool: string, key: string)
    ensures
      var first, db := Reach(devices, ops), Reach(devices, ops + more);
      id in first.calls && SameKey(first.calls[id], p, tool, key) ==>
        id in db.calls && FindIdempotent(db, p, tool, key) == Some(id)
  {
    hide Reach, CallLater, ViewOf, FindIdempotent, KeysUnique;
    var first, db := Reach(devices, ops), Reach(devices, ops + more);
    if id in first.calls && SameKey(first.calls[id], p, tool, key) {
      CallsNeverRegress(devices, ops, more, id);
      Projections(first, id);
      Projections(db, id);
      LaterIdentity(ViewOf(first, id), ViewOf(db, id));
      KeysStayUnique(devices, ops + more);
      TheOnlyMatch(db, p, tool, key, id);
    }
  }

  lemma LaterIdentity(before: View, after: View)
    requires CallLater(before, after)
    ensures SameIdentity(before.call, after.call)
  {}

  lemma KeysStayUnique(devices: map<DeviceId, Device>, ops: seq<Op>)
    ensures KeysUnique(Reach(devices, ops).calls)
  {
    RunIsGood(devices, ops);
    hide CallOk, RS.Sound, Orphans, Reach, KeysUnique;
  }

  // --- runs, streams and conversations ---

  lemma RunsAreOk(devices: map<DeviceId, Device>, ops: seq<Op>)
    ensures var db := Reach(devices, ops);
      (forall id :: id in db.runs ==> RunOk(RunViewOf(db, id)))
      && Placed(db) && MessagesOk(db.messages) && OneLive(db.runs, db.messages) && Gapless(db.events)
  {
    RunIsGood(devices, ops);
    hide RunOk, RunViewOf, Placed, MessagesOk, OneLive, Gapless, ToolsOk, Orphans, Reach;
  }

  /** The stored status, sequence bounds and answers of a run are what its own events say. */
  ghost predicate LifeSays(db: Db, id: RunId)
    requires id in db.runs
  {
    var life := Lifecycle(db.events, id);
    Fold(life) == At(db.runs[id].status)
    && (forall e :: e in life ==> e.session == db.runs[id].session)
    && |life| >= 2
    && db.runs[id].firstSequence == Some(life[0].sequence)
    && db.runs[id].lastSequence == Some(life[|life| - 1].sequence)
    && |Answers(db.messages, id)| == (if db.runs[id].status == RunStatus.Succeeded then 1 else 0)
  }

  /** A run's lifecycle events determine its status: they read accepted, queued, perhaps started,
      perhaps a requested cancellation, and at most one outcome, which is the stored status; the
      stored sequence bounds are the first and last of them; and the run has an answer exactly
      when it succeeded. */
  lemma LifecycleDeterminesStatus(devices: map<DeviceId, Device>, ops: seq<Op>)
    ensures
      var db := Reach(devices, ops);
      forall id :: id in db.runs ==>
        LifeSays(db, id) && Shape(Lifecycle(db.events, id), db.runs[id].status)
  {
    hide Reach, Shape, RunOk, Fold, Placed, MessagesOk, OneLive, Gapless;
    var db := Reach(devices, ops);
    RunsAreOk(devices, ops);
    forall id | id in db.runs
      ensures LifeSays(db, id) && Shape(Lifecycle(db.events, id), db.runs[id].status)
    {
      RunLife(db, id);
      FoldHasShape(Lifecycle(db.events, id));
    }
  }

  lemma RunLife(db: Db, id: RunId)
    requires id in db.runs && RunOk(RunViewOf(db, id))
    ensures LifeSays(db, id)
  {
    FoldHasShape(Lifecycle(db.events, id));
    hide Fold;
    ShapeIsLong(Lifecycle(db.events, id), db.runs[id].status);
  }

  lemma ShapeIsLong(life: seq<Event>, status: RunStatus)
    requires Shape(life, status)
    ensures |life| >= 2
  {}

  lemma StepMovesRuns(devices: map<DeviceId, Device>, ops: seq<Op>, op: Op)
    ensures
      var db, after := Reach(devices, ops), Step(Reach(devices, ops), op);
      forall id :: id in db.runs ==> id in after.runs && RunMoves(RunViewOf(db, id), RunViewOf(after, id))
  {
    hide Reach, Step, ToolsOk, RS.Sound, Orphans, RunMoves, RunViewOf, Evolves;
    var db, after := Reach(devices, ops), Step(Reach(devices, ops), op);
    RunIsGood(devices, ops);
    if op.Crash? {
      CrashMovesRuns(db);
    } else if op.ChangeDevices? {
      DevicesStep(db, op.devices);
      DevicesAre(db, op.devices);
      UnmovedRuns(db, after);
    } else if ToolOp(op) {
      ToolStep(db, op);
      ToolStepKeepsRuns(db, after, Finishing(op), Born(db, after));
      ToolStepKeepsRunRows(db, after, Finishing(op), Born(db, after));
      UnmovedRuns(db, after);
    } else {
      RunStep(db, op);
      EvolvedRuns(db, after);
    }
  }

  lemma ToolStepKeepsRunRows(db: Db, after: Db, finishing: Option<CallId>, born: set<CallId>)
    requires EvolvesWith(db, after, finishing, born)
    ensures after.runs == db.runs
  {
    hide Moves, NoNewOrphan, Projects, ViewOf;
  }

  lemma EvolvedRuns(db: Db, after: Db)
    requires RunsEvolve(db, after)
    ensures forall id :: id in db.runs ==> id in after.runs && RunMoves(RunViewOf(db, id), RunViewOf(after, id))
  {
    hide RunMoves, RunViewOf;
  }

  lemma UnmovedRuns(db: Db, after: Db)
    requires after.runs.Keys == db.runs.Keys
    requires forall id :: id in db.runs ==> RunViewOf(after, id) == RunViewOf(db, id)
    ensures forall id :: id in db.runs ==> RunMoves(RunViewOf(db, id), RunViewOf(after, id))
  {
    hide RunMoves, RunViewOf;
    forall id | id in db.runs ensures RunMoves(RunViewOf(db, id), RunViewOf(after, id)) {
      RunMovesNot(RunViewOf(db, id));
    }
  }

  lemma CrashMovesRuns(db: Db)
    requires Good(db)
    ensures var after := Step(db, Crash);
      forall id :: id in db.runs ==> id in after.runs && RunMoves(RunViewOf(db, id), RunViewOf(after, id))
  {
    hide ToolsOk, RS.Sound, Orphans, RunMoves, Evolves;
    CrashStep(db);
    EvolvedRuns(db.(executing := {}), Step(db, Crash));
    forall id | id in db.runs ensures RunMoves(RunViewOf(db, id), RunViewOf(Step(db, Crash), id)) {
      assert RunViewOf(db.(executing := {}), id) == RunViewOf(db, id);
    }
  }

  /** Over any continuation a run keeps its identity, its events and its answer, and a terminal
      status is final. */
  lemma {:induction false} RunsNeverRegress(
    devices: map<DeviceId, Device>, ops: seq<Op>, more: seq<Op>, id: RunId)
    ensures
      var db, after := Reach(devices, ops), Reach(devices, ops + more);
      id in db.runs ==> id in after.runs && RunMoves(RunViewOf(db, id), RunViewOf(after, id))
  {
    hide Step, RunViewOf, RunMoves;
    var db := Reach(devices, ops);
    if id in db.runs {
      if more == [] {
        assert ops + more == ops;
        RunMovesNot(RunViewOf(db, id));
      } else {
        var n := |more| - 1;
        var before := Reach(devices, ops + more[..n]);
        Extend(devices, ops, more);
        RunsNeverRegress(devices, ops, more[..n], id);
        StepMovesRuns(devices, ops + more[..n], more[n]);
        RunMovesTransitive(RunViewOf(db, id), RunViewOf(before, id), RunViewOf(Step(before, more[n]), id));
      }
    }
  }

  /** A run whose cancellation was ever requested never succeeds, and never gets an answer. */
  lemma CancelRequestedNeverSucceeds(
    devices: map<DeviceId, Device>, ops: seq<Op>, more: seq<Op>, id: RunId)
    ensures
      var db, after := Reach(devices, ops), Reach(devices, ops + more);
      id in db.runs && db.runs[id].status == RunStatus.CancelRequested ==>
        id in after.runs && after.runs[id].status != RunStatus.Succeeded && Answers(after.messages, id) == []
  {
    hide Reach, RunMoves, RunViewOf, Fold;
    var db, after := Reach(devices, ops), Reach(devices, ops + more);
    if id in db.runs && db.runs[id].status == RunStatus.CancelRequested {
      RunsNeverRegress(devices, ops, more, id);
      LifecycleDeterminesStatus(devices, ops);
      LifecycleDeterminesStatus(devices, ops + more);
      RS.RunViewMeans(db, id);
      RS.RunViewMeans(after, id);
      LifeGrows(RunViewOf(db, id), RunViewOf(after, id));
      var life := Lifecycle(db.events, id);
      assert life[3].kind.RunCancelRequested?;
      assert Lifecycle(after.events, id)[3] == life[3];
    }
  }

  lemma LifeGrows(before: RunView, after: RunView)
    requires RunMoves(before, after)
    ensures before.life <= after.life
  {}

  /** Both services append to the same streams, and every session's sequence is exactly 1..n. */
  lemma StreamsAreGapless(devices: map<DeviceId, Device>, ops: seq<Op>, session: SessionId)
    ensures
      var log := SessionLog(Reach(devices, ops).events, session);
      forall i :: 0 <= i < |log| ==> log[i].session == session && log[i].sequence == i + 1
  {
    hide Reach;
    RunsAreOk(devices, ops);
    var events := Reach(devices, ops).events;
    SelectSound(events, OfSession(session));
    forall i | 0 <= i < |SessionLog(events, session)|
      ensures SessionLog(events, session)[i].session == session
    {
      assert SessionLog(events, session)[i] in SessionLog(events, session);
    }
  }

  lemma {:induction false} InterruptAppends(db: Db, ids: seq<RunId>)
    ensures db.events <= InterruptAll(db, ids).events
  {
    if ids != [] {
      InterruptAppends(db, ids[..|ids| - 1]);
    }
  }

  lemma SubmitAppends(db: Db, op: Op)
    requires op.Submit?
    ensures db.events <= Step(db, op).events
  {
    hide EmitRun, ValidText, FindClientMessage, ReplaySubmission, MaxOrdinal, Busy;
  }

  lemma AnswerAppends(db: Db, id: RunId, text: string, truncated: bool, freshMessage: MessageId)
    requires id in db.runs
    ensures db.events <= Answered(db, id, text, truncated, freshMessage).events
  {
    hide EmitRun, MoveRun, MaxOrdinal;
  }

  lemma RespondAppends(db: Db, op: Op)
    requires op.Respond?
    ensures db.events <= Step(db, op).events
  {
    hide Answered, MoveRun, ValidResponse;
    if op.run in db.runs {
      AnswerAppends(db.(generating := db.generating - {op.run}), op.run, op.response.text, op.truncated, op.freshMessage);
    }
  }

  lemma CancelAppends(db: Db, p: Principal, id: RunId)
    ensures db.events <= CancelRun(db, p, id).db.events
  {
    hide MoveRun;
  }

  lemma OtherRunStepAppends(db: Db, op: Op)
    requires !ToolOp(op) && !op.Submit? && !op.Respond?
    ensures db.events <= Step(db, op).events
  {
    hide InterruptAll, MaxSequence, NonTerminalRuns, MoveRun, CancelRun;
    match op {
      case InterruptRuns(runs) => InterruptAppends(db, runs);
      case StopRun(p, run) => CancelAppends(db, p, run);
      case _ =>
    }
  }

  lemma RunStepAppends(db: Db, op: Op)
    requires !ToolOp(op)
    ensures db.events <= Step(db, op).events
  {
    hide Step;
    if op.Submit? {
      SubmitAppends(db, op);
    } else if op.Respond? {
      RespondAppends(db, op);
    } else {
      OtherRunStepAppends(db, op);
    }
  }

  lemma ToolStepAppends(db: Db, after: Db, finishing: Option<CallId>, born: set<CallId>)
    requires EvolvesWith(db, after, finishing, born)
    ensures db.events <= after.events
  {
    hide Moves, NoNewOrphan, ViewOf, Gapless;
  }

  lemma StepAppends(devices: map<DeviceId, Device>, ops: seq<Op>, op: Op)
    ensures Reach(devices, ops).events <= Step(Reach(devices, ops), op).events
  {
    hide Reach, Step, ToolsOk, RS.Sound, Orphans, EvolvesWith, Evolves;
    var db := Reach(devices, ops);
    RunIsGood(devices, ops);
    if ToolOp(op) {
      ToolStep(db, op);
      ToolStepAppends(db, Step(db, op), Finishing(op), Born(db, Step(db, op)));
    } else {
      RunStepAppends(db, op);
    }
  }

  /** A session's stream only grows: what was read of it once stays its beginning. */
  lemma {:induction false} StreamsOnlyGrow(
    devices: map<DeviceId, Device>, ops: seq<Op>, more: seq<Op>, session: SessionId)
    ensures SessionLog(Reach(devices, ops).events, session) <= SessionLog(Reach(devices, ops + more).events, session)
  {
    hide Step;
    if more == [] {
      assert ops + more == ops;
    } else {
      var n := |more| - 1;
      Extend(devices, ops, more);
      StreamsOnlyGrow(devices, ops, more[..n], session);
      StepAppends(devices, ops + more[..n], more[n]);
      var before := Reach(devices, ops + more[..n]).events;
      var after := Reach(devices, ops + more).events;
      assert after == before + after[|before|..];
      SelectAppend(before, after[|before|..], OfSession(session));
    }
  }

  /** Whatever both services append between the turns of a cursor loop, the loop meets a stream it
      can follow. */
  lemma StreamsCanBeFollowed(
    devices: map<DeviceId, Device>, ops: seq<Op>, session: SessionId, polls: seq<ES.Poll>, times: seq<nat>)
    requires |times| == |polls| && (forall i :: 0 <= i < |times| ==> times[i] <= |ops|)
    requires forall i, j :: 0 <= i < j < |times| ==> times[i] <= times[j]
    requires forall i :: 0 <= i < |polls| ==>
      polls[i].log == SessionLog(Reach(devices, ops[..times[i]]).events, session)
    ensures ES.Growing(polls)
  {
    hide Reach, SessionLog;
    forall i | 0 <= i < |polls| ensures ES.Contiguous(polls[i].log) {
      StreamIsContiguous(devices, ops[..times[i]], session);
    }
    forall i, j | 0 <= i < j < |polls| ensures polls[i].log <= polls[j].log {
      StreamGrew(devices, ops, times[i], times[j], session);
    }
  }

  lemma StreamIsContiguous(devices: map<DeviceId, Device>, ops: seq<Op>, session: SessionId)
    ensures ES.Contiguous(SessionLog(Reach(devices, ops).events, session))
  {
    hide Reach, SessionLog;
    StreamsAreGapless(devices, ops, session);
  }

  lemma StreamGrew(devices: map<DeviceId, Device>, ops: seq<Op>, early: nat, late: nat, session: SessionId)
    requires early <= late <= |ops|
    ensures SessionLog(Reach(devices, ops[..early]).events, session)
      <= SessionLog(Reach(devices, ops[..late]).events, session)
  {
    hide Reach, SessionLog;
    assert ops[..late] == ops[..early] + ops[early..late];
    StreamsOnlyGrow(devices, ops[..early], ops[early..late], session);
  }

  /** Every conversation has at most one live run, its messages are numbered exactly 1..n, and
      while a run is live its trigger is the conversation's last message. */
  lemma ConversationsHaveOneLiveRun(devices: map<DeviceId, Device>, ops: seq<Op>)
    ensures
      var db := Reach(devices, ops);
      (forall i, j :: (i in db.runs && j in db.runs && NonTerminal(db.runs[i].status)
                       && NonTerminal(db.runs[j].status)
                       && db.runs[i].conversation == db.runs[j].conversation) ==> i == j)
      && (forall conversation, k {:trigger Log(db.messages, conversation)[k]} ::
            0 <= k < |Log(db.messages, conversation)| ==> Log(db.messages, conversation)[k].ordinal == k + 1)
      && (forall id :: id in db.runs && NonTerminal(db.runs[id].status) ==>
            TriggeredBy(Log(db.messages, db.runs[id].conversation), id, db.runs[id].trigger))
  {
    hide Reach;
    RunsAreOk(devices, ops);
  }
}
