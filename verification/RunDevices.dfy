/** A run and everything bound to it belong to one device: the checks that compare a caller with the
    session's device or with the run's requesting device always compare with the same device. */
module RunDevices {
  import opened Prelude
  import opened Store
  import opened ToolAuthority
  import opened ToolViews
  import opened ToolInvariants
  import opened Conversations
  import opened RunViews
  import opened RunInvariants
  import opened Platform
  import PB = PlatformBudgets
  import RS = RunSteps

  /** Every run was requested by the device of its session, and every call of a run by that device. */
  ghost predicate OneDevice(db: Db) {
    (forall id :: id in db.runs ==>
      db.runs[id].session in db.sessions && db.sessions[db.runs[id].session].device == db.runs[id].requestDevice)
    && forall id :: id in db.calls && db.calls[id].run.Some? ==>
         db.calls[id].run.value in db.runs && db.calls[id].device == db.runs[db.calls[id].run.value].requestDevice
  }

  // --- tool steps ---

  lemma BoundToItsDevice(db: Db, p: Principal, conversation: Option<ConversationId>, run: RunId)
    requires OneDevice(db) && ContextBinding(db, p, conversation, Some(run)).None?
    ensures run in db.runs && db.runs[run].requestDevice == p.device
  {}

  /** A request that adds a call found its run bound to the caller. */
  lemma AddedMeansBound(db: Db, registry: Registry, p: Principal, r: ToolRequest, w: Surroundings)
    requires RequestTool(db, registry, p, r, w).db.calls != db.calls
    ensures ContextBinding(db, p, r.conversation, r.run).None?
  {
    hide ContextBinding, FindIdempotent, DeviceReady, StageCall;
  }

  lemma ToolStepKeeps(db: Db, after: Db, finishing: Option<CallId>, born: set<CallId>)
    requires OneDevice(db) && EvolvesWith(db, after, finishing, born)
    requires forall id :: id in born && id !in db.calls && id in after.calls && after.calls[id].run.Some? ==>
      after.calls[id].run.value in db.runs && after.calls[id].device == db.runs[after.calls[id].run.value].requestDevice
    ensures OneDevice(after)
  {
    hide Moves, Projects, NoNewOrphan;
    forall id | id in db.calls
      ensures after.calls[id].run == db.calls[id].run && after.calls[id].device == db.calls[id].device
    {
      SameBinding(ViewOf(db, id), ViewOf(after, id), finishing == Some(id));
      Projections(db, id);
      Projections(after, id);
    }
    hide ViewOf;
  }

  lemma SameBinding(before: View, after: View, finishing: bool)
    requires Moves(before, after, finishing)
    ensures after.call.run == before.call.run && after.call.device == before.call.device
  {}

  lemma RequestStepKeeps(db: Db, op: Op)
    requires Good(db) && OneDevice(db) && op.Request?
    ensures OneDevice(Step(db, op))
  {
    hide ToolsOk, RS.Sound, Orphans, RequestTool, EvolvesWith, Evolves, OneDevice, PB.AddsCall, StageCall;
    var r := op.request;
    var after := RequestTool(db, op.registry, op.p, r, op.w).db;
    ToolStep(db, op);
    PB.RequestFacts(db, op.registry, op.p, r, op.w);
    if after.calls != db.calls {
      AddedMeansBound(db, op.registry, op.p, r, op.w);
      PB.OneIsBorn(db, after, op.registry[(r.name, r.version)], op.p, r, op.w);
      AddedBinding(db, after, op.registry[(r.name, r.version)], op.p, r, op.w);
      if r.run.Some? { BoundToItsDevice(db, op.p, r.conversation, r.run.value); }
    }
    ToolStepKeeps(db, after, None, Born(db, after));
  }

  lemma AddedBinding(db: Db, after: Db, d: Descriptor, p: Principal, r: ToolRequest, w: Surroundings)
    requires PB.AddsCall(db, after, d, p, r, w)
    ensures w.freshCall in after.calls && after.calls[w.freshCall].run == r.run
      && after.calls[w.freshCall].device == p.device
  {
    hide ProposedIn, ApprovalRequiredIn, Recent;
  }

  // --- conversation steps ---

  /** Sessions keep their device, and a new run is queued in a session of its device. */
  ghost predicate Settled(db: Db, after: Db) {
    (forall id :: id in db.sessions ==> id in after.sessions && after.sessions[id].device == db.sessions[id].device)
    && forall id :: id in after.runs && id !in db.runs ==>
         after.runs[id].session in after.sessions
         && after.sessions[after.runs[id].session].device == after.runs[id].requestDevice
         && after.runs[id].status == RunStatus.Queued
  }

  lemma {:induction false} InterruptSettles(db: Db, ids: seq<RunId>)
    ensures InterruptAll(db, ids).sessions == db.sessions && InterruptAll(db, ids).runs.Keys == db.runs.Keys
  {
    if ids != [] {
      InterruptSettles(db, ids[..|ids| - 1]);
    }
  }

  lemma SettledInPlace(db: Db, after: Db)
    requires after.sessions == db.sessions && after.runs.Keys == db.runs.Keys
    ensures Settled(db, after)
  {}

  lemma EmitKeepsPlaces(db: Db, id: RunId, kind: EventKind)
    requires id in db.runs
    ensures var after := EmitRun(db, id, kind);
      after.sessions == db.sessions && after.runs[id].session == db.runs[id].session
      && after.runs[id].requestDevice == db.runs[id].requestDevice && after.runs[id].status == db.runs[id].status
  {
    hide AppendEvent, MaxSequence;
  }

  lemma SubmittedSettles(
    db: Db, p: Principal, session: SessionId, clientId: nat, content: string, model: string,
    freshMessage: MessageId, freshRun: RunId)
    requires Conversations.Authorised(db, p, session)
    ensures Settled(db, Submitted(db, p, session, clientId, content, model, freshMessage, freshRun))
  {
    var conversation := db.sessions[session].conversation;
    var message := ChatMessage(freshMessage, conversation, freshRun, Some(p.device), Role.User, content,
                               MaxOrdinal(db.messages, conversation) + 1, Some(clientId));
    var run := Run(conversation, session, p.device, freshMessage, model, RunStatus.Queued, false, None, None);
    var inserted := db.(messages := db.messages + [message], runs := db.runs[freshRun := run]);
    EmitKeepsPlaces(inserted, freshRun, MessageAccepted(freshMessage));
    EmitKeepsPlaces(EmitRun(inserted, freshRun, MessageAccepted(freshMessage)), freshRun, RunQueued);
    hide EmitRun, MaxOrdinal;
  }

  lemma SubmitSettles(db: Db, op: Op)
    requires op.Submit?
    ensures Settled(db, Step(db, op))
  {
    hide ValidText, FindClientMessage, ReplaySubmission, Busy, Submitted, Settled;
    SettledInPlace(db, db);
    if Conversations.Authorised(db, op.p, op.session) {
      SubmittedSettles(db, op.p, op.session, op.clientId, op.content, op.model, op.freshMessage, op.freshRun);
    }
  }

  lemma OpenSettles(db: Db, p: Principal, conversation: ConversationId, id: SessionId)
    ensures Settled(db, CreateSession(db, p, conversation, id).db)
  {
    hide AppendEvent;
  }

  lemma CloseSettles(db: Db, p: Principal, id: SessionId)
    ensures Settled(db, CloseSession(db, p, id).db)
  {
    hide AppendEvent;
  }

  /** The same sessions and the same runs. */
  ghost predicate SamePlaces(db: Db, after: Db) {
    after.sessions == db.sessions && after.runs.Keys == db.runs.Keys
  }

  lemma CancelStays(db: Db, p: Principal, id: RunId)
    ensures SamePlaces(db, CancelRun(db, p, id).db)
  {
    hide MoveRun;
  }

  lemma BeginStays(db: Db, id: RunId)
    ensures SamePlaces(db, BeginRun(db, id))
  {
    hide MoveRun;
  }

  lemma FailStays(db: Db, id: RunId)
    ensures SamePlaces(db, FinalizeFailure(db, id))
  {
    hide MoveRun;
  }

  lemma ResponseStays(db: Db, id: RunId, response: Response, truncated: bool, freshMessage: MessageId)
    ensures SamePlaces(db, FinalizeResponse(db, id, response, truncated, freshMessage))
  {
    hide Answered, MoveRun, ValidResponse;
    if id in db.runs {
      AnswerSettles(db.(generating := db.generating - {id}), id, response.text, truncated, freshMessage);
    }
  }

  lemma OpenConversationStays(db: Db, p: Principal, id: ConversationId)
    ensures SamePlaces(db, CreateConversation(db, p, id).db)
  {}

  lemma RunStepStays(db: Db, op: Op)
    requires !ToolOp(op) && !op.Submit? && !op.OpenSession? && !op.ShutSession? && !op.Crash? && !op.ChangeDevices?
    ensures SamePlaces(db, Step(db, op))
  {
    hide CreateConversation, CancelRun, BeginRun, FinalizeResponse, FinalizeFailure, InterruptAll, NonTerminalRuns;
    match op {
      case OpenConversation(p, conversation) => OpenConversationStays(db, p, conversation);
      case StopRun(p, run) => CancelStays(db, p, run);
      case WorkOn(run) => BeginStays(db, run);
      case Respond(run, response, truncated, freshMessage) => ResponseStays(db, run, response, truncated, freshMessage);
      case Fail(run) => FailStays(db, run);
      case InterruptRuns(runs) => InterruptSettles(db, runs);
    }
  }

  lemma RunStepSettles(db: Db, op: Op)
    requires !ToolOp(op) && !op.Crash? && !op.ChangeDevices?
    ensures Settled(db, Step(db, op))
  {
    hide Settled, CreateSession, CloseSession;
    match op {
      case Submit(_, _, _, _, _, _, _) => SubmitSettles(db, op);
      case OpenSession(p, conversation, session) => OpenSettles(db, p, conversation, session);
      case ShutSession(p, session) => CloseSettles(db, p, session);
      case _ =>
        RunStepStays(db, op);
        hide Step;
        SettledInPlace(db, Step(db, op));
    }
  }

  lemma AnswerSettles(db: Db, id: RunId, text: string, truncated: bool, freshMessage: MessageId)
    requires id in db.runs
    ensures var after := Answered(db, id, text, truncated, freshMessage);
      after.sessions == db.sessions && after.runs.Keys == db.runs.Keys
  {
    hide EmitRun, MoveRun, MaxOrdinal;
  }

  lemma SettledKeeps(db: Db, after: Db)
    requires OneDevice(db) && Settled(db, after) && after.calls == db.calls
    requires forall id :: id in db.runs ==>
      id in after.runs && after.runs[id].session == db.runs[id].session
      && after.runs[id].requestDevice == db.runs[id].requestDevice
    ensures OneDevice(after)
  {}

  lemma MovedRuns(db: Db, after: Db)
    requires RunsEvolve(db, after)
    ensures after.calls == db.calls
    ensures forall id :: id in db.runs ==>
      id in after.runs && after.runs[id].session == db.runs[id].session
      && after.runs[id].requestDevice == db.runs[id].requestDevice
  {
    forall id | id in db.runs
      ensures id in after.runs && after.runs[id].session == db.runs[id].session
        && after.runs[id].requestDevice == db.runs[id].requestDevice
    {
      assert RunMoves(RunViewOf(db, id), RunViewOf(after, id));
    }
  }

  // --- every run ---

  lemma StepKeepsDevices(db: Db, op: Op)
    requires Good(db) && OneDevice(db)
    ensures OneDevice(Step(db, op))
  {
    hide ToolsOk, RS.Sound, Orphans, EvolvesWith, Evolves, RunsEvolve, OneDevice, Settled;
    var after := Step(db, op);
    if op.Request? {
      RequestStepKeeps(db, op);
    } else if ToolOp(op) {
      hide Step;
      ToolStep(db, op);
      NobodyBorn(db, after, Finishing(op));
      ToolStepKeeps(db, after, Finishing(op), {});
    } else if op.Crash? || op.ChangeDevices? {
      OtherRowsKeep(db, after);
    } else {
      hide Step;
      RunStepSettles(db, op);
      RunStep(db, op);
      MovedRuns(db, after);
      SettledKeeps(db, after);
    }
  }

  lemma NobodyBorn(db: Db, after: Db, finishing: Option<CallId>)
    requires Evolves(db, after, finishing)
    ensures EvolvesWith(db, after, finishing, {})
  {}

  lemma OtherRowsKeep(db: Db, after: Db)
    requires OneDevice(db) && after.runs == db.runs && after.sessions == db.sessions && after.calls == db.calls
    ensures OneDevice(after)
  {}

  lemma InitialDevices(devices: map<DeviceId, Device>)
    ensures OneDevice(Initial(devices))
  {}

  /** In every reachable state a run has one device: its session's, the one that requested it, and the
      one of every call made for it; so any two calls of a run come from the same device. */
  lemma {:induction false} RunsHaveOneDevice(devices: map<DeviceId, Device>, ops: seq<Op>)
    ensures OneDevice(Reach(devices, ops))
    ensures var calls := Reach(devices, ops).calls;
      forall i, j :: i in calls && j in calls && calls[i].run.Some? && calls[i].run == calls[j].run ==>
        calls[i].device == calls[j].device
  {
    hide Step, Good;
    if ops == [] {
      InitialDevices(devices);
    } else {
      RunIsGood(devices, ops[..|ops| - 1]);
      RunsHaveOneDevice(devices, ops[..|ops| - 1]);
      StepKeepsDevices(Reach(devices, ops[..|ops| - 1]), ops[|ops| - 1]);
    }
  }
}
