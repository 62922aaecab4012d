/** Both services over one store: every transaction, every process crash, in any order. */
module Platform {
  import opened Prelude
  import opened Store
  import opened ToolAuthority
  import opened ToolViews
  import opened ToolInvariants
  import TS = ToolSteps
  import TR = ToolRequestSteps
  import opened Conversations
  import opened RunViews
  import opened RunInvariants
  import RS = RunSteps

  /** One atomic step. `Finish` and `Respond` are what a process does when the executor or the
      model it waited for comes back; `Crash` loses all of those. */
  datatype Op =
    | Request(registry: Registry, p: Principal, request: ToolRequest, w: Surroundings)
    | Decide(p: Principal, authorized: bool, approval: ApprovalId, approve: bool, now: Time)
    | Begin(registry: Registry, p: Principal, call: CallId, arguments: Option<Option<Digest>>, w: Surroundings)
    | Finish(call: CallId, raw: RawOutcome, now: Time)
    | Cancel(registry: Registry, p: Principal, authorized: bool, call: CallId, now: Time)
    | CancelLost(call: CallId, now: Time)
    | ExpirePending(ids: seq<ApprovalId>, now: Time)
    | ReconcileCalls(calls: seq<CallId>, now: Time)
    | OpenConversation(p: Principal, conversation: ConversationId)
    | OpenSession(p: Principal, conversation: ConversationId, session: SessionId)
    | ShutSession(p: Principal, session: SessionId)
    | Submit(p: Principal, session: SessionId, clientId: nat, content: string, model: string,
             freshMessage: MessageId, freshRun: RunId)
    | StopRun(p: Principal, run: RunId)
    | WorkOn(run: RunId)
    | Respond(run: RunId, response: Response, truncated: bool, freshMessage: MessageId)
    | Fail(run: RunId)
    | InterruptRuns(runs: seq<RunId>)
    | Crash
    | ChangeDevices(devices: map<DeviceId, Device>)

  ghost function Step(db: Db, op: Op): Db {
    match op
    case Request(registry, p, request, w) => RequestTool(db, registry, p, request, w).db
    case Decide(p, authorized, approval, approve, now) =>
      DecideApproval(db, p, authorized, approval, approve, now).db
    case Begin(registry, p, call, arguments, w) => BeginExecution(db, registry, p, call, arguments, w).db
    case Finish(call, raw, now) =>
      if call in db.executing then FinishExecution(db, call, raw, now).db else db
    case Cancel(registry, p, authorized, call, now) => CancelCall(db, registry, p, authorized, call, now).db
    case CancelLost(call, now) => CancelUndelivered(db, call, now)
    case ExpirePending(ids, now) => if ExpiryCandidates(db, now, ids) then ExpireAll(db, ids, now) else db
    case ReconcileCalls(calls, now) => if StaleCalls(db, calls) then Reconcile(db, calls, now) else db
    case OpenConversation(p, conversation) => CreateConversation(db, p, conversation).db
    case OpenSession(p, conversation, session) => CreateSession(db, p, conversation, session).db
    case ShutSession(p, session) => CloseSession(db, p, session).db
    case Submit(p, session, clientId, content, model, freshMessage, freshRun) =>
      SubmitMessage(db, p, session, clientId, content, model, freshMessage, freshRun).db
    case StopRun(p, run) => CancelRun(db, p, run).db
    case WorkOn(run) => BeginRun(db, run)
    case Respond(run, response, truncated, freshMessage) =>
      if run in db.generating then FinalizeResponse(db, run, response, truncated, freshMessage) else db
    case Fail(run) => FinalizeFailure(db, run)
    case InterruptRuns(runs) => if NonTerminalRuns(db, runs) then InterruptAll(db, runs) else db
    case Crash => db.(executing := {}, generating := {})
    case ChangeDevices(devices) => db.(devices := devices)
  }

  function Initial(devices: map<DeviceId, Device>): Db {
    Db(devices, map[], map[], map[], [], [], map[], map[], map[], [], {}, [], {})
  }

  ghost function Reach(devices: map<DeviceId, Device>, ops: seq<Op>): Db {
    if ops == [] then Initial(devices)
    else Step(Reach(devices, ops[..|ops| - 1]), ops[|ops| - 1])
  }

  // --- the global invariant ---

  /** A call that was written off while its execution is in flight belongs to a dead run. */
  ghost predicate Orphans(db: Db) {
    forall id :: id in db.executing && id in db.calls && db.calls[id].status == CallStatus.Cancelled ==>
      ParentDead(db, db.calls[id])
  }

  ghost predicate Good(db: Db) {
    ToolsOk(db) && RS.Sound(db) && Orphans(db)
  }

  ghost predicate ToolOp(op: Op) {
    op.Request? || op.Decide? || op.Begin? || op.Finish? || op.Cancel? || op.CancelLost?
    || op.ExpirePending? || op.ReconcileCalls?
  }

  ghost function Finishing(op: Op): Option<CallId> {
    if op.Finish? then Some(op.call) else None
  }

  ghost function Born(db: Db, after: Db): set<CallId> {
    after.calls.Keys - db.calls.Keys
  }

  // --- tool steps ---

  lemma ToolStep(db: Db, op: Op)
    requires ToolsOk(db) && ToolOp(op)
    ensures ToolsOk(Step(db, op)) && EvolvesWith(db, Step(db, op), Finishing(op), Born(db, Step(db, op)))
    ensures !op.Request? ==> Evolves(db, Step(db, op), Finishing(op))
  {
    hide ToolsOk, Evolves, RequestTool, DecideApproval, BeginExecution, FinishExecution, CancelCall,
      CancelUndelivered, ExpireAll, Reconcile, EvolvesWith, ExpiryCandidates;
    var after := Step(db, op);
    match op {
      case Request(registry, p, request, w) =>
        TR.RequestKeeps(db, registry, p, request, w);
        BornIs(db, after, w.freshCall);
      case Decide(p, authorized, approval, approve, now) =>
        TS.DecideKeeps(db, p, authorized, approval, approve, now);
      case Begin(registry, p, call, arguments, w) =>
        TS.BeginKeeps(db, registry, p, call, arguments, w);
      case Finish(call, raw, now) =>
        if call in db.executing { TS.FinishKeeps(db, call, raw, now); } else { EvolvesNot(db, Some(call)); }
      case Cancel(registry, p, authorized, call, now) =>
        TS.CancelKeeps(db, registry, p, authorized, call, now);
      case CancelLost(call, now) => TS.UndeliveredKeeps(db, call, now);
      case ExpirePending(ids, now) => TS.ExpireAllKeeps(db, ids, now); EvolvesNot(db, None);
      case ReconcileCalls(calls, now) => ReconcileStep(db, calls, now);
    }
    if !op.Request? {
      BornNot(db, after, Finishing(op));
    }
  }

  lemma ReconcileStep(db: Db, calls: seq<CallId>, now: Time)
    requires ToolsOk(db)
    ensures var after := Step(db, ReconcileCalls(calls, now));
      ToolsOk(after) && Evolves(db, after, None)
  {
    hide ToolsOk, Evolves, ReconcileAll;
    EvolvesNot(db, None);
    if StaleCalls(db, calls) {
      TS.ReconcileAllKeeps(db, calls, now);
    }
  }

  lemma BornIs(db: Db, after: Db, id: CallId)
    requires TR.MayAdd(db, after, id)
    ensures EvolvesWith(db, after, None, Born(db, after))
  {
    if Evolves(db, after, None) {
      assert Born(db, after) == {};
    } else {
      assert Born(db, after) == {id};
    }
  }

  lemma BornNot(db: Db, after: Db, finishing: Option<CallId>)
    requires Evolves(db, after, finishing)
    ensures EvolvesWith(db, after, finishing, Born(db, after))
  {
    assert Born(db, after) == {};
  }

  /** A tool step leaves runs, messages and lifecycle events as they are. */
  lemma ToolStepKeepsRuns(db: Db, after: Db, finishing: Option<CallId>, born: set<CallId>)
    requires RS.Sound(db) && EvolvesWith(db, after, finishing, born)
    ensures RS.Sound(after)
    ensures forall id :: id in db.runs ==> RunViewOf(after, id) == RunViewOf(db, id)
  {
    hide Moves, RunOk, OneLive, MessagesOk, Placed, Gapless, RunRows, Projects, ViewOf, NoNewOrphan;
    forall id | id in db.runs ensures RunViewOf(after, id) == RunViewOf(db, id) {
      ProjectionKeepsLifecycle(db.events, after.events, db.runs.Keys, id);
    }
    ProjectionKeepsRows(db.runs.Keys, db.events, after.events, db.messages, db.generating);
    SamePlaces(db, after);
    ProjectionGapless(db.events, after.events, db.runs.Keys);
  }

  lemma ProjectionGapless(events: seq<Event>, after: seq<Event>, runs: set<RunId>)
    requires Projects(events, after, runs) && Gapless(events)
    ensures Gapless(after)
  {
    hide Gapless;
  }

  lemma ProjectionKeepsLifecycle(events: seq<Event>, after: seq<Event>, runs: set<RunId>, id: RunId)
    requires Projects(events, after, runs)
    ensures Lifecycle(after, id) == Lifecycle(events, id)
  {
    hide Gapless;
    var tail := after[|events|..];
    assert after == events + tail;
    forall e | e in tail ensures !LifecycleOf(id)(e) {
      var i :| 0 <= i < |tail| && tail[i] == e;
      assert after[|events| + i] == e;
    }
    SelectAppend(events, tail, LifecycleOf(id));
    SelectNone(tail, LifecycleOf(id));
  }

  lemma ProjectionKeepsRows(
    runs: set<RunId>, events: seq<Event>, after: seq<Event>, messages: seq<ChatMessage>, generating: set<RunId>)
    requires RunRows(runs, events, messages, generating) && Projects(events, after, runs)
    ensures RunRows(runs, after, messages, generating)
  {
    hide Gapless;
    forall e | e in after && e.run.Some? ensures e.run.value in runs {
      if e !in events {
        var i :| 0 <= i < |after| && after[i] == e;
        assert i >= |events|;
      }
    }
  }

  lemma SamePlaces(db: Db, after: Db)
    requires Placed(db) && after.runs == db.runs && after.sessions == db.sessions
    requires after.conversations == db.conversations && after.messages == db.messages
    ensures Placed(after)
  {}

  lemma ToolStepKeepsOrphans(db: Db, after: Db, finishing: Option<CallId>, born: set<CallId>)
    requires Orphans(db) && EvolvesWith(db, after, finishing, born)
    ensures Orphans(after)
  {
    hide Moves, Projects;
    forall id | id in after.executing && id in after.calls && after.calls[id].status == CallStatus.Cancelled
      ensures ParentDead(after, after.calls[id])
    {
      assert id in db.calls && NoNewOrphan(db, after, id);
      MoveRunStays(ViewOf(db, id), ViewOf(after, id), finishing == Some(id));
      Projections(db, id);
      Projections(after, id);
    }
  }

  lemma MoveRunStays(before: View, after: View, finishing: bool)
    requires Moves(before, after, finishing)
    ensures after.call.run == before.call.run
  {}

  // --- conversation steps ---

  lemma RunStep(db: Db, op: Op)
    requires RS.Sound(db) && !ToolOp(op) && !op.Crash? && !op.ChangeDevices?
    ensures RS.Sound(Step(db, op)) && RunsEvolve(db, Step(db, op))
  {
    hide RS.Sound, RunsEvolve, CreateConversation, CreateSession, CloseSession, SubmitMessage, CancelRun,
      BeginRun, FinalizeResponse, FinalizeFailure, InterruptAll;
    RunsEvolveNot(db);
    match op {
      case OpenConversation(p, conversation) => RS.CreateConversationKeeps(db, p, conversation);
      case OpenSession(p, conversation, session) => RS.CreateSessionKeeps(db, p, conversation, session);
      case ShutSession(p, session) => RS.CloseSessionKeeps(db, p, session);
      case Submit(p, session, clientId, content, model, freshMessage, freshRun) =>
        RS.SubmitKeeps(db, p, session, clientId, content, model, freshMessage, freshRun);
      case StopRun(p, run) => RS.CancelKeeps(db, p, run);
      case WorkOn(run) => RS.BeginKeeps(db, run);
      case Respond(run, response, truncated, freshMessage) =>
        if run in db.generating { RS.RespondKeeps(db, run, response, truncated, freshMessage); }
      case Fail(run) => RS.FailKeeps(db, run);
      case InterruptRuns(runs) =>
        if NonTerminalRuns(db, runs) { RS.InterruptKeeps(db, runs); }
    }
  }

  lemma RunStepKeepsTools(db: Db, after: Db)
    requires ToolsOk(db) && Orphans(db) && RunsEvolve(db, after)
    ensures ToolsOk(after) && Orphans(after)
    ensures forall id :: id in db.calls ==> ViewOf(after, id) == ViewOf(db, id)
  {
    hide CallOk, KeysUnique, RunMoves;
    forall id | id in db.calls ensures ViewOf(after, id) == ViewOf(db, id) {}
    forall id | id in after.executing && id in after.calls && after.calls[id].status == CallStatus.Cancelled
      ensures ParentDead(after, after.calls[id])
    {
      var run := db.calls[id].run.value;
      DeadStays(RunViewOf(db, run), RunViewOf(after, run));
    }
  }

  lemma DeadStays(before: RunView, after: RunView)
    requires RunMoves(before, after) && RunDead(before.run.status)
    ensures RunDead(after.run.status)
  {}

  // --- crashes and changes of authority ---

  lemma CrashStep(db: Db)
    requires Good(db)
    ensures Good(Step(db, Crash)) && Evolves(db, db.(executing := {}), None)
    ensures RunsEvolve(db.(executing := {}), Step(db, Crash))
  {
    hide ToolsOk, RS.Sound, Evolves, RunsEvolve;
    var half := db.(executing := {});
    TS.CrashKeeps(db);
    BornNot(db, half, None);
    ToolStepKeepsRuns(db, half, None, Born(db, half));
    RS.GeneratingKeeps(half, {});
    RunStepKeepsTools(half, Step(db, Crash));
  }

  lemma DevicesStep(db: Db, devices: map<DeviceId, Device>)
    requires Good(db)
    ensures Good(db.(devices := devices))
    ensures forall id :: id in db.calls ==> ViewOf(db.(devices := devices), id) == ViewOf(db, id)
    ensures forall id :: id in db.runs ==> RunViewOf(db.(devices := devices), id) == RunViewOf(db, id)
  {
    hide CallOk, KeysUnique, RunOk, OneLive, MessagesOk, Gapless, Placed, RunsLinked;
    var after := db.(devices := devices);
    forall id | id in db.calls ensures ViewOf(after, id) == ViewOf(db, id) {}
    forall id | id in db.runs ensures RunViewOf(after, id) == RunViewOf(db, id) {}
    LinksSurvive(db, devices);
    SamePlaces(db, after);
  }

  lemma DevicesAre(db: Db, devices: map<DeviceId, Device>)
    ensures Step(db, ChangeDevices(devices)) == db.(devices := devices)
  {}

  lemma LinksSurvive(db: Db, devices: map<DeviceId, Device>)
    ensures RunsLinked(db) ==> RunsLinked(db.(devices := devices))
  {}

  // --- every step, every run ---

  lemma StepIsGood(db: Db, op: Op)
    requires Good(db)
    ensures Good(Step(db, op))
  {
    hide ToolsOk, RS.Sound, Orphans, Step, EvolvesWith, Evolves, RunsEvolve;
    if op.Crash? {
      CrashStep(db);
    } else if op.ChangeDevices? {
      DevicesStep(db, op.devices);
      DevicesAre(db, op.devices);
    } else if ToolOp(op) {
      ToolStep(db, op);
      ToolStepKeepsRuns(db, Step(db, op), Finishing(op), Born(db, Step(db, op)));
      ToolStepKeepsOrphans(db, Step(db, op), Finishing(op), Born(db, Step(db, op)));
    } else {
      RunStep(db, op);
      RunStepKeepsTools(db, Step(db, op));
    }
  }

  lemma InitialIsGood(devices: map<DeviceId, Device>)
    ensures Good(Initial(devices))
  {}

  /** The invariant holds after every sequence of steps, whatever the interleaving. */
  lemma {:induction false} RunIsGood(devices: map<DeviceId, Device>, ops: seq<Op>)
    ensures Good(Reach(devices, ops))
  {
    hide Good, Step;
    InitialIsGood(devices);
    if ops != [] {
      RunIsGood(devices, ops[..|ops| - 1]);
      StepIsGood(Reach(devices, ops[..|ops| - 1]), ops[|ops| - 1]);
    }
  }
}
