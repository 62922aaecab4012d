/** The worker of a run carries the flag of the history it selected from that transaction to the one that
    records the answer. What is stored with a succeeded run tells whether an earlier message was dropped. */
module RunContexts {
  import opened Prelude
  import opened Store
  import opened ToolViews
  import opened ToolInvariants
  import opened Conversations
  import opened RunViews
  import opened RunInvariants
  import opened Platform
  import opened History
  import GR = GenerationRequests
  import PT = PlatformTheorems
  import RD = RunDevices
  import RS = RunSteps

  /** The store, and the flag that each worker holds after it selected its history. */
  datatype World = World(db: Db, chosen: map<RunId, bool>)

  /** Any step but a response; a worker's selection of its history; a response, which stores what the
      worker holds. */
  datatype Act =
    | Do(op: Op)
    | Choose(run: RunId)
    | Reply(run: RunId, response: Response, freshMessage: MessageId)

  function Selection(db: Db, id: RunId): Result<Context>
    requires id in db.runs
  {
    Assemble(Log(db.messages, db.runs[id].conversation), db.runs[id].trigger)
  }

  ghost function Taken(w: World, act: Act): World {
    match act
    case Do(op) =>
      if op.Respond? then w else World(Step(w.db, op), if op.Crash? then map[] else w.chosen)
    case Choose(id) =>
      if id !in w.db.generating || id !in w.db.runs || id in w.chosen || Selection(w.db, id).Err? then w
      else w.(chosen := w.chosen[id := Selection(w.db, id).value.truncated])
    case Reply(id, response, freshMessage) =>
      if id !in w.db.generating || id !in w.chosen then w
      else World(Step(w.db, Respond(id, response, w.chosen[id], freshMessage)), w.chosen - {id})
  }

  ghost function Evolved(devices: map<DeviceId, Device>, acts: seq<Act>): World {
    if acts == [] then World(Initial(devices), map[])
    else Taken(Evolved(devices, acts[..|acts| - 1]), acts[|acts| - 1])
  }

  /** The step of the store that an act is, if it is one. */
  ghost function Erased(w: World, act: Act): seq<Op> {
    match act
    case Do(op) => if op.Respond? then [] else [op]
    case Choose(_) => []
    case Reply(id, response, freshMessage) =>
      if id !in w.db.generating || id !in w.chosen then [] else [Respond(id, response, w.chosen[id], freshMessage)]
  }

  /** Every such run is a run of the platform, so all that holds of those holds here. */
  lemma {:induction false} WorldIsPlatform(devices: map<DeviceId, Device>, acts: seq<Act>) returns (ops: seq<Op>)
    ensures Evolved(devices, acts).db == Reach(devices, ops)
  {
    hide Step;
    if acts == [] {
      ops := [];
    } else {
      var n := |acts| - 1;
      var w := Evolved(devices, acts[..n]);
      var earlier := WorldIsPlatform(devices, acts[..n]);
      ops := earlier + Erased(w, acts[n]);
      if |Erased(w, acts[n])| == 1 {
        assert ops[..|ops| - 1] == earlier;
      } else {
        assert ops == earlier;
      }
    }
  }

  // --- the messages up to a run's trigger ---

  function UpTo(log: seq<ChatMessage>, trigger: MessageId): seq<ChatMessage> {
    if log == [] then []
    else if log[0].id == trigger then [log[0]]
    else [log[0]] + UpTo(log[1..], trigger)
  }

  ghost predicate Has(log: seq<ChatMessage>, trigger: MessageId) {
    exists m :: m in log && m.id == trigger
  }

  lemma {:induction false} UpToStays(log: seq<ChatMessage>, more: seq<ChatMessage>, trigger: MessageId)
    requires Has(log, trigger)
    ensures UpTo(log + more, trigger) == UpTo(log, trigger) && Has(log + more, trigger)
  {
    var m :| m in log && m.id == trigger;
    assert m in log + more;
    if log[0].id != trigger {
      assert (log + more)[1..] == log[1..] + more;
      assert m in log[1..];
      UpToStays(log[1..], more, trigger);
    }
  }

  lemma {:induction false} UpToWhole(log: seq<ChatMessage>, trigger: MessageId)
    requires log != [] && log[|log| - 1].id == trigger && forall i :: 0 <= i < |log| - 1 ==> log[i].id != trigger
    ensures UpTo(log, trigger) == log
  {
    if |log| > 1 {
      UpToWhole(log[1..], trigger);
    }
  }

  /** What a run could select from while it was live: its conversation up to its trigger. */
  function Past(db: Db, id: RunId): seq<ChatMessage>
    requires id in db.runs
  {
    UpTo(Log(db.messages, db.runs[id].conversation), db.runs[id].trigger)
  }

  /** The trigger is stored, ends the past, and is a user's message. */
  ghost predicate Asked(db: Db, id: RunId)
    requires id in db.runs
  {
    var past := Past(db, id);
    Has(Log(db.messages, db.runs[id].conversation), db.runs[id].trigger)
    && |past| > 0 && past[|past| - 1].id == db.runs[id].trigger && past[|past| - 1].role == Role.User
  }

  lemma PastStays(db: Db, after: Db, id: RunId)
    requires id in db.runs && id in after.runs && db.messages <= after.messages && Asked(db, id)
    requires after.runs[id].conversation == db.runs[id].conversation && after.runs[id].trigger == db.runs[id].trigger
    ensures Past(after, id) == Past(db, id) && Asked(after, id)
  {
    var more := after.messages[|db.messages|..];
    assert after.messages == db.messages + more;
    SelectAppend(db.messages, more, OfConversation(db.runs[id].conversation));
    UpToStays(Log(db.messages, db.runs[id].conversation), Log(more, db.runs[id].conversation), db.runs[id].trigger);
  }

  lemma LastHasItsId(log: seq<ChatMessage>, trigger: MessageId)
    requires Ordered(log) && log != [] && log[|log| - 1].id == trigger
    requires forall m, k :: m in log && k in log && m.id == k.id ==> m == k
    ensures forall i :: 0 <= i < |log| - 1 ==> log[i].id != trigger
    ensures Has(log, trigger)
  {
    var last := log[|log| - 1];
    assert last in log;
    forall i | 0 <= i < |log| - 1 ensures log[i].id != trigger {
      assert log[i] in log && log[i].ordinal < last.ordinal;
    }
  }

  lemma EndsWithTrigger(db: Db, id: RunId)
    requires OneLive(db.runs, db.messages) && id in db.runs && NonTerminal(db.runs[id].status)
    ensures var log := Log(db.messages, db.runs[id].conversation);
      log != [] && log[|log| - 1].id == db.runs[id].trigger && log[|log| - 1].role == Role.User
  {
    hide Log, NonTerminal;
    assert TriggeredBy(Log(db.messages, db.runs[id].conversation), id, db.runs[id].trigger);
  }

  /** A conversation that ends with a message is all there is up to that message. */
  lemma WholeUpToLast(messages: seq<ChatMessage>, conversation: ConversationId, trigger: MessageId)
    requires MessagesOk(messages)
    requires var log := Log(messages, conversation); log != [] && log[|log| - 1].id == trigger
    ensures var log := Log(messages, conversation); UpTo(log, trigger) == log && Has(log, trigger)
  {
    hide MessagesOk, Log, Ordered, Has, UpTo;
    GR.LiveLog(messages, conversation);
    LastHasItsId(Log(messages, conversation), trigger);
    UpToWhole(Log(messages, conversation), trigger);
  }

  /** While a run is live its past is its whole conversation. */
  lemma LivePast(db: Db, id: RunId)
    requires RS.Sound(db) && id in db.runs && NonTerminal(db.runs[id].status)
    ensures Past(db, id) == Log(db.messages, db.runs[id].conversation) && Asked(db, id)
  {
    hide RS.Sound, OneLive, MessagesOk, Log, NonTerminal, Has, UpTo;
    SoundParts(db);
    EndsWithTrigger(db, id);
    WholeUpToLast(db.messages, db.runs[id].conversation, db.runs[id].trigger);
  }

  lemma SoundParts(db: Db)
    requires RS.Sound(db)
    ensures MessagesOk(db.messages) && OneLive(db.runs, db.messages)
  {
    hide MessagesOk, OneLive, Placed, RunsLinked, RunOk, Gapless;
  }

  // --- which steps touch the stored flag ---

  /** No run's flag changes and none succeeds. */
  ghost predicate FlagsStay(db: Db, after: Db) {
    forall id :: id in db.runs ==>
      id in after.runs && after.runs[id].truncated == db.runs[id].truncated
      && (after.runs[id].status == RunStatus.Succeeded ==> db.runs[id].status == RunStatus.Succeeded)
  }

  lemma MoveFlags(db: Db, id: RunId, status: RunStatus, kind: EventKind)
    requires id in db.runs
    ensures
      var after := MoveRun(db, id, status, kind);
      after.runs == db.runs[id := after.runs[id]] && after.runs[id].truncated == db.runs[id].truncated
      && after.runs[id].status == status
  {
    hide AppendEvent, MaxSequence;
  }

  lemma {:induction false} InterruptFlags(db: Db, ids: seq<RunId>)
    ensures FlagsStay(db, InterruptAll(db, ids))
  {
    hide MoveRun;
    if ids != [] {
      var n := |ids| - 1;
      var before := InterruptAll(db, ids[..n]);
      InterruptFlags(db, ids[..n]);
      if ids[n] in before.runs { MoveFlags(before, ids[n], RunStatus.Failed, RunInterrupted); }
    }
  }

  lemma OneRunMoves(db: Db, after: Db, id: RunId)
    requires id in db.runs && id in after.runs && after.runs == db.runs[id := after.runs[id]]
    requires after.runs[id].truncated == db.runs[id].truncated && after.runs[id].status != RunStatus.Succeeded
    ensures FlagsStay(db, after)
  {}

  lemma CancelFlags(db: Db, p: Principal, id: RunId)
    ensures FlagsStay(db, CancelRun(db, p, id).db)
  {
    hide MoveRun, FlagsStay;
    SameRunsStay(db, db);
    if id in db.runs {
      MoveFlags(db, id, RunStatus.Cancelled, RunCancelled);
      OneRunMoves(db, MoveRun(db, id, RunStatus.Cancelled, RunCancelled), id);
      MoveFlags(db, id, RunStatus.CancelRequested, EventKind.RunCancelRequested);
      OneRunMoves(db, MoveRun(db, id, RunStatus.CancelRequested, EventKind.RunCancelRequested), id);
    }
  }

  lemma BeginFlags(db: Db, id: RunId)
    ensures FlagsStay(db, BeginRun(db, id))
  {
    hide MoveRun, FlagsStay;
    SameRunsStay(db, db);
    if id in db.runs {
      MoveFlags(db, id, RunStatus.Running, RunStarted);
      var moved := MoveRun(db, id, RunStatus.Running, RunStarted);
      OneRunMoves(db, moved.(generating := db.generating + {id}), id);
      OneRunMoves(db, db.(runs := db.runs[id := db.runs[id].(status := RunStatus.Running)]), id);
    }
  }

  lemma FailFlags(db: Db, id: RunId)
    ensures FlagsStay(db, FinalizeFailure(db, id))
  {
    hide MoveRun, FlagsStay;
    var done := db.(generating := db.generating - {id});
    SameRunsStay(db, done);
    if id in db.runs {
      MoveFlags(done, id, RunStatus.Cancelled, RunCancelled);
      OneRunMoves(db, MoveRun(done, id, RunStatus.Cancelled, RunCancelled), id);
      MoveFlags(done, id, RunStatus.Failed, RunFailed);
      OneRunMoves(db, MoveRun(done, id, RunStatus.Failed, RunFailed), id);
    }
  }

  lemma EmitFlags(db: Db, id: RunId, kind: EventKind)
    requires id in db.runs
    ensures
      var after := EmitRun(db, id, kind);
      after.runs == db.runs[id := after.runs[id]] && after.runs[id].truncated == db.runs[id].truncated
      && after.runs[id].status == db.runs[id].status
  {
    hide AppendEvent, MaxSequence;
  }

  lemma SubmittedFlags(
    db: Db, p: Principal, session: SessionId, clientId: nat, content: string, model: string,
    freshMessage: MessageId, freshRun: RunId)
    requires session in db.sessions && freshRun !in db.runs
    ensures FlagsStay(db, Submitted(db, p, session, clientId, content, model, freshMessage, freshRun))
  {
    var conversation := db.sessions[session].conversation;
    var message := ChatMessage(freshMessage, conversation, freshRun, Some(p.device), Role.User, content,
                               MaxOrdinal(db.messages, conversation) + 1, Some(clientId));
    var run := Run(conversation, session, p.device, freshMessage, model, RunStatus.Queued, false, None, None);
    var inserted := db.(messages := db.messages + [message], runs := db.runs[freshRun := run]);
    EmitFlags(inserted, freshRun, MessageAccepted(freshMessage));
    EmitFlags(EmitRun(inserted, freshRun, MessageAccepted(freshMessage)), freshRun, RunQueued);
    hide EmitRun, MaxOrdinal;
  }

  lemma SubmitFlags(db: Db, op: Op)
    requires op.Submit?
    ensures FlagsStay(db, Step(db, op))
  {
    hide ValidText, FindClientMessage, ReplaySubmission, Busy, Submitted, FlagsStay;
    SameRunsStay(db, db);
    if op.session in db.sessions && op.freshRun !in db.runs {
      SubmittedFlags(db, op.p, op.session, op.clientId, op.content, op.model, op.freshMessage, op.freshRun);
    }
  }

  /** The response of one run: nobody else's flag changes, and its own only if it succeeds now, and then
      to what the worker holds. */
  lemma ResponseFlags(db: Db, id: RunId, response: Response, truncated: bool, freshMessage: MessageId)
    requires id in db.runs
    ensures
      var after := FinalizeResponse(db, id, response, truncated, freshMessage);
      after.runs == db.runs[id := after.runs[id]]
      && (after.runs[id].status == RunStatus.Succeeded ==>
            if db.runs[id].status == RunStatus.Succeeded then after.runs[id].truncated == db.runs[id].truncated
            else NonTerminal(db.runs[id].status) && after.runs[id].truncated == truncated)
  {
    hide MoveRun, Answered, ValidResponse;
    var done := db.(generating := db.generating - {id});
    MoveFlags(done, id, RunStatus.Cancelled, RunCancelled);
    MoveFlags(done, id, RunStatus.Failed, RunFailed);
    AnswerFlags(done, id, response.text, truncated, freshMessage);
  }

  lemma AnswerFlags(db: Db, id: RunId, text: string, truncated: bool, freshMessage: MessageId)
    requires id in db.runs
    ensures var after := Answered(db, id, text, truncated, freshMessage);
      after.runs == db.runs[id := after.runs[id]] && after.runs[id].truncated == truncated
  {
    hide AppendEvent, MaxSequence, MaxOrdinal;
  }

  lemma SameRunsStay(db: Db, after: Db)
    requires after.runs == db.runs
    ensures FlagsStay(db, after)
  {}

  lemma RunStepFlags(db: Db, op: Op)
    requires !ToolOp(op) && !op.Respond?
    ensures FlagsStay(db, Step(db, op))
  {
    hide CancelRun, BeginRun, FinalizeFailure, InterruptAll, NonTerminalRuns, FlagsStay, SubmitMessage, CreateSession,
      CloseSession, CreateConversation;
    SameRunsStay(db, db);
    match op {
      case StopRun(p, run) => CancelFlags(db, p, run);
      case WorkOn(run) => BeginFlags(db, run);
      case Fail(run) => FailFlags(db, run);
      case InterruptRuns(runs) => InterruptFlags(db, runs);
      case Submit(_, _, _, _, _, _, _) => SubmitFlags(db, op);
      case _ =>
        OtherRunRows(db, op);
        SameRunsStay(db, Step(db, op));
    }
  }

  lemma OtherRunRows(db: Db, op: Op)
    requires op.OpenConversation? || op.OpenSession? || op.ShutSession? || op.Crash? || op.ChangeDevices?
    ensures Step(db, op).runs == db.runs
  {
    hide AppendEvent;
  }

  // --- the invariant ---

  /** A worker of a live run holds the flag of its past, and a succeeded run stores it. */
  ghost predicate ContextsOk(w: World) {
    forall id :: id in w.db.runs ==>
      Asked(w.db, id)
      && (id in w.chosen && NonTerminal(w.db.runs[id].status) ==> Flag(w.db, id) == Some(w.chosen[id]))
      && (w.db.runs[id].status == RunStatus.Succeeded ==> Flag(w.db, id) == Some(w.db.runs[id].truncated))
  }

  function Flag(db: Db, id: RunId): Option<bool>
    requires id in db.runs
  {
    var selected := Assemble(Past(db, id), db.runs[id].trigger);
    if selected.Ok? then Some(selected.value.truncated) else None
  }

  /** What a step keeps of an older run, and what it gives a new one. */
  ghost predicate Continues(db: Db, after: Db) {
    db.messages <= after.messages
    && (forall id :: id in db.runs ==>
          id in after.runs && after.runs[id].conversation == db.runs[id].conversation
          && after.runs[id].trigger == db.runs[id].trigger
          && (NonTerminal(after.runs[id].status) ==> NonTerminal(db.runs[id].status)))
    && forall id :: id in after.runs && id !in db.runs ==> after.runs[id].status == RunStatus.Queued
  }

  lemma MovedRuns(db: Db, after: Db)
    requires forall id :: id in db.runs ==> id in after.runs && RunMoves(RunViewOf(db, id), RunViewOf(after, id))
    ensures forall id :: id in db.runs ==>
      id in after.runs && after.runs[id].conversation == db.runs[id].conversation
      && after.runs[id].trigger == db.runs[id].trigger
      && (NonTerminal(after.runs[id].status) ==> NonTerminal(db.runs[id].status))
  {
    hide RunMoves, RunViewOf;
    forall id | id in db.runs
      ensures after.runs[id].conversation == db.runs[id].conversation && after.runs[id].trigger == db.runs[id].trigger
      ensures NonTerminal(after.runs[id].status) ==> NonTerminal(db.runs[id].status)
    {
      RS.RunMovesMeans(RunViewOf(db, id), RunViewOf(after, id));
      RS.RunViewMeans(db, id);
      RS.RunViewMeans(after, id);
    }
  }

  lemma StepContinues(devices: map<DeviceId, Device>, ops: seq<Op>, op: Op)
    ensures Continues(Reach(devices, ops), Step(Reach(devices, ops), op))
  {
    hide Reach, Step, ToolsOk, RS.Sound, Orphans, EvolvesWith, Evolves, RunsEvolve, RunMoves, RunViewOf, RD.Settled;
    var db := Reach(devices, ops);
    var after := Step(db, op);
    RunIsGood(devices, ops);
    PT.StepMovesRuns(devices, ops, op);
    MovedRuns(db, after);
    if op.Crash? || op.ChangeDevices? {
      QuietRows(db, op);
    } else if ToolOp(op) {
      ToolStep(db, op);
      ToolRows(db, after, Finishing(op), Born(db, after));
    } else {
      RunStep(db, op);
      MessagesGrow(db, after);
      RD.RunStepSettles(db, op);
      NewRunsAreQueued(db, after);
    }
  }

  lemma QuietRows(db: Db, op: Op)
    requires op.Crash? || op.ChangeDevices?
    ensures Step(db, op).messages == db.messages && Step(db, op).runs == db.runs
  {}

  lemma ToolRows(db: Db, after: Db, finishing: Option<CallId>, born: set<CallId>)
    requires EvolvesWith(db, after, finishing, born)
    ensures after.messages == db.messages && after.runs == db.runs
  {
    hide Moves, NoNewOrphan, Projects, ViewOf;
  }

  lemma MessagesGrow(db: Db, after: Db)
    requires RunsEvolve(db, after)
    ensures db.messages <= after.messages
  {
    hide RunMoves, RunViewOf;
  }

  lemma NewRunsAreQueued(db: Db, after: Db)
    requires RD.Settled(db, after)
    ensures forall id :: id in after.runs && id !in db.runs ==> after.runs[id].status == RunStatus.Queued
  {}

  lemma QueuedIsLive(status: RunStatus)
    requires status == RunStatus.Queued
    ensures NonTerminal(status) && status != RunStatus.Succeeded
  {}

  /** The pasts of all runs go on as they were, and a new run has one. */
  lemma PastsStay(db: Db, after: Db)
    requires RS.Sound(after) && Continues(db, after) && forall id :: id in db.runs ==> Asked(db, id)
    ensures forall id :: id in after.runs ==> Asked(after, id)
    ensures forall id :: id in db.runs ==> Flag(after, id) == Flag(db, id)
  {
    hide RS.Sound, Asked, Past, Assemble, NonTerminal;
    forall id | id in after.runs
      ensures Asked(after, id) && (id in db.runs ==> Flag(after, id) == Flag(db, id))
    {
      if id in db.runs {
        PastStays(db, after, id);
      } else {
        QueuedIsLive(after.runs[id].status);
        LivePast(after, id);
      }
    }
  }

  lemma DoKeeps(w: World, op: Op, after: World)
    requires ContextsOk(w) && after.db == Step(w.db, op) && !op.Respond?
    requires after.chosen == w.chosen || after.chosen == map[]
    requires RS.Sound(after.db) && Continues(w.db, after.db) && FlagsStay(w.db, after.db)
    requires forall id :: id in w.chosen ==> id in w.db.runs
    ensures ContextsOk(after) && forall id :: id in after.chosen ==> id in after.db.runs
  {
    hide Step, RS.Sound, Asked, Flag, NonTerminal;
    PastsStay(w.db, after.db);
    forall id | id in after.db.runs && id !in w.db.runs
      ensures NonTerminal(after.db.runs[id].status) && after.db.runs[id].status != RunStatus.Succeeded
    {
      QueuedIsLive(after.db.runs[id].status);
    }
  }

  lemma ChooseKeeps(w: World, id: RunId)
    requires ContextsOk(w) && RS.Sound(w.db) && forall run :: run in w.chosen ==> run in w.db.runs
    ensures var after := Taken(w, Choose(id));
      ContextsOk(after) && forall run :: run in after.chosen ==> run in after.db.runs
  {
    hide RS.Sound, Asked, Assemble, NonTerminal, Past;
    if id in w.db.runs && NonTerminal(w.db.runs[id].status) {
      LivePast(w.db, id);
    }
  }

  lemma ReplyKeeps(w: World, id: RunId, response: Response, freshMessage: MessageId, after: World)
    requires ContextsOk(w) && id in w.chosen && id in w.db.runs && id in w.db.generating
    requires after == World(FinalizeResponse(w.db, id, response, w.chosen[id], freshMessage), w.chosen - {id})
    requires RS.Sound(after.db) && Continues(w.db, after.db)
    requires forall run :: run in w.chosen ==> run in w.db.runs
    ensures ContextsOk(after) && forall run :: run in after.chosen ==> run in after.db.runs
  {
    hide RS.Sound, Asked, Flag, NonTerminal, FinalizeResponse;
    ResponseFlags(w.db, id, response, w.chosen[id], freshMessage);
    PastsStay(w.db, after.db);
  }

  lemma RespondIs(db: Db, id: RunId, response: Response, truncated: bool, freshMessage: MessageId)
    requires id in db.generating
    ensures Step(db, Respond(id, response, truncated, freshMessage))
      == FinalizeResponse(db, id, response, truncated, freshMessage)
  {
    hide FinalizeResponse;
  }

  lemma ToolStepFlags(db: Db, op: Op)
    requires Good(db) && ToolOp(op)
    ensures FlagsStay(db, Step(db, op))
  {
    hide Step, ToolsOk, RS.Sound, Orphans, EvolvesWith, Evolves, FlagsStay;
    ToolStep(db, op);
    ToolRows(db, Step(db, op), Finishing(op), Born(db, Step(db, op)));
    SameRunsStay(db, Step(db, op));
  }

  lemma GoodIsSound(db: Db)
    requires Good(db)
    ensures RS.Sound(db)
  {
    hide ToolsOk, RS.Sound, Orphans;
  }

  /** The invariant of the world. */
  ghost predicate WorldOk(w: World) {
    ContextsOk(w) && forall id :: id in w.chosen ==> id in w.db.runs
  }

  lemma DoStep(devices: map<DeviceId, Device>, ops: seq<Op>, w: World, op: Op)
    requires w.db == Reach(devices, ops) && WorldOk(w) && !op.Respond?
    ensures WorldOk(World(Step(w.db, op), if op.Crash? then map[] else w.chosen))
  {
    hide Step, Reach, ContextsOk, Continues, FlagsStay, Good, ToolOp;
    RunIsGood(devices, ops);
    StepContinues(devices, ops, op);
    StepIsGood(w.db, op);
    GoodIsSound(Step(w.db, op));
    if ToolOp(op) { ToolStepFlags(w.db, op); } else { RunStepFlags(w.db, op); }
    DoKeeps(w, op, World(Step(w.db, op), if op.Crash? then map[] else w.chosen));
  }

  lemma ReplyStep(
    devices: map<DeviceId, Device>, ops: seq<Op>, w: World, id: RunId, response: Response, freshMessage: MessageId)
    requires w.db == Reach(devices, ops) && WorldOk(w) && id in w.db.generating && id in w.chosen
    ensures WorldOk(World(Step(w.db, Respond(id, response, w.chosen[id], freshMessage)), w.chosen - {id}))
  {
    hide Step, Reach, ContextsOk, Continues, Good;
    var op := Respond(id, response, w.chosen[id], freshMessage);
    RunIsGood(devices, ops);
    StepContinues(devices, ops, op);
    StepIsGood(w.db, op);
    GoodIsSound(Step(w.db, op));
    RespondIs(w.db, id, response, w.chosen[id], freshMessage);
    ReplyKeeps(w, id, response, freshMessage, World(Step(w.db, op), w.chosen - {id}));
  }

  lemma ChooseStep(devices: map<DeviceId, Device>, ops: seq<Op>, w: World, id: RunId)
    requires w.db == Reach(devices, ops) && WorldOk(w)
    ensures WorldOk(Taken(w, Choose(id)))
  {
    hide Step, Reach, ContextsOk, Good;
    RunIsGood(devices, ops);
    GoodIsSound(w.db);
    ChooseKeeps(w, id);
  }

  lemma {:induction false} ContextsAlwaysOk(devices: map<DeviceId, Device>, acts: seq<Act>)
    ensures WorldOk(Evolved(devices, acts))
  {
    hide Step, Reach, WorldOk, Selection;
    if acts == [] {
      NothingChosen(devices);
    } else {
      var n := |acts| - 1;
      var w := Evolved(devices, acts[..n]);
      ContextsAlwaysOk(devices, acts[..n]);
      var ops := WorldIsPlatform(devices, acts[..n]);
      match acts[n] {
        case Do(op) => if !op.Respond? { DoStep(devices, ops, w, op); }
        case Choose(id) => ChooseStep(devices, ops, w, id);
        case Reply(id, response, freshMessage) =>
          if id in w.db.generating && id in w.chosen {
            ReplyStep(devices, ops, w, id, response, freshMessage);
          }
      }
    }
  }

  lemma NothingChosen(devices: map<DeviceId, Device>)
    ensures WorldOk(World(Initial(devices), map[]))
  {}

  // --- the theorem ---

  lemma {:induction false} UpToIsPrefix(log: seq<ChatMessage>, trigger: MessageId)
    ensures UpTo(log, trigger) <= log
  {
    if log != [] && log[0].id != trigger {
      UpToIsPrefix(log[1..], trigger);
    }
  }

  lemma PrefixIsOrdered(past: seq<ChatMessage>, log: seq<ChatMessage>)
    requires past <= log && Ordered(log)
    ensures Ordered(past) && forall m :: m in past ==> m in log
  {
    forall i, j | 0 <= i < j < |past| ensures past[i].ordinal < past[j].ordinal {
      assert past[i] == log[i] && past[j] == log[j];
    }
  }

  /** What is known of the past of a run whose trigger is stored. */
  lemma PastFacts(db: Db, id: RunId)
    requires RS.Sound(db) && id in db.runs && Asked(db, id)
    ensures
      var past := Past(db, id);
      past <= Log(db.messages, db.runs[id].conversation) && |past| > 0
      && past[|past| - 1].id == db.runs[id].trigger && past[|past| - 1].role == Role.User
      && Ordered(past) && (forall m :: m in past ==> ValidText(m.content))
      && forall m, k :: m in past && k in past && m.id == k.id ==> m == k
  {
    SoundParts(db);
    hide RS.Sound, OneLive, MessagesOk, Log, Ordered, ValidText, UpTo, Has;
    UpToIsPrefix(Log(db.messages, db.runs[id].conversation), db.runs[id].trigger);
    GR.LiveLog(db.messages, db.runs[id].conversation);
    PrefixIsOrdered(Past(db, id), Log(db.messages, db.runs[id].conversation));
  }

  lemma PastIsSelected(past: seq<ChatMessage>, trigger: MessageId)
    requires |past| > 0 && past[|past| - 1].id == trigger && past[|past| - 1].role == Role.User
    requires Ordered(past) && forall m :: m in past ==> ValidText(m.content)
    requires forall m, k :: m in past && k in past && m.id == k.id ==> m == k
    ensures Assemble(past, trigger).Ok?
    ensures Assemble(past, trigger).value.truncated <==>
      exists m :: m in past && m.ordinal < past[|past| - 1].ordinal && m !in Assemble(past, trigger).value.messages
  {
    hide Assemble, Ordered, IsContext, ValidText;
    GR.TriggerIsFound(past, trigger);
    ContextIsBoundedAndMaximal(past, trigger);
    GR.LastIsLatest(past);
    ExactFlag(Assemble(past, trigger).value, past);
  }

  /** In every reachable state the flag of a succeeded run is set exactly when a message before its trigger
      was not sent to the model. */
  lemma StoredFlagIsExact(devices: map<DeviceId, Device>, acts: seq<Act>, id: RunId)
    ensures
      var db := Evolved(devices, acts).db;
      id in db.runs && db.runs[id].status == RunStatus.Succeeded ==>
        var past := Past(db, id);
        var selected := Assemble(past, db.runs[id].trigger);
        past <= Log(db.messages, db.runs[id].conversation)
        && |past| > 0 && past[|past| - 1].id == db.runs[id].trigger && selected.Ok?
        && (db.runs[id].truncated <==>
              exists m :: m in past && m.ordinal < past[|past| - 1].ordinal && m !in selected.value.messages)
  {
    hide Evolved, ContextsOk, Assemble, Ordered, Log, Past, Good, Reach, RS.Sound, ValidText;
    var db := Evolved(devices, acts).db;
    if id in db.runs && db.runs[id].status == RunStatus.Succeeded {
      ContextsAlwaysOk(devices, acts);
      var ops := WorldIsPlatform(devices, acts);
      RunIsGood(devices, ops);
      GoodIsSound(db);
      FlagOf(Evolved(devices, acts), id);
      hide Asked;
      PastFacts(db, id);
      PastIsSelected(Past(db, id), db.runs[id].trigger);
    }
  }

  lemma FlagOf(w: World, id: RunId)
    requires ContextsOk(w) && id in w.db.runs && w.db.runs[id].status == RunStatus.Succeeded
    ensures Asked(w.db, id) && Flag(w.db, id) == Some(w.db.runs[id].truncated)
  {
    hide Asked, Flag;
  }

  /** Everything else of the past is earlier than the trigger. */
  lemma ExactFlag(context: Context, past: seq<ChatMessage>)
    requires |past| > 0 && IsContext(context, past, past[|past| - 1])
    requires forall m :: m in past && m != past[|past| - 1] ==> m.ordinal < past[|past| - 1].ordinal
    ensures context.truncated <==>
      exists m :: m in past && m.ordinal < past[|past| - 1].ordinal && m !in context.messages
  {}
}
