/** Each transaction of the conversation service keeps the runs, the conversations and the
    numbering of the event streams. */
module RunSteps {
  import opened Prelude
  import opened Store
  import opened Conversations
  import opened RunViews
  import opened RunInvariants

  ghost predicate Sound(db: Db) {
    ConversationsOk(db) && Gapless(db.events)
  }

  // --- the event streams ---

  lemma EmitGapless(db: Db, id: RunId, kind: EventKind)
    requires id in db.runs && Gapless(db.events)
    ensures Gapless(EmitRun(db, id, kind).events)
  {
    AppendKeepsGapless(db.events, db.runs[id].session, db.runs[id].conversation, Some(id), kind);
  }

  lemma MoveGapless(db: Db, id: RunId, status: RunStatus, kind: EventKind)
    requires id in db.runs && Gapless(db.events)
    ensures Gapless(MoveRun(db, id, status, kind).events)
  {
    EmitGapless(db.(runs := db.runs[id := db.runs[id].(status := status)]), id, kind);
  }

  // --- a run that moves along an edge of the lifecycle ---

  lemma ViewIsOk(db: Db, id: RunId)
    requires ConversationsOk(db) && id in db.runs
    ensures RunOk(RunViewOf(db, id)) && RunsLinked(db)
    ensures RunViewOf(db, id).run == db.runs[id] && RunViewOf(db, id).life == Lifecycle(db.events, id)
    ensures RunViewOf(db, id).answers == Answers(db.messages, id)
    ensures RunViewOf(db, id).generating <==> id in db.generating
  {
    hide RunOk, RunsLinked;
  }

  lemma AdvanceView(v: RunView, status: RunStatus, e: Event, generating: bool)
    requires RunOk(v) && NonTerminal(v.run.status)
    requires Advance(At(v.run.status), e.kind) == At(status) && status != RunStatus.Succeeded
    requires e.session == v.run.session && (generating ==> v.generating || status == RunStatus.Running)
    ensures var w := v.(run := Bounded(v.run.(status := status), e), life := v.life + [e], generating := generating);
      RunOk(w) && RunMoves(v, w)
  {
    FoldSnoc(v.life, e);
  }

  /** Other conversations' messages and live runs are untouched when one run's status moves on. */
  lemma OneLiveMoves(runs: map<RunId, Run>, after: map<RunId, Run>, messages: seq<ChatMessage>)
    requires OneLive(runs, messages) && after.Keys == runs.Keys
    requires forall id :: id in runs ==>
      after[id].conversation == runs[id].conversation && after[id].trigger == runs[id].trigger
      && (NonTerminal(after[id].status) ==> NonTerminal(runs[id].status))
    ensures OneLive(after, messages)
  {}

  lemma RunMovesMeans(v: RunView, w: RunView)
    requires RunMoves(v, w)
    ensures w.run.conversation == v.run.conversation && w.run.trigger == v.run.trigger
      && w.run.session == v.run.session
      && (NonTerminal(w.run.status) ==> NonTerminal(v.run.status))
  {}

  /** A step that touches one run and no message needs to be checked on that run's view alone. */
  lemma Settle(db: Db, after: Db, id: RunId)
    requires ConversationsOk(db) && RunsLinked(after) && OnlyRun(db, after, id) && id in db.runs
    requires after == db.(events := after.events, runs := after.runs, generating := after.generating)
    requires RunOk(RunViewOf(after, id)) && RunMoves(RunViewOf(db, id), RunViewOf(after, id))
    ensures ConversationsOk(after) && RunsEvolve(db, after)
  {
    hide RunOk, RunMoves, MessagesOk, OneLive, RunsLinked;
    forall other | other in db.runs
      ensures RunOk(RunViewOf(after, other)) && RunMoves(RunViewOf(db, other), RunViewOf(after, other))
      ensures after.runs[other].conversation == db.runs[other].conversation
        && after.runs[other].trigger == db.runs[other].trigger
        && after.runs[other].session == db.runs[other].session
        && (NonTerminal(after.runs[other].status) ==> NonTerminal(db.runs[other].status))
    {
      if other != id {
        assert RunViewOf(after, other) == RunViewOf(db, other);
        RunMovesNot(RunViewOf(db, other));
      }
      RunMovesMeans(RunViewOf(db, other), RunViewOf(after, other));
      assert RunViewOf(db, other).run == db.runs[other] && RunViewOf(after, other).run == after.runs[other];
    }
    OneLiveMoves(db.runs, after.runs, db.messages);
  }

  lemma MoveKeeps(db: Db, id: RunId, status: RunStatus, kind: EventKind)
    requires Sound(db) && id in db.runs && NonTerminal(db.runs[id].status) && !kind.Tool?
    requires Advance(At(db.runs[id].status), kind) == At(status) && status != RunStatus.Succeeded
    ensures Sound(MoveRun(db, id, status, kind)) && RunsEvolve(db, MoveRun(db, id, status, kind))
  {
    hide ConversationsOk, RunsLinked, OnlyRun, RunOk, RunMoves, RunsEvolve, RunViewOf, Gapless, Advance;
    MoveGapless(db, id, status, kind);
    ViewIsOk(db, id);
    AdvanceView(RunViewOf(db, id), status, Emitted(db, id, kind), id in db.generating);
    MoveViews(db, id, status, kind);
    Settle(db, MoveRun(db, id, status, kind), id);
  }

  lemma GeneratingKeeps(db: Db, generating: set<RunId>)
    requires Sound(db) && generating <= db.runs.Keys
    requires forall id :: id in generating && id !in db.generating ==> db.runs[id].status == RunStatus.Running
    ensures Sound(db.(generating := generating)) && RunsEvolve(db, db.(generating := generating))
  {
    var after := db.(generating := generating);
    hide OneLive, MessagesOk, Gapless, Numbered, RunOk, RunMoves, Fold;
    forall id | id in db.runs
      ensures RunOk(RunViewOf(after, id)) && RunMoves(RunViewOf(db, id), RunViewOf(after, id))
    {
      assert RunViewOf(after, id) == RunViewOf(db, id).(generating := id in generating);
      RegenerateView(RunViewOf(db, id), id in generating);
    }
  }

  lemma RegenerateView(v: RunView, generating: bool)
    requires RunOk(v) && (generating && !v.generating ==> v.run.status == RunStatus.Running)
    ensures RunOk(v.(generating := generating)) && RunMoves(v, v.(generating := generating))
  {}

  lemma Facts(db: Db)
    requires Sound(db)
    ensures db.generating <= db.runs.Keys
    ensures forall id :: id in db.runs ==> db.runs[id].session in db.sessions
  {
    hide OneLive, MessagesOk, Gapless, RunOk;
  }

  // --- cancel, begin, fail, interrupt ---

  lemma CancelKeeps(db: Db, p: Principal, id: RunId)
    requires Sound(db)
    ensures Sound(CancelRun(db, p, id).db) && RunsEvolve(db, CancelRun(db, p, id).db)
  {
    hide Sound, RunsEvolve, MoveRun;
    RunsEvolveNot(db);
    if id in db.runs && db.runs[id].status == RunStatus.Queued {
      MoveKeeps(db, id, RunStatus.Cancelled, RunCancelled);
    } else if id in db.runs && db.runs[id].status == RunStatus.Running {
      MoveKeeps(db, id, RunStatus.CancelRequested, EventKind.RunCancelRequested);
    }
  }

  lemma BeginKeeps(db: Db, id: RunId)
    requires Sound(db)
    ensures Sound(BeginRun(db, id)) && RunsEvolve(db, BeginRun(db, id))
  {
    hide Sound, RunsEvolve, MoveRun;
    RunsEvolveNot(db);
    Facts(db);
    if id in db.runs && db.runs[id].status == RunStatus.Queued {
      var moved := MoveRun(db, id, RunStatus.Running, RunStarted);
      MoveKeeps(db, id, RunStatus.Running, RunStarted);
      MoveFrame(db, id, RunStatus.Running, RunStarted);
      GeneratingKeeps(moved, db.generating + {id});
      RunsEvolveTransitive(db, moved, BeginRun(db, id));
    }
  }

  lemma DoneKeeps(db: Db, id: RunId)
    requires Sound(db)
    ensures var done := db.(generating := db.generating - {id}); Sound(done) && RunsEvolve(db, done)
  {
    hide Sound;
    Facts(db);
    GeneratingKeeps(db, db.generating - {id});
  }

  lemma FailKeeps(db: Db, id: RunId)
    requires Sound(db)
    ensures Sound(FinalizeFailure(db, id)) && RunsEvolve(db, FinalizeFailure(db, id))
  {
    hide Sound, RunsEvolve, MoveRun;
    var done := db.(generating := db.generating - {id});
    DoneKeeps(db, id);
    if FinalizeFailure(db, id) != done {
      if db.runs[id].status == RunStatus.CancelRequested {
        MoveKeeps(done, id, RunStatus.Cancelled, RunCancelled);
      } else {
        MoveKeeps(done, id, RunStatus.Failed, RunFailed);
      }
      RunsEvolveTransitive(db, done, FinalizeFailure(db, id));
    }
  }

  lemma MoveFrame(db: Db, id: RunId, status: RunStatus, kind: EventKind)
    requires id in db.runs
    ensures var after := MoveRun(db, id, status, kind);
      after.runs.Keys == db.runs.Keys && after.sessions == db.sessions
      && after.runs[id].status == status && after.runs[id].session == db.runs[id].session
      && forall other :: other in db.runs && other != id ==> after.runs[other] == db.runs[other]
  {}

  lemma InterruptMove(db: Db, id: RunId)
    requires Sound(db) && id in db.runs && NonTerminal(db.runs[id].status)
    ensures var after := MoveRun(db, id, RunStatus.Failed, RunInterrupted);
      Sound(after) && RunsEvolve(db, after) && db.runs[id].session in db.sessions
  {
    hide Sound, MoveRun, RunsEvolve;
    Facts(db);
    MoveKeeps(db, id, RunStatus.Failed, RunInterrupted);
  }

  /** One run of the sweep, after the others before it were interrupted. */
  lemma InterruptOne(db: Db, before: Db, id: RunId)
    requires Sound(before) && RunsEvolve(db, before) && before.runs.Keys == db.runs.Keys
    requires id in before.runs && NonTerminal(before.runs[id].status)
    ensures before.runs[id].session in before.sessions
    ensures var after := MoveRun(before, id, RunStatus.Failed, RunInterrupted);
      Sound(after) && RunsEvolve(db, after) && after.runs.Keys == db.runs.Keys
      && after.runs[id].status == RunStatus.Failed
      && forall other :: other in db.runs && other != id ==> after.runs[other] == before.runs[other]
  {
    hide Sound, MoveRun, RunsEvolve, NonTerminal;
    InterruptMove(before, id);
    MoveFrame(before, id, RunStatus.Failed, RunInterrupted);
    RunsEvolveTransitive(db, before, MoveRun(before, id, RunStatus.Failed, RunInterrupted));
  }

  lemma {:induction false} InterruptKeeps(db: Db, ids: seq<RunId>)
    requires Sound(db)
    requires forall id :: id in ids ==> id in db.runs && NonTerminal(db.runs[id].status)
    requires forall i, j :: 0 <= i < j < |ids| ==> ids[i] != ids[j]
    ensures var after := InterruptAll(db, ids);
      Sound(after) && RunsEvolve(db, after) && after.runs.Keys == db.runs.Keys
      && (forall id :: id in db.runs && id !in ids ==> after.runs[id] == db.runs[id])
      && (forall id :: id in ids ==> after.runs[id].status == RunStatus.Failed)
  {
    hide Sound, RunsEvolve, MoveRun, NonTerminal;
    RunsEvolveNot(db);
    if ids != [] {
      var n := |ids| - 1;
      InterruptKeeps(db, ids[..n]);
      var before := InterruptAll(db, ids[..n]);
      assert ids[n] !in ids[..n];
      InterruptOne(db, before, ids[n]);
      assert ids == ids[..n] + [ids[n]];
    }
  }

  // --- submit: a conversation's next message and the run that answers it ---

  lemma NewbornRun(run: Run, accepted: Event, queued: Event)
    requires run.status == RunStatus.Queued && run.firstSequence.None?
    requires accepted.kind.MessageAccepted? && queued.kind.RunQueued?
    requires accepted.session == queued.session == run.session
    ensures RunOk(RunView(Bounded(Bounded(run, accepted), queued), [accepted, queued], [], false))
  {
    FoldSnoc([], accepted);
    FoldSnoc([accepted], queued);
    assert [] + [accepted] == [accepted] && [accepted] + [queued] == [accepted, queued];
  }

  lemma InsertRunViews(db: Db, id: RunId, run: Run, m: ChatMessage)
    requires RunsLinked(db) && id !in db.runs && m.run == id && m.role == Role.User
    ensures var after := db.(runs := db.runs[id := run], messages := db.messages + [m]);
      RunsLinked(after) && OnlyRun(db, after, id) && RunViewOf(after, id) == RunView(run, [], [], false)
  {
    SelectNone(db.events, LifecycleOf(id));
    SelectNone(db.messages, AnswerOf(id));
    var inserted := db.(runs := db.runs[id := run]);
    assert OnlyRun(db, inserted, id);
    MessageViews(inserted, m);
    OnlyRunTransitive(db, inserted, inserted.(messages := db.messages + [m]), id);
  }

  lemma MessagesSnoc(messages: seq<ChatMessage>, m: ChatMessage)
    requires MessagesOk(messages) && ValidText(m.content)
    requires m.ordinal == MaxOrdinal(messages, m.conversation) + 1
    requires forall other :: other in messages ==> other.id != m.id
    ensures MessagesOk(messages + [m])
  {
    hide Numbered, ValidText;
    NumberedSnoc(messages, m);
  }

  /** Runs that a step on run `id` leaves as they were, or moves legally. */
  lemma OtherRuns(db: Db, after: Db, id: RunId)
    requires ConversationsOk(db) && OnlyRun(db, after, id) && db.runs.Keys <= after.runs.Keys
    requires id in after.runs && RunOk(RunViewOf(after, id))
    requires id in db.runs ==> RunMoves(RunViewOf(db, id), RunViewOf(after, id))
    ensures forall other :: other in after.runs ==> RunOk(RunViewOf(after, other))
    ensures forall other :: other in db.runs ==>
      RunMoves(RunViewOf(db, other), RunViewOf(after, other))
      && after.runs[other].conversation == db.runs[other].conversation
      && after.runs[other].session == db.runs[other].session
      && (other != id ==> after.runs[other] == db.runs[other])
  {
    hide RunOk, RunMoves, RunsLinked, MessagesOk, OneLive, Placed;
    forall other | other in db.runs
      ensures RunOk(RunViewOf(after, other)) && RunMoves(RunViewOf(db, other), RunViewOf(after, other))
      ensures after.runs[other].conversation == db.runs[other].conversation
        && after.runs[other].session == db.runs[other].session
        && (other != id ==> after.runs[other] == db.runs[other])
    {
      if other != id {
        assert RunViewOf(after, other) == RunViewOf(db, other);
        RunMovesNot(RunViewOf(db, other));
      }
      RunMovesMeans(RunViewOf(db, other), RunViewOf(after, other));
      assert RunViewOf(db, other).run == db.runs[other] && RunViewOf(after, other).run == after.runs[other];
    }
  }

  lemma PlacedGrows(db: Db, after: Db, id: RunId, m: ChatMessage)
    requires Placed(db) && RunsLinked(db) && after.runs.Keys == db.runs.Keys + {id}
    requires after.sessions == db.sessions && after.conversations == db.conversations
    requires after.messages == db.messages + [m] && m.run == id
    requires forall other :: other in db.runs ==>
      after.runs[other].conversation == db.runs[other].conversation
      && after.runs[other].session == db.runs[other].session
    requires after.runs[id].conversation == m.conversation
    requires after.runs[id].session in db.sessions
      && db.sessions[after.runs[id].session].conversation == m.conversation
    ensures Placed(after)
  {
    forall other | other in after.messages && other.run in after.runs
      ensures other.conversation == after.runs[other.run].conversation
    {}
  }

  /** A submission or an answer adds one message; this gathers what that leaves to be shown. */
  lemma MessageStep(db: Db, after: Db, id: RunId, m: ChatMessage)
    requires ConversationsOk(db) && RunsLinked(after) && OnlyRun(db, after, id)
    requires after == db.(events := after.events, runs := after.runs, messages := db.messages + [m])
    requires m.run == id && ValidText(m.content) && m.ordinal == MaxOrdinal(db.messages, m.conversation) + 1
    requires forall other :: other in db.messages ==> other.id != m.id
    requires RunOk(RunViewOf(after, id))
    requires id in db.runs ==> RunMoves(RunViewOf(db, id), RunViewOf(after, id))
    requires after.runs[id].conversation == m.conversation
    requires after.runs[id].session in db.sessions
      && db.sessions[after.runs[id].session].conversation == m.conversation
    requires OneLive(after.runs, after.messages)
    ensures ConversationsOk(after) && RunsEvolve(db, after)
  {
    hide RunOk, RunMoves, RunsLinked, OneLive, MessagesOk, RunViewOf, Placed, ValidText;
    OtherRuns(db, after, id);
    PlacedGrows(db, after, id, m);
    MessagesSnoc(db.messages, m);
  }

  lemma SubmittedOneLive(
    runs: map<RunId, Run>, after: map<RunId, Run>, messages: seq<ChatMessage>, id: RunId, m: ChatMessage)
    requires OneLive(runs, messages) && after.Keys == runs.Keys + {id} && id !in runs
    requires forall other :: other in runs ==> after[other] == runs[other]
    requires after[id].conversation == m.conversation && after[id].trigger == m.id
    requires m.run == id && m.role == Role.User
    requires forall other :: other in runs && runs[other].conversation == m.conversation ==>
      !NonTerminal(runs[other].status)
    ensures OneLive(after, messages + [m])
  {
    forall other | other in after && NonTerminal(after[other].status)
      ensures TriggeredBy(Log(messages + [m], after[other].conversation), other, after[other].trigger)
    {
      SelectSnoc(messages, m, OfConversation(after[other].conversation));
    }
  }

  /** The rows of a submission, before its events. */
  function Inserted(
    db: Db, p: Principal, session: SessionId, content: string, model: string, freshRun: RunId, m: ChatMessage): Db
    requires session in db.sessions
  {
    var run := Run(db.sessions[session].conversation, session, p.device, m.id, model, RunStatus.Queued, false, None, None);
    db.(messages := db.messages + [m], runs := db.runs[freshRun := run])
  }

  lemma AcceptedViews(db: Db, inserted: Db, id: RunId, m: ChatMessage)
    requires RunsLinked(db) && id !in db.runs && m.run == id && m.role == Role.User
    requires id in inserted.runs
    requires inserted == db.(runs := db.runs[id := inserted.runs[id]], messages := db.messages + [m])
    requires inserted.runs[id].status == RunStatus.Queued && inserted.runs[id].firstSequence.None?
    requires Gapless(db.events)
    ensures
      var after := EmitRun(EmitRun(inserted, id, MessageAccepted(m.id)), id, RunQueued);
      RunsLinked(after) && OnlyRun(db, after, id) && Gapless(after.events) && RunOk(RunViewOf(after, id))
      && after.runs[id].conversation == inserted.runs[id].conversation
      && after.runs[id].session == inserted.runs[id].session
      && after.runs[id].trigger == inserted.runs[id].trigger
      && forall other :: other in db.runs ==> after.runs[other] == db.runs[other]
  {
    hide RunsLinked, OnlyRun, RunOk, RunViewOf, Gapless, EmitRun;
    var run := inserted.runs[id];
    var accepted := EmitRun(inserted, id, MessageAccepted(m.id));
    var after := EmitRun(accepted, id, RunQueued);
    InsertRunViews(db, id, run, m);
    EmitViews(inserted, id, MessageAccepted(m.id));
    EmitGapless(inserted, id, MessageAccepted(m.id));
    OnlyRunTransitive(db, inserted, accepted, id);
    RunViewMeans(inserted, id);
    RunViewMeans(accepted, id);
    EmitViews(accepted, id, RunQueued);
    EmitGapless(accepted, id, RunQueued);
    OnlyRunTransitive(db, accepted, after, id);
    RunViewMeans(after, id);
    var first := Emitted(inserted, id, MessageAccepted(m.id));
    var second := Emitted(accepted, id, RunQueued);
    assert [] + [first] + [second] == [first, second];
    NewbornRun(run, first, second);
    OnlyRunMeans(db, after, id);
  }

  lemma OnlyRunMeans(db: Db, after: Db, id: RunId)
    requires OnlyRun(db, after, id)
    ensures forall other :: other in db.runs && other != id ==> other in after.runs && after.runs[other] == db.runs[other]
  {
    forall other | other in db.runs && other != id ensures after.runs[other] == db.runs[other] {
      assert RunViewOf(after, other).run == after.runs[other] && RunViewOf(db, other).run == db.runs[other];
    }
  }

  lemma SubmittedKeeps(
    db: Db, p: Principal, session: SessionId, clientId: nat, content: string, model: string,
    freshMessage: MessageId, freshRun: RunId)
    requires Sound(db) && session in db.sessions && ValidText(content)
    requires freshRun !in db.runs && (forall m :: m in db.messages ==> m.id != freshMessage)
    requires !Busy(db, db.sessions[session].conversation)
    ensures var after := Submitted(db, p, session, clientId, content, model, freshMessage, freshRun);
      Sound(after) && RunsEvolve(db, after)
  {
    hide RunsLinked, OnlyRun, RunOk, RunsEvolve, RunViewOf, Gapless, EmitRun, ValidText, MessagesOk, Placed, OneLive;
    var conversation := db.sessions[session].conversation;
    var message := ChatMessage(freshMessage, conversation, freshRun, Some(p.device), Role.User, content,
                               MaxOrdinal(db.messages, conversation) + 1, Some(clientId));
    var inserted := Inserted(db, p, session, content, model, freshRun, message);
    AcceptedViews(db, inserted, freshRun, message);
    var after := Submitted(db, p, session, clientId, content, model, freshMessage, freshRun);
    assert after == EmitRun(EmitRun(inserted, freshRun, MessageAccepted(freshMessage)), freshRun, RunQueued);
    OnlyRunKeys(db, after, freshRun);
    SubmittedOneLive(db.runs, after.runs, db.messages, freshRun, message);
    MessageStep(db, after, freshRun, message);
  }

  lemma OnlyRunKeys(db: Db, after: Db, id: RunId)
    requires OnlyRun(db, after, id)
    ensures after.runs.Keys == db.runs.Keys + {id}
  {}

  lemma RunViewMeans(db: Db, id: RunId)
    requires id in db.runs
    ensures RunViewOf(db, id).run == db.runs[id] && RunViewOf(db, id).life == Lifecycle(db.events, id)
    ensures RunViewOf(db, id).answers == Answers(db.messages, id)
  {}

  lemma SubmitKeeps(
    db: Db, p: Principal, session: SessionId, clientId: nat, content: string, model: string,
    freshMessage: MessageId, freshRun: RunId)
    requires Sound(db)
    ensures
      var after := SubmitMessage(db, p, session, clientId, content, model, freshMessage, freshRun).db;
      Sound(after) && RunsEvolve(db, after)
  {
    hide Sound, RunsEvolve, Submitted, ValidText, Busy;
    var after := SubmitMessage(db, p, session, clientId, content, model, freshMessage, freshRun).db;
    RunsEvolveNot(db);
    if after != db {
      SubmittedKeeps(db, p, session, clientId, content, model, freshMessage, freshRun);
    }
  }

  // --- the answer ---

  lemma AnsweredView(v: RunView, truncated: bool, succeeded: Event, ready: Event, answer: ChatMessage)
    requires RunOk(v) && v.run.status == RunStatus.Running
    requires succeeded.kind.RunSucceeded? && ready.kind.AssistantReady?
    requires succeeded.session == ready.session == v.run.session
    ensures
      var run := v.run.(truncated := truncated, status := RunStatus.Succeeded);
      var w := RunView(Bounded(Bounded(run, succeeded), ready), v.life + [succeeded] + [ready],
                       v.answers + [answer], v.generating);
      RunOk(w) && RunMoves(v, w)
  {
    FoldSnoc(v.life, succeeded);
    FoldSnoc(v.life + [succeeded], ready);
  }

  lemma AnsweredOneLive(
    runs: map<RunId, Run>, after: map<RunId, Run>, messages: seq<ChatMessage>, id: RunId, m: ChatMessage)
    requires OneLive(runs, messages) && after.Keys == runs.Keys && id in runs
    requires forall other :: other in runs && other != id ==> after[other] == runs[other]
    requires NonTerminal(runs[id].status) && !NonTerminal(after[id].status)
    requires m.conversation == runs[id].conversation
    ensures OneLive(after, messages + [m])
  {
    forall other | other in after && NonTerminal(after[other].status)
      ensures TriggeredBy(Log(messages + [m], after[other].conversation), other, after[other].trigger)
    {
      SelectSnoc(messages, m, OfConversation(after[other].conversation));
    }
  }

  lemma AnsweredViews(
    db: Db, id: RunId, truncated: bool, answer: ChatMessage)
    requires RunsLinked(db) && Gapless(db.events) && id in db.runs && RunOk(RunViewOf(db, id))
    requires db.runs[id].status == RunStatus.Running && answer.run == id && answer.role == Role.Assistant
    ensures
      var marked := db.(messages := db.messages + [answer],
                        runs := db.runs[id := db.runs[id].(truncated := truncated)]);
      var after := EmitRun(MoveRun(marked, id, RunStatus.Succeeded, RunSucceeded), id, AssistantReady(answer.id));
      RunsLinked(after) && OnlyRun(db, after, id) && Gapless(after.events)
      && RunOk(RunViewOf(after, id)) && RunMoves(RunViewOf(db, id), RunViewOf(after, id))
      && after.runs[id].status == RunStatus.Succeeded
  {
    hide RunsLinked, OnlyRun, RunOk, RunMoves, RunViewOf, Gapless, EmitRun, MoveRun;
    var said := db.(messages := db.messages + [answer]);
    var run := db.runs[id].(truncated := truncated);
    var marked := said.(runs := db.runs[id := run]);
    var moved := MoveRun(marked, id, RunStatus.Succeeded, RunSucceeded);
    var after := EmitRun(moved, id, AssistantReady(answer.id));
    RunViewMeans(db, id);
    MessageViews(db, answer);
    StatusViews(said, id, run);
    OnlyRunTransitive(db, said, marked, id);
    MoveViews(marked, id, RunStatus.Succeeded, RunSucceeded);
    MoveGapless(marked, id, RunStatus.Succeeded, RunSucceeded);
    OnlyRunTransitive(db, marked, moved, id);
    RunViewMeans(marked, id);
    RunViewMeans(moved, id);
    EmitViews(moved, id, AssistantReady(answer.id));
    EmitGapless(moved, id, AssistantReady(answer.id));
    OnlyRunTransitive(db, moved, after, id);
    RunViewMeans(after, id);
    AnsweredView(RunViewOf(db, id), truncated, Emitted(marked, id, RunSucceeded),
                 Emitted(moved, id, AssistantReady(answer.id)), answer);
  }

  lemma AnsweredKeeps(db: Db, id: RunId, text: string, truncated: bool, freshMessage: MessageId)
    requires Sound(db) && id in db.runs && db.runs[id].status == RunStatus.Running && ValidText(text)
    requires forall m :: m in db.messages ==> m.id != freshMessage
    ensures var after := Answered(db, id, text, truncated, freshMessage);
      Sound(after) && RunsEvolve(db, after)
  {
    hide RunsLinked, OnlyRun, RunOk, RunMoves, RunsEvolve, RunViewOf, Gapless, EmitRun, MoveRun, ValidText,
      MessagesOk, OneLive;
    var conversation := db.runs[id].conversation;
    var answer := ChatMessage(freshMessage, conversation, id, None, Role.Assistant, text,
                              MaxOrdinal(db.messages, conversation) + 1, None);
    AnsweredViews(db, id, truncated, answer);
    var after := Answered(db, id, text, truncated, freshMessage);
    OnlyRunKeys(db, after, id);
    OnlyRunMeans(db, after, id);
    RunViewMeans(db, id);
    RunViewMeans(after, id);
    RunMovesMeans(RunViewOf(db, id), RunViewOf(after, id));
    AnsweredOneLive(db.runs, after.runs, db.messages, id, answer);
    hide ConversationsOk;
    MessageStep(db, after, id, answer);
  }

  lemma ResponseText(response: Response)
    requires ValidResponse(response)
    ensures ValidText(response.text)
  {}

  lemma RespondKeeps(db: Db, id: RunId, response: Response, truncated: bool, freshMessage: MessageId)
    requires Sound(db) && id in db.generating
    ensures var after := FinalizeResponse(db, id, response, truncated, freshMessage);
      Sound(after) && RunsEvolve(db, after)
  {
    hide Sound, RunsEvolve, MoveRun, Answered, RunOk, RunViewOf, ConversationsOk, Gapless, Blank;
    GeneratingMeansStarted(db, id);
    var done := db.(generating := db.generating - {id});
    DoneKeeps(db, id);
    var after := FinalizeResponse(db, id, response, truncated, freshMessage);
    if after != done {
      if db.runs[id].status == RunStatus.CancelRequested {
        MoveKeeps(done, id, RunStatus.Cancelled, RunCancelled);
      } else if !ValidResponse(response) {
        MoveKeeps(done, id, RunStatus.Failed, RunFailed);
      } else {
        ResponseText(response);
        AnsweredKeeps(done, id, response.text, truncated, freshMessage);
      }
      RunsEvolveTransitive(db, done, after);
    }
  }

  lemma GeneratingMeansStarted(db: Db, id: RunId)
    requires Sound(db) && id in db.generating
    ensures id in db.runs && db.runs[id].status != RunStatus.Queued
  {
    hide OneLive, MessagesOk, Gapless;
    assert RunOk(RunViewOf(db, id));
  }

  // --- conversations and sessions ---

  /** Steps that add a conversation, a session or a session event leave every run alone. */
  lemma SurroundingsKeep(db: Db, after: Db)
    requires ConversationsOk(db)
    requires after == db.(conversations := after.conversations, sessions := after.sessions, events := after.events)
    requires db.conversations.Keys <= after.conversations.Keys && db.sessions.Keys <= after.sessions.Keys
    requires forall id :: id in db.sessions ==> after.sessions[id].conversation == db.sessions[id].conversation
    requires forall id :: id in after.sessions ==> after.sessions[id].conversation in after.conversations
    requires after.events == db.events
      || (|after.events| == |db.events| + 1 && after.events[..|db.events|] == db.events
          && after.events[|db.events|].run.None?)
    ensures ConversationsOk(after) && RunsEvolve(db, after)
  {
    hide RunOk, RunMoves, MessagesOk, OneLive;
    if after.events != db.events {
      assert after.events == db.events + [after.events[|db.events|]];
    }
    forall id | id in db.runs
      ensures RunOk(RunViewOf(after, id)) && RunMoves(RunViewOf(db, id), RunViewOf(after, id))
    {
      if after.events != db.events {
        SelectSnoc(db.events, after.events[|db.events|], LifecycleOf(id));
      }
      assert RunViewOf(after, id) == RunViewOf(db, id);
      RunMovesNot(RunViewOf(db, id));
    }
  }

  lemma SessionsArePlaced(db: Db)
    requires ConversationsOk(db)
    ensures forall id :: id in db.sessions ==> db.sessions[id].conversation in db.conversations
  {
    hide RunOk, MessagesOk, OneLive, RunsLinked;
  }

  lemma CreateConversationKeeps(db: Db, p: Principal, id: ConversationId)
    requires Sound(db)
    ensures Sound(CreateConversation(db, p, id).db) && RunsEvolve(db, CreateConversation(db, p, id).db)
  {
    hide RunsEvolve, ConversationsOk, Gapless;
    SessionsArePlaced(db);
    SurroundingsKeep(db, CreateConversation(db, p, id).db);
  }

  lemma CreateSessionKeeps(db: Db, p: Principal, conversation: ConversationId, id: SessionId)
    requires Sound(db)
    ensures Sound(CreateSession(db, p, conversation, id).db)
    ensures RunsEvolve(db, CreateSession(db, p, conversation, id).db)
  {
    hide RunsEvolve, ConversationsOk, Gapless, MaxSequence;
    AppendKeepsGapless(db.events, id, conversation, None, SessionReady);
    SessionsArePlaced(db);
    SurroundingsKeep(db, CreateSession(db, p, conversation, id).db);
  }

  lemma CloseSessionKeeps(db: Db, p: Principal, id: SessionId)
    requires Sound(db)
    ensures Sound(CloseSession(db, p, id).db) && RunsEvolve(db, CloseSession(db, p, id).db)
  {
    hide RunsEvolve, ConversationsOk, Gapless, MaxSequence;
    if id in db.sessions {
      AppendKeepsGapless(db.events, id, db.sessions[id].conversation, None, SessionClosed);
    }
    SessionsArePlaced(db);
    SurroundingsKeep(db, CloseSession(db, p, id).db);
  }
}
