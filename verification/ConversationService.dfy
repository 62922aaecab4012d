/** The conversation service as it runs: each transaction locks rows, rewrites them one after
    another and appends events. Every method commits exactly what its specification function says,
    and the transactions of one run lock the run before its session. */
module ConversationPlatform {
  import opened Prelude
  import opened Store
  import opened Conversations
  import opened Locks
  import opened Tables
  import Spec = Conversations
  import W = WriteLocks

  class ConversationService {
    const db: Database

    constructor (db: Database)
      ensures this.db == db
    {
      this.db := db;
    }

    /** Append an event of a run to its locked session and extend the run's sequence bounds. */
    method Emit(id: RunId, kind: EventKind) returns (locks: seq<Lock>)
      requires id in db.runs && db.runs[id].session in db.sessions
      modifies db
      ensures db.Snapshot() == EmitRun(old(db.Snapshot()), id, kind)
      ensures locks == [SessionRow(old(db.runs[id].session))]
    {
      var run := db.runs[id];
      locks := [SessionRow(run.session)];
      var sequence := MaxSequence(db.events, run.session) + 1;
      db.events := db.events + [Event(run.session, run.conversation, Some(id), sequence, kind)];
      if run.firstSequence.None? {
        db.runs := db.runs[id := db.runs[id].(firstSequence := Some(sequence))];
      }
      db.runs := db.runs[id := db.runs[id].(lastSequence := Some(sequence))];
      assert db.runs == old(db.runs)[id := db.runs[id]];
    }

    /** Set a run's status and emit the event that says so. */
    method Move(id: RunId, status: RunStatus, kind: EventKind) returns (locks: seq<Lock>)
      requires id in db.runs && db.runs[id].session in db.sessions
      modifies db
      ensures db.Snapshot() == MoveRun(old(db.Snapshot()), id, status, kind)
      ensures locks == [SessionRow(old(db.runs[id].session))]
    {
      hide EmitRun;
      db.runs := db.runs[id := db.runs[id].(status := status)];
      locks := Emit(id, kind);
    }

    // --- conversations and sessions ---

    method CreateConversation(p: Principal, id: ConversationId) returns (result: Result<ConversationId>)
      modifies db
      ensures var txn := Spec.CreateConversation(old(db.Snapshot()), p, id);
        db.Snapshot() == txn.db && result == txn.result
    {
      if id in db.conversations { return Err("integrity_error"); }
      db.conversations := db.conversations[id := Conversation(p.owner, true)];
      return Ok(id);
    }

    method CreateSession(p: Principal, conversation: ConversationId, id: SessionId)
      returns (result: Result<SessionId>, locks: seq<Lock>)
      modifies db
      ensures var txn := Spec.CreateSession(old(db.Snapshot()), p, conversation, id);
        db.Snapshot() == txn.db && result == txn.result
      ensures Below(locks, 5) && W.Guarded(old(db.Snapshot()), db.Snapshot(), locks)
    {
      hide W.Guarded;
      ghost var before := db.Snapshot();
      W.NothingWritten(before);
      locks := [];
      if conversation !in db.conversations || db.conversations[conversation] != Conversation(p.owner, true) {
        return Err("conversation_not_found"), locks;
      }
      if id in db.sessions { return Err("integrity_error"), locks; }
      db.sessions := db.sessions[id := Session(conversation, p.owner, p.device, true)];
      TakeInRank(locks, true, SessionRow(id));
      locks := Take(locks, true, SessionRow(id));
      db.events := AppendEvent(db.events, id, conversation, None, SessionReady);
      W.SessionsAreGuarded(before, p, conversation, id, locks);
      return Ok(id), locks;
    }

    method CloseSession(p: Principal, id: SessionId) returns (result: Result<SessionId>, locks: seq<Lock>)
      modifies db
      ensures var txn := Spec.CloseSession(old(db.Snapshot()), p, id);
        db.Snapshot() == txn.db && result == txn.result
      ensures Below(locks, 5) && W.Guarded(old(db.Snapshot()), db.Snapshot(), locks)
    {
      hide W.Guarded;
      ghost var before := db.Snapshot();
      W.NothingWritten(before);
      TakeInRank([], id in db.sessions, SessionRow(id));
      locks := Take([], id in db.sessions, SessionRow(id));
      if !Authorised(db.Snapshot(), p, id) { return Err("session_not_found"), locks; }
      if !db.sessions[id].active { return Ok(id), locks; }
      var conversation := db.sessions[id].conversation;
      db.sessions := db.sessions[id := db.sessions[id].(active := false)];
      TakeAgain(locks, true, SessionRow(id), 5);
      locks := Take(locks, true, SessionRow(id));
      db.events := AppendEvent(db.events, id, conversation, None, SessionClosed);
      W.SessionsAreGuarded(before, p, conversation, id, locks);
      return Ok(id), locks;
    }

    // --- runs ---

    method SubmitMessage(
      p: Principal, session: SessionId, clientId: nat, content: string, model: string, freshMessage: MessageId,
      freshRun: RunId)
      returns (result: Result<Submission>, locks: seq<Lock>)
      modifies db
      ensures var txn := Spec.SubmitMessage(old(db.Snapshot()), p, session, clientId, content, model, freshMessage, freshRun);
        db.Snapshot() == txn.db && result == txn.result
      ensures Below(locks, 5) && W.Guarded(old(db.Snapshot()), db.Snapshot(), locks)
    {
      hide Submitted, ValidText, Below, FindClientMessage, ReplaySubmission, W.Guarded;
      ghost var before := db.Snapshot();
      W.NothingWritten(before);
      locks := [];
      NothingHeld();
      if !ValidText(content) { return Err("content_invalid"), locks; }
      TakeInRank(locks, session in db.sessions, SessionRow(session));
      locks := Take(locks, session in db.sessions, SessionRow(session));
      if !Authorised(db.Snapshot(), p, session) { return Err("session_not_found"), locks; }
      if !db.sessions[session].active { return Err("session_closed"), locks; }
      var conversation := db.sessions[session].conversation;
      var existing := FindClientMessage(db.messages, conversation, p.device, clientId);
      if existing.Some? {
        return ReplaySubmission(db.Snapshot(), db.messages[existing.value], content, model), locks;
      }
      if exists id :: id in db.runs && db.runs[id].conversation == conversation && NonTerminal(db.runs[id].status) {
        return Err("conversation_busy"), locks;
      }
      if conversation !in db.conversations || db.conversations[conversation] != Conversation(p.owner, true) {
        return Err("conversation_not_found"), locks;
      }
      if freshRun in db.runs || exists m :: m in db.messages && m.id == freshMessage {
        return Err("integrity_error"), locks;
      }
      W.SubmissionIsGuarded(before, p, session, clientId, content, model, freshMessage, freshRun, locks);
      var again := Accept(p, session, clientId, content, model, freshMessage, freshRun);
      TakeAllAgain(locks, again, 5);
      W.MoreLocks(before, db.Snapshot(), locks, locks + again);
      return Ok(Submission(freshMessage, freshRun, false)), locks + again;
    }

    /** Insert the message and its run, link them, and emit both events. */
    method Accept(
      p: Principal, session: SessionId, clientId: nat, content: string, model: string, freshMessage: MessageId,
      freshRun: RunId)
      returns (locks: seq<Lock>)
      requires session in db.sessions && freshRun !in db.runs
      modifies db
      ensures db.Snapshot() == Submitted(old(db.Snapshot()), p, session, clientId, content, model, freshMessage, freshRun)
      ensures locks == [SessionRow(session), SessionRow(session)]
    {
      hide EmitRun;
      var conversation := db.sessions[session].conversation;
      var ordinal := MaxOrdinal(db.messages, conversation) + 1;
      db.messages := db.messages + [ChatMessage(freshMessage, conversation, freshRun, Some(p.device), Role.User, content,
                                                ordinal, Some(clientId))];
      db.runs := db.runs[freshRun := Run(conversation, session, p.device, freshMessage, model, RunStatus.Queued, false,
                                         None, None)];
      EmitKeepsSession(db.Snapshot(), freshRun, MessageAccepted(freshMessage));
      locks := Emit(freshRun, MessageAccepted(freshMessage));
      var more := Emit(freshRun, RunQueued);
      locks := locks + more;
    }

    method CancelRun(p: Principal, id: RunId) returns (result: Result<RunStatus>, locks: seq<Lock>)
      modifies db
      ensures var txn := Spec.CancelRun(old(db.Snapshot()), p, id);
        db.Snapshot() == txn.db && result == txn.result
      ensures Below(locks, 5) && W.Guarded(old(db.Snapshot()), db.Snapshot(), locks)
    {
      hide MoveRun, Below, W.Guarded;
      ghost var before := db.Snapshot();
      W.NothingWritten(before);
      NothingHeld();
      TakeInRank([], id in db.runs, RunRow(id));
      locks := Take([], id in db.runs, RunRow(id));
      if id !in db.runs || db.runs[id].conversation !in db.conversations
         || db.conversations[db.runs[id].conversation].owner != p.owner {
        return Err("run_not_found"), locks;
      }
      if db.runs[id].requestDevice != p.device { return Err("run_not_found"), locks; }
      if !Authorised(db.Snapshot(), p, db.runs[id].session) { return Err("session_not_found"), locks; }
      LaterRank(locks, 2);
      TakeInRank(locks, true, SessionRow(db.runs[id].session));
      W.RunCancellationIsGuarded(before, p, id, locks + [SessionRow(db.runs[id].session)]);
      var more;
      var status := db.runs[id].status;
      if status == RunStatus.Queued {
        more := Move(id, RunStatus.Cancelled, RunCancelled);
        return Ok(RunStatus.Cancelled), locks + more;
      } else if status == RunStatus.Running {
        more := Move(id, RunStatus.CancelRequested, EventKind.RunCancelRequested);
        return Ok(RunStatus.CancelRequested), locks + more;
      }
      return Ok(status), locks;
    }

    /** The first transaction of executing a run. */
    method BeginRun(id: RunId) returns (locks: seq<Lock>)
      modifies db
      ensures db.Snapshot() == Spec.BeginRun(old(db.Snapshot()), id)
      ensures Below(locks, 5) && W.Guarded(old(db.Snapshot()), db.Snapshot(), locks)
    {
      hide EmitRun, Below, W.Guarded;
      ghost var before := db.Snapshot();
      W.NothingWritten(before);
      NothingHeld();
      TakeInRank([], id in db.runs, RunRow(id));
      locks := Take([], id in db.runs, RunRow(id));
      if id !in db.runs || db.runs[id].status != RunStatus.Queued { return; }
      var session := db.runs[id].session;
      W.BeginIsGuarded(before, id, if session in db.sessions then locks + [SessionRow(session)] else locks);
      db.runs := db.runs[id := db.runs[id].(status := RunStatus.Running)];
      if session !in db.sessions { return; }
      LaterRank(locks, 2);
      TakeInRank(locks, true, SessionRow(session));
      var more := Emit(id, RunStarted);
      db.generating := db.generating + {id};
      locks := locks + more;
    }

    /** Record the model's answer, unless the run ended or was asked to stop meanwhile. */
    method FinalizeResponse(id: RunId, response: Response, truncated: bool, freshMessage: MessageId)
      returns (locks: seq<Lock>)
      modifies db
      ensures db.Snapshot() == Spec.FinalizeResponse(old(db.Snapshot()), id, response, truncated, freshMessage)
      ensures Below(locks, 5) && W.Guarded(old(db.Snapshot()), db.Snapshot(), locks)
    {
      hide MoveRun, Below, ValidResponse, Answered, W.Guarded;
      ghost var before := db.Snapshot();
      W.GenerationEnds(before, id);
      NothingHeld();
      TakeInRank([], id in db.runs, RunRow(id));
      locks := Take([], id in db.runs, RunRow(id));
      db.generating := db.generating - {id};
      if id !in db.runs || !NonTerminal(db.runs[id].status) { return; }
      if db.runs[id].session !in db.sessions || db.runs[id].conversation !in db.conversations { return; }
      LaterRank(locks, 2);
      TakeInRank(locks, true, SessionRow(db.runs[id].session));
      W.ResponseIsGuarded(before, id, response, truncated, freshMessage, locks + [SessionRow(db.runs[id].session)]);
      var more;
      if db.runs[id].status == RunStatus.CancelRequested {
        more := Move(id, RunStatus.Cancelled, RunCancelled);
        return locks + more;
      }
      if !ValidResponse(response) {
        more := Move(id, RunStatus.Failed, RunFailed);
        return locks + more;
      }
      if exists m :: m in db.messages && m.id == freshMessage { return; }
      var session := db.runs[id].session;
      more := Answer(id, response.text, truncated, freshMessage);
      TakeAgain(locks + [SessionRow(session)], true, SessionRow(session), 5);
      assert locks + more == Take(locks + [SessionRow(session)], true, SessionRow(session));
      W.MoreLocks(before, db.Snapshot(), locks + [SessionRow(session)], locks + more);
      locks := locks + more;
    }

    /** Insert the answer, mark the run succeeded and emit both events. */
    method Answer(id: RunId, text: string, truncated: bool, freshMessage: MessageId) returns (locks: seq<Lock>)
      requires id in db.runs && db.runs[id].session in db.sessions
      modifies db
      ensures db.Snapshot() == Answered(old(db.Snapshot()), id, text, truncated, freshMessage)
      ensures locks == [SessionRow(old(db.runs[id].session)), SessionRow(old(db.runs[id].session))]
    {
      hide EmitRun;
      var conversation := db.runs[id].conversation;
      var ordinal := MaxOrdinal(db.messages, conversation) + 1;
      db.messages := db.messages + [ChatMessage(freshMessage, conversation, id, None, Role.Assistant, text, ordinal, None)];
      db.runs := db.runs[id := db.runs[id].(status := RunStatus.Succeeded)];
      db.runs := db.runs[id := db.runs[id].(truncated := truncated)];
      var marked := old(db.runs)[id := old(db.runs[id]).(truncated := truncated)];
      assert db.runs == marked[id := marked[id].(status := RunStatus.Succeeded)];
      EmitKeepsSession(db.Snapshot(), id, RunSucceeded);
      locks := Emit(id, RunSucceeded);
      var more := Emit(id, AssistantReady(freshMessage));
      locks := locks + more;
    }

    method FinalizeFailure(id: RunId) returns (locks: seq<Lock>)
      modifies db
      ensures db.Snapshot() == Spec.FinalizeFailure(old(db.Snapshot()), id)
      ensures Below(locks, 5) && W.Guarded(old(db.Snapshot()), db.Snapshot(), locks)
    {
      hide MoveRun, Below, W.Guarded;
      ghost var before := db.Snapshot();
      W.GenerationEnds(before, id);
      NothingHeld();
      TakeInRank([], id in db.runs, RunRow(id));
      locks := Take([], id in db.runs, RunRow(id));
      db.generating := db.generating - {id};
      if id !in db.runs || !NonTerminal(db.runs[id].status) { return; }
      if db.runs[id].session !in db.sessions { return; }
      LaterRank(locks, 2);
      TakeInRank(locks, true, SessionRow(db.runs[id].session));
      W.FailureIsGuarded(before, id, locks + [SessionRow(db.runs[id].session)]);
      var more;
      if db.runs[id].status == RunStatus.CancelRequested {
        more := Move(id, RunStatus.Cancelled, RunCancelled);
      } else {
        more := Move(id, RunStatus.Failed, RunFailed);
      }
      locks := locks + more;
    }

    /** Fail the runs a previous process left behind; `ids` are the rows of the query. */
    method ReconcileInterruptedRuns(ids: seq<RunId>) returns (count: nat)
      modifies db
      ensures db.Snapshot() == InterruptAll(old(db.Snapshot()), ids)
      ensures count <= |ids|
    {
      hide MoveRun;
      count := 0;
      var i := 0;
      while i < |ids|
        invariant 0 <= i <= |ids| && count <= i
        invariant db.Snapshot() == InterruptAll(old(db.Snapshot()), ids[..i])
      {
        assert ids[..i + 1] == ids[..i] + [ids[i]];
        if ids[i] in db.runs && db.runs[ids[i]].session in db.sessions {
          var _ := Move(ids[i], RunStatus.Failed, RunInterrupted);
          count := count + 1;
        }
        i := i + 1;
      }
      assert ids[..|ids|] == ids;
    }
  }

  lemma NothingHeld()
    ensures Below([], 0) && Below([], 5)
  {}

  lemma LaterRank(locks: seq<Lock>, rank: nat)
    requires exists lower: nat :: lower <= rank && Below(locks, lower)
    ensures Below(locks, rank)
  {}

  lemma EmitKeepsSession(db: Db, id: RunId, kind: EventKind)
    requires id in db.runs
    ensures EmitRun(db, id, kind).runs[id].session == db.runs[id].session
    ensures EmitRun(db, id, kind).sessions == db.sessions
  {}
}
