/** What each conversation transaction leaves behind, told by its outcome and in terms of the rows. */
module RunOutcomes {
  import opened Prelude
  import opened Store
  import opened Conversations
  import opened RunViews
  import opened RunInvariants
  import RS = RunSteps

  // --- text and numbers ---

  /** The code points of white space. */
  const SPACES: set<int> := {
    0x9, 0xA, 0xB, 0xC, 0xD, 0x1C, 0x1D, 0x1E, 0x1F, 0x20, 0x85, 0xA0, 0x1680, 0x2000, 0x2001, 0x2002, 0x2003, 0x2004,
    0x2005, 0x2006, 0x2007, 0x2008, 0x2009, 0x200A, 0x2028, 0x2029, 0x202F, 0x205F, 0x3000}

  /** A text of at most 4000 characters, one of which is not white space. */
  ghost predicate Says(text: string) {
    |text| <= 4000 && exists i :: 0 <= i < |text| && text[i] as int !in SPACES
  }

  lemma SpaceLaw(c: char)
    ensures IsSpace(c) <==> c as int in SPACES
  {}

  /** A message and an answer are acceptable under one condition: they say something. */
  lemma TextLaw(text: string)
    ensures ValidText(text) <==> Says(text)
    ensures forall bindsRun :: ValidResponse(Response(bindsRun, text)) <==> bindsRun && Says(text)
  {
    hide SPACES, IsSpace;
    forall i | 0 <= i < |text| ensures IsSpace(text[i]) <==> text[i] as int in SPACES {
      SpaceLaw(text[i]);
    }
  }

  /** The event at this index carries the next number of its session. */
  ghost predicate Numbered(events: seq<Event>, n: nat) {
    n < |events| && events[n].sequence >= 1
    && (forall k :: 0 <= k < n && events[k].session == events[n].session ==> events[k].sequence < events[n].sequence)
    && (events[n].sequence == 1
        || exists k :: 0 <= k < n && events[k].session == events[n].session
             && events[k].sequence + 1 == events[n].sequence)
  }

  lemma {:induction false} LargestSequence(events: seq<Event>, session: SessionId)
    ensures forall e :: e in events && e.session == session ==> e.sequence <= MaxSequence(events, session)
    ensures MaxSequence(events, session) == 0
      || exists k :: 0 <= k < |events| && events[k].session == session
           && events[k].sequence == MaxSequence(events, session)
  {
    if events != [] {
      var n := |events| - 1;
      LargestSequence(events[..n], session);
      assert events == events[..n] + [events[n]];
    }
  }

  lemma AppendIsNumbered(
    events: seq<Event>, session: SessionId, conversation: ConversationId, run: Option<RunId>, kind: EventKind)
    ensures
      var after := AppendEvent(events, session, conversation, run, kind);
      |after| == |events| + 1 && events <= after && Numbered(after, |events|)
      && after[|events|] == Event(session, conversation, run, after[|events|].sequence, kind)
  {
    LargestSequence(events, session);
    hide MaxSequence;
    var after := AppendEvent(events, session, conversation, run, kind);
    forall k | 0 <= k < |events| ensures after[k] == events[k] && after[k] in events {}
  }

  /** The message at this index is the next one of its conversation. */
  ghost predicate Ordered(messages: seq<ChatMessage>, n: nat) {
    n < |messages| && messages[n].ordinal >= 1
    && (forall k :: 0 <= k < n && messages[k].conversation == messages[n].conversation ==>
          messages[k].ordinal < messages[n].ordinal)
    && (messages[n].ordinal == 1
        || exists k :: 0 <= k < n && messages[k].conversation == messages[n].conversation
             && messages[k].ordinal + 1 == messages[n].ordinal)
  }

  lemma {:induction false} LargestOrdinal(messages: seq<ChatMessage>, conversation: ConversationId)
    ensures forall m :: m in messages && m.conversation == conversation ==> m.ordinal <= MaxOrdinal(messages, conversation)
    ensures MaxOrdinal(messages, conversation) == 0
      || exists k :: 0 <= k < |messages| && messages[k].conversation == conversation
           && messages[k].ordinal == MaxOrdinal(messages, conversation)
  {
    if messages != [] {
      var n := |messages| - 1;
      LargestOrdinal(messages[..n], conversation);
      assert messages == messages[..n] + [messages[n]];
    }
  }

  lemma AppendIsOrdered(messages: seq<ChatMessage>, m: ChatMessage)
    requires m.ordinal == MaxOrdinal(messages, m.conversation) + 1
    ensures Ordered(messages + [m], |messages|)
  {
    LargestOrdinal(messages, m.conversation);
    hide MaxOrdinal;
    forall k | 0 <= k < |messages| ensures (messages + [m])[k] == messages[k] && messages[k] in messages {}
  }

  // --- one run, one event ---

  /** The session of the run was told `kind`, as its next event. */
  ghost predicate Told(events: seq<Event>, after: seq<Event>, id: RunId, run: Run, kind: EventKind) {
    |after| == |events| + 1 && events <= after && Numbered(after, |events|)
    && after[|events|] == Event(run.session, run.conversation, Some(id), after[|events|].sequence, kind)
  }

  /** The run as it stands after that event. */
  function Reaching(run: Run, last: Event): Run {
    run.(firstSequence := if run.firstSequence.Some? then run.firstSequence else Some(last.sequence),
         lastSequence := Some(last.sequence))
  }

  lemma EmitIs(db: Db, id: RunId, kind: EventKind)
    requires id in db.runs
    ensures
      var after := EmitRun(db, id, kind);
      Told(db.events, after.events, id, db.runs[id], kind)
      && after == db.(events := after.events, runs := db.runs[id := Reaching(db.runs[id], after.events[|db.events|])])
  {
    hide MaxSequence, Numbered;
    AppendIsNumbered(db.events, db.runs[id].session, db.runs[id].conversation, Some(id), kind);
  }

  /** One run moved to `status`, its session was told, and nothing else changed. */
  ghost predicate Moved(db: Db, after: Db, id: RunId, status: RunStatus, kind: EventKind) {
    id in db.runs && Told(db.events, after.events, id, db.runs[id], kind)
    && after == db.(
         events := after.events,
         runs := db.runs[id := Reaching(db.runs[id].(status := status), after.events[|db.events|])])
  }

  lemma MoveIs(db: Db, id: RunId, status: RunStatus, kind: EventKind)
    requires id in db.runs
    ensures Moved(db, MoveRun(db, id, status, kind), id, status, kind)
  {
    hide EmitRun, Numbered;
    EmitIs(db.(runs := db.runs[id := db.runs[id].(status := status)]), id, kind);
  }

  // --- conversations and sessions ---

  /** A conversation is created for its owner, active, unless its identifier is taken; a session for the
      caller's device in an active conversation of the caller, whose stream starts with the fact; and
      the caller's own session is closed once, which is the last the transaction says in it. */
  lemma SessionOutcomes(db: Db, p: Principal, conversation: ConversationId, session: SessionId)
    ensures
      CreateConversation(db, p, conversation)
      == if conversation in db.conversations then Txn(db, Err("integrity_error"))
         else Txn(db.(conversations := db.conversations[conversation := Conversation(p.owner, true)]), Ok(conversation))
    ensures
      var txn := CreateSession(db, p, conversation, session);
      (txn.result.Ok? <==>
        conversation in db.conversations && db.conversations[conversation].owner == p.owner
        && db.conversations[conversation].active && session !in db.sessions)
      && (txn.result.Err? ==> txn.db == db)
      && (txn.result.Ok? ==>
            txn.db == db.(sessions := db.sessions[session := Session(conversation, p.owner, p.device, true)],
                          events := txn.db.events)
            && Greeted(db.events, txn.db.events, session, conversation, SessionReady))
    ensures
      var txn := CloseSession(db, p, session);
      (txn.result.Ok? <==>
        session in db.sessions && db.sessions[session].owner == p.owner && db.sessions[session].device == p.device)
      && (txn.result.Ok? && db.sessions[session].active ==>
            var row := db.sessions[session];
            txn.db == db.(sessions := db.sessions[session := Session(row.conversation, row.owner, row.device, false)],
                          events := txn.db.events)
            && Greeted(db.events, txn.db.events, session, row.conversation, SessionClosed))
      && (txn.result.Err? || !db.sessions[session].active ==> txn.db == db)
  {
    hide MaxSequence, Numbered;
    AppendIsNumbered(db.events, session, conversation, None, SessionReady);
    if session in db.sessions {
      AppendIsNumbered(db.events, session, db.sessions[session].conversation, None, SessionClosed);
    }
  }

  ghost predicate Greeted(
    events: seq<Event>, after: seq<Event>, session: SessionId, conversation: ConversationId, kind: EventKind)
  {
    |after| == |events| + 1 && events <= after && Numbered(after, |events|)
    && after[|events|] == Event(session, conversation, None, after[|events|].sequence, kind)
  }

  // --- submissions ---

  /** An active session of the caller's own device. */
  ghost predicate OwnSession(db: Db, p: Principal, session: SessionId) {
    session in db.sessions && db.sessions[session].owner == p.owner && db.sessions[session].device == p.device
    && db.sessions[session].active
  }

  /** The stored message at `i` is the first that the device sent under this client id. */
  ghost predicate Sent(
    messages: seq<ChatMessage>, conversation: ConversationId, device: DeviceId, clientId: nat, i: nat)
  {
    i < |messages| && FromClient(messages[i], conversation, device, clientId)
    && forall k :: 0 <= k < i ==> !FromClient(messages[k], conversation, device, clientId)
  }

  ghost predicate FromClient(m: ChatMessage, conversation: ConversationId, device: DeviceId, clientId: nat) {
    (m.conversation, m.author, m.clientId) == (conversation, Some(device), Some(clientId))
  }

  /** That message says the same, and its run is there with the same model. */
  ghost predicate Repeats(
    db: Db, conversation: ConversationId, device: DeviceId, clientId: nat, content: string, model: string, i: nat)
  {
    Sent(db.messages, conversation, device, clientId, i) && db.messages[i].content == content
    && db.messages[i].run in db.runs && db.runs[db.messages[i].run].model == model
  }

  lemma {:induction false} FoundIsSent(
    messages: seq<ChatMessage>, conversation: ConversationId, device: DeviceId, clientId: nat)
    ensures
      match FindClientMessage(messages, conversation, device, clientId)
      case Some(i) => Sent(messages, conversation, device, clientId, i)
      case None => forall i: nat :: !Sent(messages, conversation, device, clientId, i)
  {
    if messages != [] {
      var n := |messages| - 1;
      FoundIsSent(messages[..n], conversation, device, clientId);
      assert messages == messages[..n] + [messages[n]];
      if FindClientMessage(messages[..n], conversation, device, clientId).None? {
        forall k | 0 <= k < n ensures !FromClient(messages[k], conversation, device, clientId) {
          assert messages[..n][k] == messages[k] && messages[k] in messages[..n];
        }
      }
    }
  }

  ghost predicate Unsent(messages: seq<ChatMessage>, conversation: ConversationId, device: DeviceId, clientId: nat) {
    forall m :: m in messages ==> !FromClient(m, conversation, device, clientId)
  }

  /** The conversation is the owner's and active, and none of its runs is still going. */
  ghost predicate Idle(db: Db, conversation: ConversationId, owner: OwnerId) {
    conversation in db.conversations && db.conversations[conversation].owner == owner
    && db.conversations[conversation].active
    && forall id :: id in db.runs && db.runs[id].conversation == conversation ==>
         db.runs[id].status in {RunStatus.Succeeded, RunStatus.Failed, RunStatus.Cancelled}
  }

  lemma IdleLaw(db: Db, conversation: ConversationId, owner: OwnerId)
    ensures Idle(db, conversation, owner) <==>
      conversation in db.conversations && db.conversations[conversation] == Conversation(owner, true)
      && !Busy(db, conversation)
  {
    forall id | id in db.runs
      ensures NonTerminal(db.runs[id].status)
        <==> db.runs[id].status !in {RunStatus.Succeeded, RunStatus.Failed, RunStatus.Cancelled}
    {
      LiveOrEnded(db.runs[id].status);
    }
  }

  lemma LiveOrEnded(status: RunStatus)
    ensures NonTerminal(status) <==> status !in {RunStatus.Succeeded, RunStatus.Failed, RunStatus.Cancelled}
  {
    match status { case Queued => case _ => }
  }

  /** One user message, the next of its conversation, and one queued run for it were inserted, and the
      session was told of both; nothing else changed. */
  ghost predicate Accepted(
    db: Db, after: Db, p: Principal, session: SessionId, clientId: nat, content: string, model: string,
    message: MessageId, id: RunId)
  {
    session in db.sessions && |after.messages| == |db.messages| + 1 && id in after.runs
    && |after.events| == |db.events| + 2 && db.events <= after.events
    && var conversation := db.sessions[session].conversation;
       var n := |db.events|;
       Ordered(after.messages, |db.messages|) && Numbered(after.events, n) && Numbered(after.events, n + 1)
       && after == db.(messages := after.messages, runs := after.runs, events := after.events)
       && after.messages
          == db.messages + [ChatMessage(message, conversation, id, Some(p.device), Role.User, content,
                                        after.messages[|db.messages|].ordinal, Some(clientId))]
       && after.events[n] == Event(session, conversation, Some(id), after.events[n].sequence, MessageAccepted(message))
       && after.events[n + 1] == Event(session, conversation, Some(id), after.events[n + 1].sequence, RunQueued)
       && after.runs == db.runs[id := Run(conversation, session, p.device, message, model, RunStatus.Queued, false,
                                          Some(after.events[n].sequence), Some(after.events[n + 1].sequence))]
  }

  /** A submission of something, in the caller's own active session, is new if and only if the device did
      not use its client id before, the conversation is idle and the fresh identifiers are; then it is
      accepted. It is a repetition if and only if the message stored under that client id has its content
      and its run the model; then it is answered with the stored message and run. Otherwise it is
      refused. Only an accepted one changes anything. */
  lemma SubmissionOutcome(
    db: Db, p: Principal, session: SessionId, clientId: nat, content: string, model: string,
    freshMessage: MessageId, freshRun: RunId)
    ensures
      var txn := SubmitMessage(db, p, session, clientId, content, model, freshMessage, freshRun);
      (txn.result.Ok? && !txn.result.value.replayed <==>
        Says(content) && OwnSession(db, p, session)
        && Unsent(db.messages, db.sessions[session].conversation, p.device, clientId)
        && Idle(db, db.sessions[session].conversation, p.owner)
        && freshRun !in db.runs && forall m :: m in db.messages ==> m.id != freshMessage)
      && (txn.result.Ok? && !txn.result.value.replayed ==>
            txn.result.value == Submission(freshMessage, freshRun, false)
            && Accepted(db, txn.db, p, session, clientId, content, model, freshMessage, freshRun))
      && (txn.result.Ok? && txn.result.value.replayed <==>
            Says(content) && OwnSession(db, p, session)
            && exists i: nat :: Repeats(db, db.sessions[session].conversation, p.device, clientId, content, model, i))
      && (forall i: nat ::
            txn.result.Ok? && txn.result.value.replayed
            && Repeats(db, db.sessions[session].conversation, p.device, clientId, content, model, i) ==>
              txn.result.value == Submission(db.messages[i].id, db.messages[i].run, true))
      && (txn.result.Err? || txn.result.value.replayed ==> txn.db == db)
  {
    TextLaw(content);
    hide Submitted, ValidText, Busy, Says, Idle, Accepted;
    var txn := SubmitMessage(db, p, session, clientId, content, model, freshMessage, freshRun);
    if ValidText(content) && OwnSession(db, p, session) {
      var conversation := db.sessions[session].conversation;
      RepetitionLaw(db, conversation, p.device, clientId, content, model);
      hide Sent, Repeats;
      IdleLaw(db, conversation, p.owner);
      SubmittedIsAccepted(db, p, session, clientId, content, model, freshMessage, freshRun);
    }
  }

  /** Only the message that the lookup finds can be repeated. */
  lemma RepetitionLaw(
    db: Db, conversation: ConversationId, device: DeviceId, clientId: nat, content: string, model: string)
    ensures
      match FindClientMessage(db.messages, conversation, device, clientId)
      case Some(n) =>
        (Repeats(db, conversation, device, clientId, content, model, n)
         <==> ReplaySubmission(db, db.messages[n], content, model).Ok?)
        && !Unsent(db.messages, conversation, device, clientId)
        && forall i: nat :: Repeats(db, conversation, device, clientId, content, model, i) ==> i == n
      case None =>
        Unsent(db.messages, conversation, device, clientId)
        && forall i: nat :: !Repeats(db, conversation, device, clientId, content, model, i)
  {
    FoundIsSent(db.messages, conversation, device, clientId);
  }

  lemma SubmittedIsAccepted(
    db: Db, p: Principal, session: SessionId, clientId: nat, content: string, model: string,
    freshMessage: MessageId, freshRun: RunId)
    requires session in db.sessions
    ensures Accepted(db, Submitted(db, p, session, clientId, content, model, freshMessage, freshRun), p, session, clientId,
                     content, model, freshMessage, freshRun)
  {
    hide EmitRun, MaxOrdinal, Ordered, Numbered;
    var conversation := db.sessions[session].conversation;
    var message := ChatMessage(freshMessage, conversation, freshRun, Some(p.device), Role.User, content,
                               MaxOrdinal(db.messages, conversation) + 1, Some(clientId));
    AppendIsOrdered(db.messages, message);
    var inserted := RS.Inserted(db, p, session, content, model, freshRun, message);
    var accepted := EmitRun(inserted, freshRun, MessageAccepted(freshMessage));
    EmitIs(inserted, freshRun, MessageAccepted(freshMessage));
    EmitIs(accepted, freshRun, RunQueued);
    StaysNumbered(accepted.events, EmitRun(accepted, freshRun, RunQueued).events, |db.events|);
  }

  lemma StaysNumbered(events: seq<Event>, after: seq<Event>, n: nat)
    requires Numbered(events, n) && events <= after
    ensures Numbered(after, n)
  {
    forall k | 0 <= k <= n ensures after[k] == events[k] {}
  }

  // --- runs ---

  /** Whoever owns the conversation of a run, on the device that requested it and in its own session, may
      cancel it: a queued run stops at once, a running one is asked to stop, any other stays as it is;
      nobody else changes anything. */
  lemma RunCancellationOutcome(db: Db, p: Principal, id: RunId)
    ensures
      var txn := CancelRun(db, p, id);
      (txn.result.Ok? <==>
        id in db.runs && db.runs[id].requestDevice == p.device
        && db.runs[id].conversation in db.conversations && db.conversations[db.runs[id].conversation].owner == p.owner
        && db.runs[id].session in db.sessions && db.sessions[db.runs[id].session].owner == p.owner
        && db.sessions[db.runs[id].session].device == p.device)
      && (if txn.result.Ok? && db.runs[id].status == RunStatus.Queued then
            Moved(db, txn.db, id, RunStatus.Cancelled, EventKind.RunCancelled)
            && txn.result.value == RunStatus.Cancelled
          else if txn.result.Ok? && db.runs[id].status == RunStatus.Running then
            Moved(db, txn.db, id, RunStatus.CancelRequested, EventKind.RunCancelRequested)
            && txn.result.value == RunStatus.CancelRequested
          else txn.db == db && (txn.result.Ok? ==> txn.result.value == db.runs[id].status))
  {
    hide MoveRun, Moved;
    if id in db.runs {
      MoveIs(db, id, RunStatus.Cancelled, RunCancelled);
      MoveIs(db, id, RunStatus.CancelRequested, EventKind.RunCancelRequested);
    }
  }

  /** Only a queued run is begun: it runs and its model call is in flight, unless its session is missing. */
  lemma BeginOutcome(db: Db, id: RunId)
    ensures
      var after := BeginRun(db, id);
      if id in db.runs && db.runs[id].status == RunStatus.Queued then
        if db.runs[id].session in db.sessions then
          after.generating == db.generating + {id}
          && Moved(db, after.(generating := db.generating), id, RunStatus.Running, RunStarted)
        else after == db.(runs := db.runs[id := db.runs[id].(status := RunStatus.Running)])
      else after == db
  {
    hide MoveRun, Moved;
    if id in db.runs {
      MoveIs(db, id, RunStatus.Running, RunStarted);
      var moved := MoveRun(db, id, RunStatus.Running, RunStarted);
      assert moved.(generating := db.generating + {id}).(generating := db.generating) == moved;
    }
  }

  /** The run exists and has not ended, and its session and conversation exist. */
  ghost predicate Unfinished(db: Db, id: RunId) {
    id in db.runs && db.runs[id].status in {RunStatus.Queued, RunStatus.Running, RunStatus.CancelRequested}
    && db.runs[id].session in db.sessions && db.runs[id].conversation in db.conversations
  }

  /** The run succeeded with one assistant message, the next of its conversation, and its session was told
      of both; nothing else changed. */
  ghost predicate GivesAnswer(db: Db, after: Db, id: RunId, text: string, truncated: bool, message: MessageId) {
    id in db.runs && |after.messages| == |db.messages| + 1
    && |after.events| == |db.events| + 2 && db.events <= after.events
    && var run := db.runs[id];
       var n := |db.events|;
       Ordered(after.messages, |db.messages|) && Numbered(after.events, n) && Numbered(after.events, n + 1)
       && after == db.(messages := after.messages, runs := after.runs, events := after.events)
       && after.messages
          == db.messages + [ChatMessage(message, run.conversation, id, None, Role.Assistant, text,
                                        after.messages[|db.messages|].ordinal, None)]
       && after.events[n] == Event(run.session, run.conversation, Some(id), after.events[n].sequence, RunSucceeded)
       && after.events[n + 1]
          == Event(run.session, run.conversation, Some(id), after.events[n + 1].sequence, AssistantReady(message))
       && after.runs == db.runs[id := Reaching(Reaching(run.(status := RunStatus.Succeeded, truncated := truncated),
                                                        after.events[n]), after.events[n + 1])]
  }

  /** A run whose model call came back and that nobody cancelled succeeds if and only if the response binds
      the run and says something; then exactly that text is its answer. Any other response fails it,
      without an answer. A requested cancellation wins over every response, and a run that ended
      meanwhile, like one whose rows are gone, is left as it is. */
  lemma ResponseOutcome(db: Db, id: RunId, response: Response, truncated: bool, freshMessage: MessageId)
    ensures
      var after := FinalizeResponse(db, id, response, truncated, freshMessage);
      var done := db.(generating := db.generating - {id});
      if !Unfinished(db, id) then after == done
      else if db.runs[id].status == RunStatus.CancelRequested then
        Moved(done, after, id, RunStatus.Cancelled, EventKind.RunCancelled)
      else if !response.bindsRun || !Says(response.text) then
        Moved(done, after, id, RunStatus.Failed, EventKind.RunFailed)
      else if exists m :: m in db.messages && m.id == freshMessage then after == done
      else GivesAnswer(done, after, id, response.text, truncated, freshMessage)
  {
    hide MoveRun, Moved, Answered, ValidResponse, GivesAnswer, Says;
    TextLaw(response.text);
    var done := db.(generating := db.generating - {id});
    if id in db.runs {
      MoveIs(done, id, RunStatus.Cancelled, RunCancelled);
      MoveIs(done, id, RunStatus.Failed, RunFailed);
      AnsweredIs(done, id, response.text, truncated, freshMessage);
    }
  }

  lemma AnsweredIs(db: Db, id: RunId, text: string, truncated: bool, freshMessage: MessageId)
    requires id in db.runs
    ensures GivesAnswer(db, Answered(db, id, text, truncated, freshMessage), id, text, truncated, freshMessage)
  {
    hide EmitRun, MaxOrdinal, Ordered, Numbered;
    var answer := ChatMessage(freshMessage, db.runs[id].conversation, id, None, Role.Assistant, text,
                              MaxOrdinal(db.messages, db.runs[id].conversation) + 1, None);
    AppendIsOrdered(db.messages, answer);
    var run := db.runs[id].(truncated := truncated);
    var marked := db.(messages := db.messages + [answer], runs := db.runs[id := run]);
    var said := marked.(runs := marked.runs[id := run.(status := RunStatus.Succeeded)]);
    var succeeded := EmitRun(said, id, RunSucceeded);
    EmitIs(said, id, RunSucceeded);
    EmitIs(succeeded, id, AssistantReady(freshMessage));
    StaysNumbered(succeeded.events, EmitRun(succeeded, id, AssistantReady(freshMessage)).events, |db.events|);
  }

  /** A failure is recorded for every run that has not ended and whose session exists, except that a
      requested cancellation wins. */
  lemma FailureOutcome(db: Db, id: RunId)
    ensures
      var after := FinalizeFailure(db, id);
      var done := db.(generating := db.generating - {id});
      if id in db.runs && db.runs[id].session in db.sessions && db.runs[id].status == RunStatus.CancelRequested then
        Moved(done, after, id, RunStatus.Cancelled, EventKind.RunCancelled)
      else if id in db.runs && db.runs[id].session in db.sessions
              && db.runs[id].status in {RunStatus.Queued, RunStatus.Running} then
        Moved(done, after, id, RunStatus.Failed, EventKind.RunFailed)
      else after == done
  {
    hide MoveRun, Moved;
    var done := db.(generating := db.generating - {id});
    if id in db.runs {
      MoveIs(done, id, RunStatus.Cancelled, RunCancelled);
      MoveIs(done, id, RunStatus.Failed, RunFailed);
    }
  }

  /** After a restart's sweep no run is live: exactly the ones that were failed, each told its session once
      and in the order of the query, and all others stayed. */
  lemma InterruptionSweepIsExact(db: Db, ids: seq<RunId>)
    requires RS.Sound(db) && NonTerminalRuns(db, ids)
    ensures
      var after := InterruptAll(db, ids);
      after == db.(runs := after.runs, events := after.events) && after.runs.Keys == db.runs.Keys
      && (forall id :: id in db.runs ==>
            if db.runs[id].status in {RunStatus.Succeeded, RunStatus.Failed, RunStatus.Cancelled}
            then after.runs[id] == db.runs[id]
            else after.runs[id] == db.runs[id].(status := RunStatus.Failed,
                                                firstSequence := after.runs[id].firstSequence,
                                                lastSequence := after.runs[id].lastSequence))
      && Interrupts(db, after.events, ids)
  {
    hide RS.Sound, InterruptAll, Interrupts;
    forall id | id in db.runs
      ensures NonTerminal(db.runs[id].status)
        <==> db.runs[id].status !in {RunStatus.Succeeded, RunStatus.Failed, RunStatus.Cancelled}
    {
      LiveOrEnded(db.runs[id].status);
    }
    forall id | id in ids ensures id in db.runs && db.runs[id].session in db.sessions {
      PlacedRun(db, id);
    }
    InterruptedRuns(db, ids);
  }

  lemma PlacedRun(db: Db, id: RunId)
    requires RS.Sound(db) && id in db.runs
    ensures db.runs[id].session in db.sessions
  {
    hide OneLive, MessagesOk, Gapless, RunOk, RunsLinked;
  }

  /** One event for each run, in order. */
  ghost predicate Interrupts(db: Db, after: seq<Event>, ids: seq<RunId>) {
    |after| == |db.events| + |ids| && db.events <= after
    && forall i :: 0 <= i < |ids| ==>
         ids[i] in db.runs && Numbered(after, |db.events| + i)
         && after[|db.events| + i]
            == Event(db.runs[ids[i]].session, db.runs[ids[i]].conversation, Some(ids[i]), after[|db.events| + i].sequence,
                     RunInterrupted)
  }

  lemma {:induction false} InterruptedRuns(db: Db, ids: seq<RunId>)
    requires forall id :: id in ids ==> id in db.runs && db.runs[id].session in db.sessions
    ensures
      var after := InterruptAll(db, ids);
      after == db.(runs := after.runs, events := after.events) && after.runs.Keys == db.runs.Keys
      && (forall id :: id in db.runs ==>
            if id in ids
            then after.runs[id] == db.runs[id].(status := RunStatus.Failed,
                                                firstSequence := after.runs[id].firstSequence,
                                                lastSequence := after.runs[id].lastSequence)
            else after.runs[id] == db.runs[id])
      && Interrupts(db, after.events, ids)
  {
    hide MoveRun, Told, Interrupts;
    if ids == [] {
      NothingInterrupted(db);
    } else {
      var n := |ids| - 1;
      var before := InterruptAll(db, ids[..n]);
      InterruptedRuns(db, ids[..n]);
      MoveIs(before, ids[n], RunStatus.Failed, RunInterrupted);
      assert ids == ids[..n] + [ids[n]];
      assert before.runs[ids[n]].session == db.runs[ids[n]].session;
      ToldAlike(before.events, InterruptAll(db, ids).events, ids[n], before.runs[ids[n]], db.runs[ids[n]], RunInterrupted);
      InterruptsOneMore(db, before.events, InterruptAll(db, ids).events, ids);
    }
  }

  lemma ToldAlike(events: seq<Event>, after: seq<Event>, id: RunId, run: Run, other: Run, kind: EventKind)
    requires Told(events, after, id, run, kind) && (run.session, run.conversation) == (other.session, other.conversation)
    ensures Told(events, after, id, other, kind)
  {}

  lemma NothingInterrupted(db: Db)
    ensures Interrupts(db, db.events, [])
  {}

  lemma InterruptsOneMore(db: Db, before: seq<Event>, after: seq<Event>, ids: seq<RunId>)
    requires ids != [] && Interrupts(db, before, ids[..|ids| - 1]) && ids[|ids| - 1] in db.runs
    requires Told(before, after, ids[|ids| - 1], db.runs[ids[|ids| - 1]], RunInterrupted)
    ensures Interrupts(db, after, ids)
  {
    hide Numbered;
    var n := |ids| - 1;
    forall i | 0 <= i < n
      ensures ids[i] in db.runs && Numbered(after, |db.events| + i) && after[|db.events| + i] == before[|db.events| + i]
    {
      assert ids[..n][i] == ids[i];
      StaysNumbered(before, after, |db.events| + i);
    }
  }
}
