/** What each transaction of the conversation service commits, as a function of the rows. */
module Conversations {
  import opened Prelude
  import opened Store

  const MAX_CONTENT := 4000

  // --- message text ---

  /** The characters that `str.strip` removes. */
  predicate IsSpace(c: char) {
    '\t' <= c <= '\r' || '\U{1C}' <= c <= ' ' || c == '\U{85}' || c == '\U{A0}' || c == '\U{1680}'
    || '\U{2000}' <= c <= '\U{200A}' || c == '\U{2028}' || c == '\U{2029}' || c == '\U{202F}'
    || c == '\U{205F}' || c == '\U{3000}'
  }

  predicate Blank(text: string) {
    forall i :: 0 <= i < |text| ==> IsSpace(text[i])
  }

  predicate ValidText(text: string) {
    1 <= |text| <= MAX_CONTENT && !Blank(text)
  }

  /** A gateway response; `bindsRun` says that its request id, model identity, finish reason and
      usage are what the run asked for, and that it proposes no tool. */
  datatype Response = Response(bindsRun: bool, text: string)

  predicate ValidResponse(response: Response) {
    response.bindsRun && !Blank(response.text) && |response.text| <= MAX_CONTENT
  }

  // --- queries ---

  predicate NonTerminal(status: RunStatus) {
    status in {RunStatus.Queued, RunStatus.Running, RunStatus.CancelRequested}
  }

  function OfConversation(conversation: ConversationId): ChatMessage -> bool {
    (m: ChatMessage) => m.conversation == conversation
  }

  function Log(messages: seq<ChatMessage>, conversation: ConversationId): seq<ChatMessage> {
    Select(messages, OfConversation(conversation))
  }

  function MaxOrdinal(messages: seq<ChatMessage>, conversation: ConversationId): nat {
    if messages == [] then 0
    else
      var last := messages[|messages| - 1];
      var rest := MaxOrdinal(messages[..|messages| - 1], conversation);
      if last.conversation == conversation && rest < last.ordinal then last.ordinal else rest
  }

  ghost predicate Busy(db: Db, conversation: ConversationId) {
    exists id :: id in db.runs && db.runs[id].conversation == conversation && NonTerminal(db.runs[id].status)
  }

  predicate SameClientMessage(m: ChatMessage, conversation: ConversationId, device: DeviceId, clientId: nat) {
    m.conversation == conversation && m.author == Some(device) && m.clientId == Some(clientId)
  }

  /** The earliest stored message with this client id, as an index into the table. */
  function FindClientMessage(
    messages: seq<ChatMessage>, conversation: ConversationId, device: DeviceId, clientId: nat)
    : (found: Option<nat>)
    ensures found.Some? ==>
      found.value < |messages| && SameClientMessage(messages[found.value], conversation, device, clientId)
    ensures found.None? ==>
      forall m :: m in messages ==> !SameClientMessage(m, conversation, device, clientId)
  {
    if messages == [] then None
    else
      var n := |messages| - 1;
      var earlier := FindClientMessage(messages[..n], conversation, device, clientId);
      assert messages == messages[..n] + [messages[n]];
      if earlier.Some? then earlier
      else if SameClientMessage(messages[n], conversation, device, clientId) then Some(n) else None
  }

  predicate Authorised(db: Db, p: Principal, session: SessionId) {
    session in db.sessions && db.sessions[session].owner == p.owner
    && db.sessions[session].device == p.device
  }

  // --- event projection ---

  /** Append an event of a run to its session and extend the run's sequence bounds. */
  function EmitRun(db: Db, id: RunId, kind: EventKind): (after: Db)
    requires id in db.runs
    ensures after == db.(events := after.events, runs := after.runs) && after.runs.Keys == db.runs.Keys
    ensures db.events <= after.events
  {
    var run := db.runs[id];
    var sequence := MaxSequence(db.events, run.session) + 1;
    db.(events := AppendEvent(db.events, run.session, run.conversation, Some(id), kind),
        runs := db.runs[id := run.(
          firstSequence := if run.firstSequence.None? then Some(sequence) else run.firstSequence,
          lastSequence := Some(sequence))])
  }

  /** Move one run to `status` and emit the event that says so. */
  function MoveRun(db: Db, id: RunId, status: RunStatus, kind: EventKind): (after: Db)
    requires id in db.runs
    ensures after == db.(events := after.events, runs := after.runs) && after.runs.Keys == db.runs.Keys
    ensures db.events <= after.events
  {
    EmitRun(db.(runs := db.runs[id := db.runs[id].(status := status)]), id, kind)
  }

  // --- conversations and sessions ---

  function CreateConversation(db: Db, p: Principal, id: ConversationId): Txn<ConversationId> {
    if id in db.conversations then Txn(db, Err("integrity_error"))
    else Txn(db.(conversations := db.conversations[id := Conversation(p.owner, true)]), Ok(id))
  }

  function CreateSession(db: Db, p: Principal, conversation: ConversationId, id: SessionId): Txn<SessionId> {
    if conversation !in db.conversations || db.conversations[conversation] != Conversation(p.owner, true) then
      Txn(db, Err("conversation_not_found"))
    else if id in db.sessions then Txn(db, Err("integrity_error"))
    else
      Txn(db.(sessions := db.sessions[id := Session(conversation, p.owner, p.device, true)],
               events := AppendEvent(db.events, id, conversation, None, SessionReady)),
           Ok(id))
  }

  function CloseSession(db: Db, p: Principal, id: SessionId): Txn<SessionId> {
    if !Authorised(db, p, id) then Txn(db, Err("session_not_found"))
    else if !db.sessions[id].active then Txn(db, Ok(id))
    else
      Txn(db.(sessions := db.sessions[id := db.sessions[id].(active := false)],
               events := AppendEvent(db.events, id, db.sessions[id].conversation, None, SessionClosed)),
           Ok(id))
  }

  // --- runs ---

  datatype Submission = Submission(message: MessageId, run: RunId, replayed: bool)

  ghost function SubmitMessage(
    db: Db, p: Principal, session: SessionId, clientId: nat, content: string, model: string,
    freshMessage: MessageId, freshRun: RunId): Txn<Submission>
  {
    if !ValidText(content) then Txn(db, Err("content_invalid"))
    else if !Authorised(db, p, session) then Txn(db, Err("session_not_found"))
    else if !db.sessions[session].active then Txn(db, Err("session_closed"))
    else
      var conversation := db.sessions[session].conversation;
      var existing := FindClientMessage(db.messages, conversation, p.device, clientId);
      if existing.Some? then Txn(db, ReplaySubmission(db, db.messages[existing.value], content, model))
      else if Busy(db, conversation) then Txn(db, Err("conversation_busy"))
      else if conversation !in db.conversations
              || db.conversations[conversation] != Conversation(p.owner, true) then
        Txn(db, Err("conversation_not_found"))
      else if freshRun in db.runs || exists m :: m in db.messages && m.id == freshMessage then
        Txn(db, Err("integrity_error"))
      else
        Txn(Submitted(db, p, session, clientId, content, model, freshMessage, freshRun),
             Ok(Submission(freshMessage, freshRun, false)))
  }

  function ReplaySubmission(db: Db, m: ChatMessage, content: string, model: string): Result<Submission> {
    if m.content != content then Err("idempotency_content_conflict")
    else if m.run !in db.runs then Err("idempotent_run_unavailable")
    else if db.runs[m.run].model != model then Err("idempotency_model_conflict")
    else Ok(Submission(m.id, m.run, true))
  }

  function Submitted(
    db: Db, p: Principal, session: SessionId, clientId: nat, content: string, model: string,
    freshMessage: MessageId, freshRun: RunId): Db
    requires session in db.sessions
  {
    var conversation := db.sessions[session].conversation;
    var message := ChatMessage(freshMessage, conversation, freshRun, Some(p.device), Role.User, content,
                               MaxOrdinal(db.messages, conversation) + 1, Some(clientId));
    var run := Run(conversation, session, p.device, freshMessage, model, RunStatus.Queued, false, None, None);
    var inserted := db.(messages := db.messages + [message], runs := db.runs[freshRun := run]);
    EmitRun(EmitRun(inserted, freshRun, MessageAccepted(freshMessage)), freshRun, RunQueued)
  }

  function CancelRun(db: Db, p: Principal, id: RunId): Txn<RunStatus> {
    if id !in db.runs || db.runs[id].conversation !in db.conversations
       || db.conversations[db.runs[id].conversation].owner != p.owner
       || db.runs[id].requestDevice != p.device then
      Txn(db, Err("run_not_found"))
    else if !Authorised(db, p, db.runs[id].session) then Txn(db, Err("session_not_found"))
    else
      match db.runs[id].status
      case Queued => Txn(MoveRun(db, id, RunStatus.Cancelled, RunCancelled), Ok(RunStatus.Cancelled))
      case Running =>
        Txn(MoveRun(db, id, RunStatus.CancelRequested, EventKind.RunCancelRequested), Ok(RunStatus.CancelRequested))
      case other => Txn(db, Ok(other))
  }

  /** The worker's first transaction; a model call is in flight from here on. */
  function BeginRun(db: Db, id: RunId): Db {
    if id !in db.runs || db.runs[id].status != RunStatus.Queued then db
    else if db.runs[id].session !in db.sessions then
      db.(runs := db.runs[id := db.runs[id].(status := RunStatus.Running)])
    else MoveRun(db, id, RunStatus.Running, RunStarted).(generating := db.generating + {id})
  }

  function FinalizeResponse(
    db: Db, id: RunId, response: Response, truncated: bool, freshMessage: MessageId): Db
  {
    var done := db.(generating := db.generating - {id});
    if id !in db.runs || !NonTerminal(db.runs[id].status) || db.runs[id].session !in db.sessions
       || db.runs[id].conversation !in db.conversations then done
    else if db.runs[id].status == RunStatus.CancelRequested then
      MoveRun(done, id, RunStatus.Cancelled, RunCancelled)
    else if !ValidResponse(response) then MoveRun(done, id, RunStatus.Failed, RunFailed)
    else if exists m :: m in db.messages && m.id == freshMessage then done
    else Answered(done, id, response.text, truncated, freshMessage)
  }

  function Answered(db: Db, id: RunId, text: string, truncated: bool, freshMessage: MessageId): Db
    requires id in db.runs
  {
    var conversation := db.runs[id].conversation;
    var answer := ChatMessage(freshMessage, conversation, id, None, Role.Assistant, text,
                              MaxOrdinal(db.messages, conversation) + 1, None);
    var answered := db.(messages := db.messages + [answer],
                        runs := db.runs[id := db.runs[id].(truncated := truncated)]);
    EmitRun(MoveRun(answered, id, RunStatus.Succeeded, RunSucceeded), id, AssistantReady(freshMessage))
  }

  /** A failure is persisted whatever the run's state; a requested cancellation wins. */
  function FinalizeFailure(db: Db, id: RunId): Db {
    var done := db.(generating := db.generating - {id});
    if id !in db.runs || !NonTerminal(db.runs[id].status) || db.runs[id].session !in db.sessions then done
    else if db.runs[id].status == RunStatus.CancelRequested then
      MoveRun(done, id, RunStatus.Cancelled, RunCancelled)
    else MoveRun(done, id, RunStatus.Failed, RunFailed)
  }

  /** The rows `nonterminal_runs` returns. */
  ghost predicate NonTerminalRuns(db: Db, ids: seq<RunId>) {
    (forall id :: id in ids <==> id in db.runs && NonTerminal(db.runs[id].status))
    && forall i, j :: 0 <= i < j < |ids| ==> ids[i] != ids[j]
  }

  function InterruptAll(db: Db, ids: seq<RunId>): Db {
    if ids == [] then db
    else
      var before := InterruptAll(db, ids[..|ids| - 1]);
      var id := ids[|ids| - 1];
      if id !in before.runs || before.runs[id].session !in before.sessions then before
      else MoveRun(before, id, RunStatus.Failed, RunInterrupted)
  }
}
