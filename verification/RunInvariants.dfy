/** The lifecycle grammar of a run, the inductive invariant of one run, and the invariant of the
    conversations that hold the runs. */
module RunInvariants {
  import opened Prelude
  import opened Store
  import opened Conversations
  import opened RunViews

  // --- the lifecycle as an automaton over the events ---

  datatype Phase = Fresh | Accepted | At(status: RunStatus) | Answering | Broken

  function Advance(phase: Phase, kind: EventKind): Phase {
    match (phase, kind)
    case (Fresh, MessageAccepted(_)) => Accepted
    case (Accepted, RunQueued) => At(RunStatus.Queued)
    case (At(Queued), RunStarted) => At(RunStatus.Running)
    case (At(Queued), RunCancelled) => At(RunStatus.Cancelled)
    case (At(Queued), RunFailed) => At(RunStatus.Failed)
    case (At(Queued), RunInterrupted) => At(RunStatus.Failed)
    case (At(Running), RunCancelRequested) => At(RunStatus.CancelRequested)
    case (At(Running), RunFailed) => At(RunStatus.Failed)
    case (At(Running), RunInterrupted) => At(RunStatus.Failed)
    case (At(Running), RunSucceeded) => Answering
    case (Answering, AssistantReady(_)) => At(RunStatus.Succeeded)
    case (At(CancelRequested), RunCancelled) => At(RunStatus.Cancelled)
    case (At(CancelRequested), RunInterrupted) => At(RunStatus.Failed)
    case _ => Broken
  }

  function Fold(life: seq<Event>): Phase {
    if life == [] then Fresh else Advance(Fold(life[..|life| - 1]), life[|life| - 1].kind)
  }

  lemma FoldSnoc(life: seq<Event>, e: Event)
    ensures Fold(life + [e]) == Advance(Fold(life), e.kind)
  {
    assert (life + [e])[..|life|] == life;
  }

  /** The lifecycle written out: accepted, queued, perhaps started, perhaps a requested
      cancellation after the start, and then at most one outcome. */
  ghost predicate Shape(life: seq<Event>, status: RunStatus) {
    var started := |life| > 2 && life[2].kind.RunStarted?;
    var requested := started && |life| > 3 && life[3].kind.RunCancelRequested?;
    var outcome := life[if |life| < 2 then 0 else if requested then 4 else if started then 3 else 2..];
    |life| >= 2 && life[0].kind.MessageAccepted? && life[1].kind.RunQueued?
    && match status
       case Queued => outcome == [] && !started
       case Running => outcome == [] && started && !requested
       case CancelRequested => outcome == [] && requested
       case Cancelled => |outcome| == 1 && outcome[0].kind.RunCancelled? && (started ==> requested)
       case Failed => |outcome| == 1
         && (outcome[0].kind.RunInterrupted? || (outcome[0].kind.RunFailed? && !requested))
       case Succeeded => (|outcome| == 2 && started && !requested
                          && outcome[0].kind.RunSucceeded? && outcome[1].kind.AssistantReady?)
  }

  ghost predicate PartialShape(life: seq<Event>, phase: Phase) {
    match phase
    case Fresh => life == []
    case Accepted => |life| == 1 && life[0].kind.MessageAccepted?
    case At(status) => Shape(life, status)
    case Answering =>
      |life| == 4 && life[0].kind.MessageAccepted? && life[1].kind.RunQueued?
      && life[2].kind.RunStarted? && life[3].kind.RunSucceeded?
    case Broken => true
  }

  lemma {:induction false} FoldHasShape(life: seq<Event>)
    ensures PartialShape(life, Fold(life))
  {
    if life != [] {
      var n := |life| - 1;
      FoldHasShape(life[..n]);
      assert life == life[..n] + [life[n]];
    }
  }

  // --- the invariant of one run ---

  ghost predicate RunOk(v: RunView) {
    Fold(v.life) == At(v.run.status)
    && (forall e :: e in v.life ==> e.session == v.run.session)
    && |v.life| > 0
    && v.run.firstSequence == Some(v.life[0].sequence)
    && v.run.lastSequence == Some(v.life[|v.life| - 1].sequence)
    && |v.answers| == (if v.run.status == RunStatus.Succeeded then 1 else 0)
    && (v.generating ==> v.run.status != RunStatus.Queued)
  }

  /** The only ways a step may change a run: its identity stays, its events and answers only
      grow, a terminal status is final, and a run once dead to its tool calls stays dead. */
  ghost predicate RunMoves(before: RunView, after: RunView) {
    after.run == before.run.(status := after.run.status, truncated := after.run.truncated,
                             firstSequence := after.run.firstSequence, lastSequence := after.run.lastSequence)
    && before.life <= after.life && before.answers <= after.answers
    && (RunTerminal(before.run.status) ==> after.run.status == before.run.status)
    && (RunDead(before.run.status) ==> RunDead(after.run.status))
    && (NonTerminal(after.run.status) ==> NonTerminal(before.run.status))
  }

  lemma RunMovesNot(v: RunView)
    ensures RunMoves(v, v)
  {}

  lemma RunMovesTransitive(before: RunView, mid: RunView, after: RunView)
    requires RunMoves(before, mid) && RunMoves(mid, after)
    ensures RunMoves(before, after)
  {}

  // --- the invariant of the conversations ---

  ghost predicate Numbered(messages: seq<ChatMessage>) {
    forall conversation, i {:trigger Log(messages, conversation)[i]} ::
      0 <= i < |Log(messages, conversation)| ==> Log(messages, conversation)[i].ordinal == i + 1
  }

  lemma {:induction false} MaxOrdinalIsLength(messages: seq<ChatMessage>, conversation: ConversationId)
    requires Numbered(messages)
    ensures MaxOrdinal(messages, conversation) == |Log(messages, conversation)|
  {
    if messages != [] {
      var n := |messages| - 1;
      assert messages == messages[..n] + [messages[n]];
      NumberedPrefix(messages[..n], messages[n]);
      MaxOrdinalIsLength(messages[..n], conversation);
      SelectSnoc(messages[..n], messages[n], OfConversation(conversation));
    }
  }

  lemma {:induction false} NumberedPrefix(messages: seq<ChatMessage>, m: ChatMessage)
    requires Numbered(messages + [m])
    ensures Numbered(messages)
    ensures m.ordinal == |Log(messages, m.conversation)| + 1
  {
    SelectSnoc(messages, m, OfConversation(m.conversation));
    var log := Log(messages + [m], m.conversation);
    assert log[|log| - 1] == m;
    forall conversation, i | 0 <= i < |Log(messages, conversation)|
      ensures Log(messages, conversation)[i].ordinal == i + 1
    {
      SelectSnoc(messages, m, OfConversation(conversation));
      assert Log(messages + [m], conversation)[i] == Log(messages, conversation)[i];
    }
  }

  lemma NumberedSnoc(messages: seq<ChatMessage>, m: ChatMessage)
    requires Numbered(messages) && m.ordinal == MaxOrdinal(messages, m.conversation) + 1
    ensures Numbered(messages + [m])
    ensures forall conversation :: (
      Log(messages + [m], conversation)
      == Log(messages, conversation) + if m.conversation == conversation then [m] else [])
  {
    MaxOrdinalIsLength(messages, m.conversation);
    forall conversation
      ensures Log(messages + [m], conversation)
        == Log(messages, conversation) + if m.conversation == conversation then [m] else []
    {
      SelectSnoc(messages, m, OfConversation(conversation));
    }
  }

  /** Runs belong to sessions of their own conversation. */
  ghost predicate Placed(db: Db) {
    (forall id :: id in db.runs ==>
      db.runs[id].session in db.sessions
      && db.sessions[db.runs[id].session].conversation == db.runs[id].conversation)
    && (forall id :: id in db.sessions ==> db.sessions[id].conversation in db.conversations)
    && forall m :: m in db.messages && m.run in db.runs ==> m.conversation == db.runs[m.run].conversation
  }

  /** A conversation has at most one live run, and a live run answers its latest message. */
  ghost predicate OneLive(runs: map<RunId, Run>, messages: seq<ChatMessage>) {
    (forall i, j ::
      (i in runs && j in runs && NonTerminal(runs[i].status) && NonTerminal(runs[j].status)
       && runs[i].conversation == runs[j].conversation) ==> i == j)
    && forall id :: id in runs && NonTerminal(runs[id].status) ==>
         TriggeredBy(Log(messages, runs[id].conversation), id, runs[id].trigger)
  }

  ghost predicate TriggeredBy(log: seq<ChatMessage>, id: RunId, trigger: MessageId) {
    |log| > 0 && log[|log| - 1].id == trigger && log[|log| - 1].role == Role.User
    && log[|log| - 1].run == id
  }

  ghost predicate MessagesOk(messages: seq<ChatMessage>) {
    Numbered(messages)
    && (forall m :: m in messages ==> ValidText(m.content))
    && forall i, j :: 0 <= i < j < |messages| ==> messages[i].id != messages[j].id
  }

  ghost predicate ConversationsOk(db: Db) {
    RunsLinked(db) && Placed(db) && MessagesOk(db.messages) && OneLive(db.runs, db.messages)
    && forall id :: id in db.runs ==> RunOk(RunViewOf(db, id))
  }

  /** What a conversation step leaves of the runs, and that it leaves the tool tables alone. */
  ghost predicate RunsEvolve(db: Db, after: Db) {
    db.runs.Keys <= after.runs.Keys && db.messages <= after.messages
    && after.calls == db.calls && after.approvals == db.approvals
    && after.observations == db.observations && after.audit == db.audit
    && after.executing == db.executing && after.starts == db.starts
    && after.devices == db.devices
    && forall id :: id in db.runs ==> RunMoves(RunViewOf(db, id), RunViewOf(after, id))
  }

  lemma RunsEvolveNot(db: Db)
    ensures RunsEvolve(db, db)
  {}

  lemma RunsEvolveTransitive(db: Db, mid: Db, after: Db)
    requires RunsEvolve(db, mid) && RunsEvolve(mid, after)
    ensures RunsEvolve(db, after)
  {
    hide RunMoves, RunViewOf;
    forall id | id in db.runs ensures RunMoves(RunViewOf(db, id), RunViewOf(after, id)) {
      RunMovesTransitive(RunViewOf(db, id), RunViewOf(mid, id), RunViewOf(after, id));
    }
  }
}
