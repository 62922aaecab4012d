/** Everything stored about one run, gathered from the tables, and what the run-level writes do
    to it: each touches one run only. */
module RunViews {
  import opened Prelude
  import opened Store
  import opened Conversations

  /** The events of a run, tool projections left out. */
  function LifecycleOf(id: RunId): Event -> bool {
    (e: Event) => e.run == Some(id) && !e.kind.Tool?
  }

  function Lifecycle(events: seq<Event>, id: RunId): seq<Event> {
    Select(events, LifecycleOf(id))
  }

  function AnswerOf(id: RunId): ChatMessage -> bool {
    (m: ChatMessage) => m.run == id && m.role == Role.Assistant
  }

  function Answers(messages: seq<ChatMessage>, id: RunId): seq<ChatMessage> {
    Select(messages, AnswerOf(id))
  }

  datatype RunView = RunView(run: Run, life: seq<Event>, answers: seq<ChatMessage>, generating: bool)

  ghost function RunViewOf(db: Db, id: RunId): RunView
    requires id in db.runs
  {
    RunView(db.runs[id], Lifecycle(db.events, id), Answers(db.messages, id), id in db.generating)
  }

  /** Events and messages never refer to a run that does not exist. */
  ghost predicate RunRows(runs: set<RunId>, events: seq<Event>, messages: seq<ChatMessage>, generating: set<RunId>) {
    (forall e :: e in events && e.run.Some? ==> e.run.value in runs)
    && (forall m :: m in messages ==> m.run in runs)
    && generating <= runs
  }

  ghost predicate RunsLinked(db: Db) {
    RunRows(db.runs.Keys, db.events, db.messages, db.generating)
  }

  ghost predicate OnlyRun(db: Db, after: Db, id: RunId) {
    after.runs.Keys == db.runs.Keys + {id}
    && forall other :: other in db.runs && other != id ==> RunViewOf(after, other) == RunViewOf(db, other)
  }

  lemma OnlyRunTransitive(db: Db, mid: Db, after: Db, id: RunId)
    requires OnlyRun(db, mid, id) && OnlyRun(mid, after, id)
    ensures OnlyRun(db, after, id)
  {
    forall other | other in db.runs && other != id
      ensures RunViewOf(after, other) == RunViewOf(db, other)
    {
      assert other in mid.runs;
    }
  }

  /** The event that `EmitRun` appends. */
  function Emitted(db: Db, id: RunId, kind: EventKind): Event
    requires id in db.runs
  {
    var run := db.runs[id];
    Event(run.session, run.conversation, Some(id), MaxSequence(db.events, run.session) + 1, kind)
  }

  function Bounded(run: Run, e: Event): Run {
    run.(firstSequence := if run.firstSequence.None? then Some(e.sequence) else run.firstSequence,
         lastSequence := Some(e.sequence))
  }

  lemma EmitViews(db: Db, id: RunId, kind: EventKind)
    requires id in db.runs && RunsLinked(db) && !kind.Tool?
    ensures var after := EmitRun(db, id, kind);
      var e := Emitted(db, id, kind);
      RunsLinked(after) && OnlyRun(db, after, id) && after.events == db.events + [e]
      && RunViewOf(after, id) == RunViewOf(db, id).(run := Bounded(db.runs[id], e),
                                                    life := Lifecycle(db.events, id) + [e])
  {
    var e := Emitted(db, id, kind);
    forall other ensures Lifecycle(db.events + [e], other)
        == Lifecycle(db.events, other) + if other == id then [e] else []
    {
      SelectSnoc(db.events, e, LifecycleOf(other));
    }
  }

  lemma StatusViews(db: Db, id: RunId, run: Run)
    requires id in db.runs && RunsLinked(db)
    ensures var after := db.(runs := db.runs[id := run]);
      RunsLinked(after) && OnlyRun(db, after, id) && RunViewOf(after, id) == RunViewOf(db, id).(run := run)
  {}

  lemma MoveViews(db: Db, id: RunId, status: RunStatus, kind: EventKind)
    requires id in db.runs && RunsLinked(db) && !kind.Tool?
    ensures var after := MoveRun(db, id, status, kind);
      var e := Emitted(db, id, kind);
      RunsLinked(after) && OnlyRun(db, after, id) && after.events == db.events + [e]
      && RunViewOf(after, id) == RunViewOf(db, id).(run := Bounded(db.runs[id].(status := status), e),
                                                    life := Lifecycle(db.events, id) + [e])
  {
    var moved := db.(runs := db.runs[id := db.runs[id].(status := status)]);
    StatusViews(db, id, db.runs[id].(status := status));
    EmitViews(moved, id, kind);
    OnlyRunTransitive(db, moved, MoveRun(db, id, status, kind), id);
  }

  /** Appending a message changes the answers of its own run only. */
  lemma MessageViews(db: Db, m: ChatMessage)
    requires m.run in db.runs && RunsLinked(db)
    ensures var after := db.(messages := db.messages + [m]);
      RunsLinked(after) && OnlyRun(db, after, m.run)
      && RunViewOf(after, m.run) == RunViewOf(db, m.run).(
        answers := Answers(db.messages, m.run) + if m.role == Role.Assistant then [m] else [])
  {
    forall other ensures Answers(db.messages + [m], other)
        == Answers(db.messages, other) + if other == m.run && m.role == Role.Assistant then [m] else []
    {
      SelectSnoc(db.messages, m, AnswerOf(other));
    }
  }
}
