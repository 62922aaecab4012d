/** The satellite's command path: receiving, admission, the atomic segments of a handler around the
    engine's execution, failing disks, crashes and restarts. A consequential command reaches the
    engine again only after the journal has forgotten it. */
module SatelliteAgent {
  import opened Prelude
  import opened Journals

  datatype Reply =
    | Busy(busy: CommandId)
    | Refused(conflict: CommandId)
    | Doubtful(uncertain: CommandId)
    | Cancelled(cancelled: CommandId)
    | Observed(frame: Frame)

  /** The agent between two awaits. `executed` lists the consequential commands handed to the engine
      and `forgotten` the identifiers trimmed from the journal's durable part, in order. */
  datatype Agent = Agent(
    journal: Journal, waiting: seq<Command>, running: seq<Command>, tasks: set<CommandId>,
    cancelBeforeStart: set<CommandId>, replies: seq<Reply>, executed: seq<CommandId>,
    forgotten: seq<CommandId>)

  datatype Event =
    | Receive(command: Command, inFlightLimit: nat)
    | Cancel(id: CommandId, reached: bool)
    | Handle(waiting: nat, disk: bool)
    | Complete(running: nat, frame: Frame, disk: bool)
    | Restart

  /** The identifiers that trimming drops when `command` is remembered. */
  function Dropped(j: Journal, command: Command, limit: nat): seq<CommandId> {
    if !Consequential(command) then []
    else
      var ids := PutId(Ids(j.durable), command.id);
      if |ids| <= limit then [] else ids[..|ids| - limit]
  }

  function RemoveAt<T>(s: seq<T>, i: nat): seq<T>
    requires i < |s|
  {
    s[..i] + s[i + 1..]
  }

  function Receiving(a: Agent, command: Command, inFlightLimit: nat): Agent {
    if |a.tasks| >= inFlightLimit then a.(replies := a.replies + [Busy(command.id)])
    else a.(waiting := a.waiting + [command], tasks := a.tasks + {command.id})
  }

  /** A cancellation that does not reach a running execution marks a command that has a task. */
  function Cancelling(a: Agent, id: CommandId, reached: bool): Agent {
    if reached || id !in a.tasks then a else a.(cancelBeforeStart := a.cancelBeforeStart + {id})
  }

  /** A handler's first segment: look the command up, answer it, or begin it and hand it over. */
  function Handling(a: Agent, i: nat, limit: nat, disk: bool): Agent
    requires i < |a.waiting|
  {
    var command := a.waiting[i];
    var rest := a.(waiting := RemoveAt(a.waiting, i));
    var over := rest.(tasks := a.tasks - {command.id});
    match Lookup(a.journal, command)
    case Conflict => over.(replies := a.replies + [Refused(command.id)])
    case Cached(frame) => over.(replies := a.replies + [Observed(frame)])
    case Uncertain => over.(replies := a.replies + [Doubtful(command.id)])
    case Unknown =>
      if command.id in a.cancelBeforeStart then
        over.(cancelBeforeStart := a.cancelBeforeStart - {command.id}, replies := a.replies + [Cancelled(command.id)])
      else
        var begun := Begin(a.journal, command, limit, disk);
        var forgotten := a.forgotten + Dropped(a.journal, command, limit);
        if !Consequential(command) then rest.(running := a.running + [command])
        else if !disk then over.(journal := begun, forgotten := forgotten)
        else
          rest.(journal := begun, forgotten := forgotten, running := a.running + [command],
                executed := a.executed + [command.id])
  }

  /** A handler's last segment: the engine returned. A failing disk loses the reply. */
  function Completing(a: Agent, i: nat, frame: Frame, limit: nat, disk: bool): Agent
    requires i < |a.running|
  {
    var command := a.running[i];
    var after := a.(running := RemoveAt(a.running, i), tasks := a.tasks - {command.id},
                    journal := Finish(a.journal, command, frame, limit, disk),
                    forgotten := a.forgotten + Dropped(a.journal, command, limit));
    if disk || !Consequential(command) then after.(replies := a.replies + [Observed(frame)]) else after
  }

  function Next(a: Agent, e: Event, limit: nat): Agent {
    match e
    case Receive(command, inFlightLimit) => Receiving(a, command, inFlightLimit)
    case Cancel(id, reached) => Cancelling(a, id, reached)
    case Handle(i, disk) => if i < |a.waiting| then Handling(a, i, limit, disk) else a
    case Complete(i, frame, disk) => if i < |a.running| then Completing(a, i, frame, limit, disk) else a
    case Restart =>
      a.(journal := Restarted(a.journal), waiting := [], running := [], tasks := {}, cancelBeforeStart := {})
  }

  /** A satellite installed with an empty journal, after a sequence of events. */
  function Run(events: seq<Event>, limit: nat): Agent {
    if events == [] then Agent(Journal([], [], []), [], [], {}, {}, [], [], [])
    else Next(Run(events[..|events| - 1], limit), events[|events| - 1], limit)
  }

  // --- what every event keeps ---

  ghost predicate DurableOk(d: Dict<Record>, limit: nat) {
    |d| <= limit && Distinct(Ids(d)) && forall entry :: entry in d ==> entry.1.name in CONSEQUENTIAL_TOOLS
  }

  /** Handed over at most once more often than forgotten; and while the journal, or the file it
      restarts from, does not know an identifier, no more often than forgotten. */
  ghost predicate Counted(a: Agent, id: CommandId) {
    var e, f := multiset(a.executed)[id], multiset(a.forgotten)[id];
    e <= f + 1
    && (id !in Ids(a.journal.durable) ==> e <= f)
    && (id !in Ids(a.journal.file) ==> e <= f)
  }

  ghost predicate AgentOk(a: Agent, limit: nat) {
    DurableOk(a.journal.durable, limit) && DurableOk(a.journal.file, limit)
    && forall id :: Counted(a, id)
  }

  lemma PutDistinct(ids: seq<CommandId>, id: CommandId)
    requires Distinct(ids)
    ensures Distinct(PutId(ids, id))
  {}

  lemma TrimDistinct(ids: seq<CommandId>, limit: nat)
    requires Distinct(ids)
    ensures Distinct(TrimmedIds(ids, limit))
  {}

  lemma SortDistinct(d: Dict<Record>)
    requires Distinct(Ids(d))
    ensures Distinct(Ids(SortByKey(d)))
  {
    hide Distinct, Ids, SortByKey;
    SortRises(d);
    forall id ensures multiset(Ids(SortByKey(d)))[id] <= 1 { DistinctCounts(Ids(d), id); }
    CountsDistinct(Ids(SortByKey(d)));
  }

  /** A journal never lists an identifier twice. */
  lemma RememberDistinct(j: Journal, command: Command, finished: bool, limit: nat, disk: bool)
    requires Distinct(Ids(j.durable)) && Distinct(Ids(j.file))
    ensures var after := Remember(j, command, finished, limit, disk);
      Distinct(Ids(after.durable)) && Distinct(Ids(after.file))
  {
    hide Distinct, Put, Trimmed, SortByKey, Ids, PutId, TrimmedIds;
    var put := Put(j.durable, command.id, Record(command.name, command.digest, finished));
    PutIds(j.durable, command.id, Record(command.name, command.digest, finished));
    PutDistinct(Ids(j.durable), command.id);
    TrimIds(put, limit);
    TrimDistinct(Ids(put), limit);
    SortDistinct(Trimmed(put, limit));
  }

  lemma RememberDurable(j: Journal, command: Command, finished: bool, limit: nat, disk: bool)
    requires DurableOk(j.durable, limit) && DurableOk(j.file, limit) && Consequential(command)
    ensures var after := Remember(j, command, finished, limit, disk);
      DurableOk(after.durable, limit) && DurableOk(after.file, limit)
  {
    var put := Put(j.durable, command.id, Record(command.name, command.digest, finished));
    RememberDistinct(j, command, finished, limit, disk);
    PutIds(j.durable, command.id, Record(command.name, command.digest, finished));
    TrimIds(put, limit);
    SortIds(Trimmed(put, limit));
    hide Distinct, Ids;
  }

  /** Assigning a key and trimming loses only what was trimmed, never the key itself. */
  lemma TrimLoses(ids: seq<CommandId>, key: CommandId, limit: nat, id: CommandId)
    requires 0 < limit && |ids| <= limit
    ensures
      var put := PutId(ids, key);
      var dropped := if |put| <= limit then [] else put[..|put| - limit];
      var left := TrimmedIds(put, limit);
      (|ids| < limit || key !in ids ==> key in left) && (key in ids ==> left == ids)
      && (id in ids && id !in left ==> multiset(dropped)[id] >= 1)
      && (id in left ==> id in ids || id == key)
  {
    var put := PutId(ids, key);
    if |put| > limit {
      assert put == ids + [key] && |put| == limit + 1;
      assert put[1..][limit - 1] == key;
      if id in ids && id !in put[1..] {
        assert put == [put[0]] + put[1..] && id in put;
        assert put[..1] == [id];
      }
    }
  }

  /** What remembering a command does to residence. */
  lemma RememberIds(j: Journal, command: Command, finished: bool, limit: nat, disk: bool, id: CommandId)
    requires 0 < limit && Consequential(command) && |j.durable| <= limit
    ensures
      var after := Remember(j, command, finished, limit, disk);
      command.id in Ids(after.durable)
      && (disk ==> (id in Ids(after.file) <==> id in Ids(after.durable)))
      && (!disk ==> after.file == j.file)
      && (id in Ids(j.durable) && id !in Ids(after.durable) ==> multiset(Dropped(j, command, limit))[id] >= 1)
      && (id in Ids(after.durable) ==> id in Ids(j.durable) || id == command.id)
  {
    var record := Record(command.name, command.digest, finished);
    var put := Put(j.durable, command.id, record);
    PutIds(j.durable, command.id, record);
    TrimIds(put, limit);
    SortIds(Trimmed(put, limit));
    hide Put, Trimmed, SortByKey, Ids, PutId, TrimmedIds, Consequential;
    IdsLength(j.durable);
    TrimLoses(Ids(j.durable), command.id, limit, id);
  }

  lemma IdsLength<V>(d: Dict<V>)
    ensures |Ids(d)| == |d|
  {}

  lemma {:induction false} CountedAppend(s: seq<CommandId>, more: seq<CommandId>, id: CommandId)
    ensures multiset(s + more)[id] == multiset(s)[id] + multiset(more)[id]
  {}

  lemma HandleKeeps(a: Agent, i: nat, limit: nat, disk: bool)
    requires 0 < limit && AgentOk(a, limit) && i < |a.waiting|
    ensures AgentOk(Handling(a, i, limit, disk), limit)
  {
    hide Remember, Dropped, Lookup;
    var command := a.waiting[i];
    var after := Handling(a, i, limit, disk);
    if after.journal != a.journal || after.forgotten != a.forgotten || after.executed != a.executed {
      LookupUnknown(a.journal, command);
      RememberDurable(a.journal, command, false, limit, disk);
      forall id ensures Counted(after, id) {
        assert Counted(a, id);
        RememberIds(a.journal, command, false, limit, disk, id);
        CountedAppend(a.forgotten, Dropped(a.journal, command, limit), id);
        CountedAppend(a.executed, [command.id], id);
      }
    } else {
      forall id ensures Counted(after, id) { assert Counted(a, id); }
    }
  }

  lemma LookupUnknown(j: Journal, command: Command)
    requires Lookup(j, command).Unknown? && Consequential(command)
    ensures command.id !in Ids(j.durable)
  {
    GetFinds(j.durable, command.id);
  }

  lemma CompleteKeeps(a: Agent, i: nat, frame: Frame, limit: nat, disk: bool)
    requires 0 < limit && AgentOk(a, limit) && i < |a.running|
    ensures AgentOk(Completing(a, i, frame, limit, disk), limit)
  {
    hide Remember, Dropped;
    var command := a.running[i];
    var after := Completing(a, i, frame, limit, disk);
    var kept := a.journal.(terminal := Put(a.journal.terminal, command.id, frame));
    DroppedReads(a.journal, kept, command, limit);
    if Consequential(command) {
      RememberDurable(kept, command, true, limit, disk);
    }
    forall id ensures Counted(after, id) {
      assert Counted(a, id);
      CountedAppend(a.forgotten, Dropped(a.journal, command, limit), id);
      if Consequential(command) {
        RememberIds(kept, command, true, limit, disk, id);
      }
    }
  }

  lemma DroppedReads(j: Journal, k: Journal, command: Command, limit: nat)
    requires j.durable == k.durable
    ensures Dropped(j, command, limit) == Dropped(k, command, limit)
  {}

  lemma OtherEventsKeep(a: Agent, e: Event, limit: nat)
    requires AgentOk(a, limit) && (e.Receive? || e.Cancel? || e.Restart?)
    ensures AgentOk(Next(a, e, limit), limit)
  {
    forall id ensures Counted(Next(a, e, limit), id) { assert Counted(a, id); }
  }

  lemma {:induction false} RunIsOk(events: seq<Event>, limit: nat)
    requires 0 < limit
    ensures AgentOk(Run(events, limit), limit)
  {
    hide Next, AgentOk;
    if events == [] {
      FreshIsOk(limit);
    } else {
      RunIsOk(events[..|events| - 1], limit);
      NextKeeps(Run(events[..|events| - 1], limit), events[|events| - 1], limit);
    }
  }

  lemma FreshIsOk(limit: nat)
    ensures AgentOk(Run([], limit), limit)
  {}

  lemma NextKeeps(a: Agent, e: Event, limit: nat)
    requires 0 < limit && AgentOk(a, limit)
    ensures AgentOk(Next(a, e, limit), limit)
  {
    hide AgentOk, Handling, Completing;
    match e {
      case Handle(i, disk) => if i < |a.waiting| { HandleKeeps(a, i, limit, disk); }
      case Complete(i, frame, disk) => if i < |a.running| { CompleteKeeps(a, i, frame, limit, disk); }
      case _ => OtherEventsKeep(a, e, limit);
    }
  }

  // --- the theorems ---

  /** After any receives, cancellations, executions, disk failures and restarts, the durable part of
      the journal and its file never exceed the bound. */
  lemma DurableStaysBounded(events: seq<Event>, limit: nat)
    requires 0 < limit
    ensures var j := Run(events, limit).journal; |j.durable| <= limit && |j.file| <= limit
  {
    RunIsOk(events, limit);
  }

  /** A consequential command reaches the engine again only after the journal forgot it: at most
      once, plus once for every time its identifier was trimmed. */
  lemma ExecutedOncePerResidence(events: seq<Event>, limit: nat, id: CommandId)
    requires 0 < limit
    ensures var a := Run(events, limit); multiset(a.executed)[id] <= multiset(a.forgotten)[id] + 1
    ensures var a := Run(events, limit); id !in a.forgotten ==> multiset(a.executed)[id] <= 1
  {
    RunIsOk(events, limit);
    assert Counted(Run(events, limit), id);
  }

  /** While an identifier that was ever executed has not been forgotten, every lookup of it by a
      consequential command, even after restarts, answers with the cached frame, an uncertain
      outcome or a conflict. */
  lemma RememberedIsNeverUnknown(events: seq<Event>, limit: nat, command: Command)
    requires 0 < limit && Consequential(command)
    ensures
      var a := Run(events, limit);
      command.id in a.executed && command.id !in a.forgotten ==>
        !Lookup(a.journal, command).Unknown? && command.id in Ids(Restarted(a.journal).durable)
  {
    var a := Run(events, limit);
    RunIsOk(events, limit);
    assert Counted(a, command.id);
    GetFinds(a.journal.durable, command.id);
  }

  // --- what becomes of a delivered command ---

  /** A handler hands its command to the engine if and only if the journal does not know it, it was not
      cancelled before, and, when it is consequential, its begin reached the disk. Otherwise its task
      ends: with one reply that says why, or, when the disk failed, with none. */
  lemma HandlingOutcome(a: Agent, i: nat, limit: nat, disk: bool)
    requires i < |a.waiting|
    ensures
      var c := a.waiting[i];
      var answer := Lookup(a.journal, c);
      var after := Handling(a, i, limit, disk);
      var starts := answer == Unknown && c.id !in a.cancelBeforeStart;
      var risky := c.name == "windows.workflow.start";
      after.waiting == a.waiting[..i] + a.waiting[i + 1..]
      && after.journal == (if starts then Begin(a.journal, c, limit, disk) else a.journal)
      && after.executed == (if starts && risky && disk then a.executed + [c.id] else a.executed)
      && (if starts && (disk || !risky)
          then (after.running, after.tasks, after.replies) == (a.running + [c], a.tasks, a.replies)
          else (after.running, after.tasks) == (a.running, a.tasks - {c.id}))
      && (starts && risky && !disk ==> after.replies == a.replies)
      && (answer == Unknown && c.id in a.cancelBeforeStart ==> after.replies == a.replies + [Cancelled(c.id)])
      && (answer == Conflict ==> after.replies == a.replies + [Refused(c.id)])
      && (answer == Uncertain ==> after.replies == a.replies + [Doubtful(c.id)])
      && (answer.Cached? ==> after.replies == a.replies + [Observed(answer.frame)])
      && after.cancelBeforeStart == if answer == Unknown then a.cancelBeforeStart - {c.id} else a.cancelBeforeStart
  {
    hide Lookup, Begin, Dropped;
    if !Consequential(a.waiting[i]) { NothingForgotten(a.journal, a.waiting[i], limit, disk, a.forgotten); }
  }

  /** A command is refused as busy if and only if as many tasks exist as may; otherwise it waits with a
      task. A cancellation marks a command if and only if it reached no execution and the command has a
      task. Neither changes anything else. */
  lemma ReceiptOutcome(a: Agent, command: Command, most: nat, id: CommandId, reached: bool)
    ensures
      Receiving(a, command, most)
      == if most <= |a.tasks| then a.(replies := a.replies + [Busy(command.id)])
         else a.(waiting := a.waiting + [command], tasks := a.tasks + {command.id})
    ensures
      Cancelling(a, id, reached)
      == a.(cancelBeforeStart := a.cancelBeforeStart + if !reached && id in a.tasks then {id} else {})
  {}

  /** Over any run no more tasks exist than the welcome frame allows. */
  lemma {:induction false} TasksStayWithin(events: seq<Event>, limit: nat, most: nat)
    requires forall e :: e in events && e.Receive? ==> e.inFlightLimit == most
    ensures |Run(events, limit).tasks| <= most
  {
    if events != [] {
      var n := |events| - 1;
      TasksStayWithin(events[..n], limit, most);
      TasksAfter(Run(events[..n], limit), events[n], limit);
    }
  }

  lemma TasksAfter(a: Agent, e: Event, limit: nat)
    ensures |Next(a, e, limit).tasks| <= |a.tasks| || (e.Receive? && |Next(a, e, limit).tasks| <= e.inFlightLimit)
  {
    hide Lookup, Begin, Finish, Dropped;
    match e {
      case Receive(command, _) => FewerTasks(a.tasks, command.id);
      case Handle(i, _) => if i < |a.waiting| { FewerTasks(a.tasks, a.waiting[i].id); }
      case Complete(i, _, _) => if i < |a.running| { FewerTasks(a.tasks, a.running[i].id); }
      case _ =>
    }
  }

  lemma FewerTasks(tasks: set<CommandId>, id: CommandId)
    ensures |tasks - {id}| <= |tasks| && |tasks + {id}| <= |tasks| + 1
  {}

  function Deliveries(events: seq<Event>): nat {
    if events == [] then 0
    else Deliveries(events[..|events| - 1]) + if events[|events| - 1].Receive? then 1 else 0
  }

  /** No disk failed and the satellite never stopped. */
  ghost predicate Undisturbed(events: seq<Event>) {
    forall e :: e in events ==> !e.Restart? && (e.Handle? ==> e.disk) && (e.Complete? ==> e.disk)
  }

  lemma NextAccounts(a: Agent, e: Event, limit: nat)
    ensures
      var after := Next(a, e, limit);
      var before := |a.replies| + |a.waiting| + |a.running| + if e.Receive? then 1 else 0;
      var now := |after.replies| + |after.waiting| + |after.running|;
      now <= before && (Undisturbed([e]) ==> now == before)
  {
    hide Lookup, Begin, Finish, Dropped;
    assert e in [e];
  }

  /** Over any run no delivered command is answered twice, and none is lost while no disk fails and the
      satellite does not stop: each is answered, waiting or running. */
  lemma {:induction false} CommandsAreConserved(events: seq<Event>, limit: nat)
    ensures
      var a := Run(events, limit);
      |a.replies| + |a.waiting| + |a.running| <= Deliveries(events)
      && (Undisturbed(events) ==> |a.replies| + |a.waiting| + |a.running| == Deliveries(events))
  {
    hide Next;
    if events != [] {
      var n := |events| - 1;
      CommandsAreConserved(events[..n], limit);
      NextAccounts(Run(events[..n], limit), events[n], limit);
      assert events[n] in events && forall e :: e in events[..n] ==> e in events;
    }
  }

  // --- nothing is forgotten while few commands are known ---

  /** The consequential commands a sequence of events ever delivers. */
  function Delivered(events: seq<Event>): set<CommandId> {
    set e | e in events && e.Receive? && Consequential(e.command) :: e.command.id
  }

  ghost predicate Within(a: Agent, known: set<CommandId>) {
    (forall id :: id in Ids(a.journal.durable) ==> id in known)
    && (forall id :: id in Ids(a.journal.file) ==> id in known)
    && (forall c :: c in a.waiting && Consequential(c) ==> c.id in known)
    && (forall c :: c in a.running && Consequential(c) ==> c.id in known)
    && Distinct(Ids(a.journal.durable)) && Distinct(Ids(a.journal.file))
    && a.forgotten == []
  }

  lemma {:induction false} DistinctFits(ids: seq<CommandId>, known: set<CommandId>)
    requires Distinct(ids) && forall id :: id in ids ==> id in known
    ensures |ids| <= |known|
  {
    if ids != [] {
      var n := |ids| - 1;
      assert ids == ids[..n] + [ids[n]];
      DistinctFits(ids[..n], known - {ids[n]});
    }
  }

  /** Remembering one of few commands drops nothing. */
  lemma RememberWithin(
    j: Journal, command: Command, finished: bool, limit: nat, disk: bool, known: set<CommandId>)
    requires |known| <= limit && command.id in known && Consequential(command)
    requires Distinct(Ids(j.durable)) && Distinct(Ids(j.file))
    requires (forall id :: id in Ids(j.durable) ==> id in known) && forall id :: id in Ids(j.file) ==> id in known
    ensures
      var after := Remember(j, command, finished, limit, disk);
      Dropped(j, command, limit) == [] && Distinct(Ids(after.durable)) && Distinct(Ids(after.file))
      && (forall id :: id in Ids(after.durable) ==> id in known)
      && forall id :: id in Ids(after.file) ==> id in known
  {
    var record := Record(command.name, command.digest, finished);
    var put := Put(j.durable, command.id, record);
    var ids := PutId(Ids(j.durable), command.id);
    PutIds(j.durable, command.id, record);
    PutDistinct(Ids(j.durable), command.id);
    RememberDistinct(j, command, finished, limit, disk);
    hide Put, SortByKey, Ids, Consequential, Distinct;
    IdsLength(put);
    DistinctFits(ids, known);
    SortIds(put);
  }

  lemma NextWithin(a: Agent, e: Event, limit: nat, known: set<CommandId>)
    requires Within(a, known) && |known| <= limit
    requires e.Receive? && Consequential(e.command) ==> e.command.id in known
    ensures Within(Next(a, e, limit), known)
  {
    hide Remember, Dropped, Lookup, Ids, Distinct, Consequential;
    match e {
      case Handle(i, disk) =>
        if i < |a.waiting| && Consequential(a.waiting[i]) {
          RememberWithin(a.journal, a.waiting[i], false, limit, disk, known);
        } else if i < |a.waiting| {
          NothingDropped(a.journal, a.waiting[i], limit);
        }
      case Complete(i, frame, disk) =>
        if i < |a.running| {
          var command := a.running[i];
          var kept := a.journal.(terminal := Put(a.journal.terminal, command.id, frame));
          DroppedReads(a.journal, kept, command, limit);
          if Consequential(command) {
            RememberWithin(kept, command, true, limit, disk, known);
          } else {
            NothingDropped(a.journal, command, limit);
          }
        }
      case _ =>
    }
  }

  lemma NothingDropped(j: Journal, command: Command, limit: nat)
    requires !Consequential(command)
    ensures Dropped(j, command, limit) == []
  {}

  lemma {:induction false} RunWithin(events: seq<Event>, limit: nat, known: set<CommandId>)
    requires Delivered(events) <= known && |known| <= limit
    ensures Within(Run(events, limit), known)
  {
    hide Next, Within, Consequential;
    if events == [] {
      FreshWithin(limit, known);
    } else {
      var n := |events| - 1;
      assert events == events[..n] + [events[n]];
      assert Delivered(events[..n]) <= Delivered(events);
      RunWithin(events[..n], limit, known);
      NextWithin(Run(events[..n], limit), events[n], limit, known);
    }
  }

  lemma FreshWithin(limit: nat, known: set<CommandId>)
    ensures Within(Run([], limit), known)
  {}

  /** As long as no more distinct consequential commands were delivered than the journal holds, each
      of them reaches the engine at most once, whatever crashes, restarts and repeats occur. */
  lemma FewCommandsExecuteAtMostOnce(events: seq<Event>, limit: nat, id: CommandId)
    requires 0 < limit && |Delivered(events)| <= limit
    ensures multiset(Run(events, limit).executed)[id] <= 1
  {
    RunWithin(events, limit, Delivered(events));
    ExecutedOncePerResidence(events, limit, id);
  }

  // --- the agent as it runs ---

  class WindowsSatelliteAgent {
    const journal: ReplayJournal
    var waiting: seq<Command>
    var running: seq<Command>
    var tasks: set<CommandId>
    var cancelBeforeStart: set<CommandId>
    var replies: seq<Reply>
    var executed: seq<CommandId>
    ghost var forgotten: seq<CommandId>

    ghost function Snapshot(): Agent
      reads this, journal
    {
      Agent(journal.Snapshot(), waiting, running, tasks, cancelBeforeStart, replies, executed, forgotten)
    }

    constructor (journal: ReplayJournal)
      ensures this.journal == journal
      ensures Snapshot() == Agent(journal.Snapshot(), [], [], {}, {}, [], [], [])
    {
      this.journal := journal;
      waiting, running, tasks, cancelBeforeStart, replies, executed, forgotten := [], [], {}, {}, [], [], [];
    }

    /** Admit a command, or refuse it while too many tasks exist. */
    method ReceiveCommand(command: Command, inFlightLimit: nat)
      modifies this
      ensures Snapshot() == Receiving(old(Snapshot()), command, inFlightLimit)
    {
      if |tasks| >= inFlightLimit {
        replies := replies + [Busy(command.id)];
        return;
      }
      waiting := waiting + [command];
      tasks := tasks + {command.id};
    }

    method ReceiveCancel(id: CommandId, reached: bool)
      modifies this
      ensures Snapshot() == Cancelling(old(Snapshot()), id, reached)
    {
      if !reached && id in tasks {
        cancelBeforeStart := cancelBeforeStart + {id};
      }
    }

    /** A handler from acquiring the semaphore to handing the command to the engine. */
    method HandleCommand(i: nat, disk: bool)
      requires i < |waiting|
      modifies this, journal
      ensures Snapshot() == Handling(old(Snapshot()), i, journal.maximumRecords, disk)
    {
      hide Lookup, Begin, Dropped;
      var command := waiting[i];
      waiting := RemoveAt(waiting, i);
      var replay := journal.LookupCommand(command);
      match replay {
        case Conflict => replies := replies + [Refused(command.id)];
        case Cached(frame) => replies := replies + [Observed(frame)];
        case Uncertain => replies := replies + [Doubtful(command.id)];
        case Unknown =>
          if command.id in cancelBeforeStart {
            cancelBeforeStart := cancelBeforeStart - {command.id};
            replies := replies + [Cancelled(command.id)];
          } else {
            NothingForgotten(journal.Snapshot(), command, journal.maximumRecords, disk, forgotten);
            forgotten := forgotten + Dropped(journal.Snapshot(), command, journal.maximumRecords);
            var begun := journal.BeginCommand(command, disk);
            if begun {
              running := running + [command];
              if Consequential(command) { executed := executed + [command.id]; }
              return;
            }
          }
      }
      tasks := tasks - {command.id};
    }

    /** A handler from the engine's return to its reply. */
    method CompleteCommand(i: nat, frame: Frame, disk: bool)
      requires i < |running|
      modifies this, journal
      ensures Snapshot() == Completing(old(Snapshot()), i, frame, journal.maximumRecords, disk)
    {
      hide Finish, Dropped;
      var command := running[i];
      running := RemoveAt(running, i);
      forgotten := forgotten + Dropped(journal.Snapshot(), command, journal.maximumRecords);
      var finished := journal.FinishCommand(command, frame, disk);
      tasks := tasks - {command.id};
      if finished { replies := replies + [Observed(frame)]; }
    }
  }

  lemma NothingForgotten(j: Journal, command: Command, limit: nat, disk: bool, forgotten: seq<CommandId>)
    ensures !Consequential(command) ==>
      forgotten + Dropped(j, command, limit) == forgotten && Begin(j, command, limit, disk) == j
  {}
}
