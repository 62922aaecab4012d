/** How long the satellite's journal remembers a command: exactly how many newcomers it survives while
    the satellite keeps running, and two runs in which a promise made in terms of later commands fails. */
module SatelliteForgetting {
  import opened Prelude
  import opened Journals
  import opened SatelliteAgent

  function RunFrom(a: Agent, events: seq<Event>, limit: nat): Agent
    decreases |events|
  {
    if events == [] then a else RunFrom(Next(a, events[0], limit), events[1..], limit)
  }

  lemma {:induction false} RunAppend(events: seq<Event>, more: seq<Event>, limit: nat)
    ensures Run(events + more, limit) == RunFrom(Run(events, limit), more, limit)
    decreases |more|
  {
    hide Next;
    if more == [] {
      assert events + more == events;
    } else {
      assert events + more == (events + [more[0]]) + more[1..];
      assert (events + [more[0]])[..|events|] == events;
      RunAppend(events + [more[0]], more[1..], limit);
    }
  }

  lemma {:induction false} RunFromAppend(a: Agent, events: seq<Event>, more: seq<Event>, limit: nat)
    ensures RunFrom(a, events + more, limit) == RunFrom(RunFrom(a, events, limit), more, limit)
    decreases |events|
  {
    hide Next;
    if events == [] {
      assert events + more == more;
    } else {
      assert (events + more)[0] == events[0] && (events + more)[1..] == events[1..] + more;
      RunFromAppend(Next(a, events[0], limit), events[1..], more, limit);
    }
  }

  // --- without a restart, exactly the newcomers make the journal forget ---

  /** The identifier an event remembers that the journal did not know, if any: a command that begins,
      or one that finishes after it was forgotten. */
  function Newcomer(a: Agent, e: Event): Option<CommandId> {
    match e
    case Handle(i, _) =>
      if i < |a.waiting| && Consequential(a.waiting[i]) && Lookup(a.journal, a.waiting[i]).Unknown?
         && a.waiting[i].id !in a.cancelBeforeStart then Some(a.waiting[i].id) else None
    case Complete(i, _, _) =>
      if i < |a.running| && Consequential(a.running[i]) && a.running[i].id !in Ids(a.journal.durable)
      then Some(a.running[i].id) else None
    case _ => None
  }

  function Newcomers(a: Agent, events: seq<Event>, limit: nat): nat
    decreases |events|
  {
    if events == [] then 0
    else (if Newcomer(a, events[0]).Some? then 1 else 0) + Newcomers(Next(a, events[0], limit), events[1..], limit)
  }

  /** `id` is among `ids` with `behind - 1` younger entries. */
  ghost predicate Held(ids: seq<CommandId>, id: CommandId, behind: nat) {
    1 <= behind <= |ids| && ids[|ids| - behind] == id
  }

  /** The durable identifiers after an event: unchanged, or with its newcomer at the end, the oldest
      entry of a full journal dropped. */
  function Joined(ids: seq<CommandId>, newcomer: Option<CommandId>, limit: nat): seq<CommandId>
    requires |ids| <= limit && 0 < limit
  {
    match newcomer
    case None => ids
    case Some(id) => (if |ids| < limit then ids else ids[1..]) + [id]
  }

  lemma JoinedHolds(ids: seq<CommandId>, newcomer: Option<CommandId>, limit: nat, id: CommandId, behind: nat)
    requires 0 < limit && |ids| <= limit && Held(ids, id, behind) && (newcomer.Some? ==> behind < limit)
    ensures Held(Joined(ids, newcomer, limit), id, behind + if newcomer.Some? then 1 else 0)
    ensures id in ids
  {
    assert ids[|ids| - behind] in ids;
  }

  lemma JoinedDrops(ids: seq<CommandId>, newcomer: Option<CommandId>, limit: nat, id: CommandId)
    requires 0 < limit && |ids| <= limit && Distinct(ids) && Held(ids, id, limit)
    requires newcomer.Some? && newcomer.value !in ids
    ensures id !in Joined(ids, newcomer, limit)
  {
    assert ids[0] == id && id in ids;
    forall k | 0 <= k < |ids[1..]| ensures ids[1..][k] != id { assert ids[1..][k] == ids[k + 1]; }
  }

  lemma RememberKnown(j: Journal, command: Command, finished: bool, limit: nat, disk: bool)
    requires Consequential(command) && |j.durable| <= limit && command.id in Ids(j.durable)
    ensures Ids(Remember(j, command, finished, limit, disk).durable) == Ids(j.durable)
  {
    var put := Put(j.durable, command.id, Record(command.name, command.digest, finished));
    PutIds(j.durable, command.id, Record(command.name, command.digest, finished));
    IdsLength(put);
    IdsLength(j.durable);
    hide Put, SortByKey, Ids;
  }

  lemma RememberNew(j: Journal, command: Command, finished: bool, limit: nat, disk: bool)
    requires 0 < limit && Consequential(command) && |Ids(j.durable)| <= limit && command.id !in Ids(j.durable)
    ensures Ids(Remember(j, command, finished, limit, disk).durable) == Joined(Ids(j.durable), Some(command.id), limit)
  {
    var put := Put(j.durable, command.id, Record(command.name, command.digest, finished));
    PutIds(j.durable, command.id, Record(command.name, command.digest, finished));
    TrimIds(put, limit);
    hide Put, SortByKey, Ids, Trimmed;
  }

  /** What one event without a restart does to the durable identifiers, and that only a newcomer is
      handed to the engine. */
  lemma NextIds(a: Agent, e: Event, limit: nat)
    requires 0 < limit && |Ids(a.journal.durable)| <= limit && !e.Restart?
    ensures Ids(Next(a, e, limit).journal.durable) == Joined(Ids(a.journal.durable), Newcomer(a, e), limit)
    ensures Newcomer(a, e).Some? ==> Newcomer(a, e).value !in Ids(a.journal.durable)
    ensures Next(a, e, limit).executed == a.executed
      || (Newcomer(a, e).Some? && Next(a, e, limit).executed == a.executed + [Newcomer(a, e).value])
  {
    hide Remember, Dropped, Ids, Consequential, Joined;
    NobodyJoined(Ids(a.journal.durable), limit);
    match e {
      case Handle(i, disk) =>
        if Newcomer(a, e).Some? {
          LookupUnknown(a.journal, a.waiting[i]);
          RememberNew(a.journal, a.waiting[i], false, limit, disk);
        }
      case Complete(i, frame, disk) =>
        if i < |a.running| && Consequential(a.running[i]) {
          var kept := a.journal.(terminal := Put(a.journal.terminal, a.running[i].id, frame));
          if a.running[i].id in Ids(a.journal.durable) {
            IdsLength(a.journal.durable);
            RememberKnown(kept, a.running[i], true, limit, disk);
          } else {
            RememberNew(kept, a.running[i], true, limit, disk);
          }
        }
      case _ =>
    }
  }

  lemma NobodyJoined(ids: seq<CommandId>, limit: nat)
    requires 0 < limit && |ids| <= limit
    ensures Joined(ids, None, limit) == ids
  {}

  lemma NextHolds(a: Agent, e: Event, limit: nat, id: CommandId, behind: nat)
    requires 0 < limit && |Ids(a.journal.durable)| <= limit && Held(Ids(a.journal.durable), id, behind) && !e.Restart?
    requires Newcomer(a, e).Some? ==> behind < limit
    ensures Held(Ids(Next(a, e, limit).journal.durable), id, behind + if Newcomer(a, e).Some? then 1 else 0)
    ensures multiset(Next(a, e, limit).executed)[id] == multiset(a.executed)[id]
  {
    hide Next, Newcomer, Ids, Joined, Held;
    NextIds(a, e, limit);
    JoinedHolds(Ids(a.journal.durable), Newcomer(a, e), limit, id, behind);
    if Newcomer(a, e).Some? {
      CountedAppend(a.executed, [Newcomer(a, e).value], id);
    }
  }

  lemma DurableFits(a: Agent, limit: nat)
    requires AgentOk(a, limit)
    ensures |Ids(a.journal.durable)| <= limit && Distinct(Ids(a.journal.durable))
  {}

  lemma BegunIsLast(a: Agent, i: nat, disk: bool, limit: nat)
    requires 0 < limit && |Ids(a.journal.durable)| <= limit && Newcomer(a, Handle(i, disk)).Some?
    ensures Held(Ids(Next(a, Handle(i, disk), limit).journal.durable), Newcomer(a, Handle(i, disk)).value, 1)
  {
    hide Next, Newcomer, Ids;
    NextIds(a, Handle(i, disk), limit);
  }

  // --- with any number of restarts: the place of an identifier ---

  /** How many of `ids` are not smaller than `id`. */
  function AtLeast(ids: seq<CommandId>, id: CommandId): nat {
    if ids == [] then 0 else (if ids[0] >= id then 1 else 0) + AtLeast(ids[1..], id)
  }

  /** The place an identifier comes to, counted from the youngest entry, or none once it passes the end
      of the journal: each newcomer moves it on by one, and a restart puts it behind the identifiers of
      the file, however old that is, that are larger. */
  function Track(a: Agent, events: seq<Event>, limit: nat, id: CommandId, place: nat): Option<nat>
    decreases |events|
  {
    if events == [] then Some(place)
    else
      var e := events[0];
      var file := Ids(a.journal.file);
      if e.Restart? && id !in file then None
      else
        var next := if e.Restart? then AtLeast(file, id) else place + if Newcomer(a, e).Some? then 1 else 0;
        if next > limit then None else Track(Next(a, e, limit), events[1..], limit, id, next)
  }

  lemma {:induction false} AtLeastAll(ids: seq<CommandId>, id: CommandId)
    requires Rising(ids) && (ids != [] ==> ids[0] >= id)
    ensures AtLeast(ids, id) == |ids|
  {
    if |ids| > 1 {
      AtLeastAll(ids[1..], id);
    }
  }

  /** In a sorted file the place of an identifier is the number of those not smaller. */
  lemma {:induction false} SortedPlace(ids: seq<CommandId>, id: CommandId)
    requires Rising(ids) && Distinct(ids) && id in ids
    ensures Held(ids, id, AtLeast(ids, id)) && AtLeast(ids, id) <= |ids|
  {
    if ids[0] == id {
      AtLeastAll(ids, id);
    } else {
      var k :| 0 <= k < |ids| && ids[k] == id;
      assert ids[0] <= ids[k] && ids[1..][k - 1] == id;
      SortedPlace(ids[1..], id);
    }
  }

  ghost predicate FileOk(a: Agent, limit: nat) {
    AgentOk(a, limit) && Rising(Ids(a.journal.file))
  }

  lemma RememberRises(j: Journal, command: Command, finished: bool, limit: nat, disk: bool)
    requires Rising(Ids(j.file))
    ensures Rising(Ids(Remember(j, command, finished, limit, disk).file))
  {
    hide Rising, Ids, SortByKey, Put, Trimmed;
    SortRises(Trimmed(Put(j.durable, command.id, Record(command.name, command.digest, finished)), limit));
  }

  /** Every event keeps the file sorted; and what stays in memory, and was in the file, stays there. */
  lemma NextFile(a: Agent, e: Event, limit: nat, id: CommandId)
    requires 0 < limit && |Ids(a.journal.durable)| <= limit && Rising(Ids(a.journal.file))
    ensures var j := Next(a, e, limit).journal;
      Rising(Ids(j.file)) && (id in Ids(a.journal.file) && id in Ids(j.durable) ==> id in Ids(j.file))
  {
    hide Remember, Dropped, Ids, Consequential, Rising, Lookup;
    IdsLength(a.journal.durable);
    match e {
      case Handle(i, disk) =>
        if i < |a.waiting| && Consequential(a.waiting[i]) {
          RememberRises(a.journal, a.waiting[i], false, limit, disk);
          RememberIds(a.journal, a.waiting[i], false, limit, disk, id);
        }
      case Complete(i, frame, disk) =>
        if i < |a.running| && Consequential(a.running[i]) {
          var kept := a.journal.(terminal := Put(a.journal.terminal, a.running[i].id, frame));
          RememberRises(kept, a.running[i], true, limit, disk);
          RememberIds(kept, a.running[i], true, limit, disk, id);
        }
      case _ =>
    }
  }

  /** One event moves the identifier to its next place, or drops it exactly when that place does not
      exist; while it has one it is not handed to the engine. */
  lemma NextPlace(a: Agent, e: Event, limit: nat, id: CommandId, place: nat)
    requires 0 < limit && FileOk(a, limit) && Held(Ids(a.journal.durable), id, place)
    ensures FileOk(Next(a, e, limit), limit)
    ensures var after := Ids(Next(a, e, limit).journal.durable);
      match Track(a, [e], limit, id, place)
      case None => id !in after
      case Some(next) => Held(after, id, next) && id in after
    ensures multiset(Next(a, e, limit).executed)[id] == multiset(a.executed)[id]
    ensures id in Ids(a.journal.file) && id in Ids(Next(a, e, limit).journal.durable) ==>
      id in Ids(Next(a, e, limit).journal.file)
  {
    TrackOne(a, e, limit, id, place);
    FileFits(a, limit);
    hide Next, Newcomer, Ids, Joined, Held, AgentOk, Rising, Distinct, Track;
    NextKeeps(a, e, limit);
    NextFile(a, e, limit, id);
    HeldMeansIn(Ids(a.journal.durable), id, place);
    if e.Restart? {
      RestartReads(a, limit);
      if id in Ids(a.journal.file) { SortedPlace(Ids(a.journal.file), id); }
    } else if Newcomer(a, e).Some? && place == limit {
      NextIds(a, e, limit);
      JoinedDrops(Ids(a.journal.durable), Newcomer(a, e), limit, id);
      CountedAppend(a.executed, [Newcomer(a, e).value], id);
    } else {
      NextHolds(a, e, limit, id, place);
      HeldMeansIn(Ids(Next(a, e, limit).journal.durable), id, place + if Newcomer(a, e).Some? then 1 else 0);
    }
  }

  lemma TrackOne(a: Agent, e: Event, limit: nat, id: CommandId, place: nat)
    ensures Track(a, [e], limit, id, place)
      == if e.Restart? then
           if id !in Ids(a.journal.file) || AtLeast(Ids(a.journal.file), id) > limit then None
           else Some(AtLeast(Ids(a.journal.file), id))
         else
           var next := place + if Newcomer(a, e).Some? then 1 else 0;
           if next > limit then None else Some(next)
  {
    hide Next, Newcomer, Ids;
    assert [e][1..] == [];
  }

  lemma HeldMeansIn(ids: seq<CommandId>, id: CommandId, place: nat)
    requires Held(ids, id, place)
    ensures id in ids && place <= |ids|
  {}

  lemma RestartReads(a: Agent, limit: nat)
    ensures Next(a, Restart, limit).journal.durable == a.journal.file
    ensures Next(a, Restart, limit).executed == a.executed
  {}

  lemma FileFits(a: Agent, limit: nat)
    requires FileOk(a, limit)
    ensures |Ids(a.journal.file)| <= limit && Distinct(Ids(a.journal.file)) && Rising(Ids(a.journal.file))
    ensures |Ids(a.journal.durable)| <= limit && Distinct(Ids(a.journal.durable))
  {}

  lemma {:induction false} FilesAreSorted(events: seq<Event>, limit: nat)
    requires 0 < limit
    ensures FileOk(Run(events, limit), limit)
  {
    hide Next, AgentOk, Rising, Ids;
    RunIsOk(events, limit);
    if events == [] {
      EmptyRises(limit);
    } else {
      var n := |events| - 1;
      FilesAreSorted(events[..n], limit);
      FileFits(Run(events[..n], limit), limit);
      NextFile(Run(events[..n], limit), events[n], limit, 0);
    }
  }

  lemma EmptyRises(limit: nat)
    ensures Rising(Ids(Run([], limit).journal.file))
  {}

  /** `id` is in the journal from state `a` on, after every prefix of `events`. */
  ghost predicate Stays(a: Agent, events: seq<Event>, limit: nat, id: CommandId) {
    forall n :: 0 <= n <= |events| ==> id in Ids(RunFrom(a, events[..n], limit).journal.durable)
  }

  lemma StaysStep(a: Agent, events: seq<Event>, limit: nat, id: CommandId)
    requires events != [] && id in Ids(a.journal.durable)
    ensures Stays(a, events, limit, id) <==> Stays(Next(a, events[0], limit), events[1..], limit, id)
  {
    hide Next, Ids;
    var rest := events[1..];
    var b := Next(a, events[0], limit);
    forall n | 0 <= n <= |rest|
      ensures RunFrom(b, rest[..n], limit) == RunFrom(a, events[..n + 1], limit)
    {
      assert events[..n + 1][0] == events[0] && events[..n + 1][1..] == rest[..n];
    }
    assert RunFrom(a, events[..0], limit) == a;
    if Stays(a, events, limit, id) {
      forall n | 0 <= n <= |rest| ensures id in Ids(RunFrom(b, rest[..n], limit).journal.durable) {
        assert 0 <= n + 1 <= |events|;
        assert id in Ids(RunFrom(a, events[..n + 1], limit).journal.durable);
      }
    }
    if Stays(b, rest, limit, id) {
      forall n | 0 <= n <= |events| ensures id in Ids(RunFrom(a, events[..n], limit).journal.durable) {
        if n > 0 {
          assert 0 <= n - 1 <= |rest|;
          assert RunFrom(b, rest[..n - 1], limit) == RunFrom(a, events[..n - 1 + 1], limit);
        }
      }
    }
  }

  lemma {:induction false} PlaceDecides(a: Agent, events: seq<Event>, limit: nat, id: CommandId, place: nat)
    requires 0 < limit && FileOk(a, limit) && Held(Ids(a.journal.durable), id, place)
    ensures Track(a, events, limit, id, place).Some? <==> Stays(a, events, limit, id)
    ensures
      var after := RunFrom(a, events, limit);
      Track(a, events, limit, id, place).Some? ==>
        Held(Ids(after.journal.durable), id, Track(a, events, limit, id, place).value)
        && multiset(after.executed)[id] == multiset(a.executed)[id]
        && (id in Ids(a.journal.file) ==> id in Ids(after.journal.file))
    decreases |events|
  {
    hide Next, FileOk, Newcomer, Held, Ids, Stays, AtLeast;
    HeldMeansIn(Ids(a.journal.durable), id, place);
    if events == [] {
      NothingLater(a, limit, id);
    } else {
      NextPlace(a, events[0], limit, id, place);
      TrackOne(a, events[0], limit, id, place);
      StaysStep(a, events, limit, id);
      var b := Next(a, events[0], limit);
      if Track(a, [events[0]], limit, id, place).Some? {
        PlaceDecides(b, events[1..], limit, id, Track(a, [events[0]], limit, id, place).value);
      } else {
        GoneAtOnce(b, events[1..], limit, id);
      }
    }
  }

  lemma NothingLater(a: Agent, limit: nat, id: CommandId)
    requires id in Ids(a.journal.durable)
    ensures Stays(a, [], limit, id)
  {
    forall n | 0 <= n <= 0 ensures id in Ids(RunFrom(a, [][..n], limit).journal.durable) {}
  }

  lemma GoneAtOnce(a: Agent, events: seq<Event>, limit: nat, id: CommandId)
    requires id !in Ids(a.journal.durable)
    ensures !Stays(a, events, limit, id)
  {
    assert RunFrom(a, events[..0], limit) == a;
  }

  /** From the moment a consequential command begins, whatever commands, failing disks, crashes and
      restarts follow: it stays in the journal if and only if its place never passes the maximum, and as
      long as it stays it is not executed again, and, if its begin reached the disk, is in the file. */
  lemma RememberedWhileItsPlaceFits(past: seq<Event>, i: nat, disk: bool, later: seq<Event>, limit: nat)
    requires 0 < limit
    ensures
      var a := Run(past, limit);
      var begun := Run(past + [Handle(i, disk)], limit);
      var after := Run(past + [Handle(i, disk)] + later, limit);
      Newcomer(a, Handle(i, disk)).Some? ==>
        var id := Newcomer(a, Handle(i, disk)).value;
        var place := Track(begun, later, limit, id, 1);
        (place.Some? <==> Stays(begun, later, limit, id))
        && (place.Some? ==>
              Held(Ids(after.journal.durable), id, place.value)
              && multiset(after.executed)[id] == multiset(begun.executed)[id]
              && (disk ==> id in Ids(after.journal.file)))
  {
    hide AgentOk, FileOk, Newcomer, RunFrom, Ids, Next, Held, Distinct, Stays, Track;
    var a := Run(past, limit);
    var begun := Run(past + [Handle(i, disk)], limit);
    assert (past + [Handle(i, disk)])[..|past|] == past;
    RunIsOk(past, limit);
    FilesAreSorted(past + [Handle(i, disk)], limit);
    RunAppend(past + [Handle(i, disk)], later, limit);
    if Newcomer(a, Handle(i, disk)).Some? {
      DurableFits(a, limit);
      BegunIsLast(a, i, disk, limit);
      PlaceDecides(begun, later, limit, Newcomer(a, Handle(i, disk)).value, 1);
      if disk { BegunIsOnDisk(a, i, limit); }
    }
  }

  lemma BegunIsOnDisk(a: Agent, i: nat, limit: nat)
    requires 0 < limit && |Ids(a.journal.durable)| <= limit && Newcomer(a, Handle(i, true)).Some?
    ensures Newcomer(a, Handle(i, true)).value in Ids(Next(a, Handle(i, true), limit).journal.file)
  {
    hide Remember, Dropped, Ids, Consequential;
    IdsLength(a.journal.durable);
    LookupUnknown(a.journal, a.waiting[i]);
    RememberIds(a.journal, a.waiting[i], false, limit, true, a.waiting[i].id);
  }

  /** Until a restart the place is a count of newcomers, so a command that began survives exactly
      `limit - 1` of them. */
  lemma {:induction false} WithoutRestartsNewcomersCount(
    a: Agent, events: seq<Event>, limit: nat, id: CommandId, place: nat)
    requires place <= limit && forall e :: e in events ==> !e.Restart?
    ensures Track(a, events, limit, id, place)
      == if place + Newcomers(a, events, limit) <= limit then Some(place + Newcomers(a, events, limit)) else None
    decreases |events|
  {
    hide Next, Newcomer, Ids;
    if events != [] {
      var next := place + if Newcomer(a, events[0]).Some? then 1 else 0;
      if next <= limit {
        WithoutRestartsNewcomersCount(Next(a, events[0], limit), events[1..], limit, id, next);
      }
    }
  }

  // --- runs of workflow commands, seen through the identifiers ---

  function Workflow(id: CommandId): Command {
    Command(id, 0, "windows.workflow.start", 1, "digest")
  }

  function Reported(id: CommandId): Frame {
    Frame(0, id, "windows.workflow.start", 1, "digest", "")
  }

  function Started(id: CommandId): seq<Event> {
    [Receive(Workflow(id), 2), Handle(0, true)]
  }

  /** One command from its arrival to its report, while `before` others run. */
  function Round(id: CommandId, before: nat): seq<Event> {
    Started(id) + [Complete(before, Reported(id), true)]
  }

  /** Nothing waits; `running` runs; the journal knows `durable` and has frames of `terminal`. */
  ghost predicate Shape(
    a: Agent, running: seq<CommandId>, durable: seq<CommandId>, terminal: seq<CommandId>, executed: seq<CommandId>)
  {
    a.waiting == [] && a.cancelBeforeStart == {} && a.tasks == Elements(running)
    && a.running == seq(|running|, k requires 0 <= k < |running| => Workflow(running[k]))
    && Ids(a.journal.durable) == durable && Ids(a.journal.terminal) == terminal && a.executed == executed
  }

  lemma StartShape(
    a: Agent, running: seq<CommandId>, durable: seq<CommandId>, terminal: seq<CommandId>, executed: seq<CommandId>,
    id: CommandId, limit: nat)
    requires Shape(a, running, durable, terminal, executed) && |running| <= 1
    requires id !in durable && id !in terminal && |terminal| <= limit
    ensures
      Shape(RunFrom(a, Started(id), limit), running + [id], TrimmedIds(durable + [id], limit), terminal,
            executed + [id])
  {
    var command := Workflow(id);
    var received := Receiving(a, command, 2);
    FewTasks(running);
    StartKnown(a.journal, id, limit);
    StartUnfolds(a, id, limit);
    ElementsSnoc(running + [id]);
    assert (running + [id])[..|running|] == running;
    hide Lookup, Remember, Ids, Dropped, RunFrom, Elements, TrimmedIds;
    assert received.waiting == [command] && RemoveAt([command], 0) == [];
    assert received == a.(waiting := [command], tasks := a.tasks + {id});
  }

  lemma StartUnfolds(a: Agent, id: CommandId, limit: nat)
    ensures RunFrom(a, Started(id), limit) == Next(Next(a, Receive(Workflow(id), 2), limit), Handle(0, true), limit)
  {
    hide Next;
    var events := Started(id);
    var rest := [Handle(0, true)];
    assert events[1..] == rest && rest[1..] == [];
    assert RunFrom(Next(a, events[0], limit), rest, limit)
      == RunFrom(Next(Next(a, events[0], limit), rest[0], limit), rest[1..], limit);
  }

  /** A command that is in neither part of the journal is unknown, and beginning it appends it. */
  lemma StartKnown(j: Journal, id: CommandId, limit: nat)
    requires id !in Ids(j.durable) && id !in Ids(j.terminal) && |Ids(j.terminal)| <= limit
    ensures Lookup(j, Workflow(id)).Unknown?
    ensures var after := Remember(j, Workflow(id), false, limit, true);
      Ids(after.durable) == TrimmedIds(Ids(j.durable) + [id], limit) && after.terminal == j.terminal
  {
    var record := Record(Workflow(id).name, Workflow(id).digest, false);
    GetFinds(j.durable, id);
    GetFinds(j.terminal, id);
    PutIds(j.durable, id, record);
    TrimIds(Put(j.durable, id, record), limit);
    IdsLength(j.terminal);
    hide Put, SortByKey, Ids, Get;
  }

  lemma FewTasks(running: seq<CommandId>)
    requires |running| <= 1
    ensures |Elements(running)| < 2
  {
    if |running| == 1 {
      assert Elements(running) == {running[0]};
    } else {
      assert Elements(running) == {};
    }
  }

  lemma EndShape(
    a: Agent, running: seq<CommandId>, durable: seq<CommandId>, terminal: seq<CommandId>, executed: seq<CommandId>,
    i: nat, limit: nat)
    requires Shape(a, running, durable, terminal, executed) && i < |running| && Distinct(running)
    ensures
      var id := running[i];
      Shape(RunFrom(a, [Complete(i, Reported(id), true)], limit), RemoveAt(running, i),
            TrimmedIds(PutId(durable, id), limit), TrimmedIds(PutId(terminal, id), limit), executed)
  {
    var id := running[i];
    var command := Workflow(id);
    var e := Complete(i, Reported(id), true);
    assert RunFrom(a, [e], limit) == Next(a, e, limit) by { assert [e][1..] == []; }
    var record := Record(command.name, command.digest, true);
    PutIds(a.journal.durable, id, record);
    PutIds(a.journal.terminal, id, Reported(id));
    TrimIds(Put(a.journal.durable, id, record), limit);
    TrimIds(Put(a.journal.terminal, id, Reported(id)), limit);
    RemovedElements(running, i);
    hide Put, SortByKey, Ids, Dropped, RunFrom, Trimmed, TrimmedIds, PutId;
    assert a.running[i] == command;
  }

  lemma RemovedElements(running: seq<CommandId>, i: nat)
    requires i < |running| && Distinct(running)
    ensures Elements(RemoveAt(running, i)) == Elements(running) - {running[i]}
  {
    forall id ensures id in RemoveAt(running, i) <==> id in running && id != running[i] {
      if id in running && id != running[i] {
        var k :| 0 <= k < |running| && running[k] == id;
        assert RemoveAt(running, i)[if k < i then k else k - 1] == id;
      }
      if id in RemoveAt(running, i) {
        var k :| 0 <= k < |RemoveAt(running, i)| && RemoveAt(running, i)[k] == id;
        assert running[if k < i then k else k + 1] == id;
      }
    }
  }

  lemma FreshShape(limit: nat)
    ensures Shape(Run([], limit), [], [], [], [])
  {}

  // --- a restart reorders the journal ---

  function UpTo(n: nat): seq<CommandId> {
    seq(n, i => i + 1)
  }

  function Rounds(n: nat): seq<Event> {
    if n == 0 then [] else Rounds(n - 1) + Round(n, 0)
  }

  lemma RoundShape(events: seq<Event>, ids: seq<CommandId>, id: CommandId, limit: nat)
    requires Shape(Run(events, limit), [], ids, ids, ids) && id !in ids && |ids| < limit
    ensures Shape(Run(events + Round(id, 0), limit), [], ids + [id], ids + [id], ids + [id])
  {
    var a := Run(events, limit);
    var e := Complete(0, Reported(id), true);
    hide Shape, Run, RunFrom, Distinct;
    StartShape(a, [], ids, ids, ids, id, limit);
    assert [] + [id] == [id] && TrimmedIds(ids + [id], limit) == ids + [id];
    OneIsDistinct(id);
    EndShape(RunFrom(a, Started(id), limit), [id], ids + [id], ids, ids + [id], 0, limit);
    assert RemoveAt([id], 0) == [];
    RunFromAppend(a, Started(id), [e], limit);
    RunAppend(events, Round(id, 0), limit);
  }

  lemma OneIsDistinct(id: CommandId)
    ensures Distinct([id])
  {}

  lemma {:induction false} RoundsShape(n: nat, limit: nat)
    requires n < limit
    ensures Shape(Run(Rounds(n), limit), [], UpTo(n), UpTo(n), UpTo(n))
  {
    hide Shape, Run;
    if n == 0 {
      FreshShape(limit);
    } else {
      RoundsShape(n - 1, limit);
      RoundShape(Rounds(n - 1), UpTo(n - 1), n, limit);
      assert UpTo(n) == UpTo(n - 1) + [n];
    }
  }

  /** Commands 1, ..., limit - 1 and then 0 are executed, the satellite restarts, command `limit`
      begins, and command 0 is delivered again. */
  function Repeating(limit: nat): seq<Event>
    requires limit >= 2
  {
    (Rounds(limit - 1) + Round(0, 0)) + ([Restart] + (Started(limit) + Started(0)))
  }

  /** Across a restart the promise of `limit` later commands fails: the file is sorted by
      identifier, so the next newcomer evicts the smallest one, even if it began last, and that
      command is executed a second time. */
  lemma RestartForgetsTheNewest(limit: nat)
    requires limit >= 2
    ensures multiset(Run(Repeating(limit), limit).executed)[0] == 2
  {
    hide Shape, Run, RunFrom, Next;
    var before := Rounds(limit - 1) + Round(0, 0);
    var ids := UpTo(limit - 1) + [0];
    RoundsShape(limit - 1, limit);
    RoundShape(Rounds(limit - 1), UpTo(limit - 1), 0, limit);
    var a := Run(before, limit);
    RunAppend(before, [Restart] + (Started(limit) + Started(0)), limit);
    RunFromAppend(a, [Restart], Started(limit) + Started(0), limit);
    var restarted := RunFrom(a, [Restart], limit);
    FileIsSorted(limit);
    var sorted := RestartShape(a, ids, limit);
    RunFromAppend(restarted, Started(limit), Started(0), limit);
    LimitIsNew(sorted, ids, limit);
    StartShape(restarted, [], sorted, [], ids, limit, limit);
    OnlyHead(sorted, ids, limit);
    assert [] + [limit] == [limit] && TrimmedIds(sorted + [limit], limit) == sorted[1..] + [limit];
    var evicting := RunFrom(restarted, Started(limit), limit);
    StartShape(evicting, [limit], sorted[1..] + [limit], [], ids + [limit], 0, limit);
    ExecutedTwice(RunFrom(evicting, Started(0), limit), [limit] + [0],
                  TrimmedIds(sorted[1..] + [limit] + [0], limit), ids, limit);
  }

  lemma ExecutedTwice(a: Agent, running: seq<CommandId>, durable: seq<CommandId>, ids: seq<CommandId>, limit: nat)
    requires limit >= 2 && ids == UpTo(limit - 1) + [0] && Shape(a, running, durable, [], ids + [limit] + [0])
    ensures multiset(a.executed)[0] == 2
  {
    ZeroOnce(limit);
  }

  /** After a restart the smallest identifier comes first. */
  lemma RestartShape(a: Agent, ids: seq<CommandId>, limit: nat) returns (sorted: seq<CommandId>)
    requires limit >= 2 && ids == UpTo(limit - 1) + [0] && Shape(a, [], ids, ids, ids)
    requires a.journal.file == SortByKey(a.journal.durable)
    ensures Shape(RunFrom(a, [Restart], limit), [], sorted, [], ids)
    ensures |sorted| == limit && sorted[0] == 0 && multiset(sorted) == multiset(ids)
  {
    assert [Restart][1..] == [];
    SortIds(a.journal.durable);
    SortRises(a.journal.durable);
    sorted := Ids(SortByKey(a.journal.durable));
    IdsLength(a.journal.durable);
    IdsLength(SortByKey(a.journal.durable));
    assert ids[limit - 1] == 0 && 0 in ids;
    RisingParts(sorted);
    assert 0 in sorted;
  }

  /** After a round the file is the sorted journal. */
  lemma FileIsSorted(limit: nat)
    requires limit >= 2
    ensures var j := Run(Rounds(limit - 1) + Round(0, 0), limit).journal; j.file == SortByKey(j.durable)
  {
    hide Shape, Run, RunFrom, Next, Rounds;
    var events := Rounds(limit - 1) + Started(0);
    var e := Complete(0, Reported(0), true);
    RoundsShape(limit - 1, limit);
    RunAppend(Rounds(limit - 1), Started(0), limit);
    StartShape(Run(Rounds(limit - 1), limit), [], UpTo(limit - 1), UpTo(limit - 1), UpTo(limit - 1), 0, limit);
    assert Rounds(limit - 1) + Round(0, 0) == events + [e];
    RunSnoc(events, e, limit);
    assert [] + [0] == [0];
    RunningIs(Run(events, limit), [0], TrimmedIds(UpTo(limit - 1) + [0], limit), UpTo(limit - 1),
              UpTo(limit - 1) + [0]);
    RunningOne(Run(events, limit), limit);
  }

  lemma RunSnoc(events: seq<Event>, e: Event, limit: nat)
    ensures Run(events + [e], limit) == Next(Run(events, limit), e, limit)
  {
    hide Next;
    assert (events + [e])[..|events|] == events;
  }

  lemma RunningIs(
    a: Agent, running: seq<CommandId>, durable: seq<CommandId>, terminal: seq<CommandId>, executed: seq<CommandId>)
    requires Shape(a, running, durable, terminal, executed)
    ensures |running| == 1 ==> a.running == [Workflow(running[0])]
  {}

  lemma RunningOne(a: Agent, limit: nat)
    requires a.running == [Workflow(0)]
    ensures var j := Next(a, Complete(0, Reported(0), true), limit).journal; j.file == SortByKey(j.durable)
  {}

  lemma LimitIsNew(sorted: seq<CommandId>, ids: seq<CommandId>, limit: nat)
    requires limit >= 2 && ids == UpTo(limit - 1) + [0] && multiset(sorted) == multiset(ids)
    ensures limit !in sorted
  {
    assert limit !in ids && limit !in multiset(ids);
    assert limit !in multiset(sorted);
  }

  lemma OnlyHead(sorted: seq<CommandId>, ids: seq<CommandId>, limit: nat)
    requires limit >= 2 && ids == UpTo(limit - 1) + [0]
    requires |sorted| == limit && sorted[0] == 0 && multiset(sorted) == multiset(ids)
    ensures 0 !in sorted[1..]
  {
    ZeroOnce(limit);
    assert sorted == [0] + sorted[1..];
    assert multiset(sorted)[0] == 1 + multiset(sorted[1..])[0];
  }

  lemma ZeroOnce(limit: nat)
    requires limit >= 2
    ensures multiset(UpTo(limit - 1) + [0])[0] == 1
  {
    assert 0 !in UpTo(limit - 1);
  }

  // --- a late finish takes a place ---

  /** Commands 1, ..., n come and go while command 0 runs. */
  function RoundsBesides(n: nat): seq<Event> {
    if n == 0 then [] else RoundsBesides(n - 1) + Round(n, 1)
  }

  /** Command 0 keeps running while 1, ..., limit come and go, and finishes; then command 1 is delivered
      again. No restart, and limit - 1 commands began after command 1. */
  function LateFinish(limit: nat): seq<Event> {
    Started(0) + (RoundsBesides(limit) + ([Complete(0, Reported(0), true)] + Started(1)))
  }

  lemma RoundBesides(
    a: Agent, running: seq<CommandId>, durable: seq<CommandId>, terminal: seq<CommandId>, executed: seq<CommandId>,
    id: CommandId, limit: nat)
    requires Shape(a, running, durable, terminal, executed) && |running| <= 1 && limit >= 1
    requires id !in running && id !in durable && id !in terminal && |terminal| <= limit
    ensures Shape(RunFrom(a, Round(id, |running|), limit), running, TrimmedIds(durable + [id], limit),
                  TrimmedIds(terminal + [id], limit), executed + [id])
  {
    hide Shape, RunFrom;
    StartShape(a, running, durable, terminal, executed, id, limit);
    var known := TrimmedIds(durable + [id], limit);
    assert known[|known| - 1] == id;
    EndShape(RunFrom(a, Started(id), limit), running + [id], known, terminal, executed + [id], |running|, limit);
    assert RemoveAt(running + [id], |running|) == running;
    RunFromAppend(a, Started(id), [Complete(|running|, Reported(id), true)], limit);
  }

  lemma {:induction false} RoundsBesidesShape(a: Agent, n: nat, limit: nat)
    requires Shape(a, [0], [0], [], [0]) && n < limit
    ensures Shape(RunFrom(a, RoundsBesides(n), limit), [0], [0] + UpTo(n), UpTo(n), [0] + UpTo(n))
  {
    hide Shape, RunFrom;
    if n == 0 {
      NothingRuns(a, limit);
      assert [0] + UpTo(0) == [0] && UpTo(0) == [];
    } else {
      var known, others := [0] + UpTo(n - 1), UpTo(n - 1);
      RoundsBesidesShape(a, n - 1, limit);
      RoundBesides(RunFrom(a, RoundsBesides(n - 1), limit), [0], known, others, known, n, limit);
      RunFromAppend(a, RoundsBesides(n - 1), Round(n, 1), limit);
      assert UpTo(n) == others + [n] && [0] + UpTo(n) == known + [n];
    }
  }

  lemma NothingRuns(a: Agent, limit: nat)
    ensures RunFrom(a, [], limit) == a
  {}

  /** Even without a restart, counting later commands is not enough: a command that was forgotten while
      it ran takes a place again when it finishes. For every maximum, here command 1 is forgotten then,
      and executed a second time, though fewer commands than the maximum began in between. */
  lemma LateFinishForgetsEarly(limit: nat)
    requires limit >= 1
    ensures Run(LateFinish(limit), limit).executed == [0] + UpTo(limit) + [1]
  {
    hide Shape, RunFrom, Next, Run, TrimmedIds, PutId, Distinct, RemoveAt, RoundsBesides;
    var late := [Complete(0, Reported(0), true)];
    var a0 := Run([], limit);
    FreshShape(limit);
    StartShape(a0, [], [], [], [], 0, limit);
    OnlyZero(limit);
    var a1 := RunFrom(a0, Started(0), limit);
    AllBesides(a1, limit);
    var a2 := RunFrom(a1, RoundsBesides(limit), limit);
    OneIsDistinct(0);
    EndShape(a2, [0], UpTo(limit), UpTo(limit), [0] + UpTo(limit), 0, limit);
    OldestLeaves(limit);
    var a3 := RunFrom(a2, late, limit);
    var left := UpTo(limit)[1..] + [0];
    StartShape(a3, [], left, left, [0] + UpTo(limit), 1, limit);
    ExecutedIs(RunFrom(a3, Started(1), limit), [] + [1], TrimmedIds(left + [1], limit), left, [0] + UpTo(limit) + [1]);
    RunFromAppend(a0, Started(0), RoundsBesides(limit) + (late + Started(1)), limit);
    RunFromAppend(a1, RoundsBesides(limit), late + Started(1), limit);
    RunFromAppend(a2, late, Started(1), limit);
    assert [] + LateFinish(limit) == LateFinish(limit);
    RunAppend([], LateFinish(limit), limit);
  }

  lemma OnlyZero(limit: nat)
    requires limit >= 1
    ensures [] + [0] == [0] && TrimmedIds([] + [0], limit) == [0] && RemoveAt<CommandId>([0], 0) == []
  {
    assert [] + [0] == [0];
  }

  /** The last of those rounds evicts command 0. */
  lemma AllBesides(a: Agent, limit: nat)
    requires Shape(a, [0], [0], [], [0]) && limit >= 1
    ensures Shape(RunFrom(a, RoundsBesides(limit), limit), [0], UpTo(limit), UpTo(limit), [0] + UpTo(limit))
  {
    hide Shape, RunFrom;
    var known, others := [0] + UpTo(limit - 1), UpTo(limit - 1);
    RoundsBesidesShape(a, limit - 1, limit);
    RoundBesides(RunFrom(a, RoundsBesides(limit - 1), limit), [0], known, others, known, limit, limit);
    RunFromAppend(a, RoundsBesides(limit - 1), Round(limit, 1), limit);
    assert UpTo(limit) == others + [limit] && [0] + UpTo(limit) == known + [limit];
    assert (known + [limit])[1..] == UpTo(limit);
  }

  /** When command 0 finishes it is new again, and command 1, the oldest, leaves. */
  lemma OldestLeaves(limit: nat)
    requires limit >= 1
    ensures TrimmedIds(PutId(UpTo(limit), 0), limit) == UpTo(limit)[1..] + [0]
    ensures 1 !in UpTo(limit)[1..] + [0] && |UpTo(limit)[1..] + [0]| == limit
  {
    assert 0 !in UpTo(limit);
    assert (UpTo(limit) + [0])[1..] == UpTo(limit)[1..] + [0];
  }

  lemma ExecutedIs(
    a: Agent, running: seq<CommandId>, durable: seq<CommandId>, terminal: seq<CommandId>, executed: seq<CommandId>)
    requires Shape(a, running, durable, terminal, executed)
    ensures a.executed == executed
  {}
}
