/** The satellite's replay journal: insertion-ordered dictionaries trimmed from the front, a file
    that is rewritten with sorted keys, and what a command's identifier is remembered for. */
module Journals {
  import opened Prelude

  /** Identifiers are ordered as their text is, which is the order the file is sorted by. */
  type CommandId = nat

  const CONSEQUENTIAL_TOOLS := {"windows.workflow.start"}

  datatype Command = Command(id: CommandId, session: nat, name: string, version: nat, digest: string)

  datatype Frame = Frame(session: nat, id: CommandId, name: string, version: nat, digest: string, failure: string)

  datatype Record = Record(name: string, digest: string, finished: bool)

  predicate Consequential(command: Command) {
    command.name in CONSEQUENTIAL_TOOLS
  }

  // --- insertion-ordered dictionaries ---

  type Dict<V> = seq<(CommandId, V)>

  function Get<V>(d: Dict<V>, id: CommandId): Option<V> {
    if d == [] then None
    else if d[0].0 == id then Some(d[0].1)
    else Get(d[1..], id)
  }

  /** Assignment: a known key keeps its place, a new one goes to the end. */
  function Put<V>(d: Dict<V>, id: CommandId, value: V): Dict<V> {
    if d == [] then [(id, value)]
    else if d[0].0 == id then [(id, value)] + d[1..]
    else [d[0]] + Put(d[1..], id, value)
  }

  /** What popping from the front until at most `limit` entries are left leaves. */
  function Trimmed<V>(d: Dict<V>, limit: nat): Dict<V> {
    if |d| <= limit then d else d[|d| - limit..]
  }

  function Insert<V>(sorted: Dict<V>, entry: (CommandId, V)): Dict<V> {
    if sorted == [] || entry.0 < sorted[0].0 then [entry] + sorted
    else [sorted[0]] + Insert(sorted[1..], entry)
  }

  function SortByKey<V>(d: Dict<V>): Dict<V> {
    if d == [] then [] else Insert(SortByKey(d[..|d| - 1]), d[|d| - 1])
  }

  /** The keys in order; everything about residence in a journal is a statement about them. */
  function Ids<V>(d: Dict<V>): seq<CommandId> {
    seq(|d|, i requires 0 <= i < |d| => d[i].0)
  }

  function PutId(ids: seq<CommandId>, id: CommandId): seq<CommandId> {
    if id in ids then ids else ids + [id]
  }

  function TrimmedIds(ids: seq<CommandId>, limit: nat): seq<CommandId> {
    if |ids| <= limit then ids else ids[|ids| - limit..]
  }

  ghost predicate Distinct(ids: seq<CommandId>) {
    forall i, j :: 0 <= i < j < |ids| ==> ids[i] != ids[j]
  }

  lemma {:induction false} GetFinds<V>(d: Dict<V>, id: CommandId)
    ensures Get(d, id).Some? <==> id in Ids(d)
    ensures Get(d, id).Some? ==> (id, Get(d, id).value) in d
  {
    if d != [] {
      GetFinds(d[1..], id);
      assert Ids(d) == [d[0].0] + Ids(d[1..]);
      assert d == [d[0]] + d[1..];
    }
  }

  lemma {:induction false} PutIds<V>(d: Dict<V>, id: CommandId, value: V)
    ensures Ids(Put(d, id, value)) == PutId(Ids(d), id)
    ensures forall entry :: entry in Put(d, id, value) ==> entry in d || entry == (id, value)
  {
    if d != [] {
      var rest := Put(d[1..], id, value);
      PutIds(d[1..], id, value);
      assert Ids(d) == [d[0].0] + Ids(d[1..]);
      if d[0].0 == id {
        assert Ids([(id, value)] + d[1..]) == Ids(d);
      } else {
        assert Ids([d[0]] + rest) == [d[0].0] + Ids(rest);
        assert [d[0].0] + (Ids(d[1..]) + [id]) == Ids(d) + [id];
      }
    }
  }

  lemma TrimIds<V>(d: Dict<V>, limit: nat)
    ensures Ids(Trimmed(d, limit)) == TrimmedIds(Ids(d), limit)
    ensures forall entry :: entry in Trimmed(d, limit) ==> entry in d
  {}

  lemma {:induction false} InsertKeeps<V>(sorted: Dict<V>, entry: (CommandId, V))
    ensures multiset(Insert(sorted, entry)) == multiset(sorted) + multiset{entry}
    ensures |Insert(sorted, entry)| == |sorted| + 1
  {
    if sorted != [] && !(entry.0 < sorted[0].0) {
      InsertKeeps(sorted[1..], entry);
      assert sorted == [sorted[0]] + sorted[1..];
    }
  }

  lemma {:induction false} SortKeeps<V>(d: Dict<V>)
    ensures multiset(SortByKey(d)) == multiset(d) && |SortByKey(d)| == |d|
  {
    if d != [] {
      SortKeeps(d[..|d| - 1]);
      InsertKeeps(SortByKey(d[..|d| - 1]), d[|d| - 1]);
      assert d == d[..|d| - 1] + [d[|d| - 1]];
    }
  }

  lemma {:induction false} IdsCount<V>(d: Dict<V>, id: CommandId)
    ensures id in Ids(d) <==> exists entry :: entry in d && entry.0 == id
  {
    if id in Ids(d) {
      var i :| 0 <= i < |d| && Ids(d)[i] == id;
      assert d[i] in d;
    }
    if entry :| entry in d && entry.0 == id {
      var i :| 0 <= i < |d| && d[i] == entry;
      assert Ids(d)[i] == id;
    }
  }

  lemma SameElements<T>(s: seq<T>, t: seq<T>)
    requires multiset(s) == multiset(t)
    ensures forall x :: x in s <==> x in t
  {
    forall x ensures x in s <==> x in t {
      assert x in s <==> x in multiset(s);
      assert x in t <==> x in multiset(t);
    }
  }

  /** Sorting keeps what a dictionary knows. */
  lemma SortIds<V>(d: Dict<V>)
    ensures forall id :: id in Ids(SortByKey(d)) <==> id in Ids(d)
    ensures forall entry :: entry in SortByKey(d) <==> entry in d
    ensures |SortByKey(d)| == |d|
  {
    SortKeeps(d);
    SameElements(SortByKey(d), d);
    forall id ensures id in Ids(SortByKey(d)) <==> id in Ids(d) {
      IdsCount(d, id);
      IdsCount(SortByKey(d), id);
      if id in Ids(d) {
        var entry :| entry in d && entry.0 == id;
        assert entry in SortByKey(d);
      }
      if id in Ids(SortByKey(d)) {
        var entry :| entry in SortByKey(d) && entry.0 == id;
        assert entry in d;
      }
    }
  }

  ghost predicate Rising(ids: seq<CommandId>) {
    forall i, j :: 0 <= i < j < |ids| ==> ids[i] <= ids[j]
  }

  lemma RisingParts(ids: seq<CommandId>)
    requires Rising(ids) && ids != []
    ensures Rising(ids[1..]) && forall id :: id in ids ==> ids[0] <= id
  {}

  lemma RisingCons(first: CommandId, ids: seq<CommandId>)
    requires Rising(ids) && forall id :: id in ids ==> first <= id
    ensures Rising([first] + ids)
  {
    forall i | 0 <= i < |ids| ensures first <= ids[i] { assert ids[i] in ids; }
  }

  lemma {:induction false} InsertIds<V>(sorted: Dict<V>, entry: (CommandId, V))
    ensures multiset(Ids(Insert(sorted, entry))) == multiset(Ids(sorted)) + multiset{entry.0}
  {
    if sorted == [] || entry.0 < sorted[0].0 {
      assert Ids([entry] + sorted) == [entry.0] + Ids(sorted);
    } else {
      InsertIds(sorted[1..], entry);
      assert Ids(sorted) == [sorted[0].0] + Ids(sorted[1..]);
      assert Ids([sorted[0]] + Insert(sorted[1..], entry)) == [sorted[0].0] + Ids(Insert(sorted[1..], entry));
    }
  }

  lemma {:induction false} InsertRises<V>(sorted: Dict<V>, entry: (CommandId, V))
    requires Rising(Ids(sorted))
    ensures Rising(Ids(Insert(sorted, entry)))
  {
    hide Rising;
    if sorted == [] {
      RisingOne(entry.0);
      assert Ids([entry] + sorted) == [entry.0];
    } else {
      var ids := Ids(sorted);
      assert ids == [sorted[0].0] + Ids(sorted[1..]) && ids[1..] == Ids(sorted[1..]);
      RisingParts(ids);
      if entry.0 < sorted[0].0 {
        RisingCons(entry.0, ids);
        assert Ids([entry] + sorted) == [entry.0] + ids;
      } else {
        var rest := Insert(sorted[1..], entry);
        InsertRises(sorted[1..], entry);
        InsertIds(sorted[1..], entry);
        forall id | id in Ids(rest) ensures sorted[0].0 <= id {
          assert id in multiset(Ids(rest));
          assert id == entry.0 || id in multiset(Ids(sorted[1..]));
          if id != entry.0 {
            assert id in Ids(sorted[1..]);
            assert id in ids[1..] && id in ids;
          }
        }
        RisingCons(sorted[0].0, Ids(rest));
        assert Ids([sorted[0]] + rest) == [sorted[0].0] + Ids(rest);
      }
    }
  }

  lemma RisingOne(id: CommandId)
    ensures Rising([id])
  {}

  /** The file holds the same identifiers, smallest first. */
  lemma {:induction false} SortRises<V>(d: Dict<V>)
    ensures Rising(Ids(SortByKey(d))) && multiset(Ids(SortByKey(d))) == multiset(Ids(d))
  {
    if d != [] {
      var n := |d| - 1;
      SortRises(d[..n]);
      InsertIds(SortByKey(d[..n]), d[n]);
      InsertRises(SortByKey(d[..n]), d[n]);
      assert Ids(d) == Ids(d[..n]) + [d[n].0];
    }
  }

  lemma {:induction false} DistinctCounts(ids: seq<CommandId>, id: CommandId)
    requires Distinct(ids)
    ensures multiset(ids)[id] <= 1
  {
    if ids != [] {
      var n := |ids| - 1;
      assert ids == ids[..n] + [ids[n]];
      DistinctCounts(ids[..n], id);
      assert ids[n] !in ids[..n];
    }
  }

  lemma CountsDistinct(ids: seq<CommandId>)
    requires forall id :: multiset(ids)[id] <= 1
    ensures Distinct(ids)
  {
    forall i, j | 0 <= i < j < |ids| ensures ids[i] != ids[j] {
      assert ids == ids[..j] + [ids[j]] + ids[j + 1..];
      assert multiset(ids)[ids[j]] >= multiset(ids[..j])[ids[j]] + 1;
      assert ids[i] in ids[..j];
    }
  }

  // --- the exact law of residence ---

  /** Assign new keys one after another, trimming each time. */
  function PutAll(ids: seq<CommandId>, more: seq<CommandId>, limit: nat): seq<CommandId> {
    if more == [] then ids
    else TrimmedIds(PutId(PutAll(ids, more[..|more| - 1], limit), more[|more| - 1]), limit)
  }

  lemma DistinctSnoc(all: seq<CommandId>, id: CommandId)
    requires Distinct(all + [id])
    ensures Distinct(all) && id !in all
  {
    var longer := all + [id];
    forall i, j | 0 <= i < j < |all| ensures all[i] != all[j] {
      assert longer[i] == all[i] && longer[j] == all[j];
    }
    forall i | 0 <= i < |all| ensures all[i] != id {
      assert longer[i] == all[i] && longer[|all|] == id;
    }
  }

  lemma WindowSlides(all: seq<CommandId>, id: CommandId, limit: nat)
    requires id !in all
    ensures TrimmedIds(PutId(TrimmedIds(all, limit), id), limit) == TrimmedIds(all + [id], limit)
  {
    var window := TrimmedIds(all, limit);
    assert forall i :: 0 <= i < |window| ==> window[i] in all;
    assert PutId(window, id) == window + [id];
  }

  lemma {:induction false} PutAllIsWindow(ids: seq<CommandId>, more: seq<CommandId>, limit: nat)
    requires |ids| <= limit && Distinct(ids + more)
    ensures PutAll(ids, more, limit) == TrimmedIds(ids + more, limit)
  {
    hide Distinct, PutId;
    if more == [] {
      assert ids + more == ids;
    } else {
      var n := |more| - 1;
      assert ids + more == (ids + more[..n]) + [more[n]];
      DistinctSnoc(ids + more[..n], more[n]);
      PutAllIsWindow(ids, more[..n], limit);
      hide TrimmedIds;
      WindowSlides(ids + more[..n], more[n], limit);
    }
  }

  lemma SuffixHolds(all: seq<CommandId>, dropped: nat, place: nat)
    requires Distinct(all) && place < |all| && dropped <= |all|
    ensures all[place] in all[dropped..] <==> dropped <= place
  {
    if dropped <= place {
      assert all[dropped..][place - dropped] == all[place];
    } else {
      forall i | dropped <= i < |all| ensures all[i] != all[place] {}
    }
  }

  /** A remembered identifier survives `|more|` new ones exactly when its place in the dictionary
      is not among the first that overflow; a freshly assigned one, at the end, therefore survives
      exactly `limit - 1` of them. */
  lemma SurvivesExactly(ids: seq<CommandId>, more: seq<CommandId>, limit: nat, place: nat)
    requires place < |ids| <= limit && Distinct(ids + more)
    ensures ids[place] in PutAll(ids, more, limit) <==> |ids| + |more| - limit <= place
    ensures place == |ids| - 1 ==> (ids[place] in PutAll(ids, more, limit) <==> |more| < limit)
  {
    PutAllIsWindow(ids, more, limit);
    var all := ids + more;
    assert all[place] == ids[place];
    SuffixHolds(all, if |all| <= limit then 0 else |all| - limit, place);
    hide Distinct, PutAll;
    assert all[0..] == all;
  }

  // --- the journal ---

  datatype Journal = Journal(durable: Dict<Record>, terminal: Dict<Frame>, file: Dict<Record>)

  datatype Answer = Cached(frame: Frame) | Uncertain | Unknown | Conflict

  function Lookup(j: Journal, command: Command): Answer {
    var terminal := Get(j.terminal, command.id);
    if terminal.Some? then
      var frame := terminal.value;
      if frame.name != command.name || frame.version != command.version || frame.digest != command.digest then
        Conflict
      else Cached(frame.(session := command.session))
    else
      var record := Get(j.durable, command.id);
      if record.None? then Unknown
      else if record.value.name != command.name || record.value.digest != command.digest then Conflict
      else if Consequential(command) then Uncertain
      else Unknown
  }

  /** Write a consequential command's record, trim, and persist unless the disk fails. */
  function Remember(j: Journal, command: Command, finished: bool, limit: nat, disk: bool): Journal {
    var durable := Trimmed(Put(j.durable, command.id, Record(command.name, command.digest, finished)), limit);
    Journal(durable, Trimmed(j.terminal, limit), if disk then SortByKey(durable) else j.file)
  }

  function Begin(j: Journal, command: Command, limit: nat, disk: bool): Journal {
    if Consequential(command) then Remember(j, command, false, limit, disk) else j
  }

  function Finish(j: Journal, command: Command, frame: Frame, limit: nat, disk: bool): Journal {
    var kept := j.(terminal := Put(j.terminal, command.id, frame));
    if Consequential(command) then Remember(kept, command, true, limit, disk) else kept
  }

  function Restarted(j: Journal): Journal {
    Journal(j.file, [], j.file)
  }

  // --- what the answers mean ---

  /** Looking `id` up in the dictionary finds `value`: the first entry with that key decides. */
  ghost predicate Holds<V(!new)>(d: Dict<V>, id: CommandId, value: V) {
    exists i :: 0 <= i < |d| && d[i] == (id, value) && forall k :: 0 <= k < i ==> d[k].0 != id
  }

  lemma {:induction false} GetLaw<V(!new)>(d: Dict<V>, id: CommandId)
    ensures
      match Get(d, id)
      case None => forall value :: !Holds(d, id, value)
      case Some(found) => forall value :: Holds(d, id, value) <==> value == found
  {
    if d != [] {
      GetLaw(d[1..], id);
      forall value ensures Holds(d, id, value) <==> if d[0].0 == id then d[0].1 == value else Holds(d[1..], id, value) {
        if d[0].0 != id && Holds(d, id, value) {
          var i :| 0 <= i < |d| && d[i] == (id, value) && forall k :: 0 <= k < i ==> d[k].0 != id;
          assert d[1..][i - 1] == (id, value) && forall k :: 0 <= k < i - 1 ==> d[1..][k].0 != id;
        }
        if d[0].0 != id && Holds(d[1..], id, value) {
          var i :| 0 <= i < |d[1..]| && d[1..][i] == (id, value) && forall k :: 0 <= k < i ==> d[1..][k].0 != id;
          assert d[i + 1] == (id, value) && forall k :: 0 <= k < i + 1 ==> d[k].0 != id;
        }
        if d[0].0 == id && d[0].1 == value { assert d[0] == (id, value); }
      }
    }
  }

  /** The same invocation of a tool. */
  ghost predicate SameInvocation(frame: Frame, command: Command) {
    (frame.name, frame.version, frame.digest) == (command.name, command.version, command.digest)
  }

  /** A command that finished is answered with its frame, under the session that asks, if it is the same
      invocation, and refused otherwise; one that only began is refused if its name or digest differs and
      its outcome is uncertain if it is consequential; everything else is unknown. */
  lemma LookupLaw(j: Journal, command: Command)
    ensures
      var answer := Lookup(j, command);
      var finished := exists frame :: Holds(j.terminal, command.id, frame);
      (forall frame ::
         Holds(j.terminal, command.id, frame) ==>
           answer == if SameInvocation(frame, command)
                     then Cached(Frame(command.session, frame.id, frame.name, frame.version, frame.digest, frame.failure))
                     else Conflict)
      && (forall record ::
            !finished && Holds(j.durable, command.id, record) ==>
              answer == if (record.name, record.digest) != (command.name, command.digest) then Conflict
                        else if command.name == "windows.workflow.start" then Uncertain
                        else Unknown)
      && (!finished && (forall record :: !Holds(j.durable, command.id, record)) ==> answer == Unknown)
  {
    GetLaw(j.terminal, command.id);
    GetLaw(j.durable, command.id);
    hide Get, Holds;
    match Get(j.terminal, command.id) {
      case Some(frame) => assert Holds(j.terminal, command.id, frame);
      case None =>
    }
    match Get(j.durable, command.id) {
      case Some(record) => assert Holds(j.durable, command.id, record);
      case None =>
    }
  }

  lemma {:induction false} PutIsRead<V>(d: Dict<V>, id: CommandId, value: V)
    ensures Get(Put(d, id, value), id) == Some(value)
  {
    if d != [] && d[0].0 != id {
      PutIsRead(d[1..], id, value);
      assert ([d[0]] + Put(d[1..], id, value))[1..] == Put(d[1..], id, value);
    }
  }

  /** A new key survives trimming to at least one entry. */
  lemma NewIsRead<V>(d: Dict<V>, id: CommandId, value: V, limit: nat)
    requires 0 < limit && (id !in Ids(d) || |d| <= limit)
    ensures Get(Trimmed(Put(d, id, value), limit), id) == Some(value)
  {
    var put := Put(d, id, value);
    PutIsRead(d, id, value);
    PutIds(d, id, value);
    hide Get, Put;
    assert |Ids(put)| == |put| && |Ids(d)| == |d|;
    if |put| > limit {
      var kept := Trimmed(put, limit);
      assert id !in Ids(d) && Ids(put) == Ids(d) + [id];
      assert kept[limit - 1] == put[|put| - 1] && put[|put| - 1].0 == Ids(put)[|put| - 1] == id;
      assert Ids(kept)[limit - 1] == id;
      GetFinds(kept, id);
      assert (id, Get(kept, id).value) in put;
      if (id, Get(kept, id).value) in d {
        IdsCount(d, id);
      }
    }
  }

  /** What finished is replayed: the same invocation, asked again in whatever session, is answered with
      its frame, unless its place in the cache was so old that the finish itself evicted it. */
  lemma FinishedIsReplayed(j: Journal, command: Command, frame: Frame, limit: nat, disk: bool, again: Command)
    requires 0 < limit && (command.id !in Ids(j.terminal) || |j.terminal| <= limit)
    requires again.id == command.id && SameInvocation(frame, again)
    ensures Lookup(Finish(j, command, frame, limit, disk), again)
      == Cached(Frame(again.session, frame.id, frame.name, frame.version, frame.digest, frame.failure))
  {
    PutIsRead(j.terminal, command.id, frame);
    NewIsRead(j.terminal, command.id, frame, limit);
    hide Get, Put, Trimmed, SortByKey;
  }

  class ReplayJournal {
    const maximumRecords: nat
    var durable: Dict<Record>
    var terminal: Dict<Frame>
    var file: Dict<Record>

    function Snapshot(): Journal
      reads this
    {
      Journal(durable, terminal, file)
    }

    /** Open the journal of a satellite that stopped with `file` on disk. */
    constructor (file: Dict<Record>, maximumRecords: nat)
      ensures this.maximumRecords == maximumRecords
      ensures forall j: Journal :: j.file == file ==> Snapshot() == Restarted(j)
    {
      this.maximumRecords := maximumRecords;
      this.durable, this.terminal, this.file := file, [], file;
    }

    method LookupCommand(command: Command) returns (answer: Answer)
      ensures answer == Lookup(Snapshot(), command)
    {
      var frame := Get(terminal, command.id);
      if frame.Some? {
        if frame.value.name != command.name || frame.value.version != command.version
           || frame.value.digest != command.digest {
          return Conflict;
        }
        return Cached(frame.value.(session := command.session));
      }
      var record := Get(durable, command.id);
      if record.None? { return Unknown; }
      if record.value.name != command.name || record.value.digest != command.digest { return Conflict; }
      if Consequential(command) { return Uncertain; }
      return Unknown;
    }

    method BeginCommand(command: Command, disk: bool) returns (ok: bool)
      modifies this
      ensures Snapshot() == Begin(old(Snapshot()), command, maximumRecords, disk)
      ensures ok <==> disk || !Consequential(command)
    {
      if !Consequential(command) { return true; }
      durable := Put(durable, command.id, Record(command.name, command.digest, false));
      Trim();
      ok := Persist(disk);
    }

    method FinishCommand(command: Command, frame: Frame, disk: bool) returns (ok: bool)
      modifies this
      ensures Snapshot() == Finish(old(Snapshot()), command, frame, maximumRecords, disk)
      ensures ok <==> disk || !Consequential(command)
    {
      terminal := Put(terminal, command.id, frame);
      if !Consequential(command) { return true; }
      durable := Put(durable, command.id, Record(command.name, command.digest, true));
      Trim();
      ok := Persist(disk);
    }

    method Trim()
      modifies `durable, `terminal
      ensures durable == Trimmed(old(durable), maximumRecords)
      ensures terminal == Trimmed(old(terminal), maximumRecords)
    {
      while |durable| > maximumRecords
        invariant terminal == old(terminal) && |durable| <= |old(durable)|
        invariant durable == old(durable)[|old(durable)| - |durable|..]
        invariant |durable| >= if |old(durable)| <= maximumRecords then |old(durable)| else maximumRecords
      {
        durable := durable[1..];
      }
      while |terminal| > maximumRecords
        invariant durable == Trimmed(old(durable), maximumRecords) && |terminal| <= |old(terminal)|
        invariant terminal == old(terminal)[|old(terminal)| - |terminal|..]
        invariant |terminal| >= if |old(terminal)| <= maximumRecords then |old(terminal)| else maximumRecords
      {
        terminal := terminal[1..];
      }
    }

    /** Replace the file atomically, its keys sorted; a failing disk leaves the old one. */
    method Persist(disk: bool) returns (ok: bool)
      modifies `file
      ensures ok == disk && file == if disk then SortByKey(durable) else old(file)
    {
      if disk { file := SortByKey(durable); }
      return disk;
    }
  }
}
