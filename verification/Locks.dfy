/** Row locks, the canonical rank in which the services take them, and what that order buys: a
    wait-for graph without cycles, so some transaction can always move. */
module Locks {
  import opened Store

  datatype Lock =
    | DeviceRow(device: DeviceId)
    | RunRow(run: RunId)
    | SessionRow(session: SessionId)
    | CallRow(call: CallId)
    | ApprovalRow(approval: ApprovalId)

  function Rank(lock: Lock): nat {
    match lock
    case DeviceRow(_) => 0
    case RunRow(_) => 1
    case SessionRow(_) => 2
    case CallRow(_) => 3
    case ApprovalRow(_) => 4
  }

  /** Every lock outranks all earlier ones, re-locks of rows already held aside. */
  ghost predicate Ranked(locks: seq<Lock>) {
    forall j :: 0 <= j < |locks| ==>
      locks[j] in locks[..j] || forall i :: 0 <= i < j ==> Rank(locks[i]) < Rank(locks[j])
  }

  /** A ranked sequence of locks, all of rank less than `rank`. */
  ghost predicate Below(locks: seq<Lock>, rank: nat) {
    Ranked(locks) && forall lock :: lock in locks ==> Rank(lock) < rank
  }

  /** `SELECT ... FOR UPDATE`: it locks the row if there is one. */
  function Take(locks: seq<Lock>, present: bool, lock: Lock): (taken: seq<Lock>) {
    if present then locks + [lock] else locks
  }

  lemma TakeInRank(locks: seq<Lock>, present: bool, lock: Lock)
    requires Below(locks, Rank(lock))
    ensures Below(Take(locks, present, lock), Rank(lock) + 1) && Below(Take(locks, present, lock), 5)
  {
    if present {
      Appended(locks, lock);
      assert forall i :: 0 <= i < |locks| ==> locks[i] in locks;
    }
  }

  lemma TakeAgain(locks: seq<Lock>, present: bool, lock: Lock, rank: nat)
    requires Below(locks, rank) && (present ==> lock in locks)
    ensures Below(Take(locks, present, lock), rank)
  {
    if present {
      Appended(locks, lock);
    }
  }

  lemma {:induction false} TakeAllAgain(locks: seq<Lock>, more: seq<Lock>, rank: nat)
    requires Below(locks, rank) && forall lock :: lock in more ==> lock in locks
    ensures Below(locks + more, rank)
    decreases |more|
  {
    if more == [] {
      assert locks + more == locks;
    } else {
      assert locks + more == (locks + [more[0]]) + more[1..];
      TakeAgain(locks, true, more[0], rank);
      TakeAllAgain(locks + [more[0]], more[1..], rank);
    }
  }

  lemma PrefixInRank(locks: seq<Lock>, early: seq<Lock>, rank: nat)
    requires Below(locks, rank) && early <= locks
    ensures Below(early, rank)
  {
    hide Rank;
    forall j | 0 <= j < |early|
      ensures early[j] in early[..j] || forall i :: 0 <= i < j ==> Rank(early[i]) < Rank(early[j])
    {
      assert early[j] == locks[j] && early[..j] == locks[..j];
      assert forall i :: 0 <= i < j ==> early[i] == locks[i];
    }
    forall lock | lock in early ensures lock in locks {}
  }

  lemma Appended(locks: seq<Lock>, lock: Lock)
    requires Ranked(locks)
    requires lock in locks || forall i :: 0 <= i < |locks| ==> Rank(locks[i]) < Rank(lock)
    ensures Ranked(locks + [lock])
  {
    hide Rank;
    var grown := locks + [lock];
    forall j | 0 <= j < |grown|
      ensures grown[j] in grown[..j] || forall i :: 0 <= i < j ==> Rank(grown[i]) < Rank(grown[j])
    {
      if j < |locks| {
        assert grown[j] == locks[j] && grown[..j] == locks[..j];
        assert forall i :: 0 <= i < j ==> grown[i] == locks[i];
      } else {
        assert grown[..j] == locks;
      }
    }
  }

  // --- transactions that wait for each other ---

  /** A transaction takes the locks of its plan one by one and holds them until it ends. */
  datatype Transaction = Transaction(plan: seq<Lock>, taken: nat, ended: bool) {
    predicate Waiting() { !ended && taken < |plan| }

    function Held(): seq<Lock> {
      if ended || taken > |plan| then [] else plan[..taken]
    }

    function Wanted(): Lock
      requires Waiting()
    {
      plan[taken]
    }
  }

  type System = seq<Transaction>

  /** No row is locked by two transactions. */
  ghost predicate Exclusive(s: System) {
    forall t, u, lock :: 0 <= t < |s| && 0 <= u < |s| && t != u && lock in s[t].Held() ==> lock !in s[u].Held()
  }

  /** Transaction `t` wants a row that `u` holds. */
  ghost predicate WaitsFor(s: System, t: nat, u: nat) {
    t < |s| && u < |s| && t != u && s[t].Waiting() && s[t].Wanted() in s[u].Held()
  }

  ghost predicate Blocked(s: System, t: nat) {
    exists u :: WaitsFor(s, t, u)
  }

  /** Take the next lock, or end when there is none left to take. */
  function Advance(s: System, t: nat): System
    requires t < |s|
  {
    if s[t].Waiting() then s[t := s[t].(taken := s[t].taken + 1)] else s[t := s[t].(ended := true)]
  }

  lemma AdvanceKeepsExclusive(s: System, t: nat)
    requires Exclusive(s) && t < |s| && !Blocked(s, t)
    ensures Exclusive(Advance(s, t))
  {
    var after := Advance(s, t);
    if s[t].Waiting() {
      assert after[t].Held() == s[t].Held() + [s[t].Wanted()];
      forall u: nat | u < |s| && u != t ensures s[t].Wanted() !in s[u].Held() {
        assert !WaitsFor(s, t, u);
      }
    }
  }

  ghost predicate AllRanked(s: System) {
    forall t :: 0 <= t < |s| ==> Ranked(s[t].plan)
  }

  /** What a blocked transaction wants outranks everything it holds. */
  lemma WantsHigher(s: System, t: nat, u: nat, lock: Lock)
    requires Exclusive(s) && AllRanked(s) && WaitsFor(s, t, u) && lock in s[t].Held()
    ensures Rank(lock) < Rank(s[t].Wanted())
  {
    hide Rank;
    var plan, taken := s[t].plan, s[t].taken;
    assert plan[taken] !in plan[..taken];
    var i :| 0 <= i < |plan[..taken]| && plan[..taken][i] == lock;
    assert plan[i] == lock && Ranked(plan);
  }

  ghost predicate WaitChain(s: System, ts: seq<nat>) {
    forall i :: 0 <= i < |ts| - 1 ==> WaitsFor(s, ts[i], ts[i + 1])
  }

  /** Along a chain of blocked transactions the wanted rows strictly rise in rank. */
  lemma {:induction false} ChainRises(s: System, ts: seq<nat>, last: nat, blocker: nat)
    requires Exclusive(s) && AllRanked(s) && |ts| >= 1
    requires WaitChain(s, ts + [last]) && WaitsFor(s, last, blocker)
    ensures ts[0] < |s| && s[ts[0]].Waiting()
    ensures Rank(s[ts[0]].Wanted()) < Rank(s[last].Wanted())
  {
    hide Rank, Ranked, Exclusive;
    var chain := ts + [last];
    var n := |ts| - 1;
    assert chain[n] == ts[n] && chain[n + 1] == last;
    assert WaitsFor(s, ts[n], last);
    WantsHigher(s, last, blocker, s[ts[n]].Wanted());
    if n > 0 {
      var shorter := ts[..n] + [ts[n]];
      forall i | 0 <= i < |shorter| - 1 ensures WaitsFor(s, shorter[i], shorter[i + 1]) {
        assert shorter[i] == chain[i] && shorter[i + 1] == chain[i + 1];
      }
      ChainRises(s, ts[..n], ts[n], last);
    }
  }

  /** Transactions that take their locks in rank never wait for each other in a cycle. */
  lemma NoDeadlock(s: System, ts: seq<nat>)
    requires Exclusive(s) && AllRanked(s) && |ts| >= 1
    ensures !WaitChain(s, ts + [ts[0]])
  {
    hide Rank, Ranked, Exclusive;
    var chain := ts + [ts[0]];
    if WaitChain(s, chain) {
      assert WaitsFor(s, chain[0], chain[1]);
      ChainRises(s, ts, ts[0], chain[1]);
    }
  }

  /** As long as some transaction has not ended, one of them can take its next step. */
  lemma SomeoneMoves(s: System, waiting: nat) returns (mover: nat)
    requires Exclusive(s) && AllRanked(s) && waiting < |s| && !s[waiting].ended
    ensures mover < |s| && !s[mover].ended && !Blocked(s, mover)
  {
    hide Ranked, Exclusive;
    mover := waiting;
    while Blocked(s, mover)
      invariant mover < |s| && !s[mover].ended
      decreases if s[mover].Waiting() then 5 - Rank(s[mover].Wanted()) else 0
    {
      var holder: nat :| WaitsFor(s, mover, holder);
      if s[holder].Waiting() {
        if Blocked(s, holder) {
          var v: nat :| WaitsFor(s, holder, v);
          WantsHigher(s, holder, v, s[mover].Wanted());
        } else {
          return holder;
        }
      }
      mover := holder;
    }
  }

  /** Let the transactions named by `schedule` take one step each, in that order; one that is blocked
      waits. */
  ghost function Scheduled(s: System, schedule: seq<nat>): System {
    if schedule == [] then s
    else
      var before, t := Scheduled(s, schedule[..|schedule| - 1]), schedule[|schedule| - 1];
      if t < |before| && !Blocked(before, t) then Advance(before, t) else before
  }

  function Begun(plans: seq<seq<Lock>>): System {
    seq(|plans|, i requires 0 <= i < |plans| => Transaction(plans[i], 0, false))
  }

  lemma {:induction false} ScheduleKeeps(plans: seq<seq<Lock>>, schedule: seq<nat>)
    requires forall plan :: plan in plans ==> Ranked(plan)
    ensures var s := Scheduled(Begun(plans), schedule); Exclusive(s) && AllRanked(s)
  {
    hide Ranked, Blocked;
    if schedule == [] {
      forall t | 0 <= t < |plans| ensures Ranked(Begun(plans)[t].plan) { assert plans[t] in plans; }
    } else {
      ScheduleKeeps(plans, schedule[..|schedule| - 1]);
      var before, t := Scheduled(Begun(plans), schedule[..|schedule| - 1]), schedule[|schedule| - 1];
      if t < |before| && !Blocked(before, t) { AdvanceKeepsExclusive(before, t); }
    }
  }

  /** Any number of transactions with ranked plans, run from their start in any interleaving, never
      come to wait for each other in a cycle. */
  lemma RankedPlansNeverDeadlock(plans: seq<seq<Lock>>, schedule: seq<nat>, ts: seq<nat>)
    requires (forall plan :: plan in plans ==> Ranked(plan)) && |ts| >= 1
    ensures !WaitChain(Scheduled(Begun(plans), schedule), ts + [ts[0]])
  {
    hide Ranked, WaitChain, Exclusive, AllRanked;
    ScheduleKeeps(plans, schedule);
    NoDeadlock(Scheduled(Begun(plans), schedule), ts);
  }

  // --- the steps outside the order ---

  /** One more turn of a schedule between two transactions: the next lock is free, so it is taken. */
  lemma NextLockIsFree(start: System, schedule: seq<nat>, t: nat, more: seq<nat>)
    requires var s := Scheduled(start, schedule);
      |s| == 2 && t < 2 && s[t].Waiting() && s[t].Wanted() !in s[1 - t].Held()
    requires more == schedule + [t]
    ensures Scheduled(start, more) == Advance(Scheduled(start, schedule), t)
  {
    assert more[..|more| - 1] == schedule;
    var s := Scheduled(start, schedule);
    forall u: nat ensures !WaitsFor(s, t, u) {}
  }

  /** Two transactions that have taken some locks each. */
  function Two(one: seq<Lock>, i: nat, other: seq<Lock>, j: nat): System {
    [Transaction(one, i, false), Transaction(other, j, false)]
  }

  /** From their start, the first of two transactions takes `i` locks and then the second takes `j`, as
      long as nobody wants what the other holds. */
  lemma {:induction false} InTurn(one: seq<Lock>, i: nat, other: seq<Lock>, j: nat) returns (schedule: seq<nat>)
    requires i <= |one| && j <= |other| && forall lock :: lock in other[..j] ==> lock !in one[..i]
    ensures Scheduled(Begun([one, other]), schedule) == Two(one, i, other, j)
    decreases i + j
  {
    if j > 0 {
      assert other[..j - 1] <= other[..j] && other[j - 1] in other[..j];
      forall lock | lock in other[..j - 1] ensures lock !in one[..i] {
        assert lock in other[..j];
      }
      var earlier := InTurn(one, i, other, j - 1);
      schedule := earlier + [1];
      NextLockIsFree(Begun([one, other]), earlier, 1, schedule);
    } else if i > 0 {
      var earlier := InTurn(one, i - 1, other, 0);
      schedule := earlier + [0];
      NextLockIsFree(Begun([one, other]), earlier, 0, schedule);
    } else {
      schedule := [];
    }
  }

  /** Each holds what the other wants next. */
  ghost predicate Stuck(s: System) {
    Exclusive(s) && WaitsFor(s, 0, 1) && WaitsFor(s, 1, 0)
  }

  /** No schedule gets two such transactions any further. */
  lemma {:induction false} StuckForGood(s: System, schedule: seq<nat>)
    requires |s| == 2 && Stuck(s)
    ensures Scheduled(s, schedule) == s
  {
    hide Exclusive;
    if schedule != [] {
      StuckForGood(s, schedule[..|schedule| - 1]);
      assert Blocked(s, 0) && Blocked(s, 1);
    }
  }
}
