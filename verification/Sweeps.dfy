/** The transactions of the tool platform outside the lock order: exactly when the two sweeps take their
    locks in rank, and how the expiry sweep and the recording of an outcome can block, and be blocked by,
    a ranked transaction for good. */
module Sweeps {
  import opened Prelude
  import opened Store
  import opened ToolAuthority
  import opened ToolViews
  import opened Locks
  import opened ToolPlatform

  // --- plans out of rank ---

  /** After a row, a new row of no higher rank breaks the order, wherever it first comes. */
  lemma {:induction false} LaterAndLower(first: seq<Lock>, second: seq<Lock>, high: Lock, low: Lock)
    requires high in first && low !in first && low in second && Rank(low) <= Rank(high)
    ensures !Ranked(first + second)
    decreases |second|
  {
    hide Rank;
    var all := first + second;
    if second[0] == low {
      var i :| 0 <= i < |first| && first[i] == high;
      assert all[|first|] == low && all[..|first|] == first && all[i] == high;
    } else {
      assert low in second[1..];
      assert all == (first + [second[0]]) + second[1..];
      LaterAndLower(first + [second[0]], second[1..], high, low);
    }
  }

  lemma PrefixIsRanked(early: seq<Lock>, locks: seq<Lock>)
    requires Ranked(locks) && early <= locks
    ensures Ranked(early)
  {
    hide Rank;
    forall j | 0 <= j < |early|
      ensures early[j] in early[..j] || forall i :: 0 <= i < j ==> Rank(early[i]) < Rank(early[j])
    {
      assert early[j] == locks[j] && early[..j] == locks[..j];
      assert forall i :: 0 <= i < j ==> early[i] == locks[i];
    }
  }

  // --- the expiry sweep ---

  lemma RowIsRanked(db: Db, aid: ApprovalId, now: Time)
    ensures Ranked(RowLocks(db, aid, now))
  {
    hide Rank, Ranked, ParentLocks, EmitLocks;
    NothingHeld();
    assert Ranked([]) by { BelowIsRanked([], 5); }
    if aid in db.approvals {
      var id := db.approvals[aid].call;
      if id !in db.calls {
        assert Take([], true, ApprovalRow(aid)) == [ApprovalRow(aid)];
        ApprovalInRank([], aid);
      } else {
        var call := db.calls[id];
        var device := Take([], call.device in db.devices, DeviceRow(call.device));
        DeviceInRank(call.device in db.devices, call.device);
        ParentInRank(device, db.runs, db.sessions, call.run);
        var parent := device + ParentLocks(db.runs, db.sessions, call.run);
        CallInRank(parent, id);
        ApprovalInRank(parent + [CallRow(id)], aid);
        var held := parent + [CallRow(id)] + [ApprovalRow(aid)];
        assert forall lock :: lock in ParentLocks(db.runs, db.sessions, call.run) ==> lock in held;
        EmitIsRelock(held, db.runs, db.sessions, call, 5);
        BelowIsRanked(held, 5);
        BelowIsRanked(held + EmitLocks(db.runs, db.sessions, call), 5);
        assert held + [] == held;
      }
    }
  }

  lemma BelowIsRanked(locks: seq<Lock>, rank: nat)
    requires Below(locks, rank)
    ensures Ranked(locks)
  {}

  lemma DeviceInRank(present: bool, device: DeviceId)
    ensures Below(Take([], present, DeviceRow(device)), 1)
  {
    NothingHeld();
    TakeInRank([], present, DeviceRow(device));
  }

  lemma CallInRank(held: seq<Lock>, id: CallId)
    requires Below(held, 3)
    ensures Below(held + [CallRow(id)], 4)
  {
    TakeInRank(held, true, CallRow(id));
  }

  lemma ApprovalInRank(held: seq<Lock>, aid: ApprovalId)
    requires Below(held, 4)
    ensures Below(held + [ApprovalRow(aid)], 5) && Ranked(held + [ApprovalRow(aid)])
  {
    TakeInRank(held, true, ApprovalRow(aid));
  }

  /** What a row of the sweep locks: its call and its approval, the call's run, and no other device or
      call than its own; and the device, if it exists, before anything else. */
  lemma RowFacts(db: Db, aid: ApprovalId, now: Time)
    requires aid in db.approvals && db.approvals[aid].call in db.calls
    ensures
      var id := db.approvals[aid].call;
      var call := db.calls[id];
      var row := RowLocks(db, aid, now);
      CallRow(id) in row && ApprovalRow(aid) in row
      && (call.run.Some? && call.run.value in db.runs ==> RunRow(call.run.value) in row)
      && (call.device in db.devices ==> |row| > 0 && row[0] == DeviceRow(call.device))
      && (forall other :: other != id ==> CallRow(other) !in row)
      && forall device :: device != call.device ==> DeviceRow(device) !in row
  {
    var id := db.approvals[aid].call;
    var call := db.calls[id];
    var device := Take([], call.device in db.devices, DeviceRow(call.device));
    var parent := ParentLocks(db.runs, db.sessions, call.run);
    EmitWithinParent(db.runs, db.sessions, call);
    var emit := if Expirable(db.approvals, aid, now) && call.status == CallStatus.AwaitingApproval
                then EmitLocks(db.runs, db.sessions, call) else [];
    var row := RowLocks(db, aid, now);
    assert row == device + parent + [CallRow(id)] + [ApprovalRow(aid)] + emit;
    assert row[|device| + |parent|] == CallRow(id) && row[|device| + |parent| + 1] == ApprovalRow(aid);
    if call.run.Some? && call.run.value in db.runs {
      assert row[|device|] == RunRow(call.run.value);
    }
    hide Rank, EmitLocks;
  }

  /** Expiring one row changes nothing that decides what the next one locks, but for the state of its
      own call and approval. */
  lemma OtherRowsAreAsBefore(db: Db, aid: ApprovalId, other: ApprovalId, now: Time)
    requires ApprovalsLinked(db.calls, db.approvals) && aid in db.approvals && other in db.approvals && aid != other
    ensures RowLocks(ExpireOne(db, aid, now), other, now) == RowLocks(db, other, now)
    ensures db.approvals[aid].call != db.approvals[other].call
  {
    hide Transition, EmitLocks, ParentLocks;
  }

  lemma {:induction false} SweepPrefix(db: Db, ids: seq<ApprovalId>, n: nat, now: Time)
    requires n <= |ids|
    ensures SweepLocks(db, ids[..n], now) <= SweepLocks(db, ids, now)
    decreases |ids|
  {
    hide RowLocks, ExpireAll;
    if n == |ids| {
      assert ids[..n] == ids;
    } else {
      var m := |ids| - 1;
      assert ids[..m][..n] == ids[..n];
      SweepPrefix(db, ids[..m], n, now);
    }
  }

  /** The first two rows of the sweep, one after the other. */
  lemma FirstTwoRows(db: Db, ids: seq<ApprovalId>, now: Time)
    requires ApprovalsLinked(db.calls, db.approvals) && ExpiryCandidates(db, now, ids) && |ids| >= 2
    ensures RowLocks(db, ids[0], now) + RowLocks(db, ids[1], now) <= SweepLocks(db, ids, now)
    ensures ids[0] in db.approvals && ids[1] in db.approvals && db.approvals[ids[0]].call != db.approvals[ids[1]].call
    ensures db.approvals[ids[0]].call in db.calls && db.approvals[ids[1]].call in db.calls
  {
    hide RowLocks, ExpireOne;
    assert ids[0] in ids && ids[1] in ids;
    OtherRowsAreAsBefore(db, ids[0], ids[1], now);
    var two, one := ids[..2], ids[..1];
    assert two[..1] == one && one[..0] == [] && two[1] == ids[1] && one[0] == ids[0];
    assert ExpireAll(db, one, now) == ExpireOne(db, ids[0], now);
    assert SweepLocks(db, one, now) == RowLocks(db, ids[0], now) by {
      assert [] + RowLocks(db, ids[0], now) == RowLocks(db, ids[0], now);
    }
    SweepPrefix(db, ids, 2, now);
  }

  /** The expiry sweep takes its locks in rank if and only if its query returns at most one row. */
  lemma SweepIsRankedExactly(db: Db, ids: seq<ApprovalId>, now: Time)
    requires ApprovalsLinked(db.calls, db.approvals) && ExpiryCandidates(db, now, ids)
    ensures Ranked(SweepLocks(db, ids, now)) <==> |ids| <= 1
  {
    hide RowLocks, Ranked, Rank, ApprovalsLinked;
    if |ids| <= 1 {
      BelowIsRanked([], 5) by { NothingHeld(); }
      if |ids| == 1 {
        RowIsRanked(db, ids[0], now);
        assert ids[..0] == [];
        assert [] + RowLocks(db, ids[0], now) == RowLocks(db, ids[0], now);
      }
    } else {
      FirstTwoRows(db, ids, now);
      RowFacts(db, ids[0], now);
      RowFacts(db, ids[1], now);
      var first, second := RowLocks(db, ids[0], now), RowLocks(db, ids[1], now);
      CallsAreBelowApprovals(ids[0], db.approvals[ids[1]].call);
      LaterAndLower(first, second, ApprovalRow(ids[0]), CallRow(db.approvals[ids[1]].call));
      if Ranked(SweepLocks(db, ids, now)) {
        PrefixIsRanked(first + second, SweepLocks(db, ids, now));
      }
    }
  }

  lemma CallsAreBelowApprovals(aid: ApprovalId, id: CallId)
    ensures Rank(CallRow(id)) < Rank(ApprovalRow(aid))
  {}

  // --- the reconciliation sweep ---

  lemma {:induction false} NothingEmitted(db: Db, ids: seq<CallId>)
    ensures (EmitAll(db, ids) == []) <==>
      forall i :: 0 <= i < |ids| && ids[i] in db.calls ==> EmitLocks(db.runs, db.sessions, db.calls[ids[i]]) == []
    ensures forall lock :: lock in EmitAll(db, ids) ==> lock.SessionRow?
  {
    if ids != [] {
      var n := |ids| - 1;
      NothingEmitted(db, ids[..n]);
      assert forall i :: 0 <= i < n ==> ids[..n][i] == ids[i];
      hide EmitLocks;
      SessionsOnly(db, ids[n]);
    }
  }

  lemma SessionsOnly(db: Db, id: CallId)
    ensures id in db.calls ==> forall lock :: lock in EmitLocks(db.runs, db.sessions, db.calls[id]) ==> lock.SessionRow?
  {}

  /** The reconciliation sweep takes its locks in rank if and only if its query returns nothing, or one
      call without a session to project into. */
  lemma ReconcileIsRankedExactly(db: Db, ids: seq<CallId>)
    requires StaleCalls(db, ids)
    ensures Ranked(ReconcileLocks(db, ids))
      <==> ids == [] || (|ids| == 1 && EmitLocks(db.runs, db.sessions, db.calls[ids[0]]) == [])
  {
    hide Ranked, Rank, EmitLocks, EmitAll;
    NothingEmitted(db, ids);
    var rows, emits := CallRows(ids), EmitAll(db, ids);
    if ids == [] {
      assert rows + emits == [];
      BelowIsRanked([], 5) by { NothingHeld(); }
    } else {
      assert ids[0] in ids;
      assert rows[0] == CallRow(ids[0]) && rows[0] in rows;
      if |ids| >= 2 {
        assert ids[0] != ids[1];
        assert rows + emits == [rows[0]] + (rows[1..] + emits);
        assert rows[1] == CallRow(ids[1]) && (rows[1..] + emits)[0] == rows[1];
        CallsAreEqual(ids[0], ids[1]);
        LaterAndLower([rows[0]], rows[1..] + emits, rows[0], rows[1]);
      } else if emits != [] {
        assert rows == [CallRow(ids[0])];
        assert emits[0] in emits;
        SessionsAreBelowCalls(emits[0], ids[0]);
        LaterAndLower(rows, emits, rows[0], emits[0]);
      } else {
        assert rows + emits == [CallRow(ids[0])];
        CallInRank([], ids[0]) by { NothingHeld(); BelowMore(); }
        assert [] + [CallRow(ids[0])] == [CallRow(ids[0])];
        BelowIsRanked([CallRow(ids[0])], 4);
      }
    }
  }

  lemma BelowMore()
    ensures Below([], 3)
  {}

  lemma CallsAreEqual(id: CallId, other: CallId)
    ensures Rank(CallRow(id)) == Rank(CallRow(other))
  {}

  lemma SessionsAreBelowCalls(lock: Lock, id: CallId)
    requires lock.SessionRow?
    ensures Rank(lock) < Rank(CallRow(id))
  {}

  // --- the expiry sweep and a request ---

  /** The sweep's first row is a call of `run`, its second a call of another device; and that device asks
      for a tool in `run`. Since the request locks its device and then the run before it looks at whose
      run that is, the two can, from their start, come to block each other for good. */
  lemma SweepAndRequestCanDeadlock(
    db: Db, ids: seq<ApprovalId>, now: Time, request: seq<Lock>, run: RunId, device: DeviceId)
    returns (schedule: seq<nat>)
    requires ApprovalsLinked(db.calls, db.approvals) && ExpiryCandidates(db, now, ids) && |ids| >= 2
    requires ids[0] in db.approvals && db.approvals[ids[0]].call in db.calls
    requires ids[1] in db.approvals && db.approvals[ids[1]].call in db.calls
    requires db.calls[db.approvals[ids[0]].call].run == Some(run) && run in db.runs
    requires db.calls[db.approvals[ids[0]].call].device != device
    requires db.calls[db.approvals[ids[1]].call].device == device && device in db.devices
    requires [DeviceRow(device), RunRow(run)] <= request
    ensures Stuck(Scheduled(Begun([SweepLocks(db, ids, now), request]), schedule))
  {
    hide RowLocks, Rank, ApprovalsLinked, ExpiryCandidates, Scheduled;
    FirstTwoRows(db, ids, now);
    RowFacts(db, ids[0], now);
    RowFacts(db, ids[1], now);
    var first, second := RowLocks(db, ids[0], now), RowLocks(db, ids[1], now);
    var sweep := SweepLocks(db, ids, now);
    var n := |first|;
    assert sweep[..n] == first && sweep[n] == second[0] == DeviceRow(device) by {
      assert (first + second)[..n] == first && (first + second)[n] == second[0];
      assert forall i :: 0 <= i < |first + second| ==> sweep[i] == (first + second)[i];
    }
    assert request[0] == DeviceRow(device) && request[1] == RunRow(run) && request[..1] == [DeviceRow(device)];
    schedule := InTurn(sweep, n, request, 1);
    MutualWait(sweep, n, request);
  }

  lemma MutualWait(sweep: seq<Lock>, n: nat, request: seq<Lock>)
    requires n < |sweep| && |request| >= 2 && sweep[n] == request[0] && request[1] in sweep[..n]
    requires request[0] !in sweep[..n]
    ensures Stuck(Two(sweep, n, request, 1))
  {
    assert request[..1] == [request[0]];
  }
  // --- recording an outcome and cancelling ---

  /** For any call whose run has a session of the call's owner, recording its outcome and cancelling it
      can, from their start, come to block each other for good. */
  lemma FinishAndCancelOfOneCall(db: Db, id: CallId, cancel: seq<Lock>) returns (schedule: seq<nat>)
    requires id in db.calls && CancelPlan(db, id) <= cancel && EmitLocks(db.runs, db.sessions, db.calls[id]) != []
    ensures Stuck(Scheduled(Begun([[CallRow(id)] + EmitLocks(db.runs, db.sessions, db.calls[id]), cancel]), schedule))
  {
    var call := db.calls[id];
    var finish := [CallRow(id)] + EmitLocks(db.runs, db.sessions, call);
    var plan := CancelPlan(db, id);
    hide Rank, Scheduled;
    assert |plan| == 4 && finish[1] == plan[2] == SessionRow(db.runs[call.run.value].session);
    assert forall i :: 0 <= i < 4 ==> cancel[i] == plan[i];
    assert cancel[..3] == plan[..3] && finish[..1] == [CallRow(id)];
    schedule := InTurn(finish, 1, cancel, 3);
    assert cancel[..3][2] == finish[1];
  }
}
