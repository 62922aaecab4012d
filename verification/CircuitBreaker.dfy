/** The gateway's circuit breaker, its retry loop and the guard that serialises inference. */
module CircuitBreakers {
  import opened Prelude

  type Instant = real

  datatype State = Closed | Open | HalfOpen

  datatype Limits = Limits(threshold: nat, cooldown: real) {
    ghost predicate Valid() { threshold >= 1 && cooldown > 0.0 }
  }

  datatype Circuit = Circuit(state: State, failures: nat, openedAt: Option<Instant>, probe: bool)

  const FRESH := Circuit(Closed, 0, None, false)

  /** How a provider operation ends. An interrupt is what no handler of the retry loop catches. */
  datatype Outcome =
    | Success | Offline | Timeout | Transient | RequestRejected | ContractViolated | GatewayRefused | Unexpected
    | Interrupt

  predicate IsTransient(outcome: Outcome) {
    outcome in {Offline, Timeout, Transient}
  }

  // --- what each call of the breaker does ---

  /** Permit a call, possibly as the probe of a half-open circuit, or fail fast. */
  function BeforeCall(c: Circuit, limits: Limits, now: Instant): (Circuit, Result<()>) {
    match c.state
    case Closed => (c, Ok(()))
    case Open =>
      if c.openedAt.Some? && now - c.openedAt.value < limits.cooldown then (c, Err("circuit_open"))
      else (c.(state := HalfOpen, probe := true), Ok(()))
    case HalfOpen =>
      if c.probe then (c, Err("circuit_probe_in_progress")) else (c.(probe := true), Ok(()))
  }

  function Opened(c: Circuit, now: Instant): Circuit {
    c.(state := Open, openedAt := Some(now), probe := false)
  }

  function RecordTransient(c: Circuit, limits: Limits, now: Instant): Circuit {
    if c.state == HalfOpen then Opened(c, now)
    else
      var counted := c.(failures := c.failures + 1);
      if counted.failures >= limits.threshold then Opened(counted, now) else counted
  }

  function RecordNonTransient(c: Circuit): Circuit {
    if c.state == HalfOpen then FRESH else c
  }

  /** The record that follows an admitted call; an interrupt leaves none. */
  function Record(c: Circuit, limits: Limits, outcome: Outcome, now: Instant): Circuit {
    if outcome == Success then FRESH
    else if IsTransient(outcome) then RecordTransient(c, limits, now)
    else if outcome == Interrupt then c
    else RecordNonTransient(c)
  }

  // --- serialised attempts ---

  /** One turn of a retry loop: when the breaker is asked, how the operation would end, and when that
      is recorded. */
  datatype Attempt = Attempt(before: Instant, outcome: Outcome, recorded: Instant)

  function Admits(c: Circuit, limits: Limits, a: Attempt): bool {
    BeforeCall(c, limits, a.before).1.Ok?
  }

  function Serve(c: Circuit, limits: Limits, a: Attempt): Circuit {
    var (asked, answer) := BeforeCall(c, limits, a.before);
    if answer.Err? then asked else Record(asked, limits, a.outcome, a.recorded)
  }

  function ServeAll(c: Circuit, limits: Limits, attempts: seq<Attempt>): Circuit {
    if attempts == [] then c
    else Serve(ServeAll(c, limits, attempts[..|attempts| - 1]), limits, attempts[|attempts| - 1])
  }

  /** How many of the attempts ran their operation. */
  function Admitted(c: Circuit, limits: Limits, attempts: seq<Attempt>): nat {
    if attempts == [] then 0
    else
      var n := |attempts| - 1;
      Admitted(c, limits, attempts[..n])
      + if Admits(ServeAll(c, limits, attempts[..n]), limits, attempts[n]) then 1 else 0
  }

  lemma {:induction false} ServeAppend(c: Circuit, limits: Limits, attempts: seq<Attempt>, more: seq<Attempt>)
    ensures ServeAll(c, limits, attempts + more) == ServeAll(ServeAll(c, limits, attempts), limits, more)
    ensures Admitted(c, limits, attempts + more)
      == Admitted(c, limits, attempts) + Admitted(ServeAll(c, limits, attempts), limits, more)
  {
    if more == [] {
      assert attempts + more == attempts;
    } else {
      var n := |more| - 1;
      assert (attempts + more)[..|attempts + more| - 1] == attempts + more[..n];
      ServeAppend(c, limits, attempts, more[..n]);
    }
  }

  // --- what every attempt keeps ---

  /** Between attempts: an open circuit knows when it opened, a closed one counts fewer failures than
      the threshold, and a half-open one has its probe active. */
  ghost predicate CircuitOk(c: Circuit, limits: Limits) {
    match c.state
    case Closed => c.failures < limits.threshold && !c.probe
    case Open => c.openedAt.Some? && !c.probe
    case HalfOpen => c.probe
  }

  lemma ServeKeeps(c: Circuit, limits: Limits, a: Attempt)
    requires limits.Valid() && CircuitOk(c, limits)
    ensures CircuitOk(BeforeCall(c, limits, a.before).0, limits) && CircuitOk(Serve(c, limits, a), limits)
    ensures Admits(c, limits, a) && a.outcome == Success ==> Serve(c, limits, a) == FRESH
  {}

  lemma {:induction false} ServeAllKeeps(c: Circuit, limits: Limits, attempts: seq<Attempt>)
    requires limits.Valid() && CircuitOk(c, limits)
    ensures CircuitOk(ServeAll(c, limits, attempts), limits)
  {
    if attempts != [] {
      var n := |attempts| - 1;
      ServeAllKeeps(c, limits, attempts[..n]);
      ServeKeeps(ServeAll(c, limits, attempts[..n]), limits, attempts[n]);
    }
  }

  /** Transient failures among the admitted attempts since the last success or released probe. */
  function Streak(c: Circuit, limits: Limits, attempts: seq<Attempt>): nat {
    if attempts == [] then 0
    else
      var n := |attempts| - 1;
      var before := ServeAll(c, limits, attempts[..n]);
      var a := attempts[n];
      if !Admits(before, limits, a) then Streak(c, limits, attempts[..n])
      else if a.outcome == Success then 0
      else if a.outcome in {Offline, Timeout, Transient} then Streak(c, limits, attempts[..n]) + 1
      else if a.outcome != Interrupt && BeforeCall(before, limits, a.before).0.state == HalfOpen then 0
      else Streak(c, limits, attempts[..n])
  }

  /** While a circuit that started fresh is closed, its failure count is exactly that streak. */
  lemma {:induction false} ClosedCountsTheStreak(limits: Limits, attempts: seq<Attempt>)
    requires limits.Valid()
    ensures
      var c := ServeAll(FRESH, limits, attempts);
      c.state == Closed ==> c.failures == Streak(FRESH, limits, attempts) < limits.threshold
  {
    if attempts != [] {
      var n := |attempts| - 1;
      ClosedCountsTheStreak(limits, attempts[..n]);
      ServeAllKeeps(FRESH, limits, attempts[..n]);
      ServeAllKeeps(FRESH, limits, attempts);
    }
  }

  // --- an interrupted probe ---

  ghost predicate Wedged(c: Circuit) {
    c.state == HalfOpen && c.probe
  }

  /** Once a probe was interrupted without a record, no later attempt is ever admitted, however long
      the circuit cools down. */
  lemma {:induction false} WedgedForever(c: Circuit, limits: Limits, attempts: seq<Attempt>)
    requires Wedged(c)
    ensures ServeAll(c, limits, attempts) == c && Admitted(c, limits, attempts) == 0
  {
    if attempts != [] {
      WedgedForever(c, limits, attempts[..|attempts| - 1]);
    }
  }

  /** Attempt `i` was the probe of an open circuit and was interrupted. */
  ghost predicate InterruptedProbe(limits: Limits, attempts: seq<Attempt>, i: nat)
    requires i < |attempts|
  {
    var before := ServeAll(FRESH, limits, attempts[..i]);
    before.state == Open && Admits(before, limits, attempts[i]) && attempts[i].outcome == Interrupt
  }

  /** Between calls the circuit is half-open, and then for good, exactly when some probe was
      interrupted; otherwise every admitted probe was recorded and closed or reopened it. */
  lemma {:induction false} WedgedExactlyWhenAProbeWasInterrupted(limits: Limits, attempts: seq<Attempt>)
    requires limits.Valid()
    ensures ServeAll(FRESH, limits, attempts).state == HalfOpen
      <==> exists i :: 0 <= i < |attempts| && InterruptedProbe(limits, attempts, i)
  {
    if attempts != [] {
      var n := |attempts| - 1;
      var before := ServeAll(FRESH, limits, attempts[..n]);
      WedgedExactlyWhenAProbeWasInterrupted(limits, attempts[..n]);
      ServeAllKeeps(FRESH, limits, attempts[..n]);
      assert attempts[..n] == attempts[..n][..n];
      forall i | 0 <= i < n
        ensures InterruptedProbe(limits, attempts, i) <==> InterruptedProbe(limits, attempts[..n], i)
      {
        assert attempts[..n][..i] == attempts[..i];
      }
      if before.state == HalfOpen {
        var i :| 0 <= i < n && InterruptedProbe(limits, attempts[..n], i);
        assert InterruptedProbe(limits, attempts, i);
      } else if ServeAll(FRESH, limits, attempts).state == HalfOpen {
        assert InterruptedProbe(limits, attempts, n);
      }
    }
  }

  // --- how often a dead provider is called ---

  /** The clock never goes back after `start`. */
  ghost predicate Clocked(attempts: seq<Attempt>, start: Instant) {
    (forall i :: 0 <= i < |attempts| ==> start <= attempts[i].before <= attempts[i].recorded)
    && forall i, j :: 0 <= i < j < |attempts| ==> attempts[i].recorded <= attempts[j].before
  }

  ghost predicate AllTransient(attempts: seq<Attempt>) {
    forall i :: 0 <= i < |attempts| ==> attempts[i].outcome in {Offline, Timeout, Transient}
  }

  /** The time that `n` cooldowns take. */
  function Cooldowns(limits: Limits, n: nat): real {
    n as real * limits.cooldown
  }

  lemma OneMoreCooldown(limits: Limits, n: nat)
    ensures Cooldowns(limits, n + 1) == Cooldowns(limits, n) + limits.cooldown
    ensures Cooldowns(limits, 0) == 0.0
  {}

  function Late(limits: Limits, admitted: nat): nat {
    if admitted <= limits.threshold then 0 else admitted - limits.threshold
  }

  /** The state of a circuit whose every admitted operation failed: closed below the threshold, and
      then open since no earlier than one cooldown per extra admission after `start`. */
  ghost predicate Failing(c: Circuit, limits: Limits, admitted: nat, start: Instant) {
    if admitted < limits.threshold then c == Circuit(Closed, admitted, None, false)
    else
      c.state == Open && !c.probe && c.openedAt.Some?
      && c.openedAt.value >= start + Cooldowns(limits, Late(limits, admitted))
  }

  lemma FailingStep(c: Circuit, limits: Limits, admitted: nat, start: Instant, a: Attempt)
    requires limits.Valid() && Failing(c, limits, admitted, start)
    requires IsTransient(a.outcome) && start <= a.before <= a.recorded
    ensures Failing(Serve(c, limits, a), limits, admitted + if Admits(c, limits, a) then 1 else 0, start)
    ensures Admits(c, limits, a) ==> a.before >= start + Cooldowns(limits, Late(limits, admitted + 1))
  {
    OneMoreCooldown(limits, Late(limits, admitted));
    hide Cooldowns;
  }

  lemma {:induction false} FailingAlways(limits: Limits, attempts: seq<Attempt>, start: Instant)
    requires limits.Valid() && Clocked(attempts, start) && AllTransient(attempts)
    ensures Failing(ServeAll(FRESH, limits, attempts), limits, Admitted(FRESH, limits, attempts), start)
  {
    hide Cooldowns, Failing, Serve, Admits;
    if attempts == [] {
      NotFailingYet(limits, start);
    } else {
      var n := |attempts| - 1;
      FailingAlways(limits, attempts[..n], start);
      FailingStep(ServeAll(FRESH, limits, attempts[..n]), limits, Admitted(FRESH, limits, attempts[..n]), start,
                  attempts[n]);
    }
  }

  lemma NotFailingYet(limits: Limits, start: Instant)
    requires limits.Valid()
    ensures Failing(FRESH, limits, 0, start)
  {}

  lemma FloorBound(n: nat, span: real, cooldown: real)
    requires cooldown > 0.0 && n as real * cooldown <= span
    ensures n <= (span / cooldown).Floor
  {
    assert n as real <= span / cooldown;
  }

  /** How many operations had started by time `t`, whether they had ended by then or not. */
  function AdmittedBy(c: Circuit, limits: Limits, attempts: seq<Attempt>, t: Instant): nat {
    if attempts == [] then 0
    else
      var n := |attempts| - 1;
      AdmittedBy(c, limits, attempts[..n], t)
      + if attempts[n].before <= t && Admits(ServeAll(c, limits, attempts[..n]), limits, attempts[n]) then 1 else 0
  }

  lemma {:induction false} AllAskedBy(c: Circuit, limits: Limits, attempts: seq<Attempt>, t: Instant)
    requires forall i :: 0 <= i < |attempts| ==> attempts[i].before <= t
    ensures AdmittedBy(c, limits, attempts, t) == Admitted(c, limits, attempts)
  {
    hide Admits, Serve;
    if attempts != [] {
      AllAskedBy(c, limits, attempts[..|attempts| - 1], t);
    }
  }

  /** If every operation fails transiently, a fresh circuit lets at most the threshold plus one
      operation per full cooldown since `start` begin by time `t`. */
  lemma {:induction false} AdmissionBound(limits: Limits, attempts: seq<Attempt>, start: Instant, t: Instant)
    requires limits.Valid() && Clocked(attempts, start) && AllTransient(attempts) && start <= t
    ensures AdmittedBy(FRESH, limits, attempts, t) <= limits.threshold + ((t - start) / limits.cooldown).Floor
  {
    OneMoreCooldown(limits, 0);
    FloorBound(0, t - start, limits.cooldown);
    if attempts != [] {
      var n := |attempts| - 1;
      AdmissionBound(limits, attempts[..n], start, t);
      var before := ServeAll(FRESH, limits, attempts[..n]);
      if attempts[n].before <= t && Admits(before, limits, attempts[n]) {
        AllAskedBy(FRESH, limits, attempts[..n], t);
        FailingAlways(limits, attempts[..n], start);
        LateAdmission(before, limits, Admitted(FRESH, limits, attempts[..n]), start, attempts[n], t);
      }
    }
  }

  lemma LateAdmission(c: Circuit, limits: Limits, admitted: nat, start: Instant, a: Attempt, t: Instant)
    requires limits.Valid() && Failing(c, limits, admitted, start) && Admits(c, limits, a)
    requires IsTransient(a.outcome) && start <= a.before <= a.recorded && a.before <= t
    ensures admitted + 1 <= limits.threshold + ((t - start) / limits.cooldown).Floor
  {
    FailingStep(c, limits, admitted, start, a);
    FloorBound(Late(limits, admitted + 1), t - start, limits.cooldown);
  }

  /** Knocking as often as it can help: `threshold` times at once, then once per cooldown. */
  function Knocking(limits: Limits, start: Instant, n: nat): seq<Attempt> {
    if n == 0 then []
    else
      var at := start + Cooldowns(limits, Late(limits, n));
      Knocking(limits, start, n - 1) + [Attempt(at, Timeout, at)]
  }

  ghost predicate Knocked(c: Circuit, limits: Limits, start: Instant, n: nat) {
    if n < limits.threshold then c == Circuit(Closed, n, None, false)
    else c.state == Open && !c.probe && c.openedAt == Some(start + Cooldowns(limits, Late(limits, n)))
  }

  /** `attempts` made `n` admissions by the end of the `n`-th one's cooldown. */
  ghost predicate Attains(limits: Limits, attempts: seq<Attempt>, start: Instant, n: nat) {
    var t := start + Cooldowns(limits, Late(limits, n));
    Clocked(attempts, start) && AllTransient(attempts) && start <= t
    && (forall i :: 0 <= i < |attempts| ==> attempts[i].recorded <= t)
    && AdmittedBy(FRESH, limits, attempts, t) == Admitted(FRESH, limits, attempts) == n
    && Knocked(ServeAll(FRESH, limits, attempts), limits, start, n)
  }

  lemma AttainsOneMore(limits: Limits, earlier: seq<Attempt>, start: Instant, n: nat, at: Instant)
    requires limits.Valid() && Attains(limits, earlier, start, n) && at == start + Cooldowns(limits, Late(limits, n + 1))
    ensures Attains(limits, earlier + [Attempt(at, Timeout, at)], start, n + 1)
  {
    hide Serve, Admits, Knocked, Clocked, AllTransient, Cooldowns, Late, Admitted, ServeAll, AdmittedBy;
    KnockOnce(ServeAll(FRESH, limits, earlier), limits, start, n);
    Snoc(FRESH, limits, earlier, Attempt(at, Timeout, at));
    ClockedSnoc(earlier, start, at);
    AllAskedBy(FRESH, limits, earlier + [Attempt(at, Timeout, at)], at);
  }

  /** The bound is attained: one more admission at the end of every cooldown. */
  lemma {:induction false} BoundIsAttained(limits: Limits, start: Instant, n: nat)
    requires limits.Valid()
    ensures Attains(limits, Knocking(limits, start, n), start, n)
  {
    hide Attains;
    if n == 0 {
      NothingAttained(limits, start);
    } else {
      BoundIsAttained(limits, start, n - 1);
      AttainsOneMore(limits, Knocking(limits, start, n - 1), start, n - 1, start + Cooldowns(limits, Late(limits, n)));
    }
  }

  lemma NothingAttained(limits: Limits, start: Instant)
    requires limits.Valid()
    ensures Attains(limits, [], start, 0)
  {
    CooldownsArePositive(limits, 0);
  }

  lemma Snoc(c: Circuit, limits: Limits, attempts: seq<Attempt>, a: Attempt)
    ensures ServeAll(c, limits, attempts + [a]) == Serve(ServeAll(c, limits, attempts), limits, a)
    ensures Admitted(c, limits, attempts + [a])
      == Admitted(c, limits, attempts) + if Admits(ServeAll(c, limits, attempts), limits, a) then 1 else 0
  {
    assert (attempts + [a])[..|attempts|] == attempts;
  }

  lemma ClockedSnoc(attempts: seq<Attempt>, start: Instant, at: Instant)
    requires Clocked(attempts, start) && AllTransient(attempts) && start <= at
    requires forall i :: 0 <= i < |attempts| ==> attempts[i].recorded <= at
    ensures Clocked(attempts + [Attempt(at, Timeout, at)], start)
    ensures AllTransient(attempts + [Attempt(at, Timeout, at)])
    ensures var all := attempts + [Attempt(at, Timeout, at)];
      forall i :: 0 <= i < |all| ==> all[i].before <= all[i].recorded <= at
  {}

  lemma KnockOnce(c: Circuit, limits: Limits, start: Instant, n: nat)
    requires limits.Valid() && Knocked(c, limits, start, n)
    ensures
      var at := start + Cooldowns(limits, Late(limits, n + 1));
      var a := Attempt(at, Timeout, at);
      Admits(c, limits, a) && Knocked(Serve(c, limits, a), limits, start, n + 1)
      && start <= start + Cooldowns(limits, Late(limits, n)) <= at
  {
    OneMoreCooldown(limits, Late(limits, n));
    CooldownsArePositive(limits, Late(limits, n));
    hide Cooldowns;
  }

  lemma {:induction false} CooldownsArePositive(limits: Limits, n: nat)
    requires limits.Valid()
    ensures Cooldowns(limits, n) >= 0.0
  {
    OneMoreCooldown(limits, 0);
    if n > 0 {
      OneMoreCooldown(limits, n - 1);
      CooldownsArePositive(limits, n - 1);
    }
  }
}
