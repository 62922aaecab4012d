/** The gateway around the breaker: the breaker and guard as objects, the bounded retry loop, and many
    requests one after another. */
module ModelGateways {
  import opened Prelude
  import opened CircuitBreakers

  class CircuitBreaker {
    const limits: Limits
    var state: State
    var failureCount: nat
    var openedAt: Option<Instant>
    var halfOpenProbeActive: bool

    function Snapshot(): Circuit
      reads this
    {
      Circuit(state, failureCount, openedAt, halfOpenProbeActive)
    }

    constructor (limits: Limits)
      ensures this.limits == limits && Snapshot() == FRESH
    {
      this.limits := limits;
      state, failureCount, openedAt, halfOpenProbeActive := Closed, 0, None, false;
    }

    method Ask(now: Instant) returns (answer: Result<()>)
      modifies this
      ensures (Snapshot(), answer) == BeforeCall(old(Snapshot()), limits, now)
    {
      if state == Open {
        if openedAt.Some? && now - openedAt.value < limits.cooldown { return Err("circuit_open"); }
        state := HalfOpen;
        halfOpenProbeActive := true;
        return Ok(());
      }
      if state == HalfOpen {
        if halfOpenProbeActive { return Err("circuit_probe_in_progress"); }
        halfOpenProbeActive := true;
      }
      return Ok(());
    }

    method RecordSuccess()
      modifies this
      ensures Snapshot() == FRESH
    {
      state, failureCount, openedAt, halfOpenProbeActive := Closed, 0, None, false;
    }

    method RecordTransientFailure(now: Instant)
      modifies this
      ensures Snapshot() == RecordTransient(old(Snapshot()), limits, now)
    {
      if state == HalfOpen {
        Trip(now);
        return;
      }
      failureCount := failureCount + 1;
      if failureCount >= limits.threshold { Trip(now); }
    }

    method RecordNonTransientResult()
      modifies this
      ensures Snapshot() == RecordNonTransient(old(Snapshot()))
    {
      if state == HalfOpen {
        state, failureCount, openedAt, halfOpenProbeActive := Closed, 0, None, false;
      }
    }

    method Trip(now: Instant)
      modifies this
      ensures Snapshot() == Opened(old(Snapshot()), now)
    {
      state := Open;
      openedAt := Some(now);
      halfOpenProbeActive := false;
    }
  }

  /** One request at a time; a second one is refused after waiting. */
  class InferenceGuard {
    var held: bool

    constructor ()
      ensures !held
    {
      held := false;
    }

    method Enter() returns (entered: bool)
      modifies this
      ensures entered == !old(held) && held
    {
      entered := !held;
      held := true;
    }

    method Exit()
      requires held
      modifies this
      ensures !held
    {
      held := false;
    }
  }

  class ModelGateway {
    const maxAttempts: nat
    const guard: InferenceGuard

    constructor (maxAttempts: nat, guard: InferenceGuard)
      requires maxAttempts >= 1
      ensures this.maxAttempts == maxAttempts && this.guard == guard
    {
      this.maxAttempts, this.guard := maxAttempts, guard;
    }

    /** What is raised when a turn does not succeed. */
    static ghost predicate Raises(outcome: Outcome, error: string) {
      match outcome
      case Offline => error == "provider_offline"
      case Timeout => error == "provider_timeout"
      case Transient => error == "provider_transient_failure"
      case RequestRejected => error == "provider_request_rejected"
      case GatewayRefused => error == "gateway_error"
      case Interrupt => error == "interrupted"
      case _ => error == "provider_contract_violation"
    }

    /** The exception handlers: record a failed turn, and say whether it may be tried again. */
    method RecordFailure(circuit: CircuitBreaker, attempt: Attempt) returns (error: string, again: bool)
      requires attempt.outcome != Success
      modifies circuit
      ensures circuit.Snapshot() == Record(old(circuit.Snapshot()), circuit.limits, attempt.outcome, attempt.recorded)
      ensures Raises(attempt.outcome, error) && (again <==> attempt.outcome in {Offline, Timeout, Transient})
    {
      again := false;
      match attempt.outcome {
        case Offline =>
          error, again := "provider_offline", true;
          circuit.RecordTransientFailure(attempt.recorded);
        case Timeout =>
          error, again := "provider_timeout", true;
          circuit.RecordTransientFailure(attempt.recorded);
        case Transient =>
          error, again := "provider_transient_failure", true;
          circuit.RecordTransientFailure(attempt.recorded);
        case RequestRejected =>
          error := "provider_request_rejected";
          circuit.RecordNonTransientResult();
        case GatewayRefused =>
          error := "gateway_error";
          circuit.RecordNonTransientResult();
        case Interrupt =>
          error := "interrupted";
        case ContractViolated =>
          error := "provider_contract_violation";
          circuit.RecordNonTransientResult();
        case Unexpected =>
          error := "provider_contract_violation";
          circuit.RecordNonTransientResult();
      }
    }

    /** Run an operation until it succeeds, fails for good, is refused, or was tried often enough;
        `attempts` is what each turn would meet. Only transient failures are tried again. */
    method WithRetry(circuit: CircuitBreaker, attempts: seq<Attempt>)
      returns (result: Result<nat>, turns: nat, ran: nat)
      requires maxAttempts >= 1 && |attempts| >= maxAttempts
      modifies circuit
      ensures 1 <= turns <= maxAttempts && ran <= turns
      ensures circuit.Snapshot() == ServeAll(old(circuit.Snapshot()), circuit.limits, attempts[..turns])
      ensures ran == Admitted(old(circuit.Snapshot()), circuit.limits, attempts[..turns])
      ensures forall i :: 0 <= i < turns - 1 ==> attempts[i].outcome in {Offline, Timeout, Transient}
      ensures result.Ok? <==> ran == turns && attempts[turns - 1].outcome == Success
      ensures result.Ok? ==> result.value == turns && circuit.Snapshot() == FRESH
      ensures turns < maxAttempts ==> ran < turns || attempts[turns - 1].outcome !in {Offline, Timeout, Transient}
      ensures result.Err? && ran == turns ==> Raises(attempts[turns - 1].outcome, result.error)
      ensures result.Err? && ran < turns ==> result.error in {"circuit_open", "circuit_probe_in_progress"}
    {
      NoTurnYet(circuit.Snapshot(), circuit.limits, attempts);
      hide ServeAll, Admitted, Serve, Admits, BeforeCall, Record, RecordTransient, RecordNonTransient, Raises;
      turns, ran := 0, 0;
      while turns < maxAttempts
        invariant 0 <= turns <= maxAttempts && ran == turns
        invariant circuit.Snapshot() == ServeAll(old(circuit.Snapshot()), circuit.limits, attempts[..turns])
        invariant ran == Admitted(old(circuit.Snapshot()), circuit.limits, attempts[..turns])
        invariant forall i :: 0 <= i < turns ==> attempts[i].outcome in {Offline, Timeout, Transient}
        invariant turns < maxAttempts
      {
        var attempt := attempts[turns];
        Snoc(old(circuit.Snapshot()), circuit.limits, attempts[..turns], attempt);
        TurnLaw(circuit.Snapshot(), circuit.limits, attempt);
        assert attempts[..turns + 1] == attempts[..turns] + [attempt];
        turns := turns + 1;
        var answer := circuit.Ask(attempt.before);
        if answer.Err? { return Err(answer.error), turns, ran; }
        ran := ran + 1;
        if attempt.outcome == Success {
          circuit.RecordSuccess();
          return Ok(turns), turns, ran;
        }
        var error, again := RecordFailure(circuit, attempt);
        if !again || turns >= maxAttempts { return Err(error), turns, ran; }
      }
    }

    /** One request under the guard, which is released however the request ends. */
    method Generate(circuit: CircuitBreaker, attempts: seq<Attempt>)
      returns (result: Result<nat>, turns: nat, ran: nat)
      requires maxAttempts >= 1 && |attempts| >= maxAttempts
      modifies circuit, guard
      ensures old(guard.held) ==> turns == 0 && result == Err("inference_busy")
      ensures guard.held == old(guard.held)
      ensures turns <= maxAttempts && turns <= |attempts|
      ensures circuit.Snapshot() == ServeAll(old(circuit.Snapshot()), circuit.limits, attempts[..turns])
      ensures ran == Admitted(old(circuit.Snapshot()), circuit.limits, attempts[..turns])
      ensures result.Ok? ==> circuit.Snapshot() == FRESH
    {
      assert attempts[..0] == [];
      var entered := guard.Enter();
      if !entered { return Err("inference_busy"), 0, 0; }
      result, turns, ran := WithRetry(circuit, attempts);
      guard.Exit();
    }

    /** Any number of requests, one after another, to a provider that always fails transiently: the
        operations begun by any time `t` stay within the breaker's bound. `made` are the turns taken. */
    method Persist(circuit: CircuitBreaker, requests: seq<seq<Attempt>>, start: Instant)
      returns (ran: nat, ghost made: seq<Attempt>)
      requires maxAttempts >= 1 && circuit.limits.Valid() && circuit.Snapshot() == FRESH
      requires forall i :: 0 <= i < |requests| ==> |requests[i]| >= maxAttempts
      requires Clocked(Flat(requests), start) && AllTransient(Flat(requests))
      modifies circuit, guard
      ensures circuit.Snapshot() == ServeAll(FRESH, circuit.limits, made)
      ensures ran == Admitted(FRESH, circuit.limits, made)
      ensures forall t :: start <= t ==>
        AdmittedBy(FRESH, circuit.limits, made, t)
        <= circuit.limits.threshold + ((t - start) / circuit.limits.cooldown).Floor
    {
      hide Clocked, AllTransient;
      ran := 0;
      made := [];
      var i := 0;
      assert requests[0..] == requests && made + Flat(requests) == Flat(requests);
      while i < |requests|
        invariant 0 <= i <= |requests|
        invariant circuit.Snapshot() == ServeAll(FRESH, circuit.limits, made)
        invariant ran == Admitted(FRESH, circuit.limits, made)
        invariant Clocked(made + Flat(requests[i..]), start) && AllTransient(made + Flat(requests[i..]))
      {
        var _, turns, count := Generate(circuit, requests[i]);
        ServeAppend(FRESH, circuit.limits, made, requests[i][..turns]);
        SkipUnused(made, requests, i, turns, start);
        made := made + requests[i][..turns];
        ran := ran + count;
        i := i + 1;
      }
      assert made + Flat(requests[i..]) + [] == made + Flat(requests[i..]);
      DropMiddle(made, Flat(requests[i..]), [], start);
      assert made + [] == made;
      forall t | start <= t
        ensures AdmittedBy(FRESH, circuit.limits, made, t)
          <= circuit.limits.threshold + ((t - start) / circuit.limits.cooldown).Floor
      {
        AdmissionBound(circuit.limits, made, start, t);
      }
    }
  }

  lemma NoTurnYet(c: Circuit, limits: Limits, attempts: seq<Attempt>)
    ensures ServeAll(c, limits, attempts[..0]) == c && Admitted(c, limits, attempts[..0]) == 0
  {}

  /** One turn is one question to the breaker and, if it permits, the record of the outcome. */
  lemma TurnLaw(c: Circuit, limits: Limits, a: Attempt)
    ensures
      var (asked, answer) := BeforeCall(c, limits, a.before);
      (Admits(c, limits, a) <==> answer.Ok?)
      && (answer.Err? ==> answer.error in {"circuit_open", "circuit_probe_in_progress"})
      && Serve(c, limits, a) == (if answer.Err? then asked else Record(asked, limits, a.outcome, a.recorded))
      && Record(asked, limits, Success, a.recorded) == FRESH
  {}

  function Flat(requests: seq<seq<Attempt>>): seq<Attempt> {
    if requests == [] then [] else requests[0] + Flat(requests[1..])
  }

  /** Attempts a request did not use leave the clock in order. */
  lemma SkipUnused(made: seq<Attempt>, requests: seq<seq<Attempt>>, i: nat, turns: nat, start: Instant)
    requires i < |requests| && turns <= |requests[i]|
    requires Clocked(made + Flat(requests[i..]), start) && AllTransient(made + Flat(requests[i..]))
    ensures Clocked(made + requests[i][..turns] + Flat(requests[i + 1..]), start)
    ensures AllTransient(made + requests[i][..turns] + Flat(requests[i + 1..]))
  {
    hide Clocked, AllTransient;
    var rest := Flat(requests[i + 1..]);
    var used, unused := requests[i][..turns], requests[i][turns..];
    assert requests[i..][1..] == requests[i + 1..];
    assert requests[i] == used + unused;
    assert made + ((used + unused) + rest) == (made + used) + unused + rest;
    DropMiddle(made + used, unused, rest, start);
  }

  lemma DropMiddle(a: seq<Attempt>, b: seq<Attempt>, c: seq<Attempt>, start: Instant)
    requires Clocked(a + b + c, start) && AllTransient(a + b + c)
    ensures Clocked(a + c, start) && AllTransient(a + c)
  {
    var all := a + b + c;
    forall i | 0 <= i < |a + c| ensures (a + c)[i] == all[if i < |a| then i else i + |b|] {}
  }
}
