/** Any number of callers between whose steps others may take theirs, each with its own phase, and the
    guard's one permit between them. The guard makes each circuit serve one attempt after another. */
module GatewayCallers {
  import opened Prelude
  import opened CircuitBreakers

  /** A caller holds the permit while it is inside; its operation runs; its outcome, known but not yet
      recorded, is about to be. */
  datatype Phase =
    | Outside
    | Inside
    | Running(circuit: nat, asked: Instant)
    | Recording(circuit: nat, asked: Instant, outcome: Outcome)

  datatype Entry =
    | Admit(caller: nat, circuit: nat, asked: Instant)
    | End(caller: nat, circuit: nat, asked: Instant, outcome: Outcome, at: Instant)
    | Note(caller: nat, circuit: nat, asked: Instant, outcome: Outcome, at: Instant)
    | Lost(caller: nat, circuit: nat, asked: Instant, at: Instant)

  /** The permits left, where each caller is (outside, unless listed), the circuits, and what happened. */
  datatype Gate = Gate(permits: nat, phases: map<nat, Phase>, circuits: map<nat, Circuit>, log: seq<Entry>)

  datatype Step =
    | Enter(caller: nat, now: Instant)
    | Ask(caller: nat, now: Instant, circuit: nat)
    | Return(caller: nat, now: Instant, outcome: Outcome)
    | Write(caller: nat, now: Instant)
    | Abandon(caller: nat, now: Instant)
    | Leave(caller: nat, now: Instant)

  function PhaseOf(g: Gate, caller: nat): Phase {
    if caller in g.phases then g.phases[caller] else Outside
  }

  function Move(g: Gate, caller: nat, phase: Phase): Gate {
    g.(phases := g.phases[caller := phase])
  }

  function StartGate(circuits: map<nat, Circuit>): Gate {
    Gate(1, map[], circuits, [])
  }

  /** One step, guarded by the caller's own phase and, on entry, by the permit. An operation that is
      interrupted, or whose caller is interrupted between its return and its record, has no record. */
  function Take(g: Gate, limits: Limits, step: Step): Gate {
    var caller, phase := step.caller, PhaseOf(g, step.caller);
    match step
    case Enter(_, _) =>
      if phase.Outside? && g.permits > 0 then Move(g, caller, Inside).(permits := g.permits - 1) else g
    case Ask(_, now, k) =>
      if !phase.Inside? || k !in g.circuits then g
      else
        var (asked, answer) := BeforeCall(g.circuits[k], limits, now);
        var after := g.(circuits := g.circuits[k := asked]);
        if answer.Err? then after
        else Move(after, caller, Running(k, now)).(log := g.log + [Admit(caller, k, now)])
    case Return(_, now, outcome) =>
      if !phase.Running? then g
      else
        Move(g, caller, if outcome == Interrupt then Inside else Recording(phase.circuit, phase.asked, outcome))
        .(log := g.log + [End(caller, phase.circuit, phase.asked, outcome, now)])
    case Write(_, now) =>
      if !phase.Recording? || phase.circuit !in g.circuits then g
      else
        var k := phase.circuit;
        Move(g, caller, Inside)
        .(circuits := g.circuits[k := Record(g.circuits[k], limits, phase.outcome, now)],
          log := g.log + [Note(caller, k, phase.asked, phase.outcome, now)])
    case Abandon(_, now) =>
      if !phase.Recording? then g
      else Move(g, caller, Inside).(log := g.log + [Lost(caller, phase.circuit, phase.asked, now)])
    case Leave(_, _) =>
      if !phase.Inside? then g else Move(g, caller, Outside).(permits := g.permits + 1)
  }

  function TakeAll(g: Gate, limits: Limits, steps: seq<Step>): Gate {
    if steps == [] then g else Take(TakeAll(g, limits, steps[..|steps| - 1]), limits, steps[|steps| - 1])
  }

  // --- mutual exclusion ---

  /** `holder` has the permit and is the only caller that is not outside. */
  ghost predicate HeldBy(g: Gate, holder: Option<nat>) {
    g.permits == (if holder.Some? then 0 else 1)
    && forall caller: nat :: PhaseOf(g, caller).Outside? <==> holder != Some(caller)
  }

  function Holder(g: Gate, holder: Option<nat>, step: Step): Option<nat> {
    match step
    case Enter(caller, _) => if holder.None? then Some(caller) else holder
    case Leave(caller, _) => if holder == Some(caller) && PhaseOf(g, caller).Inside? then None else holder
    case _ => holder
  }

  lemma TakeHolds(g: Gate, limits: Limits, step: Step, holder: Option<nat>)
    requires HeldBy(g, holder)
    ensures HeldBy(Take(g, limits, step), Holder(g, holder, step))
  {
    hide BeforeCall, Record;
    var after := Take(g, limits, step);
    forall caller ensures PhaseOf(after, caller)
      == if caller == step.caller then PhaseOf(after, step.caller) else PhaseOf(g, caller)
    {}
    assert PhaseOf(g, step.caller).Outside? <==> holder != Some(step.caller);
  }

  // --- the log ---

  /** What may come right after an entry. */
  ghost predicate Follows(a: Entry, b: Entry) {
    match a
    case Admit(caller, k, asked) => b.End? && (b.caller, b.circuit, b.asked) == (caller, k, asked)
    case End(caller, k, asked, outcome, _) =>
      if outcome == Interrupt then b.Admit?
      else
        (b.Note? && (b.caller, b.circuit, b.asked, b.outcome) == (caller, k, asked, outcome))
        || (b.Lost? && (b.caller, b.circuit, b.asked) == (caller, k, asked))
    case _ => b.Admit?
  }

  ghost predicate Orderly(log: seq<Entry>) {
    (log != [] ==> log[0].Admit?) && forall i {:trigger log[i]} :: 0 < i < |log| ==> Follows(log[i - 1], log[i])
  }

  /** The log ends where the holder of the permit is. */
  ghost predicate Fits(log: seq<Entry>, holder: Option<nat>, phase: Phase) {
    var n := |log| - 1;
    match phase
    case Running(k, asked) => n >= 0 && holder.Some? && log[n] == Admit(holder.value, k, asked)
    case Recording(k, asked, outcome) =>
      n >= 0 && holder.Some? && outcome != Interrupt && log[n].End?
      && log[n] == End(holder.value, k, asked, outcome, log[n].at)
    case _ => n >= 0 ==> log[n].Note? || log[n].Lost? || (log[n].End? && log[n].outcome == Interrupt)
  }

  function HolderPhase(g: Gate, holder: Option<nat>): Phase {
    if holder.Some? then PhaseOf(g, holder.value) else Outside
  }

  ghost predicate GateOk(g: Gate, holder: Option<nat>) {
    HeldBy(g, holder) && Orderly(g.log) && Fits(g.log, holder, HolderPhase(g, holder))
  }

  lemma OrderlySnoc(log: seq<Entry>, e: Entry)
    requires Orderly(log) && if log == [] then e.Admit? else Follows(log[|log| - 1], e)
    ensures Orderly(log + [e])
  {
    hide Follows;
    var all := log + [e];
    forall i | 0 < i < |all| ensures Follows(all[i - 1], all[i]) {
      if i < |log| { assert Follows(log[i - 1], log[i]); }
    }
  }

  lemma TakeKeepsGate(g: Gate, limits: Limits, step: Step, holder: Option<nat>)
    requires GateOk(g, holder)
    ensures GateOk(Take(g, limits, step), Holder(g, holder, step))
  {
    hide BeforeCall, Record, Orderly;
    TakeHolds(g, limits, step, holder);
    assert PhaseOf(g, step.caller).Outside? <==> holder != Some(step.caller);
    var after := Take(g, limits, step);
    if after.log != g.log {
      OrderlySnoc(g.log, after.log[|g.log|]);
    }
  }

  /** Whatever the callers do, at most one of them is past the guard, and the permit is free exactly
      when none is. */
  lemma {:induction false} OneCallerAtATime(limits: Limits, steps: seq<Step>, circuits: map<nat, Circuit>)
    returns (holder: Option<nat>)
    ensures GateOk(TakeAll(StartGate(circuits), limits, steps), holder)
  {
    hide Take, GateOk;
    if steps == [] {
      holder := None;
      NobodyInside(circuits);
    } else {
      var n := |steps| - 1;
      var before := TakeAll(StartGate(circuits), limits, steps[..n]);
      var held := OneCallerAtATime(limits, steps[..n], circuits);
      TakeKeepsGate(before, limits, steps[n], held);
      holder := Holder(before, held, steps[n]);
    }
  }

  lemma NobodyInside(circuits: map<nat, Circuit>)
    ensures GateOk(StartGate(circuits), None)
  {}

  /** At most one caller is past the guard: any two that are not outside are the same. */
  lemma GuardExcludes(limits: Limits, steps: seq<Step>, circuits: map<nat, Circuit>, one: nat, other: nat)
    ensures
      var g := TakeAll(StartGate(circuits), limits, steps);
      g.permits <= 1
      && (!PhaseOf(g, one).Outside? ==> g.permits == 0 && (!PhaseOf(g, other).Outside? ==> one == other))
  {
    var holder := OneCallerAtATime(limits, steps, circuits);
    hide TakeAll;
  }

  // --- every admission meets its record, unless interrupted ---

  /** The records written from entry `i` on, before the next admission. */
  function RecordsFrom(log: seq<Entry>, i: nat): seq<Entry>
    decreases |log| - i
  {
    if i >= |log| || log[i].Admit? then []
    else (if log[i].Note? then [log[i]] else []) + RecordsFrom(log, i + 1)
  }

  /** What became of the admission at `i`: its operation still runs; or it ended and its record is being
      written; or it ended and has exactly one record, its own, unless it was interrupted, before or after
      it returned, and then it has none. */
  ghost predicate Answered(g: Gate, i: nat)
    requires i < |g.log| && g.log[i].Admit?
  {
    var a := g.log[i];
    var records := RecordsFrom(g.log, i + 1);
    if i + 1 == |g.log| then PhaseOf(g, a.caller) == Running(a.circuit, a.asked) && records == []
    else
      var e := g.log[i + 1];
      e.End? && (e.caller, e.circuit, e.asked) == (a.caller, a.circuit, a.asked)
      && if e.outcome == Interrupt then records == []
         else if i + 2 == |g.log| then
           PhaseOf(g, a.caller) == Recording(a.circuit, a.asked, e.outcome) && records == []
         else if g.log[i + 2].Lost? then
           g.log[i + 2] == Lost(a.caller, a.circuit, a.asked, g.log[i + 2].at) && records == []
         else g.log[i + 2].Note? && records == [Note(a.caller, a.circuit, a.asked, e.outcome, g.log[i + 2].at)]
  }

  lemma AdmissionIsAnswered(g: Gate, holder: Option<nat>, i: nat)
    requires GateOk(g, holder) && i < |g.log| && g.log[i].Admit?
    ensures Answered(g, i)
  {
    hide HeldBy;
    assert RecordsFrom(g.log, |g.log|) == [];
    if i + 1 < |g.log| {
      assert Follows(g.log[i], g.log[i + 1]);
      if i + 2 < |g.log| {
        assert Follows(g.log[i + 1], g.log[i + 2]);
        if i + 3 < |g.log| { assert Follows(g.log[i + 2], g.log[i + 3]); }
        assert RecordsFrom(g.log, i + 2) == if g.log[i + 2].Note? then [g.log[i + 2]] else [];
      }
      assert RecordsFrom(g.log, i + 1) == RecordsFrom(g.log, i + 2);
    }
  }

  lemma RecordIsAnAnswer(log: seq<Entry>, j: nat)
    requires Orderly(log) && j < |log| && log[j].Note?
    ensures j >= 2 && log[j - 2] == Admit(log[j].caller, log[j].circuit, log[j].asked) && log[j].outcome != Interrupt
  {
    assert Follows(log[j - 1], log[j]);
    assert Follows(log[j - 2], log[j - 1]);
  }

  /** However callers interleave: an admission whose operation ended meets exactly one record, of its own
      caller, circuit and outcome, if and only if neither the operation nor the recording of its outcome was
      interrupted; and no record is written that is not the answer to an admission. */
  lemma GuardPairsAdmissionsWithRecords(limits: Limits, steps: seq<Step>, circuits: map<nat, Circuit>)
    ensures
      var g := TakeAll(StartGate(circuits), limits, steps);
      (forall i :: 0 <= i < |g.log| && g.log[i].Admit? ==> Answered(g, i))
      && forall j :: 0 <= j < |g.log| && g.log[j].Note? ==>
           j >= 2 && g.log[j - 2] == Admit(g.log[j].caller, g.log[j].circuit, g.log[j].asked)
           && g.log[j].outcome != Interrupt
  {
    hide Answered, GateOk;
    var g := TakeAll(StartGate(circuits), limits, steps);
    var holder := OneCallerAtATime(limits, steps, circuits);
    forall i | 0 <= i < |g.log| && g.log[i].Admit? ensures Answered(g, i) {
      AdmissionIsAnswered(g, holder, i);
    }
    assert Orderly(g.log) by { GateIsOrderly(g, holder); }
    forall j | 0 <= j < |g.log| && g.log[j].Note?
      ensures j >= 2 && g.log[j - 2] == Admit(g.log[j].caller, g.log[j].circuit, g.log[j].asked)
        && g.log[j].outcome != Interrupt
    {
      RecordIsAnAnswer(g.log, j);
    }
  }

  lemma GateIsOrderly(g: Gate, holder: Option<nat>)
    requires GateOk(g, holder)
    ensures Orderly(g.log)
  {}
  // --- the guard serialises: each circuit serves one attempt after another ---

  /** The attempt that an entry closes for a circuit; one without a record counts as interrupted. */
  function Closes(e: Entry, k: nat): seq<Attempt> {
    if e.Admit? || e.circuit != k then []
    else if e.Lost? || (e.End? && e.outcome == Interrupt) then [Attempt(e.asked, Interrupt, e.at)]
    else if e.Note? then [Attempt(e.asked, e.outcome, e.at)]
    else []
  }

  /** The attempts of a circuit that are over, in order. */
  function Served(log: seq<Entry>, k: nat): seq<Attempt> {
    if log == [] then [] else Served(log[..|log| - 1], k) + Closes(log[|log| - 1], k)
  }

  lemma ServedSnoc(log: seq<Entry>, e: Entry, k: nat)
    ensures Served(log + [e], k) == Served(log, k) + Closes(e, k)
  {
    assert (log + [e])[..|log|] == log;
  }

  predicate InFlight(phase: Phase, k: nat) {
    (phase.Running? || phase.Recording?) && phase.circuit == k
  }

  /** A circuit is what its finished attempts made of it, and, while an operation is in flight on it,
      what the admission of that operation made of that. */
  ghost predicate Serial(g: Gate, holder: Option<nat>, limits: Limits, k: nat, c: Circuit) {
    k in g.circuits
    && var served := ServeAll(c, limits, Served(g.log, k));
       var phase := HolderPhase(g, holder);
       if InFlight(phase, k) then
         BeforeCall(served, limits, phase.asked) == (g.circuits[k], Ok(()))
       else g.circuits[k] == served
  }

  lemma TakeKeepsSerial(g: Gate, limits: Limits, step: Step, holder: Option<nat>, k: nat, c: Circuit)
    requires GateOk(g, holder) && Serial(g, holder, limits, k, c)
    ensures Serial(Take(g, limits, step), Holder(g, holder, step), limits, k, c)
  {
    hide Orderly, Fits, BeforeCall, Record, Served, ServeAll;
    var after := Take(g, limits, step);
    assert PhaseOf(g, step.caller).Outside? <==> holder != Some(step.caller);
    RefusalChangesNothing(g, limits, step);
    if after.log != g.log {
      var e := after.log[|g.log|];
      ServedSnoc(g.log, e, k);
      if Closes(e, k) != [] {
        Snoc(c, limits, Served(g.log, k), Closes(e, k)[0]);
        AdmissionThenRecord(ServeAll(c, limits, Served(g.log, k)), limits, Closes(e, k)[0]);
      } else {
        assert Served(g.log, k) + [] == Served(g.log, k);
      }
    }
  }

  lemma RefusalChangesNothing(g: Gate, limits: Limits, step: Step)
    ensures step.Ask? && step.circuit in g.circuits ==>
      var (asked, answer) := BeforeCall(g.circuits[step.circuit], limits, step.now);
      (answer.Err? ==> asked == g.circuits[step.circuit]) && (answer.Ok? ==> answer == Ok(()))
  {}

  lemma AdmissionThenRecord(c: Circuit, limits: Limits, a: Attempt)
    requires BeforeCall(c, limits, a.before).1 == Ok(())
    ensures Serve(c, limits, a) == Record(BeforeCall(c, limits, a.before).0, limits, a.outcome, a.recorded)
    ensures a.outcome == Interrupt ==> Serve(c, limits, a) == BeforeCall(c, limits, a.before).0
  {}

  lemma {:induction false} AlwaysSerial(limits: Limits, steps: seq<Step>, circuits: map<nat, Circuit>, k: nat)
    returns (holder: Option<nat>)
    requires k in circuits
    ensures var g := TakeAll(StartGate(circuits), limits, steps);
      GateOk(g, holder) && Serial(g, holder, limits, k, circuits[k])
  {
    hide Take, GateOk, Serial;
    if steps == [] {
      holder := None;
      NobodyInside(circuits);
      NothingServed(circuits, limits, k);
    } else {
      var n := |steps| - 1;
      var before := TakeAll(StartGate(circuits), limits, steps[..n]);
      var held := AlwaysSerial(limits, steps[..n], circuits, k);
      TakeKeepsGate(before, limits, steps[n], held);
      TakeKeepsSerial(before, limits, steps[n], held, k, circuits[k]);
      holder := Holder(before, held, steps[n]);
    }
  }

  lemma NothingServed(circuits: map<nat, Circuit>, limits: Limits, k: nat)
    requires k in circuits
    ensures Serial(StartGate(circuits), None, limits, k, circuits[k])
  {}
  /** In every interleaving each circuit is what its own attempts, taken one after another, make of it,
      plus the admission of the operation in flight: everything proved about serialised attempts holds
      of concurrent callers. */
  lemma GuardSerialises(limits: Limits, steps: seq<Step>, circuits: map<nat, Circuit>, k: nat)
    requires k in circuits
    ensures
      var g := TakeAll(StartGate(circuits), limits, steps);
      var served := ServeAll(circuits[k], limits, Served(g.log, k));
      k in g.circuits
      && ((forall caller: nat :: !InFlight(PhaseOf(g, caller), k)) ==> g.circuits[k] == served)
      && forall caller: nat :: InFlight(PhaseOf(g, caller), k) ==>
           BeforeCall(served, limits, PhaseOf(g, caller).asked) == (g.circuits[k], Ok(()))
  {
    var holder := AlwaysSerial(limits, steps, circuits, k);
    hide TakeAll, ServeAll, BeforeCall, Orderly, Fits, Served;
    var g := TakeAll(StartGate(circuits), limits, steps);
    assert HeldBy(g, holder);
    if holder.Some? {
      assert !InFlight(PhaseOf(g, holder.value), k) || InFlight(PhaseOf(g, holder.value), k);
    }
  }

  /** In every interleaving a circuit that started sound stays sound: above all, while it is half-open
      its probe is active, so nobody else is admitted to it. */
  lemma CircuitsStaySound(limits: Limits, steps: seq<Step>, circuits: map<nat, Circuit>, k: nat)
    requires limits.Valid() && k in circuits && CircuitOk(circuits[k], limits)
    ensures var g := TakeAll(StartGate(circuits), limits, steps);
      k in g.circuits && CircuitOk(g.circuits[k], limits)
  {
    var holder := AlwaysSerial(limits, steps, circuits, k);
    var g := TakeAll(StartGate(circuits), limits, steps);
    var served := Served(g.log, k);
    ServeAllKeeps(circuits[k], limits, served);
    hide TakeAll, ServeAll, BeforeCall, GateOk, CircuitOk, Served;
    var phase := HolderPhase(g, holder);
    if InFlight(phase, k) {
      ServeKeeps(ServeAll(circuits[k], limits, served), limits, Attempt(phase.asked, Interrupt, phase.asked));
    }
  }

  // --- how often concurrent callers reach a dead provider ---

  /** The clock never goes back after `start`. */
  ghost predicate Ticking(steps: seq<Step>, start: Instant) {
    (forall i :: 0 <= i < |steps| ==> start <= steps[i].now)
    && forall i, j :: 0 <= i < j < |steps| ==> steps[i].now <= steps[j].now
  }

  /** Every operation that ends fails transiently, and no caller is interrupted before it records that. */
  ghost predicate DeadProvider(steps: seq<Step>) {
    forall i :: 0 <= i < |steps| ==>
      !steps[i].Abandon? && (steps[i].Return? ==> IsTransient(steps[i].outcome))
  }

  /** Operations begun on a circuit by time `t`, whether over or in flight. */
  function Begun(log: seq<Entry>, k: nat, t: Instant): nat {
    if log == [] then 0
    else
      var e := log[|log| - 1];
      Begun(log[..|log| - 1], k, t) + if e.Admit? && e.circuit == k && e.asked <= t then 1 else 0
  }

  lemma BegunSnoc(log: seq<Entry>, e: Entry, k: nat, t: Instant)
    ensures Begun(log + [e], k, t) == Begun(log, k, t) + if e.Admit? && e.circuit == k && e.asked <= t then 1 else 0
  {
    assert (log + [e])[..|log|] == log;
  }

  /** The operation in flight on a circuit, as an attempt that is going to fail. */
  function Pending(phase: Phase, k: nat): seq<Attempt> {
    if InFlight(phase, k) then [Attempt(phase.asked, Timeout, phase.asked)] else []
  }

  /** What the finished attempts and the one in flight tell about a circuit of a dead provider. */
  ghost predicate Counted(g: Gate, holder: Option<nat>, limits: Limits, k: nat, start: Instant, now: Instant, t: Instant) {
    var attempts := Served(g.log, k) + Pending(HolderPhase(g, holder), k);
    Clocked(attempts, start) && AllTransient(attempts)
    && (forall i :: 0 <= i < |attempts| ==> attempts[i].recorded <= now)
    && (HolderPhase(g, holder).Recording? ==> IsTransient(HolderPhase(g, holder).outcome))
    && Begun(g.log, k, t) == AdmittedBy(FRESH, limits, attempts, t)
  }

  /** Replacing the time and the kind of the last failure changes no admission. */
  lemma LastFailure(limits: Limits, attempts: seq<Attempt>, asked: Instant, outcome: Outcome, at: Instant,
                    start: Instant, now: Instant, t: Instant)
    requires
      var all := attempts + [Attempt(asked, Timeout, asked)];
      Clocked(all, start) && AllTransient(all) && forall i :: 0 <= i < |all| ==> all[i].recorded <= now
    requires IsTransient(outcome) && now <= at
    ensures
      var all := attempts + [Attempt(asked, outcome, at)];
      Clocked(all, start) && AllTransient(all) && (forall i :: 0 <= i < |all| ==> all[i].recorded <= at)
      && AdmittedBy(FRESH, limits, all, t) == AdmittedBy(FRESH, limits, attempts + [Attempt(asked, Timeout, asked)], t)
  {
    var before := attempts + [Attempt(asked, Timeout, asked)];
    var after := attempts + [Attempt(asked, outcome, at)];
    forall i | 0 <= i < |attempts| ensures after[i] == before[i] {}
    assert before[|attempts|].recorded <= now;
    AdmittedBySnoc(limits, attempts, Attempt(asked, Timeout, asked), t);
    AdmittedBySnoc(limits, attempts, Attempt(asked, outcome, at), t);
  }

  lemma AdmittedBySnoc(limits: Limits, attempts: seq<Attempt>, a: Attempt, t: Instant)
    ensures AdmittedBy(FRESH, limits, attempts + [a], t)
      == AdmittedBy(FRESH, limits, attempts, t)
         + if a.before <= t && BeforeCall(ServeAll(FRESH, limits, attempts), limits, a.before).1.Ok? then 1 else 0
  {
    assert (attempts + [a])[..|attempts|] == attempts;
  }

  /** A newly admitted operation. */
  lemma NewFailure(limits: Limits, attempts: seq<Attempt>, asked: Instant, start: Instant, now: Instant, t: Instant)
    requires Clocked(attempts, start) && AllTransient(attempts) && start <= asked && now <= asked
    requires forall i :: 0 <= i < |attempts| ==> attempts[i].recorded <= now
    requires BeforeCall(ServeAll(FRESH, limits, attempts), limits, asked).1.Ok?
    ensures
      var all := attempts + [Attempt(asked, Timeout, asked)];
      Clocked(all, start) && AllTransient(all) && (forall i :: 0 <= i < |all| ==> all[i].recorded <= asked)
      && AdmittedBy(FRESH, limits, all, t) == AdmittedBy(FRESH, limits, attempts, t) + if asked <= t then 1 else 0
  {
    AdmittedBySnoc(limits, attempts, Attempt(asked, Timeout, asked), t);
  }

  lemma TakeKeepsCount(
    g: Gate, limits: Limits, step: Step, holder: Option<nat>, k: nat, start: Instant, now: Instant, t: Instant)
    requires GateOk(g, holder) && Serial(g, holder, limits, k, FRESH) && Counted(g, holder, limits, k, start, now, t)
    requires start <= step.now && now <= step.now && !step.Abandon? && (step.Return? ==> IsTransient(step.outcome))
    ensures Counted(Take(g, limits, step), Holder(g, holder, step), limits, k, start, step.now, t)
  {
    hide Orderly, Fits, BeforeCall, Record, Served, ServeAll, Clocked, AllTransient, AdmittedBy, Begun;
    var after := Take(g, limits, step);
    var served := Served(g.log, k);
    var phase := HolderPhase(g, holder);
    assert PhaseOf(g, step.caller).Outside? <==> holder != Some(step.caller);
    assert served + [] == served;
    if after.log != g.log {
      var e := after.log[|g.log|];
      ServedSnoc(g.log, e, k);
      BegunSnoc(g.log, e, k, t);
      assert Served(after.log, k) + [] == Served(after.log, k);
      if e.Admit? && e.circuit == k {
        NewFailure(limits, served, step.now, start, now, t);
      } else if e.Note? && e.circuit == k {
        LastFailure(limits, served, phase.asked, phase.outcome, step.now, start, now, t);
      }
    }
  }

  /** If the provider behind circuit `k` is dead, then however many callers interleave, at most the
      threshold plus one operation per full cooldown since `start` begin on it by time `t`. */
  lemma CallersStayWithinTheBound(
    limits: Limits, steps: seq<Step>, circuits: map<nat, Circuit>, k: nat, start: Instant, t: Instant)
    requires limits.Valid() && k in circuits && circuits[k] == FRESH && start <= t
    requires Ticking(steps, start) && DeadProvider(steps)
    ensures Begun(TakeAll(StartGate(circuits), limits, steps).log, k, t)
      <= limits.threshold + ((t - start) / limits.cooldown).Floor
  {
    hide Ticking, DeadProvider, Clocked, AllTransient, GateOk, Serial, Begun, AdmittedBy, Served;
    var holder, now := AlwaysCounted(limits, steps, circuits, k, start, t);
    var g := TakeAll(StartGate(circuits), limits, steps);
    AdmissionBound(limits, Served(g.log, k) + Pending(HolderPhase(g, holder), k), start, t);
  }

  lemma {:induction false} AlwaysCounted(
    limits: Limits, steps: seq<Step>, circuits: map<nat, Circuit>, k: nat, start: Instant, t: Instant)
    returns (holder: Option<nat>, now: Instant)
    requires k in circuits && circuits[k] == FRESH && Ticking(steps, start) && DeadProvider(steps)
    ensures now == if steps == [] then start else steps[|steps| - 1].now
    ensures
      var g := TakeAll(StartGate(circuits), limits, steps);
      GateOk(g, holder) && Serial(g, holder, limits, k, FRESH) && Counted(g, holder, limits, k, start, now, t)
  {
    hide Take, GateOk, Serial, Counted;
    if steps == [] {
      holder, now := None, start;
      NobodyInside(circuits);
      NothingServed(circuits, limits, k);
      NothingCounted(circuits, limits, k, start, t);
    } else {
      var n := |steps| - 1;
      var before := TakeAll(StartGate(circuits), limits, steps[..n]);
      var held, earlier := AlwaysCounted(limits, steps[..n], circuits, k, start, t);
      TakeKeepsGate(before, limits, steps[n], held);
      TakeKeepsSerial(before, limits, steps[n], held, k, FRESH);
      TakeKeepsCount(before, limits, steps[n], held, k, start, earlier, t);
      holder, now := Holder(before, held, steps[n]), steps[n].now;
    }
  }

  lemma NothingCounted(circuits: map<nat, Circuit>, limits: Limits, k: nat, start: Instant, t: Instant)
    ensures Counted(StartGate(circuits), None, limits, k, start, start, t)
  {}
}
