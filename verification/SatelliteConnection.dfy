/** The core's side of a satellite connection: sessions per device, commands waiting for their
    observation, and the futures their dispatchers wait on. */
module SatelliteConnections {
  import opened Prelude

  type DeviceId = nat
  type SessionId = nat
  type CommandId = nat
  type Time = int

  const SESSION_FRESHNESS_SECONDS := 45

  datatype Frame = Frame(session: SessionId, command: CommandId, name: string, version: nat, digest: string, body: string)

  /** What a dispatcher waits on. */
  datatype Future = Open | Resolved(frame: Frame) | Failed | Abandoned

  /** How a dispatcher ends: with its observation, or by an exception; `Interrupted` is a send that failed
      or a dispatcher that was cancelled. */
  datatype Outcome = Observation(frame: Frame) | Disconnected | TimedOut(uncertain: bool) | Interrupted

  /** One call of `dispatch`, from the moment its command is pending. */
  datatype Ticket = Ticket(
    session: SessionId, command: CommandId, name: string, version: nat, digest: string, consequential: bool,
    sent: bool, future: Future, outcome: Option<Outcome>)

  datatype Session = Session(
    id: SessionId, owner: nat, capabilities: set<string>, lastSeen: Time, pending: map<CommandId, nat>)

  /** `accepted` records the frames that reached a registered session, with that session. */
  datatype Manager = Manager(sessions: map<DeviceId, Session>, tickets: seq<Ticket>, accepted: set<(SessionId, Frame)>)

  datatype Dispatch = Dispatch(
    owner: nat, capabilities: set<string>, command: CommandId, name: string, version: nat, digest: string,
    consequential: bool)

  datatype Event =
    | Register(device: DeviceId, owner: nat, id: SessionId, capabilities: set<string>, now: Time)
    | Unregister(device: DeviceId, id: SessionId)
    | UpdatePrincipal(device: DeviceId, id: SessionId, owner: nat, now: Time)
    | Begin(request: Dispatch, now: Time)
    | Sent(ticket: nat)
    | Accept(device: DeviceId, id: SessionId, frame: Frame, now: Time)
    | Wake(ticket: nat)
    | Expire(ticket: nat)
    | Interrupt(ticket: nat)

  // --- what each step does ---

  function Registering(m: Manager, device: DeviceId, owner: nat, id: SessionId, capabilities: set<string>, now: Time)
    : (Manager, Result<()>)
  {
    if device in m.sessions then (m, Err("duplicate_satellite_session"))
    else (m.(sessions := m.sessions[device := Session(id, owner, capabilities, now, map[])]), Ok(()))
  }

  /** Fail every future that is still open among the pending commands. */
  function FailPending(tickets: seq<Ticket>, pending: map<CommandId, nat>): (after: seq<Ticket>)
    ensures |after| == |tickets|
  {
    seq(|tickets|, k requires 0 <= k < |tickets| =>
      if k in pending.Values && tickets[k].future.Open? then tickets[k].(future := Failed) else tickets[k])
  }

  function Unregistering(m: Manager, device: DeviceId, id: SessionId): Manager {
    if device !in m.sessions || m.sessions[device].id != id then m
    else m.(sessions := m.sessions - {device}, tickets := FailPending(m.tickets, m.sessions[device].pending))
  }

  function UpdatingPrincipal(m: Manager, device: DeviceId, id: SessionId, owner: nat, now: Time): (Manager, Result<()>) {
    if device !in m.sessions || m.sessions[device].id != id then (m, Err("stale_satellite_session"))
    else (m.(sessions := m.sessions[device := m.sessions[device].(owner := owner, lastSeen := now)]), Ok(()))
  }

  function Matching(m: Manager, owner: nat, capabilities: set<string>, now: Time): set<DeviceId> {
    set device | device in m.sessions && m.sessions[device].owner == owner
                 && capabilities <= m.sessions[device].capabilities
                 && now - m.sessions[device].lastSeen <= SESSION_FRESHNESS_SECONDS
  }

  lemma OneMatch(devices: set<DeviceId>)
    requires |devices| == 1
    ensures exists device :: devices == {device}
  {
    var device :| device in devices;
    assert |devices - {device}| == 0;
    assert devices == {device};
  }

  ghost function Only(devices: set<DeviceId>): (device: DeviceId)
    requires |devices| == 1
    ensures devices == {device}
  {
    OneMatch(devices);
    var device :| devices == {device};
    device
  }

  /** Make a command pending on the one session that matches it. */
  ghost function Beginning(m: Manager, r: Dispatch, now: Time): (Manager, Result<nat>) {
    var matches := Matching(m, r.owner, r.capabilities, now);
    if |matches| != 1 then (m, Err("satellite_offline"))
    else
      var device := Only(matches);
      var session := m.sessions[device];
      if |r.capabilities| != 1 then (m, Err("satellite_capability_binding_invalid"))
      else if r.command in session.pending then (m, Err("duplicate_pending_command"))
      else
        var ticket := Ticket(session.id, r.command, r.name, r.version, r.digest, r.consequential, false, Open, None);
        (m.(tickets := m.tickets + [ticket],
            sessions := m.sessions[device := session.(pending := session.pending[r.command := |m.tickets|])]),
         Ok(|m.tickets|))
  }

  /** Hand an observation to the dispatcher that waits for it. */
  function Accepting(m: Manager, device: DeviceId, id: SessionId, frame: Frame, now: Time): (Manager, Result<()>) {
    if device !in m.sessions || m.sessions[device].id != id then (m, Err("stale_satellite_session"))
    else if frame.session != id then (m, Err("observation_session_mismatch"))
    else if frame.command !in m.sessions[device].pending then (m, Err("unknown_observation_command"))
    else
      var k := m.sessions[device].pending[frame.command];
      if k >= |m.tickets| || m.tickets[k].name != frame.name || m.tickets[k].version != frame.version
         || m.tickets[k].digest != frame.digest then
        (m, Err("observation_binding_mismatch"))
      else
        (m.(sessions := m.sessions[device := m.sessions[device].(lastSeen := now)],
            tickets := if m.tickets[k].future.Open? then m.tickets[k := m.tickets[k].(future := Resolved(frame))]
                       else m.tickets,
            accepted := m.accepted + {(id, frame)}),
         Ok(()))
  }

  /** Drop a command from the session object its dispatcher holds; that object may no longer be
      registered, and then it is empty already. */
  function Released(sessions: map<DeviceId, Session>, ticket: Ticket): map<DeviceId, Session> {
    map device | device in sessions ::
      if sessions[device].id == ticket.session
      then sessions[device].(pending := sessions[device].pending - {ticket.command}) else sessions[device]
  }

  /** The dispatcher resumes because its future is done. */
  function Waking(m: Manager, k: nat): Manager {
    if k >= |m.tickets| || m.tickets[k].outcome.Some? then m
    else
      match m.tickets[k].future
      case Resolved(frame) => Ended(m, k, m.tickets[k].future, Observation(frame))
      case Failed => Ended(m, k, m.tickets[k].future, Disconnected)
      case _ => m
  }

  /** Giving up on an open future cancels it, if the dispatcher had come to wait on it. */
  function GivenUp(ticket: Ticket): Future {
    if ticket.sent && ticket.future.Open? then Abandoned else ticket.future
  }

  /** The dispatcher runs out of time, while it sends or while its future is still open. */
  function Expiring(m: Manager, k: nat): Manager {
    if k >= |m.tickets| || m.tickets[k].outcome.Some? || !m.tickets[k].future.Open? then m
    else Ended(m, k, GivenUp(m.tickets[k]), TimedOut(m.tickets[k].sent && m.tickets[k].consequential))
  }

  /** The send fails, or the dispatcher is cancelled while it sends or waits. */
  function Interrupting(m: Manager, k: nat): Manager {
    if k >= |m.tickets| || m.tickets[k].outcome.Some? then m
    else Ended(m, k, GivenUp(m.tickets[k]), Interrupted)
  }

  function Ended(m: Manager, k: nat, future: Future, outcome: Outcome): Manager
    requires k < |m.tickets|
  {
    m.(tickets := m.tickets[k := m.tickets[k].(future := future, outcome := Some(outcome))],
       sessions := Released(m.sessions, m.tickets[k]))
  }

  ghost function Next(m: Manager, e: Event): Manager {
    match e
    case Register(device, owner, id, capabilities, now) => Registering(m, device, owner, id, capabilities, now).0
    case Unregister(device, id) => Unregistering(m, device, id)
    case UpdatePrincipal(device, id, owner, now) => UpdatingPrincipal(m, device, id, owner, now).0
    case Begin(request, now) => Beginning(m, request, now).0
    case Sent(k) =>
      if k < |m.tickets| && m.tickets[k].outcome.None? then m.(tickets := m.tickets[k := m.tickets[k].(sent := true)]) else m
    case Accept(device, id, frame, now) => Accepting(m, device, id, frame, now).0
    case Wake(k) => Waking(m, k)
    case Expire(k) => Expiring(m, k)
    case Interrupt(k) => Interrupting(m, k)
  }

  ghost function Run(events: seq<Event>): Manager {
    if events == [] then Manager(map[], [], {})
    else Next(Run(events[..|events| - 1]), events[|events| - 1])
  }

  /** Session identifiers are fresh: no two registrations of a run share one. */
  ghost predicate FreshSessions(events: seq<Event>) {
    forall i, j :: 0 <= i < j < |events| && events[i].Register? && events[j].Register? ==> events[i].id != events[j].id
  }

  // --- the invariant ---

  ghost predicate Bound(ticket: Ticket, frame: Frame) {
    frame.session == ticket.session && frame.command == ticket.command && frame.name == ticket.name
    && frame.version == ticket.version && frame.digest == ticket.digest
  }

  /** One ticket: what its future and outcome say is backed by an accepted frame, and it is either
      over, or its future is done, or it is pending in its own registered session. */
  ghost predicate TicketOk(m: Manager, k: nat)
    requires k < |m.tickets|
  {
    var t := m.tickets[k];
    (t.future.Resolved? ==> Bound(t, t.future.frame) && (t.session, t.future.frame) in m.accepted)
    && (t.outcome.Some? ==>
          match t.outcome.value
          case Observation(frame) => t.future == Resolved(frame)
          case Disconnected => t.future == Failed
          case TimedOut(_) => t.future == if t.sent then Abandoned else Open
          case Interrupted => true)
    && (t.outcome.None? ==> !t.future.Abandoned?)
    && (t.outcome.None? && t.future.Open? ==> PendingSomewhere(m.sessions, t, k))
    && (t.outcome.None? ==> PendingSomewhere(m.sessions, t, k) || Gone(m.sessions, t.session))
  }

  ghost predicate Gone(sessions: map<DeviceId, Session>, id: SessionId) {
    forall device :: device in sessions ==> sessions[device].id != id
  }

  ghost predicate PendingSomewhere(sessions: map<DeviceId, Session>, t: Ticket, k: nat) {
    exists device :: device in sessions && sessions[device].id == t.session
      && t.command in sessions[device].pending && sessions[device].pending[t.command] == k
  }

  /** A registered session's pending entries are its own unfinished tickets. */
  ghost predicate SessionOk(m: Manager, device: DeviceId)
    requires device in m.sessions
  {
    var s := m.sessions[device];
    forall command :: command in s.pending ==>
      s.pending[command] < |m.tickets|
      && var t := m.tickets[s.pending[command]];
         t.session == s.id && t.command == command && t.outcome.None?
  }

  ghost predicate DistinctIds(sessions: map<DeviceId, Session>) {
    forall d, e :: d in sessions && e in sessions && sessions[d].id == sessions[e].id ==> d == e
  }

  ghost predicate ManagerOk(m: Manager) {
    DistinctIds(m.sessions)
    && (forall device :: device in m.sessions ==> SessionOk(m, device))
    && (forall k :: 0 <= k < |m.tickets| ==> TicketOk(m, k))
  }

  // --- what the steps mean ---

  /** A session a dispatch may go to: of its owner, with its capabilities, and heard of lately. */
  ghost predicate Suits(s: Session, r: Dispatch, now: Time) {
    s.owner == r.owner && r.capabilities <= s.capabilities && now - s.lastSeen <= 45
  }

  ghost predicate OnlySuitable(m: Manager, r: Dispatch, now: Time, device: DeviceId) {
    device in m.sessions && Suits(m.sessions[device], r, now)
    && forall other :: other in m.sessions && Suits(m.sessions[other], r, now) ==> other == device
  }

  /** A dispatch gets a ticket if and only if it names one capability and exactly one registered session
      suits it, in which its command is not pending yet. Then the ticket is that session's, for that
      command, and open, and the command is pending there and only there; otherwise nothing changes. */
  lemma SelectionLaw(m: Manager, r: Dispatch, now: Time)
    ensures
      var (after, result) := Beginning(m, r, now);
      (result.Ok? <==>
        |r.capabilities| == 1
        && exists device: DeviceId :: OnlySuitable(m, r, now, device) && r.command !in m.sessions[device].pending)
      && (result == Err("satellite_offline") <==> forall device: DeviceId :: !OnlySuitable(m, r, now, device))
      && (result == Err("satellite_capability_binding_invalid") <==>
            |r.capabilities| != 1 && exists device: DeviceId :: OnlySuitable(m, r, now, device))
      && (forall device: DeviceId :: OnlySuitable(m, r, now, device) && result.Ok? ==>
            var k, s := |m.tickets|, m.sessions[device];
            result.value == k
            && after == m.(
                 tickets := m.tickets + [Ticket(s.id, r.command, r.name, r.version, r.digest, r.consequential, false, Open,
                                                None)],
                 sessions := m.sessions[device := s.(pending := s.pending[r.command := k])])
            && (ManagerOk(m) ==>
                  forall d, command :: d in after.sessions && command in after.sessions[d].pending ==>
                    (after.sessions[d].pending[command] == k <==> d == device && command == r.command)))
      && (result.Err? ==> after == m)
  {
    hide ManagerOk, Matching;
    MatchingLaw(m, r, now);
    hide Suits, OnlySuitable;
    var (after, result) := Beginning(m, r, now);
    if result.Ok? && ManagerOk(m) {
      var device := Only(Matching(m, r.owner, r.capabilities, now));
      NewIsNowherePending(m);
      forall d, command | d in after.sessions && command in after.sessions[d].pending
        ensures after.sessions[d].pending[command] == |m.tickets| <==> d == device && command == r.command
      {
        assert d in m.sessions;
        if d != device || command != r.command { assert command in m.sessions[d].pending; }
      }
    }
  }

  /** One session matches if and only if one is the only suitable one, and it is that one. */
  lemma MatchingLaw(m: Manager, r: Dispatch, now: Time)
    ensures
      var matches := Matching(m, r.owner, r.capabilities, now);
      (|matches| == 1 <==> exists device: DeviceId :: OnlySuitable(m, r, now, device))
      && (|matches| == 1 ==> Only(matches) in m.sessions)
      && forall device: DeviceId :: OnlySuitable(m, r, now, device) ==> |matches| == 1 && device == Only(matches)
  {
    var matches := Matching(m, r.owner, r.capabilities, now);
    forall device: DeviceId | OnlySuitable(m, r, now, device) ensures |matches| == 1 && matches == {device} {
      assert matches == {device};
    }
    if |matches| == 1 {
      var device := Only(matches);
      assert device in matches;
      forall other | other in m.sessions && Suits(m.sessions[other], r, now) ensures other == device {
        assert other in matches;
      }
      assert OnlySuitable(m, r, now, device);
    }
  }

  lemma NewIsNowherePending(m: Manager)
    requires ManagerOk(m)
    ensures forall d, command :: d in m.sessions && command in m.sessions[d].pending ==>
      m.sessions[d].pending[command] < |m.tickets|
  {
    forall d, command | d in m.sessions && command in m.sessions[d].pending
      ensures m.sessions[d].pending[command] < |m.tickets|
    {
      assert SessionOk(m, d);
    }
  }

  /** The device has exactly this session. */
  ghost predicate Registered(m: Manager, device: DeviceId, id: SessionId) {
    device in m.sessions && m.sessions[device].id == id
  }

  /** A device without a session gets one, with nothing pending, and with one gets no other; only the
      current session changes its owner and is heard of again; and only its own unregistration
      removes it, failing what was open and pending there. */
  lemma RegistrationLaw(m: Manager, device: DeviceId, owner: nat, id: SessionId, capabilities: set<string>, now: Time)
    ensures
      var (after, result) := Registering(m, device, owner, id, capabilities, now);
      (result.Ok? <==> device !in m.sessions)
      && after == if device in m.sessions then m
                  else m.(sessions := m.sessions[device := Session(id, owner, capabilities, now, map[])])
    ensures
      var (after, result) := UpdatingPrincipal(m, device, id, owner, now);
      (result.Ok? <==> Registered(m, device, id))
      && after == if !Registered(m, device, id) then m
                  else
                    var s := m.sessions[device];
                    m.(sessions := m.sessions[device := Session(s.id, owner, s.capabilities, now, s.pending)])
    ensures
      var after := Unregistering(m, device, id);
      if !Registered(m, device, id) then after == m
      else
        after.sessions == m.sessions - {device} && after.accepted == m.accepted && |after.tickets| == |m.tickets|
        && forall k :: 0 <= k < |m.tickets| ==>
             after.tickets[k]
             == if m.tickets[k].future.Open? && exists command :: command in m.sessions[device].pending
                                                  && m.sessions[device].pending[command] == k
                then m.tickets[k].(future := Failed) else m.tickets[k]
  {}

  /** A frame is accepted if and only if it comes over the device's current session, names that session,
      and answers a command pending there by its name, version and digest; then its dispatcher, if it
      still waits, has it, and the session was heard of. */
  lemma AcceptanceLaw(m: Manager, device: DeviceId, id: SessionId, frame: Frame, now: Time)
    ensures
      var (after, result) := Accepting(m, device, id, frame, now);
      (result.Ok? <==>
        Registered(m, device, id) && frame.session == id && frame.command in m.sessions[device].pending
        && var k := m.sessions[device].pending[frame.command];
           k < |m.tickets|
           && (m.tickets[k].name, m.tickets[k].version, m.tickets[k].digest) == (frame.name, frame.version, frame.digest))
      && (result.Err? ==> after == m)
      && (result.Ok? ==>
            var s := m.sessions[device];
            var k := s.pending[frame.command];
            var t := m.tickets[k];
            after.sessions == m.sessions[device := Session(s.id, s.owner, s.capabilities, now, s.pending)]
            && after.accepted == m.accepted + {(id, frame)} && |after.tickets| == |m.tickets|
            && (forall j :: 0 <= j < |m.tickets| && j != k ==> after.tickets[j] == m.tickets[j])
            && after.tickets[k] == t.(future := if t.future == Open then Resolved(frame) else t.future))
  {}

  /** One dispatcher returned `outcome`, its future became `future`, and its command is no longer pending
      in its session; nothing else changed. */
  ghost predicate Returned(m: Manager, after: Manager, k: nat, future: Future, outcome: Outcome) {
    k < |m.tickets|
    && after.tickets == m.tickets[k := m.tickets[k].(future := future, outcome := Some(outcome))]
    && after.accepted == m.accepted && after.sessions.Keys == m.sessions.Keys
    && forall device :: device in m.sessions ==>
         var s := m.sessions[device];
         after.sessions[device] == s.(pending := after.sessions[device].pending)
         && forall command ::
              (command in after.sessions[device].pending <==>
                command in s.pending && !(s.id == m.tickets[k].session && command == m.tickets[k].command))
              && (command in after.sessions[device].pending ==>
                    after.sessions[device].pending[command] == s.pending[command])
  }

  /** How a dispatcher that has not returned can: with the frame it got; with a disconnection; out of time
      while nothing came, uncertain if and only if a consequential command was sent; or interrupted. Giving
      up abandons an open future it had come to wait on. One that returned stays as it is. */
  lemma ReturnLaw(m: Manager, k: nat)
    requires k < |m.tickets|
    ensures
      var t := m.tickets[k];
      var left := if t.sent && t.future == Open then Abandoned else t.future;
      if t.outcome.Some? then Waking(m, k) == m && Expiring(m, k) == m && Interrupting(m, k) == m
      else
        (match t.future
         case Resolved(frame) => Returned(m, Waking(m, k), k, t.future, Observation(frame))
         case Failed => Returned(m, Waking(m, k), k, t.future, Disconnected)
         case _ => Waking(m, k) == m)
        && (if t.future == Open then Returned(m, Expiring(m, k), k, left, TimedOut(t.sent && t.consequential))
            else Expiring(m, k) == m)
        && Returned(m, Interrupting(m, k), k, left, Interrupted)
  {
    hide Ended, Returned;
    ReleaseLaw(m, k, m.tickets[k].future, Disconnected);
    ReleaseLaw(m, k, GivenUp(m.tickets[k]), Interrupted);
    ReleaseLaw(m, k, GivenUp(m.tickets[k]), TimedOut(m.tickets[k].sent && m.tickets[k].consequential));
    if m.tickets[k].future.Resolved? { ReleaseLaw(m, k, m.tickets[k].future, Observation(m.tickets[k].future.frame)); }
  }

  lemma ReleaseLaw(m: Manager, k: nat, future: Future, outcome: Outcome)
    requires k < |m.tickets|
    ensures Returned(m, Ended(m, k, future, outcome), k, future, outcome)
  {}

  // --- the invariant is kept ---

  lemma RegisterKeeps(m: Manager, device: DeviceId, owner: nat, id: SessionId, capabilities: set<string>, now: Time)
    requires ManagerOk(m) && Gone(m.sessions, id) && forall k :: 0 <= k < |m.tickets| ==> m.tickets[k].session != id
    ensures ManagerOk(Registering(m, device, owner, id, capabilities, now).0)
  {
    var after := Registering(m, device, owner, id, capabilities, now).0;
    forall k | 0 <= k < |m.tickets| ensures TicketOk(after, k) {
      assert TicketOk(m, k);
      if PendingSomewhere(m.sessions, m.tickets[k], k) {
        var d :| d in m.sessions && m.sessions[d].id == m.tickets[k].session
          && m.tickets[k].command in m.sessions[d].pending && m.sessions[d].pending[m.tickets[k].command] == k;
        assert d in after.sessions;
      }
    }
    forall d | d in after.sessions ensures SessionOk(after, d) {
      if d in m.sessions { assert SessionOk(m, d); }
    }
  }

  lemma UnregisterKeeps(m: Manager, device: DeviceId, id: SessionId)
    requires ManagerOk(m)
    ensures ManagerOk(Unregistering(m, device, id))
  {
    var after := Unregistering(m, device, id);
    if after != m {
      forall d | d in after.sessions ensures SessionOk(after, d) { assert SessionOk(m, d); }
      forall k | 0 <= k < |m.tickets| ensures TicketOk(after, k) {
        assert TicketOk(m, k);
        if PendingSomewhere(m.sessions, m.tickets[k], k) {
          var t := m.tickets[k];
          var d :| d in m.sessions && m.sessions[d].id == t.session
            && t.command in m.sessions[d].pending && m.sessions[d].pending[t.command] == k;
          if d == device {
            assert k in m.sessions[device].pending.Values;
          } else {
            assert d in after.sessions;
          }
        }
      }
    }
  }

  lemma UpdateKeeps(m: Manager, device: DeviceId, id: SessionId, owner: nat, now: Time)
    requires ManagerOk(m)
    ensures ManagerOk(UpdatingPrincipal(m, device, id, owner, now).0)
  {
    var after := UpdatingPrincipal(m, device, id, owner, now).0;
    SamePending(m, after);
  }

  /** Steps that keep every session's identity and pending entries, and every ticket's standing. */
  lemma SamePending(m: Manager, after: Manager)
    requires ManagerOk(m) && after.sessions.Keys == m.sessions.Keys && |after.tickets| == |m.tickets|
    requires forall d :: d in m.sessions ==>
      after.sessions[d].id == m.sessions[d].id && after.sessions[d].pending == m.sessions[d].pending
    requires forall k :: 0 <= k < |m.tickets| ==>
      after.tickets[k] == m.tickets[k].(sent := after.tickets[k].sent, future := after.tickets[k].future)
      && (m.tickets[k].outcome.Some? ==> after.tickets[k].sent == m.tickets[k].sent)
      && (after.tickets[k].future == m.tickets[k].future
          || (m.tickets[k].future.Open? && m.tickets[k].outcome.None? && after.tickets[k].future.Resolved?
              && Bound(m.tickets[k], after.tickets[k].future.frame)
              && (m.tickets[k].session, after.tickets[k].future.frame) in after.accepted))
    requires m.accepted <= after.accepted
    ensures ManagerOk(after)
  {
    forall d | d in after.sessions ensures SessionOk(after, d) { assert SessionOk(m, d); }
    forall k | 0 <= k < |m.tickets| ensures TicketOk(after, k) {
      assert TicketOk(m, k);
      if PendingSomewhere(m.sessions, m.tickets[k], k) {
        var t := m.tickets[k];
        var d :| d in m.sessions && m.sessions[d].id == t.session
          && t.command in m.sessions[d].pending && m.sessions[d].pending[t.command] == k;
        assert d in after.sessions && after.sessions[d].pending[t.command] == k;
      }
    }
  }

  lemma AcceptKeeps(m: Manager, device: DeviceId, id: SessionId, frame: Frame, now: Time)
    requires ManagerOk(m)
    ensures ManagerOk(Accepting(m, device, id, frame, now).0)
  {
    var after := Accepting(m, device, id, frame, now).0;
    if after != m {
      assert SessionOk(m, device);
      var k := m.sessions[device].pending[frame.command];
      assert Bound(m.tickets[k], frame);
      SamePending(m, after);
    }
  }

  lemma BeginKeeps(m: Manager, r: Dispatch, now: Time)
    requires ManagerOk(m)
    ensures ManagerOk(Beginning(m, r, now).0)
  {
    var after := Beginning(m, r, now).0;
    if after != m {
      var device := Only(Matching(m, r.owner, r.capabilities, now));
      forall d | d in after.sessions ensures SessionOk(after, d) { assert SessionOk(m, d); }
      forall k | 0 <= k < |after.tickets| ensures TicketOk(after, k) {
        if k < |m.tickets| {
          assert TicketOk(m, k);
          var t := m.tickets[k];
          if PendingSomewhere(m.sessions, t, k) {
            var d :| d in m.sessions && m.sessions[d].id == t.session
              && t.command in m.sessions[d].pending && m.sessions[d].pending[t.command] == k;
            assert d in after.sessions && after.sessions[d].pending[t.command] == k;
          }
        } else {
          assert device in after.sessions && after.sessions[device].pending[r.command] == k;
        }
      }
    }
  }

  /** An unfinished ticket whose session is registered is pending there. */
  lemma WaitsInItsSession(m: Manager, k: nat, device: DeviceId)
    requires ManagerOk(m) && k < |m.tickets| && m.tickets[k].outcome.None?
    requires device in m.sessions && m.sessions[device].id == m.tickets[k].session
    ensures m.tickets[k].command in m.sessions[device].pending
    ensures m.sessions[device].pending[m.tickets[k].command] == k
  {
    assert TicketOk(m, k);
    assert PendingSomewhere(m.sessions, m.tickets[k], k);
  }

  lemma EndKeeps(m: Manager, k: nat, future: Future, outcome: Outcome)
    requires ManagerOk(m) && k < |m.tickets| && m.tickets[k].outcome.None?
    requires (future == m.tickets[k].future && future.Resolved? && outcome == Observation(future.frame))
      || (future == m.tickets[k].future == Failed && outcome == Disconnected)
      || (m.tickets[k].future.Open? && future == GivenUp(m.tickets[k]) && outcome.TimedOut?)
      || (future == GivenUp(m.tickets[k]) && outcome == Interrupted)
    ensures ManagerOk(Ended(m, k, future, outcome))
  {
    var after := Ended(m, k, future, outcome);
    assert TicketOk(m, k);
    forall d | d in after.sessions ensures SessionOk(after, d) { assert SessionOk(m, d); }
    forall j | 0 <= j < |m.tickets| ensures TicketOk(after, j) {
      assert TicketOk(m, j);
      var t := m.tickets[j];
      if j != k && PendingSomewhere(m.sessions, t, j) {
        var d :| d in m.sessions && m.sessions[d].id == t.session
          && t.command in m.sessions[d].pending && m.sessions[d].pending[t.command] == j;
        assert SessionOk(m, d);
        if m.sessions[d].id == m.tickets[k].session { WaitsInItsSession(m, k, d); }
        assert d in after.sessions;
      }
    }
  }

  // --- runs ---

  function RegisteredIds(events: seq<Event>): set<SessionId> {
    set e | e in events && e.Register? :: e.id
  }

  ghost predicate Uses(m: Manager, ids: set<SessionId>) {
    (forall d :: d in m.sessions ==> m.sessions[d].id in ids)
    && forall k :: 0 <= k < |m.tickets| ==> m.tickets[k].session in ids
  }

  lemma NextUses(m: Manager, e: Event, ids: set<SessionId>)
    requires Uses(m, ids) && (e.Register? ==> e.id in ids)
    ensures Uses(Next(m, e), ids)
  {
    hide Matching;
    match e {
      case Begin(request, now) => BeginUses(m, request, now, ids);
      case _ =>
    }
  }

  lemma BeginUses(m: Manager, r: Dispatch, now: Time, ids: set<SessionId>)
    requires Uses(m, ids)
    ensures Uses(Beginning(m, r, now).0, ids)
  {}

  lemma NextKeeps(m: Manager, e: Event)
    requires ManagerOk(m)
    requires e.Register? ==> Gone(m.sessions, e.id) && forall k :: 0 <= k < |m.tickets| ==> m.tickets[k].session != e.id
    ensures ManagerOk(Next(m, e))
  {
    hide ManagerOk, Registering, Unregistering, UpdatingPrincipal, Beginning, Accepting, Ended, GivenUp;
    match e {
      case Register(device, owner, id, capabilities, now) => RegisterKeeps(m, device, owner, id, capabilities, now);
      case Unregister(device, id) => UnregisterKeeps(m, device, id);
      case UpdatePrincipal(device, id, owner, now) => UpdateKeeps(m, device, id, owner, now);
      case Begin(request, now) => BeginKeeps(m, request, now);
      case Sent(k) => SentKeeps(m, k);
      case Accept(device, id, frame, now) => AcceptKeeps(m, device, id, frame, now);
      case Wake(k) => WakeKeeps(m, k);
      case Expire(k) => ExpireKeeps(m, k);
      case Interrupt(k) => InterruptKeeps(m, k);
    }
  }

  lemma SentKeeps(m: Manager, k: nat)
    requires ManagerOk(m)
    ensures ManagerOk(Next(m, Sent(k)))
  {
    SamePending(m, Next(m, Sent(k)));
  }

  lemma WakeKeeps(m: Manager, k: nat)
    requires ManagerOk(m)
    ensures ManagerOk(Waking(m, k))
  {
    hide ManagerOk, Ended;
    if k < |m.tickets| && m.tickets[k].outcome.None? {
      if m.tickets[k].future.Resolved? {
        EndKeeps(m, k, m.tickets[k].future, Observation(m.tickets[k].future.frame));
      } else if m.tickets[k].future.Failed? {
        EndKeeps(m, k, m.tickets[k].future, Disconnected);
      }
    }
  }

  lemma ExpireKeeps(m: Manager, k: nat)
    requires ManagerOk(m)
    ensures ManagerOk(Expiring(m, k))
  {
    hide ManagerOk, Ended;
    if k < |m.tickets| && m.tickets[k].outcome.None? && m.tickets[k].future.Open? {
      EndKeeps(m, k, GivenUp(m.tickets[k]), TimedOut(m.tickets[k].sent && m.tickets[k].consequential));
    }
  }

  lemma InterruptKeeps(m: Manager, k: nat)
    requires ManagerOk(m)
    ensures ManagerOk(Interrupting(m, k))
  {
    hide ManagerOk, Ended;
    if k < |m.tickets| && m.tickets[k].outcome.None? {
      EndKeeps(m, k, GivenUp(m.tickets[k]), Interrupted);
    }
  }

  lemma {:induction false} RunIsOk(events: seq<Event>)
    requires FreshSessions(events)
    ensures ManagerOk(Run(events)) && Uses(Run(events), RegisteredIds(events))
  {
    hide Next, ManagerOk, Uses;
    if events == [] {
      EmptyIsOk();
    } else {
      var n := |events| - 1;
      var e := events[n];
      assert events == events[..n] + [e];
      forall i, j | 0 <= i < j < n && events[i].Register? && events[j].Register?
        ensures events[..n][i].id != events[..n][j].id
      {}
      RunIsOk(events[..n]);
      if e.Register? {
        forall i | 0 <= i < n && events[i].Register? ensures events[i].id != e.id {}
        assert e.id !in RegisteredIds(events[..n]);
        UsesMeans(Run(events[..n]), RegisteredIds(events[..n]), e.id);
      }
      NextKeeps(Run(events[..n]), e);
      MoreUses(Run(events[..n]), RegisteredIds(events[..n]), RegisteredIds(events));
      NextUses(Run(events[..n]), e, RegisteredIds(events));
    }
  }

  lemma EmptyIsOk()
    ensures ManagerOk(Run([])) && Uses(Run([]), RegisteredIds([]))
  {}

  lemma UsesMeans(m: Manager, ids: set<SessionId>, id: SessionId)
    requires Uses(m, ids) && id !in ids
    ensures Gone(m.sessions, id) && forall k :: 0 <= k < |m.tickets| ==> m.tickets[k].session != id
  {}

  lemma MoreUses(m: Manager, ids: set<SessionId>, more: set<SessionId>)
    requires Uses(m, ids) && ids <= more
    ensures Uses(m, more)
  {}

  // --- the theorems ---

  /** In every run: a dispatcher that returns an observation returns a frame of its own session,
      command, name, version and digest that reached that session while it was registered; a
      dispatcher that has not returned either waits in its own registered session or can return. */
  lemma ObservationsAreBound(events: seq<Event>, k: nat)
    requires FreshSessions(events)
    ensures
      var m := Run(events);
      k < |m.tickets| ==>
        var t := m.tickets[k];
        (t.outcome.Some? && t.outcome.value.Observation? ==>
           Bound(t, t.outcome.value.frame) && (t.session, t.outcome.value.frame) in m.accepted)
        && (t.outcome.None? ==>
              PendingSomewhere(m.sessions, t, k) || t.future.Failed? || t.future.Resolved?)
  {
    RunIsOk(events);
    var m := Run(events);
    hide Run, FreshSessions;
    if k < |m.tickets| {
      assert TicketOk(m, k);
    }
  }

  /** However a dispatcher ended, its command is no longer pending under its ticket, so no later frame can
      reach its future: with an observation, a disconnection, a timeout, a failed send or a cancellation. */
  lemma EndedAreReleased(events: seq<Event>, e: Event, k: nat)
    requires FreshSessions(events)
    ensures
      var m := Run(events);
      k < |m.tickets| && m.tickets[k].outcome.Some? ==>
        !PendingSomewhere(m.sessions, m.tickets[k], k) && Next(m, e).tickets[k] == m.tickets[k]
  {
    RunIsOk(events);
    var m := Run(events);
    hide Run, FreshSessions, Matching;
    if k < |m.tickets| && m.tickets[k].outcome.Some? {
      NobodyPoints(m, k);
    }
  }

  lemma NobodyPoints(m: Manager, k: nat)
    requires ManagerOk(m) && k < |m.tickets| && m.tickets[k].outcome.Some?
    ensures forall device :: device in m.sessions ==> k !in m.sessions[device].pending.Values
  {
    forall device | device in m.sessions ensures k !in m.sessions[device].pending.Values {
      assert SessionOk(m, device);
    }
  }

  /** A frame counts as accepted by a session only in a step at which that session is registered. */
  lemma AcceptedWhileRegistered(m: Manager, e: Event, id: SessionId, frame: Frame)
    requires (id, frame) !in m.accepted && (id, frame) in Next(m, e).accepted
    ensures e.Accept? && e.id == id && e.frame == frame && e.device in m.sessions && m.sessions[e.device].id == id
  {
    hide Matching;
  }

  /** Each dispatcher returns at most once: no step changes an outcome, nor a future that is done. */
  lemma OutcomesAreFinal(m: Manager, e: Event, k: nat)
    requires k < |m.tickets|
    ensures
      var after := Next(m, e);
      k < |after.tickets|
      && (m.tickets[k].outcome.Some? ==> after.tickets[k].outcome == m.tickets[k].outcome)
      && (!m.tickets[k].future.Open? ==> after.tickets[k].future == m.tickets[k].future)
      && after.tickets[k] == m.tickets[k].(sent := after.tickets[k].sent, future := after.tickets[k].future,
                                           outcome := after.tickets[k].outcome)
  {
    hide Matching, Released;
  }

  /** A device's session changes only by its own registration and by an unregistration that names
      it: a stale unregistration never removes a newer session. */
  lemma StaleUnregisterIsHarmless(m: Manager, e: Event, device: DeviceId)
    requires device in m.sessions
    ensures
      var after := Next(m, e);
      (device in after.sessions && after.sessions[device].id == m.sessions[device].id)
      || (e == Unregister(device, m.sessions[device].id) && device !in after.sessions)
  {
    hide Matching;
  }

  /** Unregistering leaves nothing pending in the session and fails every command that was waiting
      there and unresolved, so that its dispatcher can only report an uncertain disconnection. */
  lemma UnregisterFailsTheUnresolved(events: seq<Event>, device: DeviceId, k: nat)
    requires FreshSessions(events)
    ensures
      var m := Run(events);
      device in m.sessions && k < |m.tickets| && m.tickets[k].session == m.sessions[device].id
      && m.tickets[k].outcome.None? ==>
        var after := Unregistering(m, device, m.sessions[device].id);
        Gone(after.sessions, m.sessions[device].id)
        && (m.tickets[k].future.Open? ==>
              after.tickets[k].future == Failed && Waking(after, k).tickets[k].outcome == Some(Disconnected))
        && (m.tickets[k].future.Resolved? ==>
              Waking(after, k).tickets[k].outcome == Some(Observation(m.tickets[k].future.frame)))
  {
    RunIsOk(events);
    var m := Run(events);
    hide Run, FreshSessions;
    if device in m.sessions && k < |m.tickets| && m.tickets[k].session == m.sessions[device].id {
      assert TicketOk(m, k);
      if PendingSomewhere(m.sessions, m.tickets[k], k) {
        assert k in m.sessions[device].pending.Values;
      }
    }
  }

  // --- the manager as it runs ---

  datatype End = FutureDone | OutOfTime | SendFailedOrCancelled

  class SatelliteConnectionManager {
    var sessions: map<DeviceId, Session>
    var tickets: seq<Ticket>
    ghost var accepted: set<(SessionId, Frame)>

    ghost function Snapshot(): Manager
      reads this
    {
      Manager(sessions, tickets, accepted)
    }

    constructor ()
      ensures Snapshot() == Manager(map[], [], {})
    {
      sessions, tickets, accepted := map[], [], {};
    }

    method RegisterSession(device: DeviceId, owner: nat, id: SessionId, capabilities: set<string>, now: Time)
      returns (result: Result<()>)
      modifies this
      ensures (Snapshot(), result) == Registering(old(Snapshot()), device, owner, id, capabilities, now)
    {
      if device in sessions { return Err("duplicate_satellite_session"); }
      sessions := sessions[device := Session(id, owner, capabilities, now, map[])];
      return Ok(());
    }

    /** Remove the session, then fail every command that still waits in it. */
    method UnregisterSession(device: DeviceId, id: SessionId)
      requires device in sessions ==> forall k :: k in sessions[device].pending.Values ==> k < |tickets|
      modifies this
      ensures Snapshot() == Unregistering(old(Snapshot()), device, id)
    {
      if device !in sessions || sessions[device].id != id { return; }
      var session := sessions[device];
      sessions := sessions - {device};
      var remaining := session.pending.Values;
      while remaining != {}
        invariant remaining <= session.pending.Values && |tickets| == |old(tickets)|
        invariant forall k :: 0 <= k < |tickets| ==>
          tickets[k] == if k in session.pending.Values && k !in remaining && old(tickets)[k].future.Open?
                        then old(tickets)[k].(future := Failed) else old(tickets)[k]
        invariant sessions == old(sessions) - {device} && accepted == old(accepted)
        decreases remaining
      {
        var k :| k in remaining;
        if tickets[k].future.Open? {
          tickets := tickets[k := tickets[k].(future := Failed)];
        }
        remaining := remaining - {k};
      }
      assert tickets == FailPending(old(tickets), session.pending);
    }

    method UpdateSessionPrincipal(device: DeviceId, id: SessionId, owner: nat, now: Time) returns (result: Result<()>)
      modifies this
      ensures (Snapshot(), result) == UpdatingPrincipal(old(Snapshot()), device, id, owner, now)
    {
      if device !in sessions || sessions[device].id != id { return Err("stale_satellite_session"); }
      sessions := sessions[device := sessions[device].(owner := owner, lastSeen := now)];
      return Ok(());
    }

    /** `dispatch` up to its first await: the command is pending when it returns a ticket. */
    method BeginDispatch(r: Dispatch, now: Time) returns (result: Result<nat>)
      modifies this
      ensures (Snapshot(), result) == Beginning(old(Snapshot()), r, now)
    {
      var matches := set device | device in sessions && sessions[device].owner == r.owner
                                  && r.capabilities <= sessions[device].capabilities
                                  && now - sessions[device].lastSeen <= SESSION_FRESHNESS_SECONDS;
      assert matches == Matching(Snapshot(), r.owner, r.capabilities, now);
      if |matches| != 1 { return Err("satellite_offline"); }
      OneMatch(matches);
      var device :| device in matches;
      assert device == Only(matches);
      if |r.capabilities| != 1 { return Err("satellite_capability_binding_invalid"); }
      if r.command in sessions[device].pending { return Err("duplicate_pending_command"); }
      var k := |tickets|;
      var session := sessions[device];
      sessions := sessions[device := session.(pending := session.pending[r.command := k])];
      tickets := tickets + [Ticket(session.id, r.command, r.name, r.version, r.digest, r.consequential, false, Open, None)];
      return Ok(k);
    }

    /** `dispatch` after its first await, however it ends: its future is done, it ran out of time, its send
        failed, or it was cancelled. In every case its command is released. */
    method EndDispatch(k: nat, how: End) returns (outcome: Option<Outcome>)
      modifies this
      ensures Snapshot() == match how
        case FutureDone => Waking(old(Snapshot()), k)
        case OutOfTime => Expiring(old(Snapshot()), k)
        case SendFailedOrCancelled => Interrupting(old(Snapshot()), k)
    {
      outcome := None;
      if k >= |tickets| || tickets[k].outcome.Some? { return; }
      var ticket := tickets[k];
      var future := ticket.future;
      match how {
        case FutureDone =>
          if !future.Resolved? && !future.Failed? { return; }
          outcome := Some(if future.Resolved? then Observation(future.frame) else Disconnected);
        case OutOfTime =>
          if !future.Open? { return; }
          outcome := Some(TimedOut(ticket.sent && ticket.consequential));
        case SendFailedOrCancelled =>
          outcome := Some(Interrupted);
      }
      if how != FutureDone && ticket.sent && future.Open? { future := Abandoned; }
      tickets := tickets[k := ticket.(future := future, outcome := outcome)];
      sessions := Released(sessions, ticket);
    }

    method AcceptObservation(device: DeviceId, id: SessionId, frame: Frame, now: Time) returns (result: Result<()>)
      modifies this
      ensures (Snapshot(), result) == Accepting(old(Snapshot()), device, id, frame, now)
    {
      if device !in sessions || sessions[device].id != id { return Err("stale_satellite_session"); }
      if frame.session != id { return Err("observation_session_mismatch"); }
      if frame.command !in sessions[device].pending { return Err("unknown_observation_command"); }
      var k := sessions[device].pending[frame.command];
      if k >= |tickets| || tickets[k].name != frame.name || tickets[k].version != frame.version
         || tickets[k].digest != frame.digest {
        return Err("observation_binding_mismatch");
      }
      sessions := sessions[device := sessions[device].(lastSeen := now)];
      if tickets[k].future.Open? {
        tickets := tickets[k := tickets[k].(future := Resolved(frame))];
      }
      accepted := accepted + {(id, frame)};
      return Ok(());
    }
  }
}
