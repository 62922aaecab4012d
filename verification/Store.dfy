/** The rows that the tool platform and the conversation service share, as one value.
    Committed rows are never deleted: no step of either service deletes one. */
module Store {
  import opened Prelude

  type OwnerId = nat
  type DeviceId = nat
  type ConversationId = nat
  type SessionId = nat
  type RunId = nat
  type MessageId = nat
  type CallId = nat
  type ApprovalId = nat
  type Digest = string
  type Time = int

  const POLICY_VERSION := "phase8-v1"

  datatype Risk = Read | Reversible | Consequential | Critical | ForbiddenAutonomous

  datatype Decision = Allow | RequireApproval | Deny

  datatype CallStatus =
    | Proposed | Validated | Denied | AwaitingApproval | Approved | Executing
    | CancelRequested | Succeeded | Failed | Rejected | Expired | Cancelled

  datatype ApprovalStatus = Pending | Approved | Rejected | Expired | Cancelled | Consumed

  datatype ObservationStatus = Succeeded | Failed | Cancelled

  datatype RunStatus = Queued | Running | CancelRequested | Succeeded | Failed | Cancelled

  datatype AuditKind =
    | ToolProposed | ToolDenied | ToolAwaitingApproval | ApprovalRequired | ToolApproved
    | ApprovalApproved | ApprovalRejected | ApprovalExpired | ToolStarted | ToolCancelRequested
    | ToolCancelDeliveryFailed | ToolCancelled | ToolSucceeded | ToolFailed

  datatype Device = Device(owner: OwnerId, active: bool)

  datatype Conversation = Conversation(owner: OwnerId, active: bool)

  datatype Session = Session(
    conversation: ConversationId, owner: OwnerId, device: DeviceId, active: bool)

  datatype Run = Run(
    conversation: ConversationId, session: SessionId, requestDevice: DeviceId,
    trigger: MessageId, model: string, status: RunStatus, truncated: bool,
    firstSequence: Option<nat>, lastSequence: Option<nat>)

  datatype Role = User | Assistant

  datatype ChatMessage = ChatMessage(
    id: MessageId, conversation: ConversationId, run: RunId, author: Option<DeviceId>,
    role: Role, content: string, ordinal: nat, clientId: Option<nat>)

  datatype ToolCall = ToolCall(
    owner: OwnerId, device: DeviceId, conversation: Option<ConversationId>, run: Option<RunId>,
    tool: string, version: nat, risk: Risk, status: CallStatus, digest: Digest, key: string,
    policy: string, decision: Option<Decision>, reason: string, approval: Option<ApprovalId>,
    createdAt: Time, startedAt: Option<Time>, completedAt: Option<Time>)

  datatype Approval = Approval(
    call: CallId, owner: OwnerId, requestingDevice: DeviceId, tool: string, version: nat,
    risk: Risk, digest: Digest, policy: string, status: ApprovalStatus, expiresAt: Time,
    decidedBy: Option<DeviceId>, decidedAt: Option<Time>, consumedAt: Option<Time>)

  datatype Observation = Observation(status: ObservationStatus, observedAt: Time)

  datatype AuditEvent = AuditEvent(
    call: Option<CallId>, approval: Option<ApprovalId>, kind: AuditKind,
    result: Option<CallStatus>, reason: string, at: Time)

  datatype EventKind =
    | SessionReady | SessionClosed
    | MessageAccepted(message: MessageId) | RunQueued | RunStarted | RunCancelRequested
    | RunCancelled | RunFailed | RunInterrupted | RunSucceeded | AssistantReady(message: MessageId)
    | Tool(kind: AuditKind, call: CallId, approval: Option<ApprovalId>, status: CallStatus)

  datatype Event = Event(
    session: SessionId, conversation: ConversationId, run: Option<RunId>, sequence: nat,
    kind: EventKind)

  /** All committed rows, plus three facts the processes carry between transactions: which
      executor calls and which model calls are still in flight, and the order in which
      execution authority was handed to the executor. */
  datatype Db = Db(
    devices: map<DeviceId, Device>,
    conversations: map<ConversationId, Conversation>,
    sessions: map<SessionId, Session>,
    runs: map<RunId, Run>,
    messages: seq<ChatMessage>,
    events: seq<Event>,
    calls: map<CallId, ToolCall>,
    approvals: map<ApprovalId, Approval>,
    observations: map<CallId, Observation>,
    audit: seq<AuditEvent>,
    executing: set<CallId>,
    starts: seq<CallId>,
    generating: set<RunId>)

  /** What a transaction leaves behind: the committed rows (unchanged when it rolled back) and
      the reply or error its caller sees. A step may commit and still raise. */
  datatype Txn<+T> = Txn(db: Db, result: Result<T>)

  datatype Principal = Principal(owner: OwnerId, device: DeviceId)

  ghost predicate RunTerminal(status: RunStatus) {
    status in {RunStatus.Succeeded, RunStatus.Failed, RunStatus.Cancelled}
  }

  /** The run states in which a tool call loses its parent. */
  predicate RunDead(status: RunStatus) {
    status in {RunStatus.Succeeded, RunStatus.Failed, RunStatus.Cancelled, RunStatus.CancelRequested}
  }

  predicate DeviceReady(devices: map<DeviceId, Device>, device: DeviceId, owner: OwnerId) {
    device in devices && devices[device] == Device(owner, true)
  }

  // --- the per-session event stream, appended to by both services ---

  function OfSession(session: SessionId): Event -> bool {
    (e: Event) => e.session == session
  }

  function SessionLog(events: seq<Event>, session: SessionId): seq<Event> {
    Select(events, OfSession(session))
  }

  /** The largest sequence number stored for a session, 0 when it has no event. */
  function MaxSequence(events: seq<Event>, session: SessionId): nat {
    if events == [] then 0
    else
      var last := events[|events| - 1];
      var rest := MaxSequence(events[..|events| - 1], session);
      if last.session == session && rest < last.sequence then last.sequence else rest
  }

  function AppendEvent(
    events: seq<Event>, session: SessionId, conversation: ConversationId, run: Option<RunId>,
    kind: EventKind): seq<Event>
  {
    events + [Event(session, conversation, run, MaxSequence(events, session) + 1, kind)]
  }

  /** Every session's events carry the sequence numbers 1, 2, ..., n in append order. */
  ghost predicate Gapless(events: seq<Event>) {
    forall session, i {:trigger SessionLog(events, session)[i]} ::
      0 <= i < |SessionLog(events, session)| ==> SessionLog(events, session)[i].sequence == i + 1
  }

  lemma {:induction false} GaplessPrefix(events: seq<Event>, e: Event)
    requires Gapless(events + [e])
    ensures Gapless(events)
    ensures e.sequence == |SessionLog(events, e.session)| + 1
  {
    SelectSnoc(events, e, OfSession(e.session));
    var log := SessionLog(events + [e], e.session);
    assert log[|log| - 1] == e;
    forall session, i | 0 <= i < |SessionLog(events, session)|
      ensures SessionLog(events, session)[i].sequence == i + 1
    {
      SelectSnoc(events, e, OfSession(session));
      assert SessionLog(events + [e], session)[i] == SessionLog(events, session)[i];
    }
  }

  lemma {:induction false} MaxIsLength(events: seq<Event>, session: SessionId)
    requires Gapless(events)
    ensures MaxSequence(events, session) == |SessionLog(events, session)|
  {
    if events != [] {
      var n := |events| - 1;
      assert events == events[..n] + [events[n]];
      GaplessPrefix(events[..n], events[n]);
      MaxIsLength(events[..n], session);
      SelectSnoc(events[..n], events[n], OfSession(session));
    }
  }

  /** Whichever service appends, the next number is one more than the stream's length: the
      uniqueness constraint on (session, sequence) can never fire. */
  lemma AppendKeepsGapless(
    events: seq<Event>, session: SessionId, conversation: ConversationId, run: Option<RunId>,
    kind: EventKind)
    requires Gapless(events)
    ensures Gapless(AppendEvent(events, session, conversation, run, kind))
    ensures forall other :: (
      SessionLog(AppendEvent(events, session, conversation, run, kind), other)
      == SessionLog(events, other)
         + if other == session
           then [Event(session, conversation, run, |SessionLog(events, session)| + 1, kind)] else [])
  {
    MaxIsLength(events, session);
    var e := Event(session, conversation, run, MaxSequence(events, session) + 1, kind);
    forall other
      ensures SessionLog(events + [e], other)
        == SessionLog(events, other) + if other == session then [e] else []
    {
      SelectSnoc(events, e, OfSession(other));
    }
  }
}
