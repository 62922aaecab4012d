/** Following a session's events over a WebSocket: the server's paged cursor loop, the client's
    parser, and reconnection from the last sequence the client saw. */
module EventStream {
  import opened Prelude
  import opened Store

  const MAX_EVENT_REPLAY := 100

  /** A session's stored events in order, numbered 1, 2, ..., n. */
  ghost predicate Contiguous(log: seq<Event>) {
    forall i :: 0 <= i < |log| ==> log[i].sequence == i + 1
  }

  function After(sequence: nat): Event -> bool {
    (e: Event) => e.sequence > sequence
  }

  /** `events_after`: one page of the events newer than the cursor. */
  function EventsAfter(log: seq<Event>, after: nat, limit: nat): seq<Event> {
    var newer := Select(log, After(after));
    newer[..if |newer| < limit then |newer| else limit]
  }

  /** The events with sequence in (after, upto]. */
  function Span(log: seq<Event>, after: nat, upto: nat): seq<Event> {
    if after <= upto <= |log| then log[after..upto] else []
  }

  lemma {:induction false} NewerIsSuffix(log: seq<Event>, after: nat)
    requires Contiguous(log)
    ensures Select(log, After(after)) == if after <= |log| then log[after..] else []
  {
    if log != [] {
      var n := |log| - 1;
      NewerIsSuffix(log[..n], after);
      if after <= n {
        assert log[after..] == log[..n][after..] + [log[n]];
      }
    }
  }

  /** A page continues exactly where the cursor stands. */
  lemma PageIsSpan(log: seq<Event>, after: nat)
    requires Contiguous(log)
    ensures var page := EventsAfter(log, after, MAX_EVENT_REPLAY);
      |page| <= 100
      && (page == [] <==> |log| <= after)
      && (page != [] ==>
            after + |page| <= |log| && page == log[after..after + |page|] && page[|page| - 1].sequence == after + |page|
            && (after + |page| == |log| || |page| == 100))
  {
    NewerIsSuffix(log, after);
  }

  /** What one turn of the loop meets: the stream as the query reads it, whether the loop has to
      stop before sending (client gone, credential refused), and after how many events the
      connection breaks, if it does. */
  datatype Poll = Poll(log: seq<Event>, stop: bool, broken: Option<nat>)

  /** The stream only grows between turns. */
  ghost predicate Growing(polls: seq<Poll>) {
    (forall i :: 0 <= i < |polls| ==> Contiguous(polls[i].log))
    && forall i, j :: 0 <= i < j < |polls| ==> polls[i].log <= polls[j].log
  }

  /** `sent` is exactly the part of the stream from `after` on. */
  ghost predicate Delivered(log: seq<Event>, after: nat, sent: seq<Event>) {
    sent != [] ==> after + |sent| <= |log| && sent == log[after..after + |sent|]
  }

  lemma DeliveredLater(log: seq<Event>, more: seq<Event>, after: nat, sent: seq<Event>)
    requires Delivered(log, after, sent) && log <= more
    ensures Delivered(more, after, sent)
  {}

  lemma DeliveredLast(polls: seq<Poll>, i: nat, after: nat, sent: seq<Event>)
    requires Growing(polls) && i < |polls| && Delivered(polls[i].log, after, sent)
    ensures Delivered(polls[|polls| - 1].log, after, sent)
  {
    if i < |polls| - 1 {
      DeliveredLater(polls[i].log, polls[|polls| - 1].log, after, sent);
    }
  }

  lemma DeliveredIsNumbered(log: seq<Event>, after: nat, sent: seq<Event>)
    requires Contiguous(log) && Delivered(log, after, sent)
    ensures forall k :: 0 <= k < |sent| ==> sent[k].sequence == after + 1 + k
  {
    forall k | 0 <= k < |sent| ensures sent[k] == log[after + k] {}
  }

  lemma DeliversPage(log: seq<Event>, after: nat, sent: seq<Event>, count: nat)
    requires Contiguous(log) && Delivered(log, after, sent)
    requires count <= |EventsAfter(log, after + |sent|, MAX_EVENT_REPLAY)|
    ensures Delivered(log, after, sent + EventsAfter(log, after + |sent|, MAX_EVENT_REPLAY)[..count])
  {
    var page := EventsAfter(log, after + |sent|, MAX_EVENT_REPLAY);
    PageIsSpan(log, after + |sent|);
    if count > 0 {
      assert sent == log[after..after + |sent|];
      assert page[..count] == log[after + |sent|..after + |sent| + count];
      assert sent + page[..count] == log[after..after + |sent| + count];
    }
  }

  /** The server's loop: whatever is appended meanwhile and wherever it ends, exactly the events
      from the cursor on were sent, in order, without gap or repetition; and when a turn finds
      nothing new, everything stored so far was sent. */
  method ConversationEvents(after: nat, polls: seq<Poll>) returns (sent: seq<Event>, cursor: nat, ended: bool)
    requires Growing(polls)
    ensures polls == [] ==> sent == []
    ensures polls != [] ==> Delivered(polls[|polls| - 1].log, after, sent)
    ensures forall k :: 0 <= k < |sent| ==> sent[k].sequence == after + 1 + k
    ensures !ended ==> cursor == after + |sent|
    ensures !ended && polls != [] && EventsAfter(polls[|polls| - 1].log, cursor, MAX_EVENT_REPLAY) == [] ==>
      sent == Span(polls[|polls| - 1].log, after, |polls[|polls| - 1].log|)
  {
    hide EventsAfter, Delivered;
    sent, cursor, ended := [], after, false;
    NothingDelivered(polls, after);
    var i := 0;
    while i < |polls|
      invariant 0 <= i <= |polls| && !ended && cursor == after + |sent|
      invariant i == 0 ==> sent == []
      invariant polls != [] ==> Delivered(polls[if i == 0 then 0 else i - 1].log, after, sent)
    {
      if i > 0 { DeliveredLater(polls[i - 1].log, polls[i].log, after, sent); }
      if polls[i].stop {
        ended := true;
        DeliveredLast(polls, i, after, sent);
        DeliveredIsNumbered(polls[i].log, after, sent);
        return;
      }
      var page := EventsAfter(polls[i].log, cursor, MAX_EVENT_REPLAY);
      if page != [] {
        PageIsSpan(polls[i].log, cursor);
        var count := if polls[i].broken.Some? && polls[i].broken.value < |page| then polls[i].broken.value else |page|;
        DeliversPage(polls[i].log, after, sent, count);
        sent := Send(sent, page, count);
        if polls[i].broken.Some? {
          ended := true;
          DeliveredLast(polls, i, after, sent);
          DeliveredIsNumbered(polls[i].log, after, sent);
          return;
        }
        cursor := page[|page| - 1].sequence;
      }
      i := i + 1;
    }
    if polls != [] {
      DeliveredIsNumbered(polls[|polls| - 1].log, after, sent);
      PageIsSpan(polls[|polls| - 1].log, cursor);
      SpanWhenDone(polls[|polls| - 1].log, after, sent);
    }
  }

  lemma NothingDelivered(polls: seq<Poll>, after: nat)
    ensures polls != [] ==> Delivered(polls[0].log, after, [])
  {}

  lemma SpanWhenDone(log: seq<Event>, after: nat, sent: seq<Event>)
    requires Delivered(log, after, sent)
    ensures |log| <= after + |sent| ==> sent == Span(log, after, |log|)
  {}

  method Send(sent: seq<Event>, page: seq<Event>, count: nat) returns (after: seq<Event>)
    requires count <= |page|
    ensures after == sent + page[..count]
  {
    after := sent;
    var j := 0;
    while j < count
      invariant 0 <= j <= count && after == sent + page[..j]
    {
      after := after + [page[j]];
      j := j + 1;
    }
  }

  // --- the client ---

  /** An event as the client reads it off the wire; `sequence` is absent when it is not an integer. */
  datatype Envelope = Envelope(isObject: bool, sequence: Option<int>, eventType: string, dataIsObject: bool)

  function AuditName(kind: AuditKind): string {
    match kind
    case ToolProposed => "tool.proposed"
    case ToolDenied => "tool.denied"
    case ToolAwaitingApproval => "tool.awaiting_approval"
    case ApprovalRequired => "approval.required"
    case ToolApproved => "tool.approved"
    case ApprovalApproved => "approval.approved"
    case ApprovalRejected => "approval.rejected"
    case ApprovalExpired => "approval.expired"
    case ToolStarted => "tool.started"
    case ToolCancelRequested => "tool.cancel_requested"
    case ToolCancelDeliveryFailed => "tool.cancel_delivery_failed"
    case ToolCancelled => "tool.cancelled"
    case ToolSucceeded => "tool.succeeded"
    case ToolFailed => "tool.failed"
  }

  function EventName(kind: EventKind): string {
    match kind
    case SessionReady => "session.ready"
    case SessionClosed => "session.closed"
    case MessageAccepted(_) => "message.accepted"
    case RunQueued => "run.queued"
    case RunStarted => "run.started"
    case RunCancelRequested => "run.cancel_requested"
    case RunCancelled => "run.cancelled"
    case RunFailed => "run.failed"
    case RunInterrupted => "run.interrupted"
    case RunSucceeded => "run.succeeded"
    case AssistantReady(_) => "assistant.message.ready"
    case Tool(audit, _, _, _) => AuditName(audit)
  }

  function Encode(e: Event): Envelope {
    Envelope(true, Some(e.sequence), EventName(e.kind), true)
  }

  class ClientState {
    var lastSequence: int

    constructor (after: int)
      ensures lastSequence == after
    {
      lastSequence := after;
    }

    /** Accept one event if it is well formed and strictly newer than the last one. */
    method ParseEvent(payload: Envelope) returns (result: Result<int>)
      modifies this
      ensures result.Ok? <==>
        payload.isObject && payload.sequence.Some? && payload.sequence.value > old(lastSequence)
        && payload.eventType != "" && payload.dataIsObject
      ensures result.Ok? ==> result.value == payload.sequence.value && lastSequence == payload.sequence.value
      ensures result.Err? ==> lastSequence == old(lastSequence)
    {
      if !payload.isObject { return Err("event envelope must be an object"); }
      if payload.sequence.None? || payload.sequence.value <= lastSequence {
        return Err("event sequence is not strictly increasing");
      }
      if payload.eventType == "" { return Err("event type is invalid"); }
      if !payload.dataIsObject { return Err("event data is invalid"); }
      lastSequence := payload.sequence.value;
      return Ok(payload.sequence.value);
    }

    /** The parser accepts every event of a contiguous run that starts after its last one. */
    method Consume(sent: seq<Event>) returns (accepted: nat)
      requires lastSequence >= 0 && forall k :: 0 <= k < |sent| ==> sent[k].sequence == lastSequence + 1 + k
      modifies this
      ensures accepted == |sent| && lastSequence == old(lastSequence) + |sent|
    {
      accepted := 0;
      var k := 0;
      while k < |sent|
        invariant 0 <= k <= |sent| && accepted == k && lastSequence == old(lastSequence) + k
      {
        assert EventName(sent[k].kind) != "";
        var result := ParseEvent(Encode(sent[k]));
        if result.Ok? { accepted := accepted + 1; }
        k := k + 1;
      }
    }
  }

  // --- reconnecting ---

  /** One connection: the turns the server's loop went through, and how many of the events it sent
      reached the client. */
  datatype Connection = Connection(polls: seq<Poll>, received: nat)

  ghost predicate Reconnecting(connections: seq<Connection>, last: seq<Event>) {
    Contiguous(last)
    && forall c :: 0 <= c < |connections| ==>
         Growing(connections[c].polls)
         && forall i :: 0 <= i < |connections[c].polls| ==> connections[c].polls[i].log <= last
  }

  /** Over any number of connections, each resumed from the last sequence the client accepted, the
      client shows exactly the events from its first cursor on: none lost, none twice, in order. */
  method FollowSession(client: ClientState, connections: seq<Connection>, last: seq<Event>)
    returns (shown: seq<Event>)
    requires client.lastSequence >= 0 && Reconnecting(connections, last)
    modifies client
    ensures client.lastSequence == old(client.lastSequence) + |shown|
    ensures Delivered(last, old(client.lastSequence), shown)
  {
    hide Delivered;
    shown := [];
    ghost var first := client.lastSequence;
    NothingShown(last, first);
    var c := 0;
    while c < |connections|
      invariant 0 <= c <= |connections|
      invariant client.lastSequence == first + |shown| && Delivered(last, first, shown)
    {
      var polls := connections[c].polls;
      var sent, _, _ := ConversationEvents(client.lastSequence, polls);
      var received := sent[..if connections[c].received < |sent| then connections[c].received else |sent|];
      if sent != [] {
        DeliveredLater(polls[|polls| - 1].log, last, client.lastSequence, sent);
        DeliveredFurther(last, first, shown, sent, |received|);
      } else {
        assert shown + received == shown;
      }
      var _ := client.Consume(received);
      shown := shown + received;
      c := c + 1;
    }
  }

  lemma NothingShown(log: seq<Event>, after: nat)
    ensures Delivered(log, after, [])
  {}

  lemma DeliveredFurther(log: seq<Event>, after: nat, shown: seq<Event>, sent: seq<Event>, received: nat)
    requires Delivered(log, after, shown) && Delivered(log, after + |shown|, sent) && received <= |sent|
    ensures Delivered(log, after, shown + sent[..received])
  {
    if received == 0 {
      assert shown + sent[..received] == shown;
    } else {
      var from, upto := after + |shown|, after + |shown| + received;
      assert log[after..from] + log[from..upto] == log[after..upto];
      assert sent[..received] == log[from..upto];
      assert shown == log[after..from];
    }
  }
}
