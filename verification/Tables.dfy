/** The database session of a service: tables whose rows its transactions rewrite in place. */
module Tables {
  import opened Prelude
  import opened Store

  class Database {
    var devices: map<DeviceId, Device>
    var conversations: map<ConversationId, Conversation>
    var sessions: map<SessionId, Session>
    var runs: map<RunId, Run>
    var messages: seq<ChatMessage>
    var events: seq<Event>
    var calls: map<CallId, ToolCall>
    var approvals: map<ApprovalId, Approval>
    var observations: map<CallId, Observation>
    var audit: seq<AuditEvent>
    var executing: set<CallId>
    var starts: seq<CallId>
    var generating: set<RunId>

    /** The rows as one value; also the savepoint a transaction rolls back to. */
    function Snapshot(): Db
      reads this
    {
      Db(devices, conversations, sessions, runs, messages, events, calls, approvals, observations, audit,
         executing, starts, generating)
    }

    constructor (devices: map<DeviceId, Device>)
      ensures Snapshot() == Db(devices, map[], map[], map[], [], [], map[], map[], map[], [], {}, [], {})
    {
      this.devices := devices;
      conversations, sessions, runs, messages, events := map[], map[], map[], [], [];
      calls, approvals, observations, audit := map[], map[], map[], [];
      executing, starts, generating := {}, [], {};
    }

    /** Undo what a tool transaction wrote: no other table is ever written by one. */
    method RollbackTools(saved: Db)
      modifies this
      ensures Snapshot() == old(Snapshot()).(calls := saved.calls, approvals := saved.approvals,
                                             observations := saved.observations, audit := saved.audit,
                                             events := saved.events)
    {
      calls, approvals, observations := saved.calls, saved.approvals, saved.observations;
      audit, events := saved.audit, saved.events;
    }
  }
}
