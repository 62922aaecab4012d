/** The gateway's checks on a text request, with its default settings, and why the request built
    from a conversation's selected history always passes them. */
module GenerationRequests {
  import opened Prelude
  import opened Store
  import opened Conversations
  import opened RunInvariants
  import opened History
  import opened Platform
  import PT = PlatformTheorems
  import RO = RunOutcomes

  datatype Model = Model(id: string, contextBudgets: set<nat>, maxOutputTokens: nat)

  const QWEN_4B := Model("qwen3.5:4b", {4096, 8192, 16384}, 256)

  const QWEN_9B_HERETIC := Model("qwen3.5-heretic:9b-q4km", {4096}, 256)

  datatype Settings = Settings(enabled: bool, maxMessages: nat, maxTotalTextChars: nat)

  const DEFAULTS := Settings(true, 32, 65536)

  datatype ChatCall = ChatCall(
    texts: seq<string>, contextTokens: nat, maxOutputTokens: nat, requestedModel: string)

  /** Routing of a text chat request. */
  function RouteModel(requested: string): Option<Model> {
    var profile :=
      if requested == "fast" then QWEN_4B.id
      else if requested == "advanced" then QWEN_9B_HERETIC.id
      else requested;
    var selected := if profile == QWEN_9B_HERETIC.id then QWEN_9B_HERETIC else QWEN_4B;
    if profile != selected.id then None else Some(selected)
  }

  function TotalText(texts: seq<string>): nat {
    if texts == [] then 0 else TotalText(texts[..|texts| - 1]) + |texts[|texts| - 1]|
  }

  /** The checks on a request without images, schema or tools, in the order they are made. */
  function ValidateRequest(settings: Settings, request: ChatCall): Result<Model> {
    if !settings.enabled then Err("gateway_disabled")
    else if !(1 <= |request.texts| <= settings.maxMessages) then Err("invalid_message_count")
    else if exists i :: 0 <= i < |request.texts| && Blank(request.texts[i]) then Err("invalid_message")
    else if TotalText(request.texts) > settings.maxTotalTextChars then Err("text_limit_exceeded")
    else if !(1 <= request.maxOutputTokens <= 256) then Err("invalid_output_budget")
    else
      var model := RouteModel(request.requestedModel);
      if model.None? then Err("model_not_routable")
      else if request.contextTokens !in model.value.contextBudgets then Err("unsupported_context_budget")
      else if request.maxOutputTokens > model.value.maxOutputTokens then Err("invalid_output_budget")
      else if request.contextTokens > 4096 && request.maxOutputTokens > 32 then
        Err("large_context_output_exceeded")
      else Ok(model.value)
  }

  /** A message that says something, of whatever length. */
  ghost predicate Worded(text: string) {
    exists k :: 0 <= k < |text| && text[k] as int !in RO.SPACES
  }

  lemma WordedLaw(text: string)
    ensures Blank(text) <==> !Worded(text)
  {
    hide RO.SPACES, IsSpace;
    forall k | 0 <= k < |text| ensures IsSpace(text[k]) <==> text[k] as int in RO.SPACES { RO.SpaceLaw(text[k]); }
  }

  lemma RoutingLaw(requested: string)
    ensures RouteModel(requested)
      == if requested in {"fast", "qwen3.5:4b"} then Some(Model("qwen3.5:4b", {4096, 8192, 16384}, 256))
         else if requested in {"advanced", "qwen3.5-heretic:9b-q4km"} then
           Some(Model("qwen3.5-heretic:9b-q4km", {4096}, 256))
         else None
  {}

  /** A request passes if and only if the gateway is enabled, it has from one to the most messages allowed,
      each of them with words and all within the text limit, it asks for 1 to 256 tokens, and it names the
      small model with one of its three contexts, the larger two for at most 32 tokens, or the large model
      with its only context; then it is routed to that model. */
  lemma RequestLaw(settings: Settings, request: ChatCall)
    ensures
      var small := request.requestedModel in {"fast", "qwen3.5:4b"};
      var large := request.requestedModel in {"advanced", "qwen3.5-heretic:9b-q4km"};
      (ValidateRequest(settings, request).Ok? <==>
         settings.enabled && 1 <= |request.texts| <= settings.maxMessages
         && (forall i :: 0 <= i < |request.texts| ==> Worded(request.texts[i]))
         && TotalText(request.texts) <= settings.maxTotalTextChars && 1 <= request.maxOutputTokens <= 256
         && ((small && (request.contextTokens == 4096
                        || (request.contextTokens in {8192, 16384} && request.maxOutputTokens <= 32)))
             || (large && request.contextTokens == 4096)))
      && (ValidateRequest(settings, request).Ok? ==>
            ValidateRequest(settings, request).value.id == if small then "qwen3.5:4b" else "qwen3.5-heretic:9b-q4km")
  {
    RoutingLaw(request.requestedModel);
    forall i | 0 <= i < |request.texts| ensures Blank(request.texts[i]) <==> !Worded(request.texts[i]) {
      WordedLaw(request.texts[i]);
    }
    hide RouteModel, Blank, Worded, TotalText;
    assert "fast" != "advanced" && "fast" != "qwen3.5-heretic:9b-q4km" && "qwen3.5:4b" != "advanced";
  }

  function Contents(messages: seq<ChatMessage>): seq<string> {
    seq(|messages|, i requires 0 <= i < |messages| => messages[i].content)
  }

  /** The request a run makes of the gateway. */
  function ChatRequest(context: Context, requestedModel: string): ChatCall {
    ChatCall([SYSTEM_INSTRUCTION] + Contents(context.messages), 4096, 256, requestedModel)
  }

  lemma {:induction false} TextIsChars(first: string, messages: seq<ChatMessage>)
    ensures TotalText([first] + Contents(messages)) == |first| + Chars(messages)
  {
    var texts := [first] + Contents(messages);
    if messages == [] {
      assert texts == [first] && texts[..0] == [];
    } else {
      var n := |messages| - 1;
      TextIsChars(first, messages[..n]);
      assert texts[..|texts| - 1] == [first] + Contents(messages[..n]);
    }
  }

  lemma InstructionIsText()
    ensures |SYSTEM_INSTRUCTION| <= 200 && !Blank(SYSTEM_INSTRUCTION)
  {
    var subject := "You are BMO ";
    assert SYSTEM_INSTRUCTION[0] == subject[0];
    assert subject[0] == 'Y';
    assert !IsSpace('Y');
  }

  /** Whatever history was selected, the gateway accepts the request exactly when it can route the
      requested model. */
  lemma SelectedHistoryPassesTheGateway(messages: seq<ChatMessage>, trigger: MessageId, requestedModel: string)
    requires Ordered(messages) && forall m :: m in messages ==> ValidText(m.content)
    requires Assemble(messages, trigger).Ok?
    ensures
      ValidateRequest(DEFAULTS, ChatRequest(Assemble(messages, trigger).value, requestedModel))
      == if RouteModel(requestedModel).Some? then Ok(RouteModel(requestedModel).value) else Err("model_not_routable")
  {
    hide Assemble, Ordered, Blank, Chars, TotalText;
    ContextIsBoundedAndMaximal(messages, trigger);
    var context := Assemble(messages, trigger).value;
    var texts := [SYSTEM_INSTRUCTION] + Contents(context.messages);
    InstructionIsText();
    TextIsChars(SYSTEM_INSTRUCTION, context.messages);
    hide SYSTEM_INSTRUCTION;
    forall i | 0 <= i < |texts| ensures !Blank(texts[i]) {
      if i > 0 {
        assert context.messages[i - 1] in context.messages;
        assert texts[i] == context.messages[i - 1].content;
      }
    }
  }

  /** The profiles the service knows are routed. */
  lemma ProfilesAreRouted()
    ensures RouteModel("fast") == Some(QWEN_4B) && RouteModel("advanced") == Some(QWEN_9B_HERETIC)
  {}

  // --- the context of a live run ---

  lemma NumberedIsOrdered(messages: seq<ChatMessage>, conversation: ConversationId)
    requires Numbered(messages)
    ensures Ordered(Log(messages, conversation))
  {
    hide Log;
    var log := Log(messages, conversation);
    forall i, j | 0 <= i < j < |log| ensures log[i].ordinal < log[j].ordinal {
      assert log[i].ordinal == i + 1 && log[j].ordinal == j + 1;
    }
  }

  lemma {:induction false} FirstWithId(log: seq<ChatMessage>, m: ChatMessage)
    requires m in log && forall k :: k in log && k.id == m.id ==> k == m
    ensures FindMessage(log, m.id) == Some(m)
  {}

  /** While a run is live, selecting its history succeeds, and the context is flagged as truncated
      exactly when a message before its trigger was dropped. */
  lemma LiveRunContext(devices: map<DeviceId, Device>, ops: seq<Op>, id: RunId)
    ensures
      var db := Reach(devices, ops);
      id in db.runs && NonTerminal(db.runs[id].status) ==>
        var log := Log(db.messages, db.runs[id].conversation);
        var result := Assemble(log, db.runs[id].trigger);
        |log| > 0 && result.Ok? && log[|log| - 1] in result.value.messages
        && (result.value.truncated
            <==> (exists m :: m in log && m.ordinal < log[|log| - 1].ordinal && m !in result.value.messages))
        && (RouteModel(db.runs[id].model).Some? ==>
              ValidateRequest(DEFAULTS, ChatRequest(result.value, db.runs[id].model))
              == Ok(RouteModel(db.runs[id].model).value))
  {
    hide Reach, Assemble, Ordered, Log, Blank, ValidateRequest, RouteModel;
    var db := Reach(devices, ops);
    if id in db.runs && NonTerminal(db.runs[id].status) {
      var run := db.runs[id];
      var log := Log(db.messages, run.conversation);
      PT.RunsAreOk(devices, ops);
      hide PT.RS.Sound;
      assert TriggeredBy(log, id, run.trigger);
      LiveLog(db.messages, run.conversation);
      TriggerIsFound(log, run.trigger);
      ContextIsBoundedAndMaximal(log, run.trigger);
      SelectedHistoryPassesTheGateway(log, run.trigger, run.model);
      LastIsLatest(log);
    }
  }

  lemma LiveLog(messages: seq<ChatMessage>, conversation: ConversationId)
    requires MessagesOk(messages)
    ensures var log := Log(messages, conversation);
      Ordered(log) && (forall m :: m in log ==> ValidText(m.content))
      && forall m, k :: m in log && k in log && m.id == k.id ==> m == k
  {
    hide ValidText, Numbered;
    NumberedIsOrdered(messages, conversation);
    SelectSound(messages, OfConversation(conversation));
    var log := Log(messages, conversation);
    hide Ordered, Log;
    forall m, k | m in log && k in log && m != k ensures m.id != k.id {
      var i :| 0 <= i < |messages| && messages[i] == m;
      var j :| 0 <= j < |messages| && messages[j] == k;
      if i < j { assert messages[i].id != messages[j].id; }
      if j < i { assert messages[j].id != messages[i].id; }
    }
  }

  lemma TriggerIsFound(log: seq<ChatMessage>, trigger: MessageId)
    requires |log| > 0 && log[|log| - 1].id == trigger && log[|log| - 1].role == Role.User
    requires forall m, k :: m in log && k in log && m.id == k.id ==> m == k
    ensures FindMessage(log, trigger) == Some(log[|log| - 1]) && Assemble(log, trigger).Ok?
  {
    hide Pick, Select, FindMessage;
    FirstWithId(log, log[|log| - 1]);
  }

  lemma LastIsLatest(log: seq<ChatMessage>)
    requires Ordered(log) && |log| > 0
    ensures forall m :: m in log && m != log[|log| - 1] ==> m.ordinal < log[|log| - 1].ordinal
  {
    forall m | m in log && m != log[|log| - 1] ensures m.ordinal < log[|log| - 1].ordinal {
      var i :| 0 <= i < |log| && log[i] == m;
    }
  }
}
