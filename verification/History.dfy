/** Selecting the history that a run sends to the model, and why the resulting request always passes
    the gateway's checks. */
module History {
  import opened Prelude
  import opened Store
  import opened Conversations

  const MAX_HISTORY_MESSAGES := 16
  const MAX_HISTORY_TEXT_CHARS := 6000
  const SYSTEM_INSTRUCTION :=
    "You are BMO " + "in a text-only conversation. No tools are available. "
    + "Do not claim that an external action was executed."

  /** A conversation's messages as the repository returns them. */
  ghost predicate Ordered(messages: seq<ChatMessage>) {
    forall i, j :: 0 <= i < j < |messages| ==> messages[i].ordinal < messages[j].ordinal
  }

  function Chars(messages: seq<ChatMessage>): nat {
    if messages == [] then 0
    else Chars(messages[..|messages| - 1]) + |messages[|messages| - 1].content|
  }

  lemma {:induction false} CharsAppend(messages: seq<ChatMessage>, more: seq<ChatMessage>)
    ensures Chars(messages + more) == Chars(messages) + Chars(more)
  {
    if more == [] {
      assert messages + more == messages;
    } else {
      var n := |more| - 1;
      assert (messages + more)[..|messages + more| - 1] == messages + more[..n];
      CharsAppend(messages, more[..n]);
    }
  }

  /** The messages kept, newest first considered: at most `room` of them, `chars` characters in all. */
  function Pick(prior: seq<ChatMessage>, room: nat, chars: int): seq<ChatMessage> {
    if prior == [] || room == 0 then []
    else
      var n := |prior| - 1;
      if |prior[n].content| > chars then Pick(prior[..n], room, chars)
      else Pick(prior[..n], room - 1, chars - |prior[n].content|) + [prior[n]]
  }

  datatype Context = Context(messages: seq<ChatMessage>, truncated: bool)

  function Before(ordinal: nat): ChatMessage -> bool {
    (m: ChatMessage) => m.ordinal < ordinal
  }

  function FindMessage(messages: seq<ChatMessage>, id: MessageId): (found: Option<ChatMessage>)
    ensures found.Some? ==> found.value in messages && found.value.id == id
    ensures found.None? ==> forall m :: m in messages ==> m.id != id
  {
    if messages == [] then None
    else if messages[0].id == id then Some(messages[0])
    else FindMessage(messages[1..], id)
  }

  /** What `_assemble_context` returns: the trigger and the recent messages that fit around it. */
  function Assemble(messages: seq<ChatMessage>, trigger: MessageId): Result<Context> {
    var current := FindMessage(messages, trigger);
    if current.None? || current.value.role != Role.User then Err("trigger_unavailable")
    else
      var prior := Select(messages, Before(current.value.ordinal));
      var picked := Pick(prior, MAX_HISTORY_MESSAGES - 1, MAX_HISTORY_TEXT_CHARS - |current.value.content|)
        + [current.value];
      Ok(Context(picked, |picked| != |messages|))
  }

  // --- the loop and the sort of the service ---

  /** Stable insertion by ordinal. */
  function Insert(sorted: seq<ChatMessage>, m: ChatMessage): seq<ChatMessage> {
    if sorted == [] || m.ordinal < sorted[0].ordinal then [m] + sorted
    else [sorted[0]] + Insert(sorted[1..], m)
  }

  function SortByOrdinal(messages: seq<ChatMessage>): seq<ChatMessage> {
    if messages == [] then []
    else Insert(SortByOrdinal(messages[..|messages| - 1]), messages[|messages| - 1])
  }

  lemma SortPrepends(selected: seq<ChatMessage>, m: ChatMessage)
    requires |SortByOrdinal(selected)| == |selected|
    requires forall k :: k in SortByOrdinal(selected) ==> m.ordinal < k.ordinal
    ensures SortByOrdinal(selected + [m]) == [m] + SortByOrdinal(selected)
  {
    assert (selected + [m])[..|selected|] == selected;
    if selected != [] {
      assert SortByOrdinal(selected)[0] in SortByOrdinal(selected);
    }
  }

  lemma OrderedSnoc(messages: seq<ChatMessage>, m: ChatMessage)
    requires Ordered(messages) && forall k :: k in messages ==> k.ordinal < m.ordinal
    ensures Ordered(messages + [m])
  {
    forall i | 0 <= i < |messages| ensures messages[i].ordinal < m.ordinal {
      assert messages[i] in messages;
    }
  }

  /** `prior` is the beginning of `messages` that precedes `ordinal`. */
  ghost predicate Precedes(prior: seq<ChatMessage>, messages: seq<ChatMessage>, ordinal: nat) {
    prior <= messages && (forall m :: m in prior ==> m.ordinal < ordinal)
    && forall k :: |prior| <= k < |messages| ==> messages[k].ordinal >= ordinal
  }

  lemma PrecedesSnoc(prior: seq<ChatMessage>, messages: seq<ChatMessage>, ordinal: nat, m: ChatMessage)
    requires Ordered(messages + [m]) && Precedes(prior, messages, ordinal)
    ensures m.ordinal < ordinal ==> prior == messages && Precedes(prior + [m], messages + [m], ordinal)
    ensures m.ordinal >= ordinal ==> Precedes(prior, messages + [m], ordinal)
  {
    var all := messages + [m];
    if |prior| < |messages| {
      assert all[|prior|] == messages[|prior|] && all[|messages|] == m;
    }
  }

  lemma OrderedPrefix(messages: seq<ChatMessage>, n: nat)
    requires Ordered(messages) && n <= |messages|
    ensures Ordered(messages[..n])
  {}

  lemma {:induction false} SelectPrefix(messages: seq<ChatMessage>, ordinal: nat)
    requires Ordered(messages)
    ensures var prior := Select(messages, Before(ordinal));
      Precedes(prior, messages, ordinal) && Ordered(prior)
  {
    hide Precedes, Ordered;
    if messages == [] {
      NothingPrecedes(ordinal);
    } else {
      var n := |messages| - 1;
      OrderedPrefix(messages, n);
      SelectPrefix(messages[..n], ordinal);
      assert messages == messages[..n] + [messages[n]];
      SelectSnoc(messages[..n], messages[n], Before(ordinal));
      hide Select;
      PrecedesSnoc(Select(messages[..n], Before(ordinal)), messages[..n], ordinal, messages[n]);
      assert Select(messages, Before(ordinal)) == Select(messages[..n], Before(ordinal))
        || Select(messages, Before(ordinal)) == messages;
    }
  }

  lemma NothingPrecedes(ordinal: nat)
    ensures Precedes([], [], ordinal) && Ordered([])
  {}

  lemma PickStep(prior: seq<ChatMessage>, i: nat, room: nat, chars: int)
    requires i < |prior|
    ensures Pick(prior[..i + 1], room, chars) ==
      if room == 0 then []
      else if |prior[i].content| > chars then Pick(prior[..i], room, chars)
      else Pick(prior[..i], room - 1, chars - |prior[i].content|) + [prior[i]]
  {
    assert prior[..i + 1][..i] == prior[..i];
  }

  lemma PickNothing(prior: seq<ChatMessage>, room: nat, chars: int)
    ensures Pick(prior[..0], room, chars) == []
  {}

  lemma SortOne(m: ChatMessage)
    ensures SortByOrdinal([m]) == [m]
  {}

  /** Every message picked so far is later than the `i` oldest ones. */
  ghost predicate Later(picked: seq<ChatMessage>, prior: seq<ChatMessage>, i: nat)
    requires i <= |prior|
  {
    forall k, j :: k in picked && 0 <= j < i ==> prior[j].ordinal < k.ordinal
  }

  /** Taking the next older message keeps the loop's promise. */
  lemma KeepOne(prior: seq<ChatMessage>, selected: seq<ChatMessage>, i: nat, used: nat, spec: seq<ChatMessage>)
    requires i < |prior| && Ordered(prior) && 1 <= |selected| < MAX_HISTORY_MESSAGES
    requires |SortByOrdinal(selected)| == |selected| && Later(SortByOrdinal(selected), prior, i + 1)
    requires used + |prior[i].content| <= MAX_HISTORY_TEXT_CHARS
    requires spec == Pick(prior[..i + 1], MAX_HISTORY_MESSAGES - |selected|, MAX_HISTORY_TEXT_CHARS - used)
      + SortByOrdinal(selected)
    ensures var more := selected + [prior[i]];
      |SortByOrdinal(more)| == |more| && Later(SortByOrdinal(more), prior, i)
      && spec == Pick(prior[..i], MAX_HISTORY_MESSAGES - |more|, MAX_HISTORY_TEXT_CHARS - used - |prior[i].content|)
                 + SortByOrdinal(more)
  {
    hide Pick, SortByOrdinal, Insert;
    SortPrepends(selected, prior[i]);
    PickStep(prior, i, MAX_HISTORY_MESSAGES - |selected|, MAX_HISTORY_TEXT_CHARS - used);
    var kept := Pick(prior[..i], MAX_HISTORY_MESSAGES - |selected| - 1, MAX_HISTORY_TEXT_CHARS - used - |prior[i].content|);
    assert (kept + [prior[i]]) + SortByOrdinal(selected) == kept + ([prior[i]] + SortByOrdinal(selected));
  }

  method AssembleContext(messages: seq<ChatMessage>, trigger: MessageId) returns (result: Result<Context>)
    requires Ordered(messages)
    ensures result == Assemble(messages, trigger)
  {
    hide Pick, Select, Before, Ordered;
    var current := FindMessage(messages, trigger);
    if current.None? || current.value.role != Role.User { return Err("trigger_unavailable"); }
    var prior := Select(messages, Before(current.value.ordinal));
    SelectPrefix(messages, current.value.ordinal);
    var selected := SelectAround(prior, current.value);
    return Ok(Context(selected, |selected| != |messages|));
  }

  /** The loop over the earlier messages, newest first, and the final sort. */
  method SelectAround(prior: seq<ChatMessage>, current: ChatMessage) returns (selected: seq<ChatMessage>)
    requires Ordered(prior) && forall m :: m in prior ==> m.ordinal < current.ordinal
    ensures selected
      == Pick(prior, MAX_HISTORY_MESSAGES - 1, MAX_HISTORY_TEXT_CHARS - |current.content|) + [current]
  {
    hide Pick, SortByOrdinal, Insert, Ordered;
    selected := [current];
    var used := |current.content|;
    var i := |prior|;
    SortOne(current);
    ghost var spec := Pick(prior, MAX_HISTORY_MESSAGES - 1, MAX_HISTORY_TEXT_CHARS - used) + selected;
    assert prior[..i] == prior;
    while i > 0
      invariant 0 <= i <= |prior| && 0 <= used && 1 <= |selected| <= MAX_HISTORY_MESSAGES
      invariant |SortByOrdinal(selected)| == |selected| && Later(SortByOrdinal(selected), prior, i)
      invariant spec == Pick(prior[..i], MAX_HISTORY_MESSAGES - |selected|, MAX_HISTORY_TEXT_CHARS - used)
        + SortByOrdinal(selected)
    {
      i := i - 1;
      var item := prior[i];
      PickStep(prior, i, MAX_HISTORY_MESSAGES - |selected|, MAX_HISTORY_TEXT_CHARS - used);
      if |selected| >= MAX_HISTORY_MESSAGES {
        assert spec == SortByOrdinal(selected);
        break;
      }
      LaterStill(SortByOrdinal(selected), prior, i);
      if used + |item.content| > MAX_HISTORY_TEXT_CHARS { continue; }
      KeepOne(prior, selected, i, used, spec);
      selected := selected + [item];
      used := used + |item.content|;
    }
    PickNothing(prior, MAX_HISTORY_MESSAGES - |selected|, MAX_HISTORY_TEXT_CHARS - used);
    assert spec == SortByOrdinal(selected);
    selected := SortByOrdinal(selected);
  }

  lemma LaterStill(picked: seq<ChatMessage>, prior: seq<ChatMessage>, i: nat)
    requires i < |prior| && Later(picked, prior, i + 1)
    ensures Later(picked, prior, i)
  {}

  // --- what the selection guarantees ---

  lemma {:induction false} PickBounds(prior: seq<ChatMessage>, room: nat, chars: int)
    ensures |Pick(prior, room, chars)| <= room && |Pick(prior, room, chars)| <= |prior|
    ensures Chars(Pick(prior, room, chars)) <= if chars < 0 then 0 else chars
    ensures forall m :: m in Pick(prior, room, chars) ==> m in prior
  {
    if prior != [] && room > 0 {
      var n := |prior| - 1;
      PickBounds(prior[..n], room, chars);
      if |prior[n].content| <= chars {
        var kept := Pick(prior[..n], room - 1, chars - |prior[n].content|);
        PickBounds(prior[..n], room - 1, chars - |prior[n].content|);
        assert (kept + [prior[n]])[..|kept|] == kept;
      }
    }
  }

  lemma {:induction false} PickOrdered(prior: seq<ChatMessage>, room: nat, chars: int)
    requires Ordered(prior)
    ensures Ordered(Pick(prior, room, chars))
  {
    if prior != [] && room > 0 {
      var n := |prior| - 1;
      PickOrdered(prior[..n], room, chars);
      if |prior[n].content| <= chars {
        var kept := Pick(prior[..n], room - 1, chars - |prior[n].content|);
        PickOrdered(prior[..n], room - 1, chars - |prior[n].content|);
        PickBounds(prior[..n], room - 1, chars - |prior[n].content|);
        forall i | 0 <= i < |kept| ensures kept[i].ordinal < prior[n].ordinal {
          assert kept[i] in prior[..n];
        }
      }
    }
  }

  /** Nothing that was dropped would still fit. */
  lemma {:induction false} PickMaximal(prior: seq<ChatMessage>, room: nat, chars: int, m: ChatMessage)
    requires m in prior && m !in Pick(prior, room, chars)
    ensures |Pick(prior, room, chars)| == room || Chars(Pick(prior, room, chars)) + |m.content| > chars
  {
    if room > 0 {
      var n := |prior| - 1;
      if |prior[n].content| > chars {
        if m in prior[..n] {
          PickMaximal(prior[..n], room, chars, m);
        } else {
          assert m == prior[n];
        }
      } else {
        var kept := Pick(prior[..n], room - 1, chars - |prior[n].content|);
        assert Pick(prior, room, chars) == kept + [prior[n]];
        assert (kept + [prior[n]])[..|kept|] == kept;
        assert m != prior[n] && m in prior[..n];
        PickMaximal(prior[..n], room - 1, chars - |prior[n].content|, m);
      }
    }
  }

  lemma PickAround(messages: seq<ChatMessage>, prior: seq<ChatMessage>, current: ChatMessage, room: nat, chars: int)
    requires Ordered(prior) && current in messages
    requires forall m :: m in prior ==> m in messages && m.ordinal < current.ordinal
    ensures var kept := Pick(prior, room, chars);
      Ordered(kept + [current])
      && forall m :: m in kept + [current] ==> m in messages
  {
    hide Pick, Ordered;
    var kept := Pick(prior, room, chars);
    PickBounds(prior, room, chars);
    PickOrdered(prior, room, chars);
    OrderedSnoc(kept, current);
  }

  /** The parts of a successful selection. */
  lemma ContextParts(messages: seq<ChatMessage>, trigger: MessageId)
    requires Ordered(messages) && Assemble(messages, trigger).Ok?
    ensures
      var current := FindMessage(messages, trigger).value;
      var prior := Select(messages, Before(current.ordinal));
      var kept := Pick(prior, MAX_HISTORY_MESSAGES - 1, MAX_HISTORY_TEXT_CHARS - |current.content|);
      var picked := Assemble(messages, trigger).value.messages;
      picked == kept + [current] && Ordered(picked)
      && Assemble(messages, trigger).value.truncated == (|picked| != |messages|)
      && forall m :: m in picked ==> m in messages
  {
    hide Pick, Select, Ordered, Chars, Before;
    var current := FindMessage(messages, trigger).value;
    var prior := Select(messages, Before(current.ordinal));
    SelectPrefix(messages, current.ordinal);
    SelectSound(messages, Before(current.ordinal));
    PickAround(messages, prior, current, MAX_HISTORY_MESSAGES - 1, MAX_HISTORY_TEXT_CHARS - |current.content|);
  }

  /** `picked` fits, and no earlier message it lacks would fit as well. */
  ghost predicate Maximal(picked: seq<ChatMessage>, messages: seq<ChatMessage>, current: ChatMessage) {
    |picked| <= 16 && Chars(picked) <= 6000
    && forall m :: m in messages && m.ordinal < current.ordinal && m !in picked ==>
         |picked| == 16 || Chars(picked) + |m.content| > 6000
  }

  /** What a selected context is: it ends with the trigger, is ordered, part of the conversation and
      maximal, and it is flagged as truncated exactly when some message is missing. */
  ghost predicate IsContext(context: Context, messages: seq<ChatMessage>, current: ChatMessage) {
    |context.messages| > 0 && context.messages[|context.messages| - 1] == current
    && Ordered(context.messages) && (forall m :: m in context.messages ==> m in messages)
    && Maximal(context.messages, messages, current)
    && (context.truncated <==> exists m :: m in messages && m !in context.messages)
  }

  lemma MakesContext(context: Context, kept: seq<ChatMessage>, messages: seq<ChatMessage>, current: ChatMessage)
    requires context.messages == kept + [current] && context.truncated == (|context.messages| != |messages|)
    requires Ordered(context.messages) && (forall m :: m in context.messages ==> m in messages) && Ordered(messages)
    requires Maximal(context.messages, messages, current)
    ensures IsContext(context, messages, current)
  {
    hide Ordered, Maximal;
    SubsequenceIsWhole(messages, context.messages);
  }

  /** The context keeps the trigger as its last message, is ordered, holds at most 16 messages and
      6000 characters, and no earlier message that was dropped would still fit; it is flagged as
      truncated exactly when some message of the conversation is missing. */
  lemma ContextIsBoundedAndMaximal(messages: seq<ChatMessage>, trigger: MessageId)
    requires Ordered(messages) && forall m :: m in messages ==> ValidText(m.content)
    requires Assemble(messages, trigger).Ok?
    ensures FindMessage(messages, trigger).Some? && FindMessage(messages, trigger).value.id == trigger
    ensures IsContext(Assemble(messages, trigger).value, messages, FindMessage(messages, trigger).value)
  {
    hide Pick, Select, Ordered, Before, Maximal, ValidText, IsContext;
    var current := FindMessage(messages, trigger).value;
    var prior := Select(messages, Before(current.ordinal));
    ShortEnough(messages, current);
    ContextParts(messages, trigger);
    PickFits(messages, prior, current);
    MakesContext(Assemble(messages, trigger).value,
                 Pick(prior, MAX_HISTORY_MESSAGES - 1, MAX_HISTORY_TEXT_CHARS - |current.content|), messages, current);
  }

  lemma ShortEnough(messages: seq<ChatMessage>, m: ChatMessage)
    requires m in messages && forall k :: k in messages ==> ValidText(k.content)
    ensures |m.content| <= MAX_CONTENT
  {}

  /** Around a message of legal length at most 15 earlier ones are kept, and no dropped one fits. */
  lemma PickFits(messages: seq<ChatMessage>, prior: seq<ChatMessage>, current: ChatMessage)
    requires prior == Select(messages, Before(current.ordinal)) && |current.content| <= MAX_CONTENT
    ensures Maximal(
      Pick(prior, MAX_HISTORY_MESSAGES - 1, MAX_HISTORY_TEXT_CHARS - |current.content|) + [current], messages, current)
  {
    hide Pick, Select;
    var room, chars := MAX_HISTORY_MESSAGES - 1, MAX_HISTORY_TEXT_CHARS - |current.content|;
    var kept := Pick(prior, room, chars);
    SelectSound(messages, Before(current.ordinal));
    PickBounds(prior, room, chars);
    CharsAppend(kept, [current]);
    assert Chars([current]) == |current.content| by { assert [current][..0] == []; }
    hide Chars;
    forall m | m in messages && m.ordinal < current.ordinal && m !in kept + [current]
      ensures |kept| == room || Chars(kept) + |m.content| > chars
    {
      PickMaximal(prior, room, chars, m);
    }
  }

  lemma {:induction false} DistinctCount(messages: seq<ChatMessage>)
    requires Ordered(messages)
    ensures |Elements(messages)| == |messages|
  {
    if messages != [] {
      var n := |messages| - 1;
      DistinctCount(messages[..n]);
      assert Elements(messages) == Elements(messages[..n]) + {messages[n]};
      assert messages[n] !in messages[..n];
    }
  }

  /** An ordered part of an ordered list is shorter exactly when it misses a message. */
  lemma SubsequenceIsWhole(messages: seq<ChatMessage>, part: seq<ChatMessage>)
    requires Ordered(messages) && Ordered(part) && forall m :: m in part ==> m in messages
    ensures |part| != |messages| <==> exists m :: m in messages && m !in part
  {
    DistinctCount(messages);
    DistinctCount(part);
    assert Elements(part) <= Elements(messages);
    if forall m :: m in messages ==> m in part {
      assert Elements(part) == Elements(messages);
    } else {
      var m :| m in messages && m !in part;
      assert m in Elements(messages) - Elements(part);
      assert |Elements(messages)| == |Elements(part)| + |Elements(messages) - Elements(part)| by {
        assert Elements(messages) == Elements(part) + (Elements(messages) - Elements(part));
      }
    }
  }
}
