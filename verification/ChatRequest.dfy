/** The Chat Completions form of a request: one system message, one paired tool block, a user message. */
module ChatRequest {
  import opened Wrappers
  import opened Domain
  import opened Pairing
  import opened Seqs

  datatype ChatEntry =
    | SystemMessage(instructions: string, context: seq<Content>)
    | AssistantCalls(calls: seq<Entry>)
    | ToolMessage(output: Entry)
    | ChatMessage(role: WireRole, content: Content)
    | StartMessage

  predicate IsSystem(item: ModelContextItem) {
    item.role == SystemRole || item.role == DeveloperRole
  }

  /** System and developer items, merged into the one system message. */
  function SystemContext(context: seq<ModelContextItem>): seq<Content> {
    if context == [] then []
    else if IsSystem(context[0]) then [Render(context[0])] + SystemContext(context[1..])
    else SystemContext(context[1..])
  }

  function ItemMessage(item: ModelContextItem): ChatEntry {
    if item.role == ToolRole then ChatMessage(WireUser, Unbound(Render(item)))
    else ChatMessage(ToWire(item.role), Render(item))
  }

  function ToolMessages(outputs: seq<Entry>): seq<ChatEntry> {
    if outputs == [] then [] else ToolMessages(outputs[..|outputs| - 1]) + [ToolMessage(outputs[|outputs| - 1])]
  }

  function ChatBlock(context: seq<ModelContextItem>, pending: seq<PendingCall>,
                     wire: string -> string): seq<ChatEntry>
  {
    var matches := Matches(context, pending);
    var calls := CallsUpTo(pending, matches, wire, |pending|);
    (if calls == [] then [] else [AssistantCalls(calls)]) +
    ToolMessages(OutputsUpTo(context, pending, matches, |pending|))
  }

  /** The items between two positions that are neither system context nor taken by a call. */
  function ChatRest(context: seq<ModelContextItem>, matches: seq<(nat, nat)>, from: nat, to: nat): seq<ChatEntry>
    requires from <= to <= |context|
  {
    if from == to then [] else ChatRest(context, matches, from, to - 1) + RestStep(context, matches, to - 1)
  }

  function RestStep(context: seq<ModelContextItem>, matches: seq<(nat, nat)>, i: nat): seq<ChatEntry>
    requires i < |context|
  {
    if IsSystem(context[i]) || Used(matches, i) then [] else [ItemMessage(context[i])]
  }

  /** What item `i` adds to the messages. */
  function ItemStep(context: seq<ModelContextItem>, pending: seq<PendingCall>, wire: string -> string,
                    i: nat): seq<ChatEntry>
    requires i < |context|
  {
    var matches := Matches(context, pending);
    if IsSystem(context[i]) then []
    else
      (if FirstMatch(matches) == Some(i) then ChatBlock(context, pending, wire) else []) +
      (if Used(matches, i) then [] else [ItemMessage(context[i])])
  }

  function ChatBodyUpTo(context: seq<ModelContextItem>, pending: seq<PendingCall>, wire: string -> string,
                        n: nat): seq<ChatEntry>
    requires n <= |context|
  {
    if n == 0 then [] else ChatBodyUpTo(context, pending, wire, n - 1) + ItemStep(context, pending, wire, n - 1)
  }

  predicate HasUserMessage(entries: seq<ChatEntry>) {
    exists k ::
        0 <= k < |entries| && (entries[k].StartMessage? || (entries[k].ChatMessage? && entries[k].role == WireUser))
  }

  function ChatSpec(instructions: string, context: seq<ModelContextItem>, pending: seq<PendingCall>,
                    wire: string -> string): seq<ChatEntry>
  {
    [SystemMessage(instructions, SystemContext(context))] +
    ChatBodyUpTo(context, pending, wire, |context|) +
    if HasUserMessage(ChatRest(context, Matches(context, pending), 0, |context|)) then [] else [StartMessage]
  }

  lemma ToolMessagesAreOutputs(outputs: seq<Entry>)
    ensures |ToolMessages(outputs)| == |outputs|
    ensures forall k :: 0 <= k < |outputs| ==> ToolMessages(outputs)[k] == ToolMessage(outputs[k])
  {}

  method EmitChatBlock(context: seq<ModelContextItem>, pending: seq<PendingCall>, matches: seq<(nat, nat)>,
                       wire: string -> string)
    returns (block: seq<ChatEntry>)
    requires matches == Matches(context, pending)
    ensures block == ChatBlock(context, pending, wire)
  {
    var calls: seq<Entry> := [];
    for p := 0 to |pending|
      invariant calls == CallsUpTo(pending, matches, wire, p)
    {
      if Taken(matches, p) {
        calls := calls + [FunctionCall(pending[p].id, wire(pending[p].name), pending[p].arguments)];
      }
    }
    ghost var head := if calls == [] then [] else [AssistantCalls(calls)];
    block := if calls == [] then [] else [AssistantCalls(calls)];
    AppendEmpty(head);
    for p := 0 to |pending|
      invariant block == head + ToolMessages(OutputsUpTo(context, pending, matches, p))
    {
      ghost var before := OutputsUpTo(context, pending, matches, p);
      AppendEmpty(before);
      if !Taken(matches, p) {
        continue;
      }
      PairedIsNamed(context, pending, p);
      var output := FunctionCallOutput(pending[p].id, context[ContextFor(matches, p)].content);
      SnocParts(before, output);
      Regroup(head, ToolMessages(before), [ToolMessage(output)]);
      block := block + [ToolMessage(output)];
    }
  }

  lemma HasUserConcat(a: seq<ChatEntry>, b: seq<ChatEntry>)
    ensures HasUserMessage(a + b) <==> HasUserMessage(a) || HasUserMessage(b)
  {
    if HasUserMessage(a) {
      var k :| 0 <= k < |a| && (a[k].StartMessage? || (a[k].ChatMessage? && a[k].role == WireUser));
      assert (a + b)[k] == a[k];
    }
    if HasUserMessage(b) {
      var k :| 0 <= k < |b| && (b[k].StartMessage? || (b[k].ChatMessage? && b[k].role == WireUser));
      assert (a + b)[|a| + k] == b[k];
    }
  }

  lemma StepHasUser(context: seq<ModelContextItem>, matches: seq<(nat, nat)>, i: nat)
    requires i < |context|
    ensures HasUserMessage(ChatRest(context, matches, 0, i + 1)) <==>
            || HasUserMessage(ChatRest(context, matches, 0, i))
            || (!IsSystem(context[i]) && !Used(matches, i) && ItemMessage(context[i]).role == WireUser)
  {
    var step := RestStep(context, matches, i);
    HasUserConcat(ChatRest(context, matches, 0, i), step);
    if step != [] {
      assert step[0] == ItemMessage(context[i]);
    }
  }

  /** Emits one context item and reports whether it is a user message. */
  method EmitItem(context: seq<ModelContextItem>, pending: seq<PendingCall>, matches: seq<(nat, nat)>,
                  wire: string -> string, i: nat)
    returns (emitted: seq<ChatEntry>, isUser: bool)
    requires i < |context| && matches == Matches(context, pending)
    ensures emitted == ItemStep(context, pending, wire, i)
    ensures isUser == (!IsSystem(context[i]) && !Used(matches, i) && ItemMessage(context[i]).role == WireUser)
  {
    var item := context[i];
    emitted, isUser := [], false;
    if IsSystem(item) {
      return;
    }
    if FirstMatch(matches) == Some(i) {
      emitted := EmitChatBlock(context, pending, matches, wire);
    }
    if Used(matches, i) {
      return;
    }
    if item.role == ToolRole {
      isUser := true;
      emitted := emitted + [ChatMessage(WireUser, Unbound(Render(item)))];
    } else {
      isUser := ToWire(item.role) == WireUser;
      emitted := emitted + [ChatMessage(ToWire(item.role), Render(item))];
    }
  }

  method ChatMessages(instructions: string, context: seq<ModelContextItem>, pending: seq<PendingCall>,
                      wire: string -> string)
    returns (messages: seq<ChatEntry>)
    ensures messages == ChatSpec(instructions, context, pending, wire)
  {
    ghost var head := [SystemMessage(instructions, SystemContext(context))];
    messages := [SystemMessage(instructions, SystemContext(context))];
    var matches := MatchedToolResults(context, pending);
    var hasUserMessage := false;
    assert head + [] == head;
    for i := 0 to |context|
      invariant messages == head + ChatBodyUpTo(context, pending, wire, i)
      invariant hasUserMessage == HasUserMessage(ChatRest(context, matches, 0, i))
    {
      var emitted, isUser := EmitItem(context, pending, matches, wire, i);
      StepHasUser(context, matches, i);
      Regroup(head, ChatBodyUpTo(context, pending, wire, i), emitted);
      hasUserMessage := hasUserMessage || isUser;
      messages := messages + emitted;
    }
    if !hasUserMessage {
      messages := messages + [StartMessage];
    }
  }

  lemma StepIsBlockOrRest(context: seq<ModelContextItem>, pending: seq<PendingCall>, wire: string -> string, i: nat)
    requires i < |context|
    ensures var matches := Matches(context, pending);
            if FirstMatch(matches) == Some(i)
            then RestStep(context, matches, i) == []
              && ItemStep(context, pending, wire, i) == ChatBlock(context, pending, wire)
            else ItemStep(context, pending, wire, i) == RestStep(context, matches, i)
  {
    FirstMatchIsATool(context, pending);
  }

  lemma {:induction false} ChatBeforeBlock(context: seq<ModelContextItem>, pending: seq<PendingCall>,
                                           wire: string -> string, n: nat)
    requires n <= |context|
    requires FirstMatch(Matches(context, pending)) == None || n <= FirstMatch(Matches(context, pending)).value
    ensures ChatBodyUpTo(context, pending, wire, n) == ChatRest(context, Matches(context, pending), 0, n)
  {
    if n > 0 {
      ChatBeforeBlock(context, pending, wire, n - 1);
      StepIsBlockOrRest(context, pending, wire, n - 1);
    }
  }

  /** The body up to `n`, from some point of it on, is nothing but the rest. */
  ghost predicate GoesOn(context: seq<ModelContextItem>, pending: seq<PendingCall>, wire: string -> string, first: nat,
                         n: nat, before: seq<ChatEntry>)
    requires first <= n <= |context|
  {
    ChatBodyUpTo(context, pending, wire, n) == before + ChatRest(context, Matches(context, pending), first, n)
  }

  lemma BlockOpens(context: seq<ModelContextItem>, pending: seq<PendingCall>, wire: string -> string, first: nat,
                   n: nat, before: seq<ChatEntry>)
    requires first < |context| && n == first + 1 && FirstMatch(Matches(context, pending)) == Some(first)
    requires before == ChatRest(context, Matches(context, pending), 0, first) + ChatBlock(context, pending, wire)
    ensures GoesOn(context, pending, wire, first, n, before)
  {
    StepIsBlockOrRest(context, pending, wire, first);
    ChatBeforeBlock(context, pending, wire, first);
    AppendEmpty(before);
  }

  lemma BlockStays(context: seq<ModelContextItem>, pending: seq<PendingCall>, wire: string -> string, first: nat,
                   n: nat, before: seq<ChatEntry>)
    requires first < n - 1 < |context| && FirstMatch(Matches(context, pending)) == Some(first)
    requires GoesOn(context, pending, wire, first, n - 1, before)
    ensures GoesOn(context, pending, wire, first, n, before)
  {}

  lemma {:induction false} ChatBlockIsInserted(context: seq<ModelContextItem>, pending: seq<PendingCall>,
                                               wire: string -> string,
                                               first: nat, n: nat, before: seq<ChatEntry>)
    requires first < n <= |context| && FirstMatch(Matches(context, pending)) == Some(first)
    requires before == ChatRest(context, Matches(context, pending), 0, first) + ChatBlock(context, pending, wire)
    ensures GoesOn(context, pending, wire, first, n, before)
  {
    if n == first + 1 {
      BlockOpens(context, pending, wire, first, n, before);
    } else {
      ChatBlockIsInserted(context, pending, wire, first, n - 1, before);
      BlockStays(context, pending, wire, first, n, before);
    }
  }

  lemma {:induction false} ChatRestSplits(context: seq<ModelContextItem>, matches: seq<(nat, nat)>, from: nat, mid: nat,
                                          to: nat)
    requires from <= mid <= to <= |context|
    ensures ChatRest(context, matches, from, to) ==
              ChatRest(context, matches, from, mid) + ChatRest(context, matches, mid, to)
  {
    if mid == to {
      AppendEmpty(ChatRest(context, matches, from, mid));
    } else {
      ChatRestSplits(context, matches, from, mid, to - 1);
      Regroup(ChatRest(context, matches, from, mid), ChatRest(context, matches, mid, to - 1),
              RestStep(context, matches, to - 1));
    }
  }

  lemma {:induction false} RestIsPlain(context: seq<ModelContextItem>, matches: seq<(nat, nat)>, from: nat, to: nat)
    requires from <= to <= |context|
    ensures NoSystem(ChatRest(context, matches, from, to))
  {
    if from < to {
      RestIsPlain(context, matches, from, to - 1);
    }
  }

  /** What the chat form inserts for its matched calls: nothing, or one assistant message with all the
      calls followed directly by one tool message per call. */
  lemma ChatBlockShape(context: seq<ModelContextItem>, pending: seq<PendingCall>, wire: string -> string)
    ensures var matches := Matches(context, pending);
            var calls := CallsUpTo(pending, matches, wire, |pending|);
            var outputs := OutputsUpTo(context, pending, matches, |pending|);
            && WellPaired(context, calls, outputs) && |calls| == |matches|
            && ChatBlock(context, pending, wire) == if matches == [] then []
                                                    else [AssistantCalls(calls)] + ToolMessages(outputs)
  {
    BlockIsWellPaired(context, pending, wire);
  }

  /** The chat form: plain messages in their original order, with the block in front of the first match. */
  lemma ChatMessagesAreWellFormed(context: seq<ModelContextItem>, pending: seq<PendingCall>, wire: string -> string)
    ensures var matches := Matches(context, pending);
            var at := BlockPosition(context, pending);
            ChatBodyUpTo(context, pending, wire, |context|) ==
            ChatRest(context, matches, 0, at) + ChatBlock(context, pending, wire) +
              ChatRest(context, matches, at, |context|)
  {
    var matches := Matches(context, pending);
    FirstMatchIsATool(context, pending);
    match FirstMatch(matches)
    case None =>
      ChatBlockShape(context, pending, wire);
      ChatBeforeBlock(context, pending, wire, |context|);
      AppendEmpty(ChatRest(context, matches, 0, |context|));
    case Some(first) =>
      ChatBlockIsInserted(context, pending, wire, first, |context|,
                          ChatRest(context, matches, 0, first) + ChatBlock(context, pending, wire));
  }

  ghost predicate NoSystem(entries: seq<ChatEntry>) {
    forall k :: 0 <= k < |entries| ==> !entries[k].SystemMessage?
  }

  lemma InsertionKeepsUsers(before: seq<ChatEntry>, block: seq<ChatEntry>, after: seq<ChatEntry>)
    requires NoSystem(before) && NoSystem(block) && NoSystem(after)
    ensures NoSystem(before + block + after)
    ensures HasUserMessage(before + after) ==> HasUserMessage(before + block + after)
  {
    HasUserConcat(before, after);
    HasUserConcat(before, block);
    HasUserConcat(before + block, after);
  }

  lemma BlockHasNoSystem(context: seq<ModelContextItem>, pending: seq<PendingCall>, wire: string -> string)
    ensures NoSystem(ChatBlock(context, pending, wire))
  {
    ToolMessagesAreOutputs(OutputsUpTo(context, pending, Matches(context, pending), |pending|));
  }

  /** Exactly one system message, in first place, and at least one user message. */
  lemma ChatHasOneSystemAndAUser(instructions: string, context: seq<ModelContextItem>, pending: seq<PendingCall>,
                                 wire: string -> string)
    ensures var messages := ChatSpec(instructions, context, pending, wire);
            && messages != [] && messages[0] == SystemMessage(instructions, SystemContext(context))
            && NoSystem(messages[1..])
            && HasUserMessage(messages)
  {
    var matches, at := Matches(context, pending), BlockPosition(context, pending);
    var before, after := ChatRest(context, matches, 0, at), ChatRest(context, matches, at, |context|);
    ChatMessagesAreWellFormed(context, pending, wire);
    ChatRestSplits(context, matches, 0, at, |context|);
    RestIsPlain(context, matches, 0, at);
    RestIsPlain(context, matches, at, |context|);
    BlockHasNoSystem(context, pending, wire);
    InsertionKeepsUsers(before, ChatBlock(context, pending, wire), after);
    FramedHasUser(SystemMessage(instructions, SystemContext(context)), ChatBodyUpTo(context, pending, wire, |context|),
                  HasUserMessage(before + after));
  }

  lemma FramedHasUser(head: ChatEntry, body: seq<ChatEntry>, hasUser: bool)
    requires NoSystem(body) && (hasUser ==> HasUserMessage(body))
    ensures var messages := [head] + body + if hasUser then [] else [StartMessage];
            messages[0] == head && NoSystem(messages[1..]) && HasUserMessage(messages)
  {
    var tail := if hasUser then [] else [StartMessage];
    HasUserConcat([head] + body, tail);
    HasUserConcat([head], body);
    assert ([head] + body + tail)[1..] == body + tail;
    if !hasUser {
      assert tail[0].StartMessage?;
    }
  }
}
