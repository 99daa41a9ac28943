/** Chat Completions: the streaming accumulator against the parser of whole responses. */
module ChatStream {
  import opened Wrappers
  import opened Domain
  import opened Seqs

  /** The one error kind both report. */
  datatype ModelError = InvalidResponse

  datatype Turn = Turn(outputs: seq<ModelOutput>, usage: Usage, responseId: Option<string>)

  /** What lies outside: wire names to tool names, and the JSON of tool arguments. */
  datatype Env = Env(
    internalName: string -> string,
    parseArguments: string -> Result<(string, Option<EventId>), ModelError>)

  const NO_USAGE := Usage(0, 0, 0, 0)

  function OrElse<T>(value: Option<T>, default_: T): T {
    match value case Some(x) => x case None => default_
  }

  // --- Whole responses ----------------------------------------------------------------------------

  datatype ToolCallBody = ToolCallBody(id: Option<string>, name: Option<string>, arguments: Option<string>)

  datatype Message = Message(content: Option<string>, refusal: Option<string>, toolCalls: seq<ToolCallBody>,
                             functionCall: Option<ToolCallBody>)

  datatype Response = Response(id: Option<string>, usage: Option<Usage>, choices: seq<Message>)

  function CallOutputOf(env: Env, id: Option<string>, name: string,
                        arguments: string): Result<seq<ModelOutput>, ModelError>
  {
    match env.parseArguments(arguments)
    case Failure(error) => Failure(error)
    case Success((json, parent)) => Success([CallOutput(ToolCall(env.internalName(name), json, id, parent))])
  }

  /** A call without a name is an error; a blank name is not. */
  function ParseCall(env: Env, call: ToolCallBody): Result<seq<ModelOutput>, ModelError> {
    match call.name
    case None => Failure(InvalidResponse)
    case Some(name) => CallOutputOf(env, call.id, name, OrElse(call.arguments, ""))
  }

  function Append<T>(a: Result<seq<T>, ModelError>, b: Result<seq<T>, ModelError>): Result<seq<T>, ModelError> {
    match a
    case Failure(error) => Failure(error)
    case Success(x) => match b case Failure(error) => Failure(error) case Success(y) => Success(x + y)
  }

  /** All parts in order, or the first error. */
  function Collect<T>(parts: seq<Result<seq<T>, ModelError>>): Result<seq<T>, ModelError> {
    if parts == [] then Success([]) else Append(Collect(parts[..|parts| - 1]), parts[|parts| - 1])
  }

  function TextParts(text: string, refusal: string): seq<ModelOutput> {
    (if text == "" then [] else [TextOutput(text)]) + (if refusal == "" then [] else [Refusal(refusal)])
  }

  function ParsedCalls(env: Env, calls: seq<ToolCallBody>): (r: seq<Result<seq<ModelOutput>, ModelError>>)
    ensures |r| == |calls| && forall k :: 0 <= k < |r| ==> r[k] == ParseCall(env, calls[k])
  {
    seq(|calls|, k requires 0 <= k < |calls| => ParseCall(env, calls[k]))
  }

  /** The calls of a message: the listed ones, then the legacy function call, which has no identifier. */
  function CallsOf(m: Message): seq<ToolCallBody> {
    m.toolCalls + match m.functionCall case None => [] case Some(f) => [f.(id := None)]
  }

  function ParseMessage(env: Env, m: Message): Result<seq<ModelOutput>, ModelError> {
    Append(Success(TextParts(OrElse(m.content, ""), OrElse(m.refusal, ""))), Collect(ParsedCalls(env, CallsOf(m))))
  }

  function ParsedMessages(env: Env, choices: seq<Message>): (r: seq<Result<seq<ModelOutput>, ModelError>>)
    ensures |r| == |choices| && forall k :: 0 <= k < |r| ==> r[k] == ParseMessage(env, choices[k])
  {
    seq(|choices|, k requires 0 <= k < |choices| => ParseMessage(env, choices[k]))
  }

  function Conclude(outputs: Result<seq<ModelOutput>, ModelError>, usage: Option<Usage>,
                    id: Option<string>): Result<Turn, ModelError>
  {
    match outputs
    case Failure(error) => Failure(error)
    case Success(list) => if list == [] then Failure(InvalidResponse)
                          else Success(Turn(list, OrElse(usage, NO_USAGE), id))
  }

  function ParseChatTurn(env: Env, r: Response): Result<Turn, ModelError> {
    Conclude(Collect(ParsedMessages(env, r.choices)), r.usage, r.id)
  }

  // --- Accumulating fragments -----------------------------------------------------------------------

  datatype ToolAcc = ToolAcc(id: Option<string>, name: string, arguments: string)

  datatype ChoiceAcc = ChoiceAcc(text: string, refusal: string, tools: map<nat, ToolAcc>)

  const NEW_TOOL := ToolAcc(None, "", "")
  const NEW_CHOICE := ChoiceAcc("", "", map[])

  /** One thing a fragment says about one choice, or about one tool call of it. */
  datatype Capture =
    | CaptureText(choice: nat, content: string)
    | CaptureRefusal(choice: nat, content: string)
    | CaptureToolId(choice: nat, tool: nat, id: string)
    | CaptureToolName(choice: nat, tool: nat, content: string)
    | CaptureToolArguments(choice: nat, tool: nat, content: string)
  {
    predicate IsTool() {
      CaptureToolId? || CaptureToolName? || CaptureToolArguments?
    }
  }

  function ChoiceIn(choices: map<nat, ChoiceAcc>, c: nat): ChoiceAcc {
    if c in choices then choices[c] else NEW_CHOICE
  }

  function ToolIn(choice: ChoiceAcc, j: nat): ToolAcc {
    if j in choice.tools then choice.tools[j] else NEW_TOOL
  }

  /** Text, refusals, names and arguments are appended; an identifier replaces the last one. */
  function CaptureInto(choice: ChoiceAcc, capture: Capture): ChoiceAcc {
    match capture
    case CaptureText(_, s) => choice.(text := choice.text + s)
    case CaptureRefusal(_, s) => choice.(refusal := choice.refusal + s)
    case CaptureToolId(_, j, id) => choice.(tools := choice.tools[j := ToolIn(choice, j).(id := Some(id))])
    case CaptureToolName(_, j, s) =>
      choice.(tools := choice.tools[j := ToolIn(choice, j).(name := ToolIn(choice, j).name + s)])
    case CaptureToolArguments(_, j, s) =>
      choice.(tools := choice.tools[j := ToolIn(choice, j).(arguments := ToolIn(choice, j).arguments + s)])
  }

  function CaptureOne(choices: map<nat, ChoiceAcc>, capture: Capture): map<nat, ChoiceAcc> {
    choices[capture.choice := CaptureInto(ChoiceIn(choices, capture.choice), capture)]
  }

  function CaptureAll(choices: map<nat, ChoiceAcc>, captures: seq<Capture>): map<nat, ChoiceAcc> {
    if captures == [] then choices
    else CaptureOne(CaptureAll(choices, captures[..|captures| - 1]), captures[|captures| - 1])
  }

  lemma CaptureSnoc(choices: map<nat, ChoiceAcc>, captures: seq<Capture>, capture: Capture)
    ensures CaptureAll(choices, captures + [capture]) == CaptureOne(CaptureAll(choices, captures), capture)
  {
    assert (captures + [capture])[..|captures|] == captures;
  }

  /** A blank name is an error here. */
  function ToolOutput(env: Env, tool: ToolAcc): Result<seq<ModelOutput>, ModelError> {
    if IsBlank(tool.name) then Failure(InvalidResponse) else CallOutputOf(env, tool.id, tool.name, tool.arguments)
  }

  function ToolAt(env: Env, tools: map<nat, ToolAcc>, j: nat): Result<seq<ModelOutput>, ModelError> {
    if j in tools then ToolOutput(env, tools[j]) else Success([])
  }

  /** Tool calls in index order. */
  function ToolsBelow(env: Env, tools: map<nat, ToolAcc>, n: nat): Result<seq<ModelOutput>, ModelError> {
    if n == 0 then Success([]) else Append(ToolsBelow(env, tools, n - 1), ToolAt(env, tools, n - 1))
  }

  /** A number above every key. */
  ghost function Above(keys: set<nat>): (r: nat)
    ensures forall k :: k in keys ==> k < r
  {
    if keys == {} then 0
    else
      var k :| k in keys;
      var rest := Above(keys - {k});
      assert keys == (keys - {k}) + {k};
      if k < rest then rest else k + 1
  }

  ghost function ChoiceOutputs(env: Env, choice: ChoiceAcc): Result<seq<ModelOutput>, ModelError> {
    Append(Success(TextParts(choice.text, choice.refusal)), ToolsBelow(env, choice.tools, Above(choice.tools.Keys)))
  }

  ghost function ChoiceAt(env: Env, choices: map<nat, ChoiceAcc>, c: nat): Result<seq<ModelOutput>, ModelError> {
    if c in choices then ChoiceOutputs(env, choices[c]) else Success([])
  }

  /** Choices in index order. */
  ghost function ChoicesBelow(env: Env, choices: map<nat, ChoiceAcc>, n: nat): Result<seq<ModelOutput>, ModelError> {
    if n == 0 then Success([]) else Append(ChoicesBelow(env, choices, n - 1), ChoiceAt(env, choices, n - 1))
  }

  ghost function FinishSpec(env: Env, choices: map<nat, ChoiceAcc>, usage: Option<Usage>,
                            id: Option<string>): Result<Turn, ModelError>
  {
    Conclude(ChoicesBelow(env, choices, Above(choices.Keys)), usage, id)
  }

  /** One streamed event, already decoded. */
  datatype ToolDelta = ToolDelta(index: nat, id: Option<string>, name: Option<string>, arguments: Option<string>)

  datatype ChoiceDelta = ChoiceDelta(
    index: nat, content: Option<string>, reasoning: Option<string>, refusal: Option<string>,
    toolCalls: seq<ToolDelta>, functionCall: Option<(Option<string>, Option<string>)>)

  datatype Chunk = Chunk(id: Option<string>, usage: Option<Usage>, choices: seq<ChoiceDelta>)

  function Maybe<T, U>(value: Option<T>, f: T -> U): seq<U> {
    match value case Some(x) => [f(x)] case None => []
  }

  function ToolCaptures(c: nat, t: ToolDelta): seq<Capture> {
    Maybe(t.id, id => CaptureToolId(c, t.index, id)) +
    Maybe(t.name, name => CaptureToolName(c, t.index, name)) +
    Maybe(t.arguments, arguments => CaptureToolArguments(c, t.index, arguments))
  }

  function ToolListCaptures(c: nat, tools: seq<ToolDelta>): seq<Capture> {
    if tools == [] then [] else ToolListCaptures(c, tools[..|tools| - 1]) + ToolCaptures(c, tools[|tools| - 1])
  }

  /** A legacy function call is captured as the tool call with index 0. */
  function FunctionCaptures(c: nat, f: Option<(Option<string>, Option<string>)>): seq<Capture> {
    match f
    case None => []
    case Some((name, arguments)) => ToolCaptures(c, ToolDelta(0, None, name, arguments))
  }

  function ChoiceCaptures(d: ChoiceDelta): seq<Capture> {
    Maybe(d.content, s => CaptureText(d.index, s)) +
    Maybe(d.refusal, s => CaptureRefusal(d.index, s)) +
    ToolListCaptures(d.index, d.toolCalls) +
    FunctionCaptures(d.index, d.functionCall)
  }

  function ChoiceListCaptures(choices: seq<ChoiceDelta>): seq<Capture> {
    if choices == [] then [] else ChoiceListCaptures(choices[..|choices| - 1]) + ChoiceCaptures(choices[|choices| - 1])
  }

  function CapturesOf(chunks: seq<Chunk>): seq<Capture> {
    if chunks == [] then [] else CapturesOf(chunks[..|chunks| - 1]) + ChoiceListCaptures(chunks[|chunks| - 1].choices)
  }

  /** The last identifier and the last usage any chunk carried. */
  function LastId(chunks: seq<Chunk>): Option<string> {
    if chunks == [] then None
    else if chunks[|chunks| - 1].id.Some? then chunks[|chunks| - 1].id
    else LastId(chunks[..|chunks| - 1])
  }

  function LastUsage(chunks: seq<Chunk>): Option<Usage> {
    if chunks == [] then None
    else if chunks[|chunks| - 1].usage.Some? then chunks[|chunks| - 1].usage
    else LastUsage(chunks[..|chunks| - 1])
  }

  lemma {:induction false} CaptureConcat(choices: map<nat, ChoiceAcc>, first: seq<Capture>, second: seq<Capture>)
    ensures CaptureAll(choices, first + second) == CaptureAll(CaptureAll(choices, first), second)
  {
    if second == [] {
      assert first + second == first;
    } else {
      var init, last := second[..|second| - 1], second[|second| - 1];
      CaptureConcat(choices, first, init);
      CaptureSnoc(choices, first + init, last);
      assert first + second == (first + init) + [last];
    }
  }

  class ChatAccumulator {
    var responseId: Option<string>
    var usage: Option<Usage>
    var choices: map<nat, ChoiceAcc>

    constructor ()
      ensures responseId == None && usage == None && choices == map[]
    {
      responseId, usage, choices := None, None, map[];
    }

    method Capture(capture: Capture)
      modifies this`choices
      ensures choices == CaptureOne(old(choices), capture)
    {
      choices := choices[capture.choice := CaptureInto(ChoiceIn(choices, capture.choice), capture)];
    }

    method CaptureTool(c: nat, t: ToolDelta)
      modifies this`choices
      ensures choices == CaptureAll(old(choices), ToolCaptures(c, t))
    {
      ghost var before, done := choices, [];
      if t.id.Some? {
        Capture(CaptureToolId(c, t.index, t.id.value));
        CaptureSnoc(before, done, CaptureToolId(c, t.index, t.id.value));
        done := done + [CaptureToolId(c, t.index, t.id.value)];
      }
      if t.name.Some? {
        Capture(CaptureToolName(c, t.index, t.name.value));
        CaptureSnoc(before, done, CaptureToolName(c, t.index, t.name.value));
        done := done + [CaptureToolName(c, t.index, t.name.value)];
      }
      if t.arguments.Some? {
        Capture(CaptureToolArguments(c, t.index, t.arguments.value));
        CaptureSnoc(before, done, CaptureToolArguments(c, t.index, t.arguments.value));
        done := done + [CaptureToolArguments(c, t.index, t.arguments.value)];
      }
      assert done == ToolCaptures(c, t);
    }

    method CaptureChoice(d: ChoiceDelta)
      modifies this`choices
      ensures choices == CaptureAll(old(choices), ChoiceCaptures(d))
    {
      ghost var before, done := choices, [];
      if d.content.Some? {
        Capture(CaptureText(d.index, d.content.value));
        CaptureSnoc(before, done, CaptureText(d.index, d.content.value));
        done := done + [CaptureText(d.index, d.content.value)];
      }
      if d.refusal.Some? {
        Capture(CaptureRefusal(d.index, d.refusal.value));
        CaptureSnoc(before, done, CaptureRefusal(d.index, d.refusal.value));
        done := done + [CaptureRefusal(d.index, d.refusal.value)];
      }
      ghost var texts := done;
      assert texts == Maybe(d.content, s => CaptureText(d.index, s)) +
             Maybe(d.refusal, s => CaptureRefusal(d.index, s));
      NothingMore(texts);
      for i := 0 to |d.toolCalls|
        invariant choices == CaptureAll(before, texts + ToolListCaptures(d.index, d.toolCalls[..i]))
      {
        ghost var soFar := ToolListCaptures(d.index, d.toolCalls[..i]);
        CaptureTool(d.index, d.toolCalls[i]);
        CaptureConcat(before, texts + soFar, ToolCaptures(d.index, d.toolCalls[i]));
        ToolListSnoc(d.index, d.toolCalls, i, texts);
      }
      TakeAll(d.toolCalls);
      if d.functionCall.Some? {
        var (name, arguments) := d.functionCall.value;
        CaptureTool(d.index, ToolDelta(0, None, name, arguments));
      }
      CaptureConcat(before, texts + ToolListCaptures(d.index, d.toolCalls), FunctionCaptures(d.index, d.functionCall));
    }

    /** One streamed event. */
    method HandleChunk(chunk: Chunk)
      modifies this
      ensures choices == CaptureAll(old(choices), ChoiceListCaptures(chunk.choices))
      ensures responseId == if chunk.id.Some? then chunk.id else old(responseId)
      ensures usage == if chunk.usage.Some? then chunk.usage else old(usage)
    {
      if chunk.id.Some? {
        responseId := chunk.id;
      }
      if chunk.usage.Some? {
        usage := chunk.usage;
      }
      ghost var before, theId, theUsage := choices, responseId, usage;
      for i := 0 to |chunk.choices|
        invariant choices == CaptureAll(before, ChoiceListCaptures(chunk.choices[..i])) && responseId == theId
                  && usage == theUsage
      {
        ghost var soFar := ChoiceListCaptures(chunk.choices[..i]);
        CaptureChoice(chunk.choices[i]);
        CaptureConcat(before, soFar, ChoiceCaptures(chunk.choices[i]));
        TakeSnoc(chunk.choices, i);
      }
      TakeAll(chunk.choices);
    }

    /** What the whole stream amounts to: text, then refusal, then calls, choice by choice. */
    method Finish(env: Env) returns (r: Result<Turn, ModelError>)
      ensures r == FinishSpec(env, choices, usage, responseId)
    {
      var outputs: Result<seq<ModelOutput>, ModelError> := Success([]);
      var bound := KeyBound(choices.Keys);
      for c := 0 to bound
        invariant outputs == ChoicesBelow(env, choices, c)
      {
        if c in choices {
          var part := FinishChoice(env, choices[c]);
          outputs := Append(outputs, part);
        } else {
          assert outputs.Success? ==> outputs.value + [] == outputs.value;
        }
      }
      r := Conclude(outputs, usage, responseId);
    }
  }

  lemma NothingMore(texts: seq<Capture>)
    ensures texts + [] == texts
  {}

  lemma ToolListSnoc(c: nat, tools: seq<ToolDelta>, i: nat, texts: seq<Capture>)
    requires i < |tools|
    ensures texts + ToolListCaptures(c, tools[..i]) + ToolCaptures(c, tools[i]) ==
              texts + ToolListCaptures(c, tools[..i + 1])
  {
    assert tools[..i + 1][..i] == tools[..i];
  }

  method KeyBound(keys: set<nat>) returns (bound: nat)
    ensures bound == Above(keys)
  {
    bound := 0;
    var rest := keys;
    while rest != {}
      invariant rest <= keys && (forall k :: k in keys && k !in rest ==> k < bound)
      invariant bound <= Above(keys)
    {
      var k :| k in rest;
      rest := rest - {k};
      if k >= bound {
        bound := k + 1;
      }
    }
    AboveIsLeast(keys, bound);
  }

  lemma {:induction false} AboveIsLeast(keys: set<nat>, bound: nat)
    requires forall k :: k in keys ==> k < bound
    ensures Above(keys) <= bound
  {
    if keys != {} {
      forall k | k in keys
        ensures Above(keys - {k}) <= bound
      {
        AboveIsLeast(keys - {k}, bound);
      }
    }
  }

  method FinishChoice(env: Env, choice: ChoiceAcc) returns (r: Result<seq<ModelOutput>, ModelError>)
    ensures r == ChoiceOutputs(env, choice)
  {
    var calls: Result<seq<ModelOutput>, ModelError> := Success([]);
    var bound := KeyBound(choice.tools.Keys);
    for j := 0 to bound
      invariant calls == ToolsBelow(env, choice.tools, j)
    {
      calls := Append(calls, ToolAt(env, choice.tools, j));
    }
    r := Append(Success(TextParts(choice.text, choice.refusal)), calls);
  }

  lemma {:induction false} ChunksAreCaptured(chunks: seq<Chunk>, chunk: Chunk)
    ensures CaptureAll(map[], CapturesOf(chunks + [chunk])) ==
              CaptureAll(CaptureAll(map[], CapturesOf(chunks)), ChoiceListCaptures(chunk.choices))
    ensures LastId(chunks + [chunk]) == if chunk.id.Some? then chunk.id else LastId(chunks)
    ensures LastUsage(chunks + [chunk]) == if chunk.usage.Some? then chunk.usage else LastUsage(chunks)
  {
    assert (chunks + [chunk])[..|chunks|] == chunks;
    CaptureConcat(map[], CapturesOf(chunks), ChoiceListCaptures(chunk.choices));
  }

  /** Feeding a stream chunk by chunk and finishing depends only on what was captured, in order. */
  method Accumulate(env: Env, chunks: seq<Chunk>) returns (r: Result<Turn, ModelError>)
    ensures r == FinishSpec(env, CaptureAll(map[], CapturesOf(chunks)), LastUsage(chunks), LastId(chunks))
  {
    var accumulator := new ChatAccumulator();
    for i := 0 to |chunks|
      invariant accumulator.choices == CaptureAll(map[], CapturesOf(chunks[..i]))
      invariant accumulator.usage == LastUsage(chunks[..i]) && accumulator.responseId == LastId(chunks[..i])
    {
      accumulator.HandleChunk(chunks[i]);
      ChunksAreCaptured(chunks[..i], chunks[i]);
      TakeSnoc(chunks, i);
    }
    TakeAll(chunks);
    r := accumulator.Finish(env);
  }

  // --- What the fragments add up to -----------------------------------------------------------------

  function TextOf(captures: seq<Capture>, c: nat): string {
    if captures == [] then ""
    else
      var last := captures[|captures| - 1];
      TextOf(captures[..|captures| - 1], c) + if last.CaptureText? && last.choice == c then last.content else ""
  }

  function RefusalOf(captures: seq<Capture>, c: nat): string {
    if captures == [] then ""
    else
      var last := captures[|captures| - 1];
      RefusalOf(captures[..|captures| - 1], c) + if last.CaptureRefusal? && last.choice == c then last.content else ""
  }

  function NameOf(captures: seq<Capture>, c: nat, j: nat): string {
    if captures == [] then ""
    else
      var last := captures[|captures| - 1];
      NameOf(captures[..|captures| - 1], c, j) +
        if last.CaptureToolName? && last.choice == c && last.tool == j then last.content else ""
  }

  function ArgumentsOf(captures: seq<Capture>, c: nat, j: nat): string {
    if captures == [] then ""
    else
      var last := captures[|captures| - 1];
      ArgumentsOf(captures[..|captures| - 1], c, j) +
      if last.CaptureToolArguments? && last.choice == c && last.tool == j then last.content else ""
  }

  /** The last identifier given. */
  function IdOf(captures: seq<Capture>, c: nat, j: nat): Option<string> {
    if captures == [] then None
    else
      var last := captures[|captures| - 1];
      if last.CaptureToolId? && last.choice == c && last.tool == j then Some(last.id)
      else IdOf(captures[..|captures| - 1], c, j)
  }

  predicate Touches(captures: seq<Capture>, c: nat) {
    exists i :: 0 <= i < |captures| && captures[i].choice == c
  }

  predicate TouchesTool(captures: seq<Capture>, c: nat, j: nat) {
    exists i :: 0 <= i < |captures| && captures[i].IsTool() && captures[i].choice == c && captures[i].tool == j
  }

  lemma TouchesSnoc(captures: seq<Capture>, last: Capture, c: nat)
    ensures Touches(captures + [last], c) <==> Touches(captures, c) || last.choice == c
  {
    var all := captures + [last];
    if Touches(captures, c) {
      var i :| 0 <= i < |captures| && captures[i].choice == c;
      assert all[i].choice == c;
    }
    assert all[|captures|] == last;
  }

  lemma TouchesToolSnoc(captures: seq<Capture>, last: Capture, c: nat, j: nat)
    ensures TouchesTool(captures + [last], c, j) <==>
              TouchesTool(captures, c, j) || (last.IsTool() && last.choice == c && last.tool == j)
  {
    var all := captures + [last];
    if TouchesTool(captures, c, j) {
      var i :| 0 <= i < |captures| && captures[i].IsTool() && captures[i].choice == c && captures[i].tool == j;
      assert all[i].IsTool() && all[i].choice == c && all[i].tool == j;
    }
    assert all[|captures|] == last;
  }

  function Accumulated(captures: seq<Capture>): map<nat, ChoiceAcc> {
    CaptureAll(map[], captures)
  }

  lemma {:induction false} AccumulatedText(captures: seq<Capture>, c: nat)
    ensures c in Accumulated(captures) <==> Touches(captures, c)
    ensures ChoiceIn(Accumulated(captures), c).text == TextOf(captures, c)
    ensures ChoiceIn(Accumulated(captures), c).refusal == RefusalOf(captures, c)
  {
    if captures != [] {
      var init, last := captures[..|captures| - 1], captures[|captures| - 1];
      assert captures == init + [last];
      AccumulatedText(init, c);
      TouchesSnoc(init, last, c);
    }
  }

  lemma {:induction false} AccumulatedTool(captures: seq<Capture>, c: nat, j: nat)
    ensures j in ChoiceIn(Accumulated(captures), c).tools <==> TouchesTool(captures, c, j)
    ensures ToolIn(ChoiceIn(Accumulated(captures), c), j) ==
              ToolAcc(IdOf(captures, c, j), NameOf(captures, c, j), ArgumentsOf(captures, c, j))
  {
    if captures != [] {
      var init, last := captures[..|captures| - 1], captures[|captures| - 1];
      assert captures == init + [last];
      AccumulatedTool(init, c, j);
      TouchesToolSnoc(init, last, c, j);
    }
  }

  // --- Cutting a message into fragments -------------------------------------------------------------

  ghost predicate Increasing(s: seq<nat>) {
    forall j, k :: 0 <= j < k < |s| ==> s[j] < s[k]
  }

  /** The fragments for choice `c` add up to message `m`, its calls under the indices `tools`. */
  ghost predicate CutsChoice(captures: seq<Capture>, c: nat, m: Message, tools: seq<nat>) {
    && |tools| == |CallsOf(m)| && Increasing(tools)
    && TextOf(captures, c) == OrElse(m.content, "") && RefusalOf(captures, c) == OrElse(m.refusal, "")
    && (forall j :: TouchesTool(captures, c, j) <==> j in tools)
    && forall t :: 0 <= t < |tools| ==> CutsCall(captures, c, tools[t], CallsOf(m)[t])
  }

  ghost predicate CutsCall(captures: seq<Capture>, c: nat, j: nat, call: ToolCallBody) {
    && NameOf(captures, c, j) == OrElse(call.name, "")
    && ArgumentsOf(captures, c, j) == OrElse(call.arguments, "")
    && IdOf(captures, c, j) == call.id
  }

  /** Any order, any sizes, any number of fragments: what counts is that each text, name and argument
      string is the concatenation of its pieces, and that choices and calls keep their order under
      increasing indices. */
  ghost predicate IsCutting(captures: seq<Capture>, choices: seq<Message>, indices: seq<nat>, tools: seq<seq<nat>>) {
    && |indices| == |choices| == |tools| && Increasing(indices)
    && (forall c :: Touches(captures, c) ==> c in indices)
    && forall k :: 0 <= k < |choices| ==> CutsChoice(captures, indices[k], choices[k], tools[k])
  }

  // --- Streaming refines batch ----------------------------------------------------------------------

  lemma {:induction false} CollectSparse<T>(sparse: seq<Result<seq<T>, ModelError>>, indices: seq<nat>,
                                            dense: seq<Result<seq<T>, ModelError>>)
    requires |indices| == |dense| && Increasing(indices)
    requires forall k :: 0 <= k < |indices| ==> indices[k] < |sparse| && sparse[indices[k]] == dense[k]
    requires forall i :: 0 <= i < |sparse| && i !in indices ==> sparse[i] == Success([])
    ensures Collect(sparse) == Collect(dense)
  {
    if sparse != [] {
      var last := |sparse| - 1;
      if last in indices {
        var k := |indices| - 1;
        LastIndex(indices, last);
        forall i | 0 <= i < last && i !in indices[..k]
          ensures sparse[..last][i] == Success([])
        {
          assert i !in indices;
        }
        CollectSparse(sparse[..last], indices[..k], dense[..k]);
      } else {
        CollectSparse(sparse[..last], indices, dense);
        AppendNothing(Collect(sparse[..last]));
      }
    }
  }

  /** The greatest index, if used, is used last. */
  lemma LastIndex(indices: seq<nat>, last: nat)
    requires Increasing(indices) && last in indices && forall k :: 0 <= k < |indices| ==> indices[k] <= last
    ensures indices[|indices| - 1] == last && forall i :: i in indices ==> i in indices[..|indices| - 1] || i == last
  {}

  lemma CollectSnoc<T>(parts: seq<Result<seq<T>, ModelError>>, last: Result<seq<T>, ModelError>)
    ensures Collect(parts + [last]) == Append(Collect(parts), last)
  {}

  lemma AppendNothing<T>(a: Result<seq<T>, ModelError>)
    ensures Append(a, Success([])) == a
  {
    if a.Success? {
      assert a.value + [] == a.value;
    }
  }

  function ToolParts(env: Env, tools: map<nat, ToolAcc>, n: nat): (r: seq<Result<seq<ModelOutput>, ModelError>>)
    ensures |r| == n && forall j :: 0 <= j < n ==> r[j] == ToolAt(env, tools, j)
  {
    seq(n, j requires 0 <= j < n => ToolAt(env, tools, j))
  }

  lemma {:induction false} ToolsBelowIsCollect(env: Env, tools: map<nat, ToolAcc>, n: nat)
    ensures ToolsBelow(env, tools, n) == Collect(ToolParts(env, tools, n))
  {
    if n > 0 {
      ToolsBelowIsCollect(env, tools, n - 1);
      assert ToolParts(env, tools, n)[..n - 1] == ToolParts(env, tools, n - 1);
    }
  }

  ghost function ChoiceParts(env: Env, choices: map<nat, ChoiceAcc>,
                             n: nat): (r: seq<Result<seq<ModelOutput>, ModelError>>)
    ensures |r| == n && forall c :: 0 <= c < n ==> r[c] == ChoiceAt(env, choices, c)
  {
    if n == 0 then [] else ChoiceParts(env, choices, n - 1) + [ChoiceAt(env, choices, n - 1)]
  }

  lemma {:induction false} ChoicesBelowIsCollect(env: Env, choices: map<nat, ChoiceAcc>, n: nat)
    ensures ChoicesBelow(env, choices, n) == Collect(ChoiceParts(env, choices, n))
  {
    if n > 0 {
      ChoicesBelowIsCollect(env, choices, n - 1);
      CollectSnoc(ChoiceParts(env, choices, n - 1), ChoiceAt(env, choices, n - 1));
    }
  }

  predicate HasBlankName(call: ToolCallBody) {
    call.name.Some? && IsBlank(call.name.value)
  }

  /** Parsing that also refuses blank names. */
  function StrictCall(env: Env, call: ToolCallBody): Result<seq<ModelOutput>, ModelError> {
    if HasBlankName(call) then Failure(InvalidResponse) else ParseCall(env, call)
  }

  function StrictCalls(env: Env, calls: seq<ToolCallBody>): (r: seq<Result<seq<ModelOutput>, ModelError>>)
    ensures |r| == |calls| && forall k :: 0 <= k < |r| ==> r[k] == StrictCall(env, calls[k])
  {
    seq(|calls|, k requires 0 <= k < |calls| => StrictCall(env, calls[k]))
  }

  function StrictMessage(env: Env, m: Message): Result<seq<ModelOutput>, ModelError> {
    Append(Success(TextParts(OrElse(m.content, ""), OrElse(m.refusal, ""))), Collect(StrictCalls(env, CallsOf(m))))
  }

  function StrictMessages(env: Env, choices: seq<Message>): (r: seq<Result<seq<ModelOutput>, ModelError>>)
    ensures |r| == |choices| && forall k :: 0 <= k < |r| ==> r[k] == StrictMessage(env, choices[k])
  {
    seq(|choices|, k requires 0 <= k < |choices| => StrictMessage(env, choices[k]))
  }

  lemma CallIsRebuilt(env: Env, captures: seq<Capture>, c: nat, j: nat, call: ToolCallBody)
    requires CutsCall(captures, c, j, call) && TouchesTool(captures, c, j)
    ensures ToolAt(env, ChoiceIn(Accumulated(captures), c).tools, j) == StrictCall(env, call)
  {
    AccumulatedTool(captures, c, j);
  }

  lemma CallsAreRebuilt(env: Env, captures: seq<Capture>, c: nat, m: Message, tools: seq<nat>)
    requires CutsChoice(captures, c, m, tools)
    ensures var acc := ChoiceIn(Accumulated(captures), c).tools;
            ToolsBelow(env, acc, Above(acc.Keys)) == Collect(StrictCalls(env, CallsOf(m)))
  {
    var acc := ChoiceIn(Accumulated(captures), c).tools;
    var n := Above(acc.Keys);
    ToolsBelowIsCollect(env, acc, n);
    forall j: nat
      ensures j in acc <==> j in tools
    {
      AccumulatedTool(captures, c, j);
    }
    forall t | 0 <= t < |tools|
      ensures tools[t] < n && ToolAt(env, acc, tools[t]) == StrictCall(env, CallsOf(m)[t])
    {
      assert tools[t] in acc.Keys;
      CallIsRebuilt(env, captures, c, tools[t], CallsOf(m)[t]);
    }
    CollectSparse(ToolParts(env, acc, n), tools, StrictCalls(env, CallsOf(m)));
  }

  lemma ChoiceIsRebuilt(env: Env, captures: seq<Capture>, c: nat, m: Message, tools: seq<nat>)
    requires CutsChoice(captures, c, m, tools)
    ensures ChoiceAt(env, Accumulated(captures), c) == StrictMessage(env, m)
  {
    AccumulatedText(captures, c);
    CallsAreRebuilt(env, captures, c, m, tools);
    if c !in Accumulated(captures) {
      assert ToolsBelow(env, map[], Above({})) == Success([]);
    }
  }

  lemma ChoicesAreRebuilt(env: Env, captures: seq<Capture>, choices: seq<Message>, indices: seq<nat>,
                          tools: seq<seq<nat>>,
                          acc: map<nat, ChoiceAcc>, n: nat)
    requires IsCutting(captures, choices, indices, tools) && acc == Accumulated(captures)
    requires forall k :: 0 <= k < |indices| ==> indices[k] < n
    ensures ChoicesBelow(env, acc, n) == Collect(StrictMessages(env, choices))
  {
    var sparse, dense := ChoiceParts(env, acc, n), StrictMessages(env, choices);
    forall c: nat | c < n && c !in indices
      ensures sparse[c] == Success([])
    {
      AccumulatedText(captures, c);
    }
    forall k | 0 <= k < |indices|
      ensures sparse[indices[k]] == dense[k]
    {
      ChoiceIsRebuilt(env, captures, indices[k], choices[k], tools[k]);
    }
    ChoicesBelowIsCollect(env, acc, n);
    CollectSparse(sparse, indices, dense);
  }

  lemma IndicesAreBelow(indices: seq<nat>, keys: set<nat>)
    ensures var n := Above(keys + set c | c in indices);
            (forall k :: 0 <= k < |indices| ==> indices[k] < n) && (forall c :: c in keys ==> c < n)
  {
    var all := keys + set c | c in indices;
    assert forall k :: 0 <= k < |indices| ==> indices[k] in all;
  }

  /** Whatever the fragments, the stream is the strict parse of the message they were cut from. */
  lemma StreamIsStrictParse(env: Env, captures: seq<Capture>, r: Response, indices: seq<nat>, tools: seq<seq<nat>>)
    requires IsCutting(captures, r.choices, indices, tools)
    ensures FinishSpec(env, Accumulated(captures), r.usage, r.id) ==
              Conclude(Collect(StrictMessages(env, r.choices)), r.usage, r.id)
  {
    var acc := Accumulated(captures);
    var n := Above(acc.Keys + set c | c in indices);
    IndicesAreBelow(indices, acc.Keys);
    ChoicesAreRebuilt(env, captures, r.choices, indices, tools, acc, n);
    AboveIsLeast(acc.Keys, n);
    NothingAbove(env, acc, Above(acc.Keys), n);
  }

  lemma {:induction false} NothingAbove(env: Env, choices: map<nat, ChoiceAcc>, m: nat, n: nat)
    requires m <= n && forall c :: c in choices ==> c < m
    ensures ChoicesBelow(env, choices, n) == ChoicesBelow(env, choices, m)
  {
    if m < n {
      NothingAbove(env, choices, m, n - 1);
      AppendNothing(ChoicesBelow(env, choices, n - 1));
    }
  }

  predicate HasBlankCall(m: Message) {
    exists t :: 0 <= t < |CallsOf(m)| && HasBlankName(CallsOf(m)[t])
  }

  lemma {:induction false} OneFailureFailsAll<T>(parts: seq<Result<seq<T>, ModelError>>, k: nat)
    requires k < |parts| && parts[k].Failure?
    ensures Collect(parts).Failure?
  {
    if k < |parts| - 1 {
      OneFailureFailsAll(parts[..|parts| - 1], k);
    }
  }

  lemma StrictUnlessBlank(env: Env, m: Message)
    ensures if HasBlankCall(m) then StrictMessage(env, m).Failure? else StrictMessage(env, m) == ParseMessage(env, m)
  {
    if HasBlankCall(m) {
      var t :| 0 <= t < |CallsOf(m)| && HasBlankName(CallsOf(m)[t]);
      OneFailureFailsAll(StrictCalls(env, CallsOf(m)), t);
    } else {
      assert StrictCalls(env, CallsOf(m)) == ParsedCalls(env, CallsOf(m));
    }
  }

  predicate HasBlankCallIn(choices: seq<Message>) {
    exists k :: 0 <= k < |choices| && HasBlankCall(choices[k])
  }

  /** Streaming refines batch: for every cutting of a response, the accumulated turn is the parsed turn,
      unless some call has a blank name, which the stream refuses and the batch parser lets through. So the
      two agree exactly when no name is blank or the batch parser refuses the response as well. */
  lemma StreamingRefinesBatch(env: Env, chunks: seq<Chunk>, r: Response, indices: seq<nat>, tools: seq<seq<nat>>)
    requires IsCutting(CapturesOf(chunks), r.choices, indices, tools)
    requires LastUsage(chunks) == r.usage && LastId(chunks) == r.id
    ensures var streamed := FinishSpec(env, Accumulated(CapturesOf(chunks)), LastUsage(chunks), LastId(chunks));
            && (if HasBlankCallIn(r.choices) then streamed.Failure? else streamed == ParseChatTurn(env, r))
            && (streamed == ParseChatTurn(env, r) <==> !HasBlankCallIn(r.choices) || ParseChatTurn(env, r).Failure?)
  {
    StreamIsStrictParse(env, CapturesOf(chunks), r, indices, tools);
    StrictMessagesUnlessBlank(env, r.choices);
    var batch := ParseChatTurn(env, r);
    if batch.Failure? {
      OnlyError(batch.error);
    }
    if HasBlankCallIn(r.choices) {
      OnlyError(Collect(StrictMessages(env, r.choices)).error);
    }
  }

  lemma OnlyError(error: ModelError)
    ensures error == InvalidResponse
  {}

  lemma StrictMessagesUnlessBlank(env: Env, choices: seq<Message>)
    ensures if HasBlankCallIn(choices) then Collect(StrictMessages(env, choices)).Failure?
            else StrictMessages(env, choices) == ParsedMessages(env, choices)
  {
    if HasBlankCallIn(choices) {
      var k :| 0 <= k < |choices| && HasBlankCall(choices[k]);
      StrictUnlessBlank(env, choices[k]);
      OneFailureFailsAll(StrictMessages(env, choices), k);
    } else {
      forall k | 0 <= k < |choices|
        ensures StrictMessage(env, choices[k]) == ParseMessage(env, choices[k])
      {
        StrictUnlessBlank(env, choices[k]);
      }
    }
  }

  /** Two captures of one call, read back. */
  lemma TwoPiecesAddUp(name: string, arguments: string)
    ensures var captures := [CaptureToolName(0, 0, name), CaptureToolArguments(0, 0, arguments)];
            && TextOf(captures, 0) == "" && RefusalOf(captures, 0) == ""
            && NameOf(captures, 0, 0) == name && ArgumentsOf(captures, 0, 0) == arguments
            && IdOf(captures, 0, 0) == None
  {
    var first := [CaptureToolName(0, 0, name)];
    var captures := [CaptureToolName(0, 0, name), CaptureToolArguments(0, 0, arguments)];
    assert captures[..1] == first && first[..0] == [];
    EmptyAround(name);
    EmptyAround(arguments);
    assert NameOf(first, 0, 0) == "" + name;
    assert ArgumentsOf(first, 0, 0) == "" + "" == "";
    assert TextOf(first, 0) == "" + "" == "" && RefusalOf(first, 0) == "" + "" == "";
    assert IdOf(first, 0, 0) == IdOf([], 0, 0);
  }

  lemma EmptyAround(s: string)
    ensures "" + s == s && s + "" == s
  {}

  lemma OneCallInTwoPieces(name: string, arguments: string)
    ensures var captures := [CaptureToolName(0, 0, name), CaptureToolArguments(0, 0, arguments)];
            var m := Message(None, None, [ToolCallBody(None, Some(name), Some(arguments))], None);
            IsCutting(captures, [m], [0], [[0]])
  {
    var captures := [CaptureToolName(0, 0, name), CaptureToolArguments(0, 0, arguments)];
    var call := ToolCallBody(None, Some(name), Some(arguments));
    var m := Message(None, None, [call], None);
    TwoPiecesAddUp(name, arguments);
    assert CallsOf(m) == [call];
    assert captures[0].IsTool() && captures[0].choice == 0 && captures[0].tool == 0;
    assert TouchesTool(captures, 0, 0) && CutsCall(captures, 0, 0, call);
    assert CutsChoice(captures, 0, m, [0]);
  }

  lemma OneCallChunk(name: string, arguments: string)
    ensures CapturesOf([Chunk(None, None,
                              [ChoiceDelta(0, None, None, None, [ToolDelta(0, None, Some(name), Some(arguments))],
                                           None)])]) ==
            [CaptureToolName(0, 0, name), CaptureToolArguments(0, 0, arguments)]
  {
    var tool := ToolDelta(0, None, Some(name), Some(arguments));
    var delta := ChoiceDelta(0, None, None, None, [tool], None);
    var captures := [CaptureToolName(0, 0, name), CaptureToolArguments(0, 0, arguments)];
    assert ToolCaptures(0, tool) == captures;
    assert [tool][..0] == [] && ToolListCaptures(0, [tool]) == [] + captures == captures;
    assert ChoiceCaptures(delta) == [] + [] + captures + [] == captures;
    assert [delta][..0] == [] && ChoiceListCaptures([delta]) == [] + captures == captures;
    assert [Chunk(None, None, [delta])][..0] == [];
  }

  /** The two do part ways: one call named by a single space, streamed in one piece. */
  lemma BlankNameDivides(env: Env, json: string)
    requires env.parseArguments("{}") == Success((json, None))
    ensures var r := Response(None, None, [Message(None, None, [ToolCallBody(None, Some(" "), Some("{}"))], None)]);
            var chunks :=
                [Chunk(None, None,
                       [ChoiceDelta(0, None, None, None, [ToolDelta(0, None, Some(" "), Some("{}"))], None)])];
            && ParseChatTurn(env, r).Success?
            && FinishSpec(env, Accumulated(CapturesOf(chunks)), LastUsage(chunks), LastId(chunks)).Failure?
  {
    var call := ToolCallBody(None, Some(" "), Some("{}"));
    var m := Message(None, None, [call], None);
    var r := Response(None, None, [m]);
    var chunks :=
        [Chunk(None, None, [ChoiceDelta(0, None, None, None, [ToolDelta(0, None, Some(" "), Some("{}"))], None)])];
    OneCallChunk(" ", "{}");
    OneCallInTwoPieces(" ", "{}");
    assert CallsOf(m) == [call] && HasBlankName(CallsOf(m)[0]);
    assert HasBlankCall(r.choices[0]);
    assert chunks[..0] == [] && LastUsage(chunks) == None && LastId(chunks) == None;
    StreamingRefinesBatch(env, chunks, r, [0], [[0]]);
    OneCallParses(env, call, m, json);
  }

  lemma OneCallParses(env: Env, call: ToolCallBody, m: Message, json: string)
    requires env.parseArguments("{}") == Success((json, None)) && call == ToolCallBody(None, Some(" "), Some("{}"))
    requires m == Message(None, None, [call], None)
    ensures ParseChatTurn(env, Response(None, None, [m])).Success?
  {
    var calls := ParsedCalls(env, CallsOf(m));
    assert CallsOf(m) == [call];
    CollectSnoc([], calls[0]);
    assert [] + [calls[0]] == calls;
    var messages := ParsedMessages(env, [m]);
    CollectSnoc([], messages[0]);
    assert [] + [messages[0]] == messages;
    assert calls[0].Success? && |calls[0].value| == 1;
  }

  // --- Listed and legacy calls together ---------------------------------------------------------------

  /** One chunk with a listed call and a legacy call in one choice. */
  function MixedChunk(first: (string, string), second: (string, string)): Chunk {
    Chunk(None, None, [ChoiceDelta(0, None, None, None, [ToolDelta(0, None, Some(first.0), Some(first.1))],
                                   Some((Some(second.0), Some(second.1))))])
  }

  function MixedCaptures(first: (string, string), second: (string, string)): seq<Capture> {
    [CaptureToolName(0, 0, first.0), CaptureToolArguments(0, 0, first.1),
     CaptureToolName(0, 0, second.0), CaptureToolArguments(0, 0, second.1)]
  }

  function OneCall(name: string, arguments: string): Message {
    Message(None, None, [ToolCallBody(None, Some(name), Some(arguments))], None)
  }

  lemma MixedChunkCaptures(first: (string, string), second: (string, string))
    ensures CapturesOf([MixedChunk(first, second)]) == MixedCaptures(first, second)
  {
    var tool := ToolDelta(0, None, Some(first.0), Some(first.1));
    var delta := MixedChunk(first, second).choices[0];
    var listed := [CaptureToolName(0, 0, first.0), CaptureToolArguments(0, 0, first.1)];
    var legacy := [CaptureToolName(0, 0, second.0), CaptureToolArguments(0, 0, second.1)];
    assert ToolCaptures(0, tool) == listed && FunctionCaptures(0, delta.functionCall) == legacy;
    assert [tool][..0] == [] && ToolListCaptures(0, [tool]) == [] + listed == listed;
    assert ChoiceCaptures(delta) == [] + [] + listed + legacy == MixedCaptures(first, second);
    assert [delta][..0] == [] && ChoiceListCaptures([delta]) == [] + ChoiceCaptures(delta) == ChoiceCaptures(delta);
    assert [MixedChunk(first, second)][..0] == [];
  }

  /** One more piece of the one call there is. */
  lemma OneMorePiece(captures: seq<Capture>, last: Capture)
    requires last.IsTool() && last.choice == 0 && last.tool == 0
    ensures var all := captures + [last];
            && TextOf(all, 0) == TextOf(captures, 0) && RefusalOf(all, 0) == RefusalOf(captures, 0)
            && NameOf(all, 0, 0) == NameOf(captures, 0, 0) + (if last.CaptureToolName? then last.content else "")
            && ArgumentsOf(all, 0, 0) ==
              ArgumentsOf(captures, 0, 0) + (if last.CaptureToolArguments? then last.content else "")
            && (!last.CaptureToolId? ==> IdOf(all, 0, 0) == IdOf(captures, 0, 0))
  {
    assert (captures + [last])[..|captures|] == captures;
    EmptyAround(TextOf(captures, 0));
    EmptyAround(RefusalOf(captures, 0));
  }

  lemma FourPiecesAddUp(first: (string, string), second: (string, string))
    ensures var captures := MixedCaptures(first, second);
            && TextOf(captures, 0) == "" && RefusalOf(captures, 0) == "" && IdOf(captures, 0, 0) == None
            && NameOf(captures, 0, 0) == first.0 + second.0 && ArgumentsOf(captures, 0, 0) == first.1 + second.1
  {
    var two := [CaptureToolName(0, 0, first.0), CaptureToolArguments(0, 0, first.1)];
    var three := two + [CaptureToolName(0, 0, second.0)];
    TwoPiecesAddUp(first.0, first.1);
    OneMorePiece(two, CaptureToolName(0, 0, second.0));
    OneMorePiece(three, CaptureToolArguments(0, 0, second.1));
    EmptyAround(first.1);
    EmptyAround(first.0 + second.0);
    assert three + [CaptureToolArguments(0, 0, second.1)] == MixedCaptures(first, second);
  }

  /** The stream takes the two for one call, under the joined name and with the joined arguments. */
  lemma MixedCallsMerge(first: (string, string), second: (string, string))
    ensures IsCutting(MixedCaptures(first, second), [OneCall(first.0 + second.0, first.1 + second.1)], [0], [[0]])
  {
    var captures, m := MixedCaptures(first, second), OneCall(first.0 + second.0, first.1 + second.1);
    FourPiecesAddUp(first, second);
    assert CallsOf(m) == m.toolCalls;
    assert captures[0].IsTool() && captures[0].choice == 0 && captures[0].tool == 0;
    assert TouchesTool(captures, 0, 0) && CutsCall(captures, 0, 0, CallsOf(m)[0]);
    assert CutsChoice(captures, 0, m, [0]);
  }

  lemma CallGivesOneOutput(env: Env, call: ToolCallBody)
    ensures StrictCall(env, call).Success? ==> |StrictCall(env, call).value| == 1
    ensures ParseCall(env, call).Success? ==> |ParseCall(env, call).value| == 1
  {}

  lemma OneCallGivesOneOutput(env: Env, name: string, arguments: string)
    ensures var outputs := Collect(StrictMessages(env, [OneCall(name, arguments)]));
            outputs.Success? ==> |outputs.value| == 1
  {
    var m := OneCall(name, arguments);
    var call := m.toolCalls[0];
    CallGivesOneOutput(env, call);
    assert CallsOf(m) == [call];
    CollectSnoc([], StrictCall(env, call));
    assert StrictCalls(env, [call]) == [] + [StrictCall(env, call)];
    CollectSnoc([], StrictMessage(env, m));
    assert StrictMessages(env, [m]) == [] + [StrictMessage(env, m)];
  }

  lemma TwoCallsGiveTwoOutputs(env: Env, m: Message, first: ToolCallBody, second: ToolCallBody)
    requires CallsOf(m) == [first, second] && m.content == None && m.refusal == None
    requires ParseCall(env, first).Success? && ParseCall(env, second).Success?
    ensures var outputs := Collect(ParsedMessages(env, [m])); outputs.Success? && |outputs.value| == 2
  {
    CallGivesOneOutput(env, first);
    CallGivesOneOutput(env, second);
    var one, two := ParseCall(env, first), ParseCall(env, second);
    CollectSnoc([], one);
    CollectSnoc([one], two);
    assert [] + [one] == [one] && ParsedCalls(env, CallsOf(m)) == [one] + [two];
    CollectSnoc([], ParseMessage(env, m));
    assert ParsedMessages(env, [m]) == [] + [ParseMessage(env, m)];
  }

  /** What the stream makes of the two calls: one at most. */
  lemma MixedStreamHasOne(env: Env, first: (string, string), second: (string, string))
    ensures var chunks := [MixedChunk(first, second)];
            var streamed := FinishSpec(env, Accumulated(CapturesOf(chunks)), LastUsage(chunks), LastId(chunks));
            streamed.Success? ==> |streamed.value.outputs| == 1
  {
    var chunks := [MixedChunk(first, second)];
    var merged := OneCall(first.0 + second.0, first.1 + second.1);
    var r := Response(None, None, [merged]);
    MixedChunkCaptures(first, second);
    MixedCallsMerge(first, second);
    StreamIsStrictParse(env, MixedCaptures(first, second), r, [0], [[0]]);
    OneCallGivesOneOutput(env, first.0 + second.0, first.1 + second.1);
    assert chunks[..0] == [];
    assert LastUsage(chunks) == None;
    assert LastId(chunks) == None;
  }

  /** What the batch parser makes of them: two. */
  lemma MixedBatchHasTwo(env: Env, listed: ToolCallBody, legacy: ToolCallBody)
    requires legacy.id == None && ParseCall(env, listed).Success? && ParseCall(env, legacy).Success?
    ensures var batch := ParseChatTurn(env, Response(None, None, [Message(None, None, [listed], Some(legacy))]));
            batch.Success? && |batch.value.outputs| == 2
  {
    var m := Message(None, None, [listed], Some(legacy));
    assert CallsOf(m) == [listed, legacy];
    TwoCallsGiveTwoOutputs(env, m, listed, legacy);
  }

  /** Where the stream and the batch parser always part ways: whenever the batch parser accepts a listed
      call and a legacy call of one choice, streamed in one chunk, it reports two calls and the stream at
      most one. */
  lemma LegacyCallDivides(env: Env, first: (string, string), second: (string, string))
    requires env.parseArguments(first.1).Success? && env.parseArguments(second.1).Success?
    ensures var listed := ToolCallBody(None, Some(first.0), Some(first.1));
            var legacy := ToolCallBody(None, Some(second.0), Some(second.1));
            var batch := ParseChatTurn(env, Response(None, None, [Message(None, None, [listed], Some(legacy))]));
            var chunks := [MixedChunk(first, second)];
            var streamed := FinishSpec(env, Accumulated(CapturesOf(chunks)), LastUsage(chunks), LastId(chunks));
            batch.Success? && |batch.value.outputs| == 2 && (streamed.Success? ==> |streamed.value.outputs| == 1)
  {
    MixedStreamHasOne(env, first, second);
    MixedBatchHasTwo(env, ToolCallBody(None, Some(first.0), Some(first.1)),
                     ToolCallBody(None, Some(second.0), Some(second.1)));
  }
}
