/** The chat protocol from bytes to turn: decoder, accumulator and stream put together. */
module ChatEndToEnd {
  import opened Wrappers
  import opened Domain
  import opened Bytes
  import opened Seqs
  import opened Sse
  import opened StreamLife
  import C = ChatStream

  /** What the accumulator holds. */
  datatype ChatState = ChatState(choices: map<nat, C.ChoiceAcc>, usage: Option<Usage>, id: Option<string>)

  const NO_CHAT := ChatState(map[], None, None)

  function TakeIn(acc: ChatState, chunk: C.Chunk): ChatState {
    ChatState(C.CaptureAll(acc.choices, C.ChoiceListCaptures(chunk.choices)),
              if chunk.usage.Some? then chunk.usage else acc.usage,
              if chunk.id.Some? then chunk.id else acc.id)
  }

  // --- Deltas -------------------------------------------------------------------------------------

  function ToolDeltas(internalName: string -> string, t: C.ToolDelta): seq<(DeltaKind, string)> {
    C.Maybe(t.name, name => (ToolNameDelta, internalName(name))) +
    C.Maybe(t.arguments, arguments => (ToolArgumentsDelta, arguments))
  }

  function ToolListDeltas(internalName: string -> string, tools: seq<C.ToolDelta>): seq<(DeltaKind, string)> {
    if tools == [] then []
    else ToolListDeltas(internalName, tools[..|tools| - 1]) + ToolDeltas(internalName, tools[|tools| - 1])
  }

  function ChoiceDeltas(internalName: string -> string, d: C.ChoiceDelta): seq<(DeltaKind, string)> {
    C.Maybe(d.content, s => (TextDelta, s)) +
    C.Maybe(d.reasoning, s => (SummaryDelta, s)) +
    C.Maybe(d.refusal, s => (StatusDelta, s)) +
    ToolListDeltas(internalName, d.toolCalls) +
    match d.functionCall
    case None => []
    case Some((name, arguments)) => ToolDeltas(internalName, C.ToolDelta(0, None, name, arguments))
  }

  function ChunkDeltas(internalName: string -> string, choices: seq<C.ChoiceDelta>): seq<(DeltaKind, string)> {
    if choices == [] then []
    else ChunkDeltas(internalName, choices[..|choices| - 1]) + ChoiceDeltas(internalName, choices[|choices| - 1])
  }

  // --- The protocol -------------------------------------------------------------------------------

  /** A message as a streamed event, if its JSON can be read. */
  type Reader = SseMessage -> Option<C.Chunk>

  function ToStream(r: Result<C.Turn, C.ModelError>): Result<C.Turn, StreamError> {
    match r case Success(turn) => Success(turn) case Failure(_) => Failure(Malformed)
  }

  function HandleChat(env: C.Env, read: Reader, acc: ChatState, m: SseMessage): Reaction<ChatState> {
    match read(m)
    case None => Reaction(acc, [], Some(Failure(Malformed)))
    case Some(chunk) => Reaction(TakeIn(acc, chunk), ChunkDeltas(env.internalName, chunk.choices), None)
  }

  ghost function FinishChat(env: C.Env, acc: ChatState): Result<C.Turn, StreamError> {
    ToStream(C.FinishSpec(env, acc.choices, acc.usage, acc.id))
  }

  ghost function ChatProtocol(env: C.Env, read: Reader, isDone: Bytes -> bool,
                              isBlank: Bytes -> bool): Protocol<ChatState>
  {
    Protocol((acc, m) => HandleChat(env, read, acc, m), acc => FinishChat(env, acc), isDone, isBlank)
  }

  // --- From bytes to turn -------------------------------------------------------------------------

  function Taken(chunks: seq<C.Chunk>): ChatState {
    ChatState(C.Accumulated(C.CapturesOf(chunks)), C.LastUsage(chunks), C.LastId(chunks))
  }

  lemma TakenSnoc(chunks: seq<C.Chunk>, chunk: C.Chunk)
    ensures Taken(chunks + [chunk]) == TakeIn(Taken(chunks), chunk)
  {
    C.ChunksAreCaptured(chunks, chunk);
  }

  /** The items carry these chunks in order, among blank messages. If `marked`, the end marker follows;
      otherwise the body simply ends. */
  ghost predicate Carries(read: Reader, isDone: Bytes -> bool, isBlank: Bytes -> bool, items: seq<Item>,
                          chunks: seq<C.Chunk>, marked: bool)
    decreases |items|
  {
    if items == [] then chunks == [] && !marked
    else if items[0].Failure? then false
    else if isDone(items[0].value.data) then chunks == [] && marked
    else if isBlank(items[0].value.data) then Carries(read, isDone, isBlank, items[1..], chunks, marked)
    else
      && chunks != [] && read(items[0].value) == Some(chunks[0])
      && Carries(read, isDone, isBlank, items[1..], chunks[1..], marked)
  }

  /** The last item of a stream whose accumulator ends up as `acc`. */
  function LastItem<A>(p: Protocol<A>, acc: A, marked: bool): Out {
    if marked then EndOut(p.finish(acc)) else FinalOut(p, acc)
  }

  ghost predicate EndsIn(outs: seq<Out>, last: Out) {
    outs != [] && outs[|outs| - 1] == last
  }

  lemma LaterEnd(first: seq<Out>, rest: seq<Out>, last: Out)
    requires EndsIn(rest, last)
    ensures EndsIn(first + rest, last)
  {}

  /** One item that does not end the stream. */
  lemma EndComesLater<A>(p: Protocol<A>, acc: A, start: nat, items: seq<Item>, r: Reaction<A>, last: Out)
    requires items != [] && r == ReactTo(p, acc, items[0]) && r.end.None?
    requires EndsIn(OutputsOf(p, r.acc, SequenceAfter(r, start), items[1..]), last)
    ensures EndsIn(OutputsOf(p, acc, start, items), last)
  {
    LaterEnd(OutsOf(r, start), OutputsOf(p, r.acc, SequenceAfter(r, start), items[1..]), last);
  }

  /** The item that does. */
  lemma EndIsHere<A>(p: Protocol<A>, acc: A, start: nat, items: seq<Item>, r: Reaction<A>)
    requires items != [] && r == ReactTo(p, acc, items[0]) && r.end.Some?
    ensures EndsIn(OutputsOf(p, acc, start, items), EndOut(r.end.value))
  {
    EndIsLast(r, start);
  }

  lemma TakenNext(before: seq<C.Chunk>, chunks: seq<C.Chunk>)
    requires chunks != []
    ensures (before + [chunks[0]]) + chunks[1..] == before + chunks
    ensures Taken(before + [chunks[0]]) == TakeIn(Taken(before), chunks[0])
  {
    TakenSnoc(before, chunks[0]);
  }

  /** The last item concludes exactly what the carried chunks amount to. */
  lemma {:induction false} LastOutput(env: C.Env, read: Reader, isDone: Bytes -> bool, isBlank: Bytes -> bool,
                                      p: Protocol<ChatState>,
                                      items: seq<Item>, before: seq<C.Chunk>, chunks: seq<C.Chunk>, marked: bool,
                                      start: nat)
    requires p == ChatProtocol(env, read, isDone, isBlank) && Carries(read, isDone, isBlank, items, chunks, marked)
    ensures EndsIn(OutputsOf(p, Taken(before), start, items), LastItem(p, Taken(before + chunks), marked))
    decreases |items|
  {
    if items == [] {
      AppendEmpty(before);
    } else {
      var r := ReactTo(p, Taken(before), items[0]);
      if r.end.Some? {
        AppendEmpty(before);
        EndIsHere(p, Taken(before), start, items, r);
      } else if isBlank(items[0].value.data) {
        LastOutput(env, read, isDone, isBlank, p, items[1..], before, chunks, marked, SequenceAfter(r, start));
        EndComesLater(p, Taken(before), start, items, r, LastItem(p, Taken(before + chunks), marked));
      } else {
        TakenNext(before, chunks);
        LastOutput(env, read, isDone, isBlank, p, items[1..], before + [chunks[0]], chunks[1..], marked,
                   SequenceAfter(r, start));
        EndComesLater(p, Taken(before), start, items, r, LastItem(p, Taken(before + chunks), marked));
      }
    }
  }

  /** What a stream ends with when its turn comes out as `turn`. */
  function Verdict(turn: Result<C.Turn, C.ModelError>, marked: bool): Out {
    match turn
    case Success(t) => Success(CompletedEvent(t))
    case Failure(_) => Failure(if marked then Malformed else PrematureEnd)
  }

  lemma LastItemIsVerdict(env: C.Env, read: Reader, isDone: Bytes -> bool, isBlank: Bytes -> bool,
                          p: Protocol<ChatState>,
                          chunks: seq<C.Chunk>, marked: bool)
    requires p == ChatProtocol(env, read, isDone, isBlank)
    ensures LastItem(p, Taken(chunks), marked) ==
            Verdict(C.FinishSpec(env, C.Accumulated(C.CapturesOf(chunks)), C.LastUsage(chunks), C.LastId(chunks)),
                    marked)
  {}

  lemma NothingTaken()
    ensures Taken([]) == NO_CHAT
  {}

  /** However the body is cut into network chunks and the response into streamed fragments, with or
      without the end marker, the stream ends with exactly what the batch parser makes of the whole
      response; only blank call names, which the stream alone refuses, make it fail instead. */
  lemma StreamedResponseIsParsedResponse(env: C.Env, read: Reader, isDone: Bytes -> bool, isBlank: Bytes -> bool,
                                         utf8: Bytes -> bool,
                                         network: seq<Bytes>, chunks: seq<C.Chunk>, marked: bool,
                                         response: C.Response, indices: seq<nat>, tools: seq<seq<nat>>)
    requires FitsFrom([], network)
             && Carries(read, isDone, isBlank, Decode(utf8, NO_FIELDS, Concat(network)), chunks, marked)
    requires C.IsCutting(C.CapturesOf(chunks), response.choices, indices, tools)
    requires C.LastUsage(chunks) == response.usage && C.LastId(chunks) == response.id
    ensures var outs := Pending(ChatProtocol(env, read, isDone, isBlank), utf8, NO_CHAT, 0, NO_FIELDS, [],
                                AsBody(network), false);
            && WellShaped(outs, 0)
            && outs[|outs| - 1] ==
               Verdict(if C.HasBlankCallIn(response.choices) then Failure(C.InvalidResponse)
                       else C.ParseChatTurn(env, response), marked)
  {
    var p := ChatProtocol(env, read, isDone, isBlank);
    BytesToOutputs(p, utf8, network);
    NothingTaken();
    LastOutput(env, read, isDone, isBlank, p, Decode(utf8, NO_FIELDS, Concat(network)), [], chunks, marked, 0);
    AppendEmpty(chunks);
    LastItemIsVerdict(env, read, isDone, isBlank, p, chunks, marked);
    C.StreamingRefinesBatch(env, chunks, response, indices, tools);
  }

  lemma BytesToOutputs(p: Protocol<ChatState>, utf8: Bytes -> bool, network: seq<Bytes>)
    requires FitsFrom([], network)
    ensures var outs := Pending(p, utf8, NO_CHAT, 0, NO_FIELDS, [], AsBody(network), false);
            WellShaped(outs, 0) && outs == OutputsOf(p, NO_CHAT, 0, Decode(utf8, NO_FIELDS, Concat(network)))
  {
    PendingIsWellShaped(p, utf8, NO_CHAT, 0, NO_FIELDS, [], AsBody(network), false);
    PendingIsOutputs(p, utf8, NO_CHAT, 0, NO_FIELDS, [], network);
    assert [] + Concat(network) == Concat(network);
  }
}
